/** The payer front-end's handling of a typed payment code: the input filter
    `formatCode`, applied to every keystroke, and the length gate that
    `queryPaymentCode` applies before it asks the server about the code. */
module CodeInput {
  import opened Decimal

  const CodeLength := 8
  const LengthError := "El código debe tener 8 dígitos"

  /** `value.replace(/\D/g, '')`: the digits of the input, in order. */
  function KeepDigits(s: string): (d: string)
    ensures AllDigits(d) && |d| <= |s|
  {
    if s == [] then [] else (if IsDigit(s[0]) then [s[0]] else []) + KeepDigits(s[1..])
  }

  /** `formatCode`: strip every non-digit, then `slice(0, 8)`. */
  function FormatCode(value: string): (code: string)
    ensures AllDigits(code) && |code| <= CodeLength
    ensures code <= KeepDigits(value)
    ensures |code| == if |KeepDigits(value)| < CodeLength then |KeepDigits(value)| else CodeLength
  {
    var digits := KeepDigits(value);
    if |digits| <= CodeLength then digits else digits[..CodeLength]
  }

  /** What `queryPaymentCode` does with the current code: show the length
      error and stop, or go on to ask the server about this code. */
  datatype QueryAction = ShowError(message: string) | FetchQuery(code: string)

  function QueryPaymentCode(paymentCode: string): (a: QueryAction)
    ensures a.ShowError? <==> |paymentCode| != CodeLength
    ensures a.ShowError? ==> a.message == LengthError
    ensures a.FetchQuery? ==> a.code == paymentCode
  {
    if |paymentCode| != CodeLength then ShowError(LengthError) else FetchQuery(paymentCode)
  }

  /** Filtering distributes over concatenation. */
  lemma {:induction false} KeepDigitsAppend(a: string, b: string)
    ensures KeepDigits(a + b) == KeepDigits(a) + KeepDigits(b)
  {
    if a == [] {
      assert a + b == b;
    } else {
      assert (a + b)[1..] == a[1..] + b;
      KeepDigitsAppend(a[1..], b);
    }
  }

  /** A string of digits passes the filter unchanged. */
  lemma {:induction false} KeepDigitsOfDigits(s: string)
    requires AllDigits(s)
    ensures KeepDigits(s) == s
  {
    if s != [] {
      KeepDigitsOfDigits(s[1..]);
    }
  }

  /** The digit at position i of the input lands in the output at the position
      given by the number of digits before it: the digits keep their order. */
  lemma KeepDigitsPosition(s: string, i: nat)
    requires i < |s| && IsDigit(s[i])
    ensures |KeepDigits(s[..i])| < |KeepDigits(s)|
    ensures KeepDigits(s)[|KeepDigits(s[..i])|] == s[i]
  {
    var rest := s[i + 1..];
    assert s == s[..i] + ([s[i]] + rest);
    KeepDigitsAppend(s[..i], [s[i]] + rest);
    KeepDigitsAppend([s[i]], rest);
    assert KeepDigits([s[i]]) == [s[i]] by {
      assert [s[i]][1..] == [];
    }
  }

  /** The output of `formatCode` is the first min(8, n) digits of the input:
      each of the first eight digits appears at its rank among the digits. */
  lemma FormatCodeLeadingDigits(value: string, i: nat)
    requires i < |value| && IsDigit(value[i])
    requires |KeepDigits(value[..i])| < CodeLength
    ensures |KeepDigits(value[..i])| < |FormatCode(value)|
    ensures FormatCode(value)[|KeepDigits(value[..i])|] == value[i]
  {
    KeepDigitsPosition(value, i);
  }

  /** A code of at most eight digits is left as it is. */
  lemma FormatCodeKeepsShortCodes(code: string)
    requires AllDigits(code) && |code| <= CodeLength
    ensures FormatCode(code) == code
  {
    KeepDigitsOfDigits(code);
  }

  /** Formatting an already formatted code changes nothing. */
  lemma FormatCodeIdempotent(value: string)
    ensures FormatCode(FormatCode(value)) == FormatCode(value)
  {
    FormatCodeKeepsShortCodes(FormatCode(value));
  }

  /** A formatted code passes the gate exactly when the input held at least
      eight digits, and what passes is eight decimal digits: the first eight
      digits of the input. */
  lemma FormattedCodePassesGate(value: string)
    ensures QueryPaymentCode(FormatCode(value)).FetchQuery? <==> |KeepDigits(value)| >= CodeLength
    ensures QueryPaymentCode(FormatCode(value)).FetchQuery? ==>
      var code := QueryPaymentCode(FormatCode(value)).code;
      |code| == CodeLength && AllDigits(code) && code == KeepDigits(value)[..CodeLength]
  {
  }

  /** Non-digit characters typed before or after an eight-digit code (spaces,
      a label) are filtered away: the query is the one for the bare code. */
  lemma SeparatorsAreIgnored(code: string, before: string, after: string)
    requires AllDigits(code) && |code| == CodeLength
    requires forall i :: 0 <= i < |before| ==> !IsDigit(before[i])
    requires forall i :: 0 <= i < |after| ==> !IsDigit(after[i])
    ensures QueryPaymentCode(FormatCode(before + code + after)) == FetchQuery(code)
  {
    var digits := KeepDigits(before + code + after);
    assert digits == code by {
      KeepDigitsAppend(before + code, after);
      KeepDigitsAppend(before, code);
      KeepDigitsOfDigits(code);
      NoDigitsFilteredAway(before);
      NoDigitsFilteredAway(after);
      assert [] + code + [] == code;
    }
    assert FormatCode(before + code + after) == code;
  }

  /** An input without digits filters to the empty code. */
  lemma {:induction false} NoDigitsFilteredAway(s: string)
    requires forall i :: 0 <= i < |s| ==> !IsDigit(s[i])
    ensures KeepDigits(s) == []
  {
    if s != [] {
      NoDigitsFilteredAway(s[1..]);
    }
  }
}
