/** The code a merchant reads out, as the payer app receives it: a code the
    server generates survives the payer's input filter unchanged and passes
    its length gate, so the query reaches the server with the same code. */
module Handoff {
  import opened Orders
  import opened CodeInput

  lemma GeneratedCodeSurvivesPayerInput(draw: CodeDraw)
    ensures var code := GeneratePaymentCode(draw);
      FormatCode(code) == code && QueryPaymentCode(FormatCode(code)) == FetchQuery(code)
  {
    FormatCodeKeepsShortCodes(GeneratePaymentCode(draw));
  }
}
