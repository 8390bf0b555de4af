/** The records the payment server keeps, the request and response shapes of
    its handlers, and the small pure pieces the handlers share: code
    generation, lazy expiry and the first-match scan over the orders. */
module Orders {
  import opened Outcomes
  import opened Decimal

  /** Identifiers are the hex strings `generateId` draws; the model takes them as given. */
  type Id = string

  /** Amounts are integers (for instance cents); times are milliseconds since the epoch. */
  const ExpiryWindowMs := 15 * 60 * 1000
  const CodeBase := 10000000
  const CodeSpan := 90000000

  const DefaultMerchantName := "Comercio"
  const DefaultDescription := "Pago"
  const DefaultUserName := "Usuario"

  /** The integer part `Math.floor(Math.random() * 90000000)` of a code draw. */
  type CodeDraw = d: int | 0 <= d < CodeSpan

  datatype Status = Pending | Completed | Expired

  datatype Order = Order(
    orderId: Id,
    paymentCode: string,
    merchantId: string,
    merchantName: string,
    amount: int,
    description: string,
    status: Status,
    createdAt: int,
    expiresAt: int,
    paymentId: Option<Id>)

  datatype Payment = Payment(
    paymentId: Id,
    orderId: Id,
    userId: string,
    userName: string,
    amount: int,
    paymentMethod: string,
    status: Status,
    processedAt: int)

  /** A JSON request field: absent (`undefined`/`null`) or a string. */
  predicate Truthy(field: Option<string>) {
    field.Some? && field.value != ""
  }

  /** `field || fallback` */
  function OrDefault(field: Option<string>, fallback: string): (s: string)
    ensures Truthy(field) ==> s == field.value
    ensures !Truthy(field) ==> s == fallback
  {
    if Truthy(field) then field.value else fallback
  }

  datatype CreateRequest = CreateRequest(
    merchantId: Option<string>,
    amount: Option<int>,
    description: Option<string>,
    merchantName: Option<string>)

  datatype ProcessRequest = ProcessRequest(
    paymentCode: Option<string>,
    userId: Option<string>,
    userName: Option<string>,
    paymentMethod: Option<string>)

  datatype Created = Created(orderId: Id, paymentCode: string, amount: int, expiresAt: int)

  datatype StatusView = StatusView(
    orderId: Id, status: Status, amount: int, paymentId: Option<Id>, createdAt: int, expiresAt: int)

  datatype Summary = Summary(
    orderId: Id, merchantName: string, amount: int, description: string, expiresAt: int)

  datatype Receipt = Receipt(paymentId: Id, orderId: Id, amount: int, status: Status, processedAt: int)

  /** The error answers of the handlers, one per distinct message. */
  datatype Error =
    | InvalidData            // create: missing merchant or bad amount
    | OrderNotFound          // status: unknown order id
    | CodeNotFound           // query, process: no order holds the code
    | OrderIsExpired         // query: the order is expired
    | OrderAlreadyProcessed  // query: the order is completed
    | IncompleteData         // process: missing code, user or method
    | OrderNotPending        // process: the order is not pending
    | CodeExpired            // process: the order expired just now
    | PaymentNotFound        // payment lookup: unknown payment id

  function Message(e: Error): (m: string)
    ensures m != ""
  {
    match e
    case InvalidData => "Datos inválidos"
    case OrderNotFound => "Orden no encontrada"
    case CodeNotFound => "Código de pago no encontrado"
    case OrderIsExpired => "La orden está expirada"
    case OrderAlreadyProcessed => "La orden está ya procesada"
    case IncompleteData => "Datos incompletos"
    case OrderNotPending => "La orden ya fue procesada o expiró"
    case CodeExpired => "El código de pago ha expirado"
    case PaymentNotFound => "Pago no encontrado"
  }

  function HttpStatus(e: Error): (status: int)
    ensures status == 404 <==> e in {OrderNotFound, CodeNotFound, PaymentNotFound}
    ensures status != 404 ==> status == 400
  {
    match e
    case OrderNotFound | CodeNotFound | PaymentNotFound => 404
    case _ => 400
  }

  /** Each error answer carries its own message; in particular a query tells
      an expired order ("expirada") from a completed one ("ya procesada"). */
  lemma MessagesAreDistinct(e1: Error, e2: Error)
    requires e1 != e2
    ensures Message(e1) != Message(e2)
  {
  }

  /** What `generatePaymentCode` produces: eight decimal digits, the first not zero. */
  predicate IsPaymentCode(code: string) {
    |code| == 8 && AllDigits(code) && code[0] != '0'
  }

  /** `generatePaymentCode`: the decimal string of 10000000 plus the draw. */
  function GeneratePaymentCode(draw: CodeDraw): (code: string)
    ensures IsPaymentCode(code)
    ensures ValueOf(code) == CodeBase + draw
  {
    var n := CodeBase + draw;
    assert Pow10(7) == CodeBase && Pow10(8) == CodeBase * 10;
    ToDecimalLength(n, 7);
    ToDecimalLeadingDigit(n);
    ValueOfToDecimal(n);
    ToDecimal(n)
  }

  /** Lazy expiry, as the status, query and process handlers apply it:
      a pending order whose expiry instant has strictly passed becomes
      expired; nothing else changes. */
  function Expire(o: Order, now: int): (r: Order)
    ensures r.status == Expired <==> o.status == Expired || (o.status == Pending && now > o.expiresAt)
    ensures r.status == Pending <==> o.status == Pending && now <= o.expiresAt
    ensures r.status == Completed <==> o.status == Completed
    ensures r == o.(status := r.status)
  {
    if o.status == Pending && now > o.expiresAt then o.(status := Expired) else o
  }

  /** Expiry is stable: once evaluated at some instant, evaluating it again
      at the same or a later instant agrees with evaluating it once, later. */
  lemma ExpireLater(o: Order, t1: int, t2: int)
    requires t1 <= t2
    ensures Expire(Expire(o, t1), t2) == Expire(o, t2)
  {
  }

  predicate HasCode(orders: map<Id, Order>, id: Id, code: string) {
    id in orders && orders[id].paymentCode == code
  }

  /** The `for (const order of orders.values())` scan from position `from`:
      the position of the first order in insertion order holding the code. */
  function FirstMatchFrom(ids: seq<Id>, orders: map<Id, Order>, code: string, from: nat): (r: Option<nat>)
    requires from <= |ids|
    ensures r.None? ==> forall j :: from <= j < |ids| ==> !HasCode(orders, ids[j], code)
    ensures r.Some? ==> from <= r.value < |ids| && HasCode(orders, ids[r.value], code)
    ensures r.Some? ==> forall j :: from <= j < r.value ==> !HasCode(orders, ids[j], code)
    decreases |ids| - from
  {
    if from == |ids| then None
    else if HasCode(orders, ids[from], code) then Some(from)
    else FirstMatchFrom(ids, orders, code, from + 1)
  }

  function FirstMatch(ids: seq<Id>, orders: map<Id, Order>, code: string): (r: Option<nat>)
    ensures r.None? ==> forall j :: 0 <= j < |ids| ==> !HasCode(orders, ids[j], code)
    ensures r.Some? ==> r.value < |ids| && HasCode(orders, ids[r.value], code)
    ensures r.Some? ==> forall j :: 0 <= j < r.value ==> !HasCode(orders, ids[j], code)
  {
    FirstMatchFrom(ids, orders, code, 0)
  }

  /** The scan sees only which orders exist and which code each holds: two
      order maps that agree on that give the same match. */
  lemma FirstMatchSameCodes(ids: seq<Id>, o1: map<Id, Order>, o2: map<Id, Order>, code: string)
    requires forall id :: id in o1 <==> id in o2
    requires forall id | id in o1 :: o1[id].paymentCode == o2[id].paymentCode
    ensures FirstMatch(ids, o1, code) == FirstMatch(ids, o2, code)
  {
  }
}
