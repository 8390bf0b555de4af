/** The payment server's handlers as functions from the stores before a
    request to the stores after it and the answer, with the per-order state
    machine and the order/payment cross-references they preserve. */
module Engine {
  import opened Outcomes
  import opened Orders

  /** The module-level `orders` and `payments` maps; `orderIds` lists the
      keys of `orders` in insertion order, the order `orders.values()` visits. */
  datatype Store = Store(orderIds: seq<Id>, orders: map<Id, Order>, payments: map<Id, Payment>)

  /** The stores after a handler ran, and its answer. */
  datatype Step<T> = Step(after: Store, response: Result<T, Error>)

  const Empty := Store([], map[], map[])

  /** Shape kept by every handler whatever ids the caller supplies: the
      insertion order lists each key of `orders` once, and each record is
      stored under its own id. */
  ghost predicate WellFormed(st: Store) {
    && (forall i, j :: 0 <= i < j < |st.orderIds| ==> st.orderIds[i] != st.orderIds[j])
    && (forall id :: id in st.orders <==> id in st.orderIds)
    && (forall id | id in st.orders :: st.orders[id].orderId == id)
    && (forall pid | pid in st.payments :: st.payments[pid].paymentId == pid)
  }

  /** An order's side of the cross-references: a positive amount, a payment id
      exactly when completed, and that payment points back with the same amount. */
  ghost predicate OrderLinked(st: Store, id: Id)
    requires id in st.orders
  {
    var o := st.orders[id];
    && o.amount > 0
    && (o.status == Completed <==> o.paymentId.Some?)
    && (o.status == Completed ==>
          && o.paymentId.value in st.payments
          && st.payments[o.paymentId.value].orderId == id
          && st.payments[o.paymentId.value].amount == o.amount)
  }

  /** A payment's side: it is completed and its order is completed with this payment. */
  ghost predicate PaymentLinked(st: Store, pid: Id)
    requires pid in st.payments
  {
    var p := st.payments[pid];
    && p.status == Completed
    && p.orderId in st.orders
    && st.orders[p.orderId].status == Completed
    && st.orders[p.orderId].paymentId == Some(pid)
  }

  ghost predicate Consistent(st: Store) {
    && WellFormed(st)
    && (forall id | id in st.orders :: OrderLinked(st, id))
    && (forall pid | pid in st.payments :: PaymentLinked(st, pid))
  }

  // ---------------------------------------------------------------------
  // POST /api/orders/create

  predicate ValidCreate(req: CreateRequest) {
    Truthy(req.merchantId) && req.amount.Some? && req.amount.value > 0
  }

  /** The order a successful create stores. */
  ghost predicate IsNewOrder(o: Order, req: CreateRequest, orderId: Id, draw: CodeDraw, now: int)
    requires ValidCreate(req)
  {
    && o.orderId == orderId
    && o.paymentCode == GeneratePaymentCode(draw)
    && IsPaymentCode(o.paymentCode)
    && o.merchantId == req.merchantId.value
    && o.merchantName == OrDefault(req.merchantName, DefaultMerchantName)
    && o.amount == req.amount.value
    && o.description == OrDefault(req.description, DefaultDescription)
    && o.status == Pending
    && o.createdAt == now
    && o.expiresAt == o.createdAt + ExpiryWindowMs
    && o.paymentId == None
  }

  function CreateOrder(st: Store, req: CreateRequest, orderId: Id, draw: CodeDraw, now: int): (s: Step<Created>)
    ensures s.response.Err? <==> !ValidCreate(req)
    ensures s.response.Err? ==> s.response.error == InvalidData && s.after == st
    ensures s.response.Ok? ==>
      && s.after.orders.Keys == st.orders.Keys + {orderId}
      && (forall id | id in st.orders && id != orderId :: s.after.orders[id] == st.orders[id])
      && IsNewOrder(s.after.orders[orderId], req, orderId, draw, now)
      && s.after.orderIds == (if orderId in st.orders then st.orderIds else st.orderIds + [orderId])
      && s.after.payments == st.payments
      && s.response.value == Created(orderId, s.after.orders[orderId].paymentCode, req.amount.value, now + ExpiryWindowMs)
    ensures WellFormed(st) ==> WellFormed(s.after)
  {
    if !ValidCreate(req) then Step(st, Err(InvalidData))
    else
      var code := GeneratePaymentCode(draw);
      var order := Order(orderId, code, req.merchantId.value,
                         OrDefault(req.merchantName, DefaultMerchantName), req.amount.value,
                         OrDefault(req.description, DefaultDescription), Pending,
                         now, now + ExpiryWindowMs, None);
      var ids := if orderId in st.orders then st.orderIds else st.orderIds + [orderId];
      Step(Store(ids, st.orders[orderId := order], st.payments),
           Ok(Created(orderId, code, order.amount, order.expiresAt)))
  }

  // ---------------------------------------------------------------------
  // GET /api/orders/:orderId/status

  function View(o: Order): StatusView {
    StatusView(o.orderId, o.status, o.amount, o.paymentId, o.createdAt, o.expiresAt)
  }

  /** The stores with lazy expiry applied to one order. */
  function Refresh(st: Store, id: Id, now: int): (st': Store)
    requires id in st.orders
    ensures st'.orderIds == st.orderIds && st'.payments == st.payments
    ensures st'.orders.Keys == st.orders.Keys
    ensures forall other | other in st.orders && other != id :: st'.orders[other] == st.orders[other]
    ensures st'.orders[id] == Expire(st.orders[id], now)
  {
    st.(orders := st.orders[id := Expire(st.orders[id], now)])
  }

  function OrderStatus(st: Store, orderId: Id, now: int): (s: Step<StatusView>)
    ensures s.response.Err? <==> orderId !in st.orders
    ensures s.response.Err? ==> s.response.error == OrderNotFound && s.after == st
    ensures s.response.Ok? ==>
      && s.after == Refresh(st, orderId, now)
      && s.response.value == View(s.after.orders[orderId])
    ensures WellFormed(st) ==> WellFormed(s.after)
  {
    if orderId !in st.orders then Step(st, Err(OrderNotFound))
    else
      var st' := Refresh(st, orderId, now);
      Step(st', Ok(View(st'.orders[orderId])))
  }

  // ---------------------------------------------------------------------
  // GET /api/payments/query/:paymentCode

  function SummaryOf(o: Order): Summary {
    Summary(o.orderId, o.merchantName, o.amount, o.description, o.expiresAt)
  }

  function QueryByCode(st: Store, code: string, now: int): (s: Step<Summary>)
    ensures s.response == Err(CodeNotFound) <==>
      forall j :: 0 <= j < |st.orderIds| ==> !HasCode(st.orders, st.orderIds[j], code)
    ensures s.response == Err(CodeNotFound) ==> s.after == st
    ensures FirstMatch(st.orderIds, st.orders, code).Some? ==>
      var id := st.orderIds[FirstMatch(st.orderIds, st.orders, code).value];
      var o := st.orders[id];
      && s.after == Refresh(st, id, now)
      && (s.response.Ok? <==> o.status == Pending && now <= o.expiresAt)
      && (s.response.Ok? ==> s.response.value == SummaryOf(o))
      && (s.response == Err(OrderIsExpired) <==> Expire(o, now).status == Expired)
      && (s.response == Err(OrderAlreadyProcessed) <==> o.status == Completed)
    ensures WellFormed(st) ==> WellFormed(s.after)
  {
    match FirstMatch(st.orderIds, st.orders, code)
    case None => Step(st, Err(CodeNotFound))
    case Some(k) =>
      var id := st.orderIds[k];
      var st' := Refresh(st, id, now);
      var o := st'.orders[id];
      if o.status != Pending then
        Step(st', Err(if o.status == Expired then OrderIsExpired else OrderAlreadyProcessed))
      else
        Step(st', Ok(SummaryOf(o)))
  }

  // ---------------------------------------------------------------------
  // POST /api/payments/process

  predicate CompleteRequest(req: ProcessRequest) {
    Truthy(req.paymentCode) && Truthy(req.userId) && Truthy(req.paymentMethod)
  }

  /** The stores after a successful settlement of order `id` with payment `pid`. */
  ghost predicate Settled(st: Store, st': Store, id: Id, pid: Id, req: ProcessRequest, now: int)
    requires id in st.orders && CompleteRequest(req)
  {
    var o := st.orders[id];
    && st'.orderIds == st.orderIds
    && st'.orders == st.orders[id := o.(status := Completed, paymentId := Some(pid))]
    && st'.payments == st.payments[pid := Payment(pid, o.orderId, req.userId.value,
                                                  OrDefault(req.userName, DefaultUserName), o.amount,
                                                  req.paymentMethod.value, Completed, now)]
  }

  function ProcessPayment(st: Store, req: ProcessRequest, paymentId: Id, now: int): (s: Step<Receipt>)
    ensures !CompleteRequest(req) ==> s == Step(st, Err(IncompleteData))
    ensures CompleteRequest(req) && FirstMatch(st.orderIds, st.orders, req.paymentCode.value).None? ==>
      s == Step(st, Err(CodeNotFound))
    ensures CompleteRequest(req) && FirstMatch(st.orderIds, st.orders, req.paymentCode.value).Some? ==>
      var id := st.orderIds[FirstMatch(st.orderIds, st.orders, req.paymentCode.value).value];
      var o := st.orders[id];
      && (o.status != Pending ==> s == Step(st, Err(OrderNotPending)))
      && (o.status == Pending && now > o.expiresAt ==>
            s == Step(Refresh(st, id, now), Err(CodeExpired)))
      && (o.status == Pending && now <= o.expiresAt ==>
            && Settled(st, s.after, id, paymentId, req, now)
            && s.response == Ok(Receipt(paymentId, o.orderId, o.amount, Completed, now)))
    ensures s.response.Err? ==> s.after.payments == st.payments
    ensures WellFormed(st) ==> WellFormed(s.after)
  {
    if !CompleteRequest(req) then Step(st, Err(IncompleteData))
    else
      match FirstMatch(st.orderIds, st.orders, req.paymentCode.value)
      case None => Step(st, Err(CodeNotFound))
      case Some(k) =>
        var id := st.orderIds[k];
        var o := st.orders[id];
        if o.status != Pending then Step(st, Err(OrderNotPending))
        else if now > o.expiresAt then
          Step(st.(orders := st.orders[id := o.(status := Expired)]), Err(CodeExpired))
        else
          var payment := Payment(paymentId, o.orderId, req.userId.value,
                                 OrDefault(req.userName, DefaultUserName), o.amount,
                                 req.paymentMethod.value, Completed, now);
          var order := o.(status := Completed, paymentId := Some(paymentId));
          Step(Store(st.orderIds, st.orders[id := order], st.payments[paymentId := payment]),
               Ok(Receipt(paymentId, o.orderId, o.amount, Completed, now)))
  }

  // ---------------------------------------------------------------------
  // GET /api/payments/:paymentId

  function GetPayment(st: Store, paymentId: Id): (r: Result<Payment, Error>)
    ensures r.Ok? <==> paymentId in st.payments
    ensures r.Ok? ==> r.value == st.payments[paymentId]
    ensures r.Err? ==> r.error == PaymentNotFound
  {
    if paymentId in st.payments then Ok(st.payments[paymentId]) else Err(PaymentNotFound)
  }
}
