/** What the handlers guarantee together: the per-order state machine
    (pending to expired only after the expiry instant, pending to completed
    only through a payment, nothing leaves expired or completed), exactly-once
    settlement, and the order/payment cross-references, over single requests
    and over any sequence of requests. */
module Lifecycle {
  import opened Outcomes
  import opened Orders
  import opened Engine

  /** The moves one request may make on one stored order at instant `now`. */
  ghost predicate OrderEvolves(o: Order, o': Order, now: int) {
    || o' == o
    || (o.status == Pending && now > o.expiresAt && o' == o.(status := Expired))
    || (o.status == Pending && now <= o.expiresAt && o'.paymentId.Some?
        && o' == o.(status := Completed, paymentId := o'.paymentId))
  }

  /** One request at `now`: orders are only appended, every stored order makes
      a legal move, and stored payments stay as they are. */
  ghost predicate StoreEvolves(st: Store, st': Store, now: int) {
    && st.orderIds <= st'.orderIds
    && (forall id | id in st.orders :: id in st'.orders && OrderEvolves(st.orders[id], st'.orders[id], now))
    && (forall pid | pid in st.payments :: pid in st'.payments && st'.payments[pid] == st.payments[pid])
  }

  /** A request that only applies lazy expiry: the same orders in the same
      insertion order, the same payments, and each stored order either
      unchanged or moved from pending to expired with `now > expiresAt`. */
  ghost predicate ExpiryOnly(st: Store, st': Store, now: int) {
    && st'.orderIds == st.orderIds
    && st'.payments == st.payments
    && st'.orders.Keys == st.orders.Keys
    && (forall id | id in st.orders ::
          || st'.orders[id] == st.orders[id]
          || (st.orders[id].status == Pending && now > st.orders[id].expiresAt
              && st'.orders[id] == st.orders[id].(status := Expired)))
  }

  /** Every order stays stored, in its place in the insertion order, with its code. */
  ghost predicate KeepsCodes(st: Store, st': Store) {
    && st.orderIds <= st'.orderIds
    && (forall id | id in st.orders ::
          id in st'.orders && st'.orders[id].paymentCode == st.orders[id].paymentCode)
  }

  /** The time-free part of StoreEvolves, which composes along a run: every
      order stays stored with its code, and expired or completed ones stay as they are. */
  ghost predicate Monotone(st: Store, st': Store) {
    && KeepsCodes(st, st')
    && (forall id | id in st.orders ::
          st.orders[id].status != Pending ==> st'.orders[id] == st.orders[id])
    && (forall pid | pid in st.payments :: pid in st'.payments && st'.payments[pid] == st.payments[pid])
  }

  /** Nothing leaves expired or completed in one request: a sanity check on
      OrderEvolves; RunIsMonotone carries this over any run. */
  lemma TerminalOrdersStay(o: Order, o': Order, now: int)
    requires OrderEvolves(o, o', now) && o.status != Pending
    ensures o' == o
  {
  }

  // ---------------------------------------------------------------------
  // Each handler makes only legal moves.

  /** A create appends at most its own order id and leaves every stored
      order and payment as it was, provided the drawn order id is new (an
      assumption: `generateId` draws 128 random bits and the handler does not check). */
  lemma CreateEvolves(st: Store, req: CreateRequest, orderId: Id, draw: CodeDraw, now: int)
    requires orderId !in st.orders
    ensures var st' := CreateOrder(st, req, orderId, draw, now).after;
      && (st'.orderIds == st.orderIds || st'.orderIds == st.orderIds + [orderId])
      && (forall id | id in st.orders :: id in st'.orders && st'.orders[id] == st.orders[id])
      && st'.payments == st.payments
  {
  }

  /** A status request only applies lazy expiry: it never completes an order. */
  lemma StatusEvolves(st: Store, orderId: Id, now: int)
    ensures ExpiryOnly(st, OrderStatus(st, orderId, now).after, now)
  {
  }

  /** A code query only applies lazy expiry: it never completes an order. */
  lemma QueryEvolves(st: Store, code: string, now: int)
    ensures ExpiryOnly(st, QueryByCode(st, code, now).after, now)
  {
  }

  /** A settlement adds one payment and completes one pending, unexpired order,
      provided the drawn payment id is new (the same assumption as for orders). */
  lemma ProcessEvolves(st: Store, req: ProcessRequest, paymentId: Id, now: int)
    requires paymentId !in st.payments
    ensures StoreEvolves(st, ProcessPayment(st, req, paymentId, now).after, now)
  {
  }

  // ---------------------------------------------------------------------
  // Each handler preserves the cross-references.

  lemma CreatePreservesConsistent(st: Store, req: CreateRequest, orderId: Id, draw: CodeDraw, now: int)
    requires Consistent(st) && orderId !in st.orders
    ensures Consistent(CreateOrder(st, req, orderId, draw, now).after)
  {
    var st' := CreateOrder(st, req, orderId, draw, now).after;
    forall id | id in st'.orders ensures OrderLinked(st', id) {
      if id != orderId {
        assert OrderLinked(st, id);
      }
    }
    forall pid | pid in st'.payments ensures PaymentLinked(st', pid) {
      assert PaymentLinked(st, pid);
    }
  }

  lemma RefreshPreservesConsistent(st: Store, id: Id, now: int)
    requires Consistent(st) && id in st.orders
    ensures Consistent(Refresh(st, id, now))
  {
    var st' := Refresh(st, id, now);
    forall other | other in st'.orders ensures OrderLinked(st', other) {
      assert OrderLinked(st, other);
    }
    forall pid | pid in st'.payments ensures PaymentLinked(st', pid) {
      assert PaymentLinked(st, pid);
    }
  }

  lemma StatusPreservesConsistent(st: Store, orderId: Id, now: int)
    requires Consistent(st)
    ensures Consistent(OrderStatus(st, orderId, now).after)
  {
    if orderId in st.orders {
      RefreshPreservesConsistent(st, orderId, now);
    }
  }

  lemma QueryPreservesConsistent(st: Store, code: string, now: int)
    requires Consistent(st)
    ensures Consistent(QueryByCode(st, code, now).after)
  {
    var m := FirstMatch(st.orderIds, st.orders, code);
    if m.Some? {
      RefreshPreservesConsistent(st, st.orderIds[m.value], now);
    }
  }

  /** Settling keeps every completed order tied to one stored payment of the
      same amount, given that the drawn payment id is new. */
  lemma ProcessPreservesConsistent(st: Store, req: ProcessRequest, paymentId: Id, now: int)
    requires Consistent(st) && paymentId !in st.payments
    ensures Consistent(ProcessPayment(st, req, paymentId, now).after)
  {
    if CompleteRequest(req) {
      var m := FirstMatch(st.orderIds, st.orders, req.paymentCode.value);
      if m.Some? {
        var id := st.orderIds[m.value];
        var o := st.orders[id];
        if o.status == Pending {
          assert OrderLinked(st, id);
          var st' := ProcessPayment(st, req, paymentId, now).after;
          if now > o.expiresAt {
            RefreshPreservesConsistent(st, id, now);
          } else {
            forall other | other in st'.orders ensures OrderLinked(st', other) {
              assert OrderLinked(st, other);
            }
            forall pid | pid in st'.payments ensures PaymentLinked(st', pid) {
              if pid != paymentId {
                assert PaymentLinked(st, pid);
              }
            }
          }
        }
      }
    }
  }

  // ---------------------------------------------------------------------
  // Settlement, expiry and reads, across two requests.

  /** Exactly-once settlement: once a code has been settled, every later
      complete request for the same code, at any instant and with any payment
      id, is refused as not pending and changes nothing. */
  lemma ProcessSettlesOnce(st: Store, req: ProcessRequest, paymentId: Id, now: int,
                           req2: ProcessRequest, paymentId2: Id, now2: int)
    requires ProcessPayment(st, req, paymentId, now).response.Ok?
    requires CompleteRequest(req2) && req2.paymentCode == req.paymentCode
    ensures var st' := ProcessPayment(st, req, paymentId, now).after;
      ProcessPayment(st', req2, paymentId2, now2) == Step(st', Err(OrderNotPending))
  {
    var st' := ProcessPayment(st, req, paymentId, now).after;
    FirstMatchSameCodes(st.orderIds, st.orders, st'.orders, req.paymentCode.value);
  }

  /** Once a query has reported the order behind a code as expired, paying
      with that code is refused as not pending from then on. */
  lemma ExpiredQueryBlocksPayment(st: Store, code: string, now: int,
                                  req: ProcessRequest, paymentId: Id, now2: int)
    requires QueryByCode(st, code, now).response == Err(OrderIsExpired)
    requires CompleteRequest(req) && req.paymentCode.value == code
    ensures var st' := QueryByCode(st, code, now).after;
      ProcessPayment(st', req, paymentId, now2) == Step(st', Err(OrderNotPending))
  {
    var st' := QueryByCode(st, code, now).after;
    FirstMatchSameCodes(st.orderIds, st.orders, st'.orders, code);
  }

  /** Repeating a query at the same instant gives the same answer and changes nothing more. */
  lemma QueryIsIdempotent(st: Store, code: string, now: int)
    ensures var s := QueryByCode(st, code, now);
      QueryByCode(s.after, code, now) == s
  {
    var s := QueryByCode(st, code, now);
    FirstMatchSameCodes(st.orderIds, st.orders, s.after.orders, code);
  }

  /** A query that refused an order as non-pending keeps refusing it, at any later instant. */
  lemma RefusalIsFinal(st: Store, code: string, now: int, later: int)
    requires now <= later
    requires QueryByCode(st, code, now).response in {Err(OrderIsExpired), Err(OrderAlreadyProcessed)}
    ensures var s := QueryByCode(st, code, now);
      QueryByCode(s.after, code, later) == s
  {
    var s := QueryByCode(st, code, now);
    FirstMatchSameCodes(st.orderIds, st.orders, s.after.orders, code);
  }

  /** The code a create hands out is found by a later query: the query
      answers for the new order unless an older order already holds the same
      code (codes are drawn at random and not checked for uniqueness).
      Assumes the drawn order id is new, as CreateEvolves does. */
  lemma CreatedCodeIsFound(st: Store, req: CreateRequest, orderId: Id, draw: CodeDraw, now: int, now2: int)
    requires WellFormed(st) && orderId !in st.orders
    requires CreateOrder(st, req, orderId, draw, now).response.Ok?
    ensures var s := CreateOrder(st, req, orderId, draw, now);
      var code := s.response.value.paymentCode;
      var m := FirstMatch(s.after.orderIds, s.after.orders, code);
      && m.Some?
      && (s.after.orderIds[m.value] == orderId <==>
            forall j :: 0 <= j < |st.orderIds| ==> !HasCode(st.orders, st.orderIds[j], code))
      && QueryByCode(s.after, code, now2).response != Err(CodeNotFound)
  {
    var s := CreateOrder(st, req, orderId, draw, now);
    var code := s.response.value.paymentCode;
    var ids := s.after.orderIds;
    assert ids[|st.orderIds|] == orderId && HasCode(s.after.orders, orderId, code);
    forall j | 0 <= j < |st.orderIds|
      ensures HasCode(st.orders, st.orderIds[j], code) <==> HasCode(s.after.orders, ids[j], code)
    {
      assert ids[j] == st.orderIds[j] && ids[j] != orderId;
    }
  }

  /** A completed order's payment can be fetched, and it names that order and its amount. */
  lemma CompletedOrderPaymentLookup(st: Store, id: Id)
    requires Consistent(st) && id in st.orders && st.orders[id].status == Completed
    ensures var r := GetPayment(st, st.orders[id].paymentId.value);
      r.Ok? && r.value.orderId == id && r.value.amount == st.orders[id].amount && r.value.status == Completed
  {
    assert OrderLinked(st, id);
    var pid := st.orders[id].paymentId.value;
    assert PaymentLinked(st, pid);
  }

  /** At most one payment per order. */
  lemma OnePaymentPerOrder(st: Store, p1: Id, p2: Id)
    requires Consistent(st) && p1 in st.payments && p2 in st.payments
    requires st.payments[p1].orderId == st.payments[p2].orderId
    ensures p1 == p2
  {
    assert PaymentLinked(st, p1) && PaymentLinked(st, p2);
  }

  // ---------------------------------------------------------------------
  // Sequences of requests: the handlers run one at a time, each to completion.

  datatype Call =
    | CreateCall(createReq: CreateRequest, orderId: Id, draw: CodeDraw, now: int)
    | StatusCall(orderId: Id, now: int)
    | QueryCall(code: string, now: int)
    | ProcessCall(processReq: ProcessRequest, paymentId: Id, now: int)
    | PaymentCall(paymentId: Id)

  function Apply(st: Store, c: Call): Store {
    match c
    case CreateCall(req, orderId, draw, now) => CreateOrder(st, req, orderId, draw, now).after
    case StatusCall(orderId, now) => OrderStatus(st, orderId, now).after
    case QueryCall(code, now) => QueryByCode(st, code, now).after
    case ProcessCall(req, paymentId, now) => ProcessPayment(st, req, paymentId, now).after
    case PaymentCall(_) => st
  }

  function Run(st: Store, calls: seq<Call>): Store
    decreases |calls|
  {
    if calls == [] then st else Run(Apply(st, calls[0]), calls[1..])
  }

  /** The assumption that every id drawn for a new record is new. */
  ghost predicate FreshIds(st: Store, c: Call) {
    && (c.CreateCall? ==> c.orderId !in st.orders)
    && (c.ProcessCall? ==> c.paymentId !in st.payments)
  }

  ghost predicate FreshRun(st: Store, calls: seq<Call>)
    decreases |calls|
  {
    calls == [] || (FreshIds(st, calls[0]) && FreshRun(Apply(st, calls[0]), calls[1..]))
  }

  lemma ApplyPreservesConsistent(st: Store, c: Call)
    requires Consistent(st) && FreshIds(st, c)
    ensures Consistent(Apply(st, c))
  {
    match c
    case CreateCall(req, orderId, draw, now) => CreatePreservesConsistent(st, req, orderId, draw, now);
    case StatusCall(orderId, now) => StatusPreservesConsistent(st, orderId, now);
    case QueryCall(code, now) => QueryPreservesConsistent(st, code, now);
    case ProcessCall(req, paymentId, now) => ProcessPreservesConsistent(st, req, paymentId, now);
    case PaymentCall(_) =>
  }

  lemma ApplyIsMonotone(st: Store, c: Call)
    requires FreshIds(st, c)
    ensures Monotone(st, Apply(st, c))
  {
    match c
    case CreateCall(req, orderId, draw, now) => CreateEvolves(st, req, orderId, draw, now);
    case StatusCall(orderId, now) => StatusEvolves(st, orderId, now);
    case QueryCall(code, now) => QueryEvolves(st, code, now);
    case ProcessCall(req, paymentId, now) => ProcessEvolves(st, req, paymentId, now);
    case PaymentCall(_) =>
  }

  /** Any run keeps the shape of the stores, whatever ids it draws. */
  lemma {:induction false} RunPreservesWellFormed(st: Store, calls: seq<Call>)
    requires WellFormed(st)
    ensures WellFormed(Run(st, calls))
    decreases |calls|
  {
    if calls != [] {
      RunPreservesWellFormed(Apply(st, calls[0]), calls[1..]);
    }
  }

  /** Every state the server reaches from consistent stores, with fresh ids, is consistent. */
  lemma {:induction false} RunPreservesConsistent(st: Store, calls: seq<Call>)
    requires Consistent(st) && FreshRun(st, calls)
    ensures Consistent(Run(st, calls))
    decreases |calls|
  {
    if calls != [] {
      ApplyPreservesConsistent(st, calls[0]);
      RunPreservesConsistent(Apply(st, calls[0]), calls[1..]);
    }
  }

  /** Over any run: orders keep their place in the insertion order, expired
      and completed orders never change again, and payments are never altered. */
  lemma {:induction false} RunIsMonotone(st: Store, calls: seq<Call>)
    requires FreshRun(st, calls)
    ensures Monotone(st, Run(st, calls))
    decreases |calls|
  {
    if calls != [] {
      var mid := Apply(st, calls[0]);
      ApplyIsMonotone(st, calls[0]);
      RunIsMonotone(mid, calls[1..]);
    }
  }

  /** The empty server is consistent, so every reachable server is. */
  lemma ReachableIsConsistent(calls: seq<Call>)
    requires FreshRun(Empty, calls)
    ensures Consistent(Run(Empty, calls))
  {
    RunPreservesConsistent(Empty, calls);
  }

  /** Once a code resolves to an order of a well-formed store, it resolves to
      the same position in every later store: orders ahead of it keep their
      codes and their place, and it keeps its own. */
  lemma FirstMatchStable(st: Store, st': Store, code: string)
    requires WellFormed(st) && KeepsCodes(st, st')
    requires FirstMatch(st.orderIds, st.orders, code).Some?
    ensures FirstMatch(st'.orderIds, st'.orders, code) == FirstMatch(st.orderIds, st.orders, code)
  {
    var k := FirstMatch(st.orderIds, st.orders, code).value;
    forall j | 0 <= j <= k
      ensures st'.orderIds[j] == st.orderIds[j]
      ensures HasCode(st'.orders, st'.orderIds[j], code) <==> HasCode(st.orders, st.orderIds[j], code)
    {
      assert st.orderIds[j] in st.orders;
    }
    var m := FirstMatch(st'.orderIds, st'.orders, code);
    assert m.Some? && m.value <= k;
  }

  /** Exactly-once settlement over any later run: once a code has been
      settled, a complete request for the same code made after any sequence
      of further requests is refused as not pending and changes nothing.
      Assumes a well-formed store and new ids for the records the run creates
      (a repeated order id would let `orders.set` overwrite the settled order). */
  lemma {:induction false} SettlementIsFinal(st: Store, req: ProcessRequest, paymentId: Id, now: int,
                                             calls: seq<Call>, req2: ProcessRequest, paymentId2: Id, now2: int)
    requires WellFormed(st)
    requires ProcessPayment(st, req, paymentId, now).response.Ok?
    requires FreshRun(ProcessPayment(st, req, paymentId, now).after, calls)
    requires CompleteRequest(req2) && req2.paymentCode == req.paymentCode
    ensures var st2 := Run(ProcessPayment(st, req, paymentId, now).after, calls);
      ProcessPayment(st2, req2, paymentId2, now2) == Step(st2, Err(OrderNotPending))
  {
    var code := req.paymentCode.value;
    var st1 := ProcessPayment(st, req, paymentId, now).after;
    var st2 := Run(st1, calls);
    FirstMatchSameCodes(st.orderIds, st.orders, st1.orders, code);
    var k := FirstMatch(st1.orderIds, st1.orders, code).value;
    var id := st1.orderIds[k];
    assert st1.orders[id].status == Completed;
    RunIsMonotone(st1, calls);
    FirstMatchStable(st1, st2, code);
    assert st2.orderIds[k] == id;
    assert st2.orders[id] == st1.orders[id];
  }
}
