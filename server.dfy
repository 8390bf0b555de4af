/** The payment server as the source runs it: two module-level maps that the
    request handlers update in place, one handler at a time. Each method does
    what one route handler does and is proved to agree with the matching
    function of Engine; clock readings and random draws are parameters. */
module Server {
  import opened Outcomes
  import opened Orders
  import opened Engine
  import Lifecycle

  class PaymentServer {
    var orderIds: seq<Id>                // keys of `orders`, in insertion order
    var orders: map<Id, Order>
    var payments: map<Id, Payment>

    function State(): Store
      reads this
    {
      Store(orderIds, orders, payments)
    }

    ghost predicate Valid()
      reads this
    {
      WellFormed(State())
    }

    constructor ()
      ensures Valid() && State() == Empty
    {
      orderIds, orders, payments := [], map[], map[];
    }

    /** The `for (const order of orders.values())` loop, leaving at the first order holding the code. */
    method FindByCode(code: string) returns (found: Option<nat>)
      ensures found == FirstMatch(orderIds, orders, code)
    {
      var i := 0;
      while i < |orderIds|
        invariant 0 <= i <= |orderIds|
        invariant forall j :: 0 <= j < i ==> !HasCode(orders, orderIds[j], code)
      {
        var id := orderIds[i];
        if id in orders && orders[id].paymentCode == code {
          return Some(i);
        }
        i := i + 1;
      }
      return None;
    }

    /** POST /api/orders/create */
    method CreateOrder(req: CreateRequest, orderId: Id, draw: CodeDraw, now: int) returns (r: Result<Created, Error>)
      requires Valid()
      modifies this
      ensures Valid()
      ensures Step(State(), r) == Engine.CreateOrder(old(State()), req, orderId, draw, now)
      ensures old(Consistent(State())) && orderId !in old(orders) ==> Consistent(State())
    {
      ghost var before := State();
      if !Truthy(req.merchantId) || req.amount.None? || req.amount.value <= 0 {
        return Err(InvalidData);
      }
      var paymentCode := GeneratePaymentCode(draw);
      var order := Order(orderId, paymentCode, req.merchantId.value,
                         OrDefault(req.merchantName, DefaultMerchantName), req.amount.value,
                         OrDefault(req.description, DefaultDescription), Pending,
                         now, now + ExpiryWindowMs, None);
      if orderId !in orders {
        orderIds := orderIds + [orderId];
      }
      orders := orders[orderId := order];
      r := Ok(Created(orderId, paymentCode, order.amount, order.expiresAt));
      if Consistent(before) && orderId !in before.orders {
        Lifecycle.CreatePreservesConsistent(before, req, orderId, draw, now);
      }
    }

    /** GET /api/orders/:orderId/status */
    method OrderStatus(orderId: Id, now: int) returns (r: Result<StatusView, Error>)
      requires Valid()
      modifies this
      ensures Valid()
      ensures Step(State(), r) == Engine.OrderStatus(old(State()), orderId, now)
      ensures old(Consistent(State())) ==> Consistent(State())
    {
      ghost var before := State();
      if orderId !in orders {
        return Err(OrderNotFound);
      }
      var order := orders[orderId];
      if order.status == Pending && now > order.expiresAt {
        order := order.(status := Expired);
      }
      orders := orders[orderId := order];
      r := Ok(View(order));
      if Consistent(before) {
        Lifecycle.StatusPreservesConsistent(before, orderId, now);
      }
    }

    /** GET /api/payments/query/:paymentCode */
    method QueryByCode(paymentCode: string, now: int) returns (r: Result<Summary, Error>)
      requires Valid()
      modifies this
      ensures Valid()
      ensures Step(State(), r) == Engine.QueryByCode(old(State()), paymentCode, now)
      ensures old(Consistent(State())) ==> Consistent(State())
    {
      ghost var before := State();
      var found := FindByCode(paymentCode);
      if found.None? {
        return Err(CodeNotFound);
      }
      var id := orderIds[found.value];
      var order := orders[id];
      if order.status == Pending && now > order.expiresAt {
        order := order.(status := Expired);
      }
      orders := orders[id := order];
      if order.status != Pending {
        r := Err(if order.status == Expired then OrderIsExpired else OrderAlreadyProcessed);
      } else {
        r := Ok(SummaryOf(order));
      }
      if Consistent(before) {
        Lifecycle.QueryPreservesConsistent(before, paymentCode, now);
      }
    }

    /** POST /api/payments/process */
    method ProcessPayment(req: ProcessRequest, paymentId: Id, now: int) returns (r: Result<Receipt, Error>)
      requires Valid()
      modifies this
      ensures Valid()
      ensures Step(State(), r) == Engine.ProcessPayment(old(State()), req, paymentId, now)
      ensures old(Consistent(State())) && paymentId !in old(payments) ==> Consistent(State())
    {
      ghost var before := State();
      if !Truthy(req.paymentCode) || !Truthy(req.userId) || !Truthy(req.paymentMethod) {
        return Err(IncompleteData);
      }
      var found := FindByCode(req.paymentCode.value);
      if found.None? {
        return Err(CodeNotFound);
      }
      assert found == FirstMatch(before.orderIds, before.orders, req.paymentCode.value);
      var id := orderIds[found.value];
      var order := orders[id];
      if order.status != Pending {
        return Err(OrderNotPending);
      }
      if now > order.expiresAt {
        orders := orders[id := order.(status := Expired)];
        return Err(CodeExpired);
      }
      var payment := Payment(paymentId, order.orderId, req.userId.value,
                             OrDefault(req.userName, DefaultUserName), order.amount,
                             req.paymentMethod.value, Completed, now);
      payments := payments[paymentId := payment];
      orders := orders[id := order.(status := Completed, paymentId := Some(paymentId))];
      r := Ok(Receipt(paymentId, order.orderId, order.amount, Completed, now));
      ghost var spec := Engine.ProcessPayment(before, req, paymentId, now);
      assert spec == Step(State(), r);
      assert WellFormed(spec.after);
      if Consistent(before) && paymentId !in before.payments {
        Lifecycle.ProcessPreservesConsistent(before, req, paymentId, now);
      }
    }

    /** GET /api/payments/:paymentId */
    method GetPayment(paymentId: Id) returns (r: Result<Payment, Error>)
      ensures r == Engine.GetPayment(State(), paymentId)
    {
      if paymentId !in payments {
        return Err(PaymentNotFound);
      }
      r := Ok(payments[paymentId]);
    }
  }
}
