/**
 * The `Order` schema: a required shop (a String path), required `user` and
 * `transaction` references, a required `totalPrice`, and a `status` that
 * must be one of the order states and defaults to WAITING. The schema has
 * no hooks; a save checks membership of `status` only, never how it got
 * there.
 */
module Orders {
  import opened Wrappers
  import opened Schema

  /** `orderTypes`; each state is stored under its own name. */
  datatype OrderStatus = Waiting | Received | Preparing | Delivered | Canceled {
    function Name(): string {
      match this
      case Waiting => "WAITING"
      case Received => "RECEIVED"
      case Preparing => "PREPARING"
      case Delivered => "DELIVERED"
      case Canceled => "CANCELED"
    }
  }

  /** Membership in the `enum` list, and the state a stored name denotes. */
  function ParseOrderStatus(s: string): (r: Option<OrderStatus>)
    ensures r.Some? ==> r.value.Name() == s
    ensures r.None? <==> forall st: OrderStatus :: st.Name() != s
  {
    if s == "WAITING" then Some(Waiting)
    else if s == "RECEIVED" then Some(Received)
    else if s == "PREPARING" then Some(Preparing)
    else if s == "DELIVERED" then Some(Delivered)
    else if s == "CANCELED" then Some(Canceled)
    else None
  }

  /** Every state's name is accepted and denotes that state. */
  lemma OrderStatusRoundTrip(st: OrderStatus)
    ensures ParseOrderStatus(st.Name()) == Some(st)
  {
    match st
    case Waiting =>
    case Received =>
    case Preparing =>
    case Delivered =>
    case Canceled =>
  }

  const DefaultOrderStatus: OrderStatus := Waiting

  /** A stored order. */
  datatype Order = Order(shop: string, user: Id, transaction: Id, status: OrderStatus, totalPrice: real)

  /** The values a caller supplies. */
  datatype OrderDraft = OrderDraft(
    shop: Option<string>,
    user: Option<Id>,
    transaction: Option<Id>,
    status: Option<string>,
    totalPrice: Option<real>)

  datatype OrderPath = OrderShop | OrderUser | OrderTransaction | OrderStatusPath | OrderTotalPrice

  const OrderPaths: seq<OrderPath> := [OrderShop, OrderUser, OrderTransaction, OrderStatusPath, OrderTotalPrice]

  lemma AllOrderPaths()
    ensures forall p :: p in OrderPaths
  {
    forall p: OrderPath ensures p in OrderPaths {
      match p
      case OrderShop => assert OrderPaths[0] == p;
      case OrderUser => assert OrderPaths[1] == p;
      case OrderTransaction => assert OrderPaths[2] == p;
      case OrderStatusPath => assert OrderPaths[3] == p;
      case OrderTotalPrice => assert OrderPaths[4] == p;
    }
  }

  /** `status`: an absent value takes the default, which is in the list;
      `required` runs before `enum`, so "" fails as missing. */
  function StatusCheck(s: Option<string>): (r: Option<Reason>)
    ensures r.None? <==> s.None? || ParseOrderStatus(s.value).Some?
    ensures r == Some(Required) <==> s == Some("")
  {
    if s.None? then None
    else if s.value == [] then Some(Required)
    else if ParseOrderStatus(s.value).None? then Some(NotInEnum)
    else None
  }

  function CheckOrder(d: OrderDraft, p: OrderPath): Option<Reason> {
    match p
    case OrderShop => RequiredText(d.shop.GetOr(""))
    case OrderUser => RequiredValue(d.user)
    case OrderTransaction => RequiredValue(d.transaction)
    case OrderStatusPath => StatusCheck(d.status)
    case OrderTotalPrice => RequiredValue(d.totalPrice)
  }

  function OrderChecks(d: OrderDraft): OrderPath -> Option<Reason> {
    p => CheckOrder(d, p)
  }

  /** The ValidationError of saving `d`: exactly the failing paths. */
  function OrderErrors(d: OrderDraft): (errs: seq<FieldError<OrderPath>>)
    ensures errs == [] <==> forall p :: CheckOrder(d, p).None?
    ensures forall p :: Reports(errs, p) <==> CheckOrder(d, p).Some?
  {
    var errs := Collect(OrderPaths, OrderChecks(d));
    AllOrderPaths();
    assert forall p :: OrderChecks(d)(p) == CheckOrder(d, p);
    errs
  }

  /** What the validators demand, path by path. */
  ghost predicate OrderAccepted(d: OrderDraft) {
    && d.shop.Some? && d.shop.value != []
    && d.user.Some?
    && d.transaction.Some?
    && (d.status.None? || ParseOrderStatus(d.status.value).Some?)
    && d.totalPrice.Some?
  }

  lemma OrderAcceptedChecks(d: OrderDraft)
    ensures OrderAccepted(d) <==> forall p :: CheckOrder(d, p).None?
  {
    if OrderAccepted(d) {
      forall p ensures CheckOrder(d, p).None? {
        match p
        case OrderShop =>
        case OrderUser =>
        case OrderTransaction =>
        case OrderStatusPath =>
        case OrderTotalPrice =>
      }
    } else {
      assert !(CheckOrder(d, OrderShop).None? && CheckOrder(d, OrderUser).None?
        && CheckOrder(d, OrderTransaction).None? && CheckOrder(d, OrderStatusPath).None?
        && CheckOrder(d, OrderTotalPrice).None?);
    }
  }

  /** `Order.create(body)` up to the insert: the order, or the errors. A
      missing status becomes WAITING. */
  function ValidateOrder(d: OrderDraft): (r: Result<Order, seq<FieldError<OrderPath>>>)
    ensures r.Ok? <==> OrderAccepted(d)
    ensures r.Err? ==> r.error == OrderErrors(d)
    ensures r.Ok? ==>
      && r.value.shop == d.shop.value && r.value.user == d.user.value
      && r.value.transaction == d.transaction.value && r.value.totalPrice == d.totalPrice.value
      && r.value.status.Name() == d.status.GetOr(DefaultOrderStatus.Name())
  {
    var errs := OrderErrors(d);
    OrderAcceptedChecks(d);
    if errs != [] then Err(errs)
    else
      OrderStatusRoundTrip(DefaultOrderStatus);
      var st := ParseOrderStatus(d.status.GetOr(DefaultOrderStatus.Name())).value;
      Ok(Order(d.shop.value, d.user.value, d.transaction.value, st, d.totalPrice.value))
  }

  /** What every saved order satisfies beyond its types. */
  ghost predicate OrderWellFormed(o: Order) {
    o.shop != []
  }

  /** The body that recreates `o`. */
  function OrderDraftOf(o: Order): OrderDraft {
    OrderDraft(Some(o.shop), Some(o.user), Some(o.transaction), Some(o.status.Name()), Some(o.totalPrice))
  }

  // ---------------------------------------------------------------------
  // Properties

  /** A new order without a status is WAITING. */
  lemma NewOrderWaiting(d: OrderDraft)
    requires ValidateOrder(d).Ok? && d.status.None?
    ensures ValidateOrder(d).value.status == Waiting
  {
    OrderStatusRoundTrip(ValidateOrder(d).value.status);
  }

  /** An order is well formed iff saving it as a body gives it back. */
  lemma OrderRoundTrip(o: Order)
    ensures OrderWellFormed(o) <==> ValidateOrder(OrderDraftOf(o)) == Ok(o)
  {
    OrderStatusRoundTrip(o.status);
    var r := ValidateOrder(OrderDraftOf(o));
    if r.Ok? {
      assert r.value.status.Name() == o.status.Name();
      OrderStatusRoundTrip(r.value.status);
    }
  }

  /** Validation checks membership only: a saved order accepts any state,
      from any state, and nothing else about it changes. */
  lemma StatusFreelyAssignable(o: Order, st: OrderStatus)
    requires OrderWellFormed(o)
    ensures ValidateOrder(OrderDraftOf(o).(status := Some(st.Name()))) == Ok(o.(status := st))
  {
    OrderRoundTrip(o.(status := st));
  }
}
