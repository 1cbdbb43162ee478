/**
 * The `Payment` schema: required references to the shop, the paying and
 * the paid user and the order, a required `transactionId` and `amount`, an
 * optional `paymentType` from the payment types, a `paymentStatus` from the
 * payment states defaulting to PENDING, and two optional dates. The schema
 * has no hooks and no rule on how the status may change.
 */
module Payments {
  import opened Wrappers
  import opened Schema

  /** `paymentTypes`; each is stored under its own name. */
  datatype PaymentType = Cash | Upi | Debit | Credit {
    function Name(): string {
      match this
      case Cash => "CASH"
      case Upi => "UPI"
      case Debit => "DEBIT"
      case Credit => "CREDIT"
    }
  }

  function ParsePaymentType(s: string): (r: Option<PaymentType>)
    ensures r.Some? ==> r.value.Name() == s
    ensures r.None? <==> forall t: PaymentType :: t.Name() != s
  {
    if s == "CASH" then Some(Cash)
    else if s == "UPI" then Some(Upi)
    else if s == "DEBIT" then Some(Debit)
    else if s == "CREDIT" then Some(Credit)
    else None
  }

  lemma PaymentTypeRoundTrip(t: PaymentType)
    ensures ParsePaymentType(t.Name()) == Some(t)
  {
    match t
    case Cash =>
    case Upi =>
    case Debit =>
    case Credit =>
  }

  /** `paymentStatusTypes`; each is stored under its own name. */
  datatype PaymentStatus = Pending | Success | Failed | Canceled | Request | Refunded {
    function Name(): string {
      match this
      case Pending => "PENDING"
      case Success => "SUCCESS"
      case Failed => "FAILED"
      case Canceled => "CANCELED"
      case Request => "REQUEST"
      case Refunded => "REFUNDED"
    }
  }

  function ParsePaymentStatus(s: string): (r: Option<PaymentStatus>)
    ensures r.Some? ==> r.value.Name() == s
    ensures r.None? <==> forall st: PaymentStatus :: st.Name() != s
  {
    if s == "PENDING" then Some(Pending)
    else if s == "SUCCESS" then Some(Success)
    else if s == "FAILED" then Some(Failed)
    else if s == "CANCELED" then Some(Canceled)
    else if s == "REQUEST" then Some(Request)
    else if s == "REFUNDED" then Some(Refunded)
    else None
  }

  lemma PaymentStatusRoundTrip(st: PaymentStatus)
    ensures ParsePaymentStatus(st.Name()) == Some(st)
  {
    match st
    case Pending =>
    case Success =>
    case Failed =>
    case Canceled =>
    case Request =>
    case Refunded =>
  }

  const DefaultPaymentStatus: PaymentStatus := Pending

  /** A stored payment. */
  datatype Payment = Payment(
    shop: Id,
    userFrom: Id,
    userTo: Id,
    order: Id,
    transactionId: string,
    paymentType: Option<PaymentType>,
    paymentStatus: PaymentStatus,
    amount: real,
    timeInitialized: Option<Time>,
    timeCompleted: Option<Time>)

  /** The values a caller supplies. */
  datatype PaymentDraft = PaymentDraft(
    shop: Option<Id>,
    userFrom: Option<Id>,
    userTo: Option<Id>,
    order: Option<Id>,
    transactionId: Option<string>,
    paymentType: Option<string>,
    paymentStatus: Option<string>,
    amount: Option<real>,
    timeInitialized: Option<Time>,
    timeCompleted: Option<Time>)

  /** The paths whose validators can fail. */
  datatype PaymentPath =
    | PaymentShop | PaymentUserFrom | PaymentUserTo | PaymentOrder
    | PaymentTransactionId | PaymentTypePath | PaymentStatusPath | PaymentAmount

  const PaymentPaths: seq<PaymentPath> :=
    [PaymentShop, PaymentUserFrom, PaymentUserTo, PaymentOrder,
     PaymentTransactionId, PaymentTypePath, PaymentStatusPath, PaymentAmount]

  lemma AllPaymentPaths()
    ensures forall p :: p in PaymentPaths
  {
    forall p: PaymentPath ensures p in PaymentPaths {
      match p
      case PaymentShop => assert PaymentPaths[0] == p;
      case PaymentUserFrom => assert PaymentPaths[1] == p;
      case PaymentUserTo => assert PaymentPaths[2] == p;
      case PaymentOrder => assert PaymentPaths[3] == p;
      case PaymentTransactionId => assert PaymentPaths[4] == p;
      case PaymentTypePath => assert PaymentPaths[5] == p;
      case PaymentStatusPath => assert PaymentPaths[6] == p;
      case PaymentAmount => assert PaymentPaths[7] == p;
    }
  }

  /** An `enum` on a path that is not required: an absent value passes (for
      `paymentStatus` the default, which is in the list, fills it), any
      other value, "" included, must be in the list. */
  function TypeCheck(s: Option<string>): (r: Option<Reason>)
    ensures r.None? <==> s.None? || ParsePaymentType(s.value).Some?
    ensures r.Some? ==> r.value == NotInEnum
  {
    if s.Some? && ParsePaymentType(s.value).None? then Some(NotInEnum) else None
  }

  function StatusCheck(s: Option<string>): (r: Option<Reason>)
    ensures r.None? <==> s.None? || ParsePaymentStatus(s.value).Some?
    ensures r.Some? ==> r.value == NotInEnum
  {
    if s.Some? && ParsePaymentStatus(s.value).None? then Some(NotInEnum) else None
  }

  function CheckPayment(d: PaymentDraft, p: PaymentPath): Option<Reason> {
    match p
    case PaymentShop => RequiredValue(d.shop)
    case PaymentUserFrom => RequiredValue(d.userFrom)
    case PaymentUserTo => RequiredValue(d.userTo)
    case PaymentOrder => RequiredValue(d.order)
    case PaymentTransactionId => RequiredText(d.transactionId.GetOr(""))
    case PaymentTypePath => TypeCheck(d.paymentType)
    case PaymentStatusPath => StatusCheck(d.paymentStatus)
    case PaymentAmount => RequiredValue(d.amount)
  }

  function PaymentChecks(d: PaymentDraft): PaymentPath -> Option<Reason> {
    p => CheckPayment(d, p)
  }

  /** The ValidationError of saving `d`: exactly the failing paths. */
  function PaymentErrors(d: PaymentDraft): (errs: seq<FieldError<PaymentPath>>)
    ensures errs == [] <==> forall p :: CheckPayment(d, p).None?
    ensures forall p :: Reports(errs, p) <==> CheckPayment(d, p).Some?
  {
    var errs := Collect(PaymentPaths, PaymentChecks(d));
    AllPaymentPaths();
    assert forall p :: PaymentChecks(d)(p) == CheckPayment(d, p);
    errs
  }

  /** What the validators demand, path by path; the dates are free. */
  ghost predicate PaymentAccepted(d: PaymentDraft) {
    && d.shop.Some? && d.userFrom.Some? && d.userTo.Some? && d.order.Some?
    && d.transactionId.Some? && d.transactionId.value != []
    && (d.paymentType.None? || ParsePaymentType(d.paymentType.value).Some?)
    && (d.paymentStatus.None? || ParsePaymentStatus(d.paymentStatus.value).Some?)
    && d.amount.Some?
  }

  lemma PaymentAcceptedChecks(d: PaymentDraft)
    ensures PaymentAccepted(d) <==> forall p :: CheckPayment(d, p).None?
  {
    if PaymentAccepted(d) {
      forall p ensures CheckPayment(d, p).None? {
        match p
        case PaymentShop =>
        case PaymentUserFrom =>
        case PaymentUserTo =>
        case PaymentOrder =>
        case PaymentTransactionId =>
        case PaymentTypePath =>
        case PaymentStatusPath =>
        case PaymentAmount =>
      }
    } else {
      assert !(CheckPayment(d, PaymentShop).None? && CheckPayment(d, PaymentUserFrom).None?
        && CheckPayment(d, PaymentUserTo).None? && CheckPayment(d, PaymentOrder).None?
        && CheckPayment(d, PaymentTransactionId).None? && CheckPayment(d, PaymentTypePath).None?
        && CheckPayment(d, PaymentStatusPath).None? && CheckPayment(d, PaymentAmount).None?);
    }
  }

  /** `Payment.create(body)` up to the insert: the payment, or the errors.
      A missing status becomes PENDING. */
  function ValidatePayment(d: PaymentDraft): (r: Result<Payment, seq<FieldError<PaymentPath>>>)
    ensures r.Ok? <==> PaymentAccepted(d)
    ensures r.Err? ==> r.error == PaymentErrors(d)
    ensures r.Ok? ==>
      && r.value.shop == d.shop.value && r.value.userFrom == d.userFrom.value
      && r.value.userTo == d.userTo.value && r.value.order == d.order.value
      && r.value.transactionId == d.transactionId.value && r.value.amount == d.amount.value
      && r.value.timeInitialized == d.timeInitialized && r.value.timeCompleted == d.timeCompleted
    ensures r.Ok? ==>
      && (r.value.paymentType.Some? <==> d.paymentType.Some?)
      && (r.value.paymentType.Some? ==> r.value.paymentType.value.Name() == d.paymentType.value)
      && r.value.paymentStatus.Name() == d.paymentStatus.GetOr(DefaultPaymentStatus.Name())
  {
    var errs := PaymentErrors(d);
    PaymentAcceptedChecks(d);
    if errs != [] then Err(errs)
    else
      PaymentStatusRoundTrip(DefaultPaymentStatus);
      var ty := if d.paymentType.Some? then ParsePaymentType(d.paymentType.value) else None;
      var st := ParsePaymentStatus(d.paymentStatus.GetOr(DefaultPaymentStatus.Name())).value;
      Ok(Payment(d.shop.value, d.userFrom.value, d.userTo.value, d.order.value,
                 d.transactionId.value, ty, st, d.amount.value, d.timeInitialized, d.timeCompleted))
  }

  /** What every saved payment satisfies beyond its types. */
  ghost predicate PaymentWellFormed(p: Payment) {
    p.transactionId != []
  }

  /** The body that recreates `p`. */
  function PaymentDraftOf(p: Payment): PaymentDraft {
    PaymentDraft(Some(p.shop), Some(p.userFrom), Some(p.userTo), Some(p.order),
                 Some(p.transactionId),
                 if p.paymentType.Some? then Some(p.paymentType.value.Name()) else None,
                 Some(p.paymentStatus.Name()), Some(p.amount), p.timeInitialized, p.timeCompleted)
  }

  // ---------------------------------------------------------------------
  // Properties

  /** A new payment without a status is PENDING. */
  lemma NewPaymentPending(d: PaymentDraft)
    requires ValidatePayment(d).Ok? && d.paymentStatus.None?
    ensures ValidatePayment(d).value.paymentStatus == Pending
  {
    PaymentStatusRoundTrip(ValidatePayment(d).value.paymentStatus);
  }

  /** A payment is well formed iff saving it as a body gives it back. */
  lemma PaymentRoundTrip(p: Payment)
    ensures PaymentWellFormed(p) <==> ValidatePayment(PaymentDraftOf(p)) == Ok(p)
  {
    PaymentStatusRoundTrip(p.paymentStatus);
    if p.paymentType.Some? {
      PaymentTypeRoundTrip(p.paymentType.value);
    }
    var r := ValidatePayment(PaymentDraftOf(p));
    if r.Ok? {
      PaymentStatusRoundTrip(r.value.paymentStatus);
      if r.value.paymentType.Some? {
        PaymentTypeRoundTrip(r.value.paymentType.value);
      }
    }
  }

  /** Whether a payment is saved never depends on its dates, and the dates
      are stored as given. */
  lemma PaymentTimesOptional(d: PaymentDraft, started: Option<Time>, completed: Option<Time>)
    ensures ValidatePayment(d).Ok? <==>
      ValidatePayment(d.(timeInitialized := started, timeCompleted := completed)).Ok?
  {
  }

  /** Validation checks membership only: a saved payment accepts any
      status, from any status, and nothing else about it changes. */
  lemma PaymentStatusFreelyAssignable(p: Payment, st: PaymentStatus)
    requires PaymentWellFormed(p)
    ensures ValidatePayment(PaymentDraftOf(p).(paymentStatus := Some(st.Name()))) == Ok(p.(paymentStatus := st))
  {
    PaymentRoundTrip(p.(paymentStatus := st));
  }
}
