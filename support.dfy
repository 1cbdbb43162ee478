/**
 * The `Support` schema: a ticket with required references to the order,
 * the user and the shop, required `query` text, a required `type` from the
 * query types, `isSolved` defaulting to false, `timeAsked` defaulting to
 * the time of creation, and an optional `timeSolved`. The schema has no
 * hooks. The clock behind `Date.now` is the parameter `now`.
 */
module Support {
  import opened Wrappers
  import opened Schema

  /** `queryTypes`; each is stored under its own name. */
  datatype QueryType = OrderQuery | PaymentQuery | PlatformQuery {
    function Name(): string {
      match this
      case OrderQuery => "ORDER"
      case PaymentQuery => "PAYMENT"
      case PlatformQuery => "PLATFORM"
    }
  }

  function ParseQueryType(s: string): (r: Option<QueryType>)
    ensures r.Some? ==> r.value.Name() == s
    ensures r.None? <==> forall t: QueryType :: t.Name() != s
  {
    if s == "ORDER" then Some(OrderQuery)
    else if s == "PAYMENT" then Some(PaymentQuery)
    else if s == "PLATFORM" then Some(PlatformQuery)
    else None
  }

  lemma QueryTypeRoundTrip(t: QueryType)
    ensures ParseQueryType(t.Name()) == Some(t)
  {
    match t
    case OrderQuery =>
    case PaymentQuery =>
    case PlatformQuery =>
  }

  /** A stored ticket. */
  datatype Ticket = Ticket(
    order: Id,
    user: Id,
    shop: Id,
    query: string,
    queryType: QueryType,
    isSolved: bool,
    timeAsked: Time,
    timeSolved: Option<Time>)

  /** The values a caller supplies. */
  datatype TicketDraft = TicketDraft(
    order: Option<Id>,
    user: Option<Id>,
    shop: Option<Id>,
    query: Option<string>,
    queryType: Option<string>,
    isSolved: Option<bool>,
    timeAsked: Option<Time>,
    timeSolved: Option<Time>)

  /** The paths whose validators can fail. */
  datatype TicketPath = TicketOrder | TicketUser | TicketShop | TicketQuery | TicketType

  const TicketPaths: seq<TicketPath> := [TicketOrder, TicketUser, TicketShop, TicketQuery, TicketType]

  lemma AllTicketPaths()
    ensures forall p :: p in TicketPaths
  {
    forall p: TicketPath ensures p in TicketPaths {
      match p
      case TicketOrder => assert TicketPaths[0] == p;
      case TicketUser => assert TicketPaths[1] == p;
      case TicketShop => assert TicketPaths[2] == p;
      case TicketQuery => assert TicketPaths[3] == p;
      case TicketType => assert TicketPaths[4] == p;
    }
  }

  /** `type`: `required` before `enum`; absent and "" fail as missing. */
  function TypeCheck(s: Option<string>): (r: Option<Reason>)
    ensures r.None? <==> s.Some? && ParseQueryType(s.value).Some?
    ensures r == Some(Required) <==> s.None? || s.value == []
  {
    if s.None? || s.value == [] then Some(Required)
    else if ParseQueryType(s.value).None? then Some(NotInEnum)
    else None
  }

  function CheckTicket(d: TicketDraft, p: TicketPath): Option<Reason> {
    match p
    case TicketOrder => RequiredValue(d.order)
    case TicketUser => RequiredValue(d.user)
    case TicketShop => RequiredValue(d.shop)
    case TicketQuery => RequiredText(d.query.GetOr(""))
    case TicketType => TypeCheck(d.queryType)
  }

  function TicketChecks(d: TicketDraft): TicketPath -> Option<Reason> {
    p => CheckTicket(d, p)
  }

  /** The ValidationError of saving `d`: exactly the failing paths. */
  function TicketErrors(d: TicketDraft): (errs: seq<FieldError<TicketPath>>)
    ensures errs == [] <==> forall p :: CheckTicket(d, p).None?
    ensures forall p :: Reports(errs, p) <==> CheckTicket(d, p).Some?
  {
    var errs := Collect(TicketPaths, TicketChecks(d));
    AllTicketPaths();
    assert forall p :: TicketChecks(d)(p) == CheckTicket(d, p);
    errs
  }

  /** What the validators demand, path by path; the flag and the dates are
      free. */
  ghost predicate TicketAccepted(d: TicketDraft) {
    && d.order.Some? && d.user.Some? && d.shop.Some?
    && d.query.Some? && d.query.value != []
    && d.queryType.Some? && ParseQueryType(d.queryType.value).Some?
  }

  lemma TicketAcceptedChecks(d: TicketDraft)
    ensures TicketAccepted(d) <==> forall p :: CheckTicket(d, p).None?
  {
    if TicketAccepted(d) {
      forall p ensures CheckTicket(d, p).None? {
        match p
        case TicketOrder =>
        case TicketUser =>
        case TicketShop =>
        case TicketQuery =>
        case TicketType =>
      }
    } else {
      assert !(CheckTicket(d, TicketOrder).None? && CheckTicket(d, TicketUser).None?
        && CheckTicket(d, TicketShop).None? && CheckTicket(d, TicketQuery).None?
        && CheckTicket(d, TicketType).None?);
    }
  }

  /** `Support.create(body)` at time `now`, up to the insert: the ticket,
      or the errors. */
  function ValidateTicket(d: TicketDraft, now: Time): (r: Result<Ticket, seq<FieldError<TicketPath>>>)
    ensures r.Ok? <==> TicketAccepted(d)
    ensures r.Err? ==> r.error == TicketErrors(d)
    ensures r.Ok? ==>
      && r.value.order == d.order.value && r.value.user == d.user.value
      && r.value.shop == d.shop.value && r.value.query == d.query.value
      && r.value.queryType.Name() == d.queryType.value
      && r.value.isSolved == d.isSolved.GetOr(false)
      && r.value.timeAsked == d.timeAsked.GetOr(now) && r.value.timeSolved == d.timeSolved
  {
    var errs := TicketErrors(d);
    TicketAcceptedChecks(d);
    if errs != [] then Err(errs)
    else
      Ok(Ticket(d.order.value, d.user.value, d.shop.value, d.query.value,
                ParseQueryType(d.queryType.value).value, d.isSolved.GetOr(false),
                d.timeAsked.GetOr(now), d.timeSolved))
  }

  /** What every saved ticket satisfies beyond its types. */
  ghost predicate TicketWellFormed(t: Ticket) {
    t.query != []
  }

  /** The body that recreates `t`. */
  function TicketDraftOf(t: Ticket): TicketDraft {
    TicketDraft(Some(t.order), Some(t.user), Some(t.shop), Some(t.query), Some(t.queryType.Name()),
                Some(t.isSolved), Some(t.timeAsked), t.timeSolved)
  }

  // ---------------------------------------------------------------------
  // Properties

  /** A new ticket is unsolved and asked now unless the body says
      otherwise; nothing sets `timeSolved`. */
  lemma NewTicketUnsolved(d: TicketDraft, now: Time)
    requires ValidateTicket(d, now).Ok?
    requires d.isSolved.None? && d.timeAsked.None? && d.timeSolved.None?
    ensures !ValidateTicket(d, now).value.isSolved
    ensures ValidateTicket(d, now).value.timeAsked == now
    ensures ValidateTicket(d, now).value.timeSolved.None?
  {
  }

  /** A ticket is well formed iff saving it as a body gives it back, at
      any time. */
  lemma TicketRoundTrip(t: Ticket, now: Time)
    ensures TicketWellFormed(t) <==> ValidateTicket(TicketDraftOf(t), now) == Ok(t)
  {
    QueryTypeRoundTrip(t.queryType);
    var r := ValidateTicket(TicketDraftOf(t), now);
    if r.Ok? {
      QueryTypeRoundTrip(r.value.queryType);
    }
  }

  /** A ticket without a type is rejected, and the error names `type` as
      missing. */
  lemma TicketTypeRequired(d: TicketDraft, now: Time)
    requires d.queryType.None?
    ensures ValidateTicket(d, now).Err?
    ensures exists e :: e in ValidateTicket(d, now).error && e.path == TicketType && e.reason == Required
  {
    var errs := ValidateTicket(d, now).error;
    assert Reports(errs, TicketType);
    var e :| e in errs && e.path == TicketType;
    assert CheckTicket(d, e.path) == Some(e.reason);
  }
}
