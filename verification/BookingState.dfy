/** The booking state machine as data (booking/state.py). */
module BookingState {
  import opened Wrappers

  type Person = nat

  datatype Status =
    | AwaitingPayment | Requested | Accepted | Active | Completed
    | Declined | Cancelled | Expired | PaymentFailed | Disputed

  datatype Action = Accept | Decline | Start | Complete | Cancel | Dispute | NoShow

  datatype SystemAction = Authorised | AuthorisedInstant | PaymentDeclined | Expire | AutoComplete | ListingRemoved

  datatype Role = Requester | Owner | Either

  /** A booking holds its window in these. */
  predicate Holding(s: Status) {
    s in {AwaitingPayment, Requested, Accepted, Active, Completed, Disputed}
  }

  predicate Final(s: Status) {
    s in {Completed, Declined, Cancelled, Expired, PaymentFailed}
  }

  datatype Transition = Transition(from: set<Status>, to: Status, who: Role)

  function TransitionOf(a: Action): Transition {
    match a
    case Accept => Transition({Requested}, Accepted, Owner)
    case Decline => Transition({Requested}, Declined, Owner)
    case Start => Transition({Accepted}, Active, Either)
    case Complete => Transition({Active}, Completed, Requester)
    case Cancel => Transition({AwaitingPayment, Requested, Accepted}, Cancelled, Either)
    case Dispute => Transition({Accepted, Active}, Disputed, Requester)
    case NoShow => Transition({Accepted}, Cancelled, Either)
  }

  function SystemTransition(a: SystemAction): (set<Status>, Status) {
    match a
    case Authorised => ({AwaitingPayment}, Requested)
    case AuthorisedInstant => ({AwaitingPayment}, Accepted)
    case PaymentDeclined => ({AwaitingPayment, Accepted}, PaymentFailed)
    case Expire => ({AwaitingPayment, Requested}, Expired)
    case AutoComplete => ({Accepted, Active}, Completed)
    case ListingRemoved => ({AwaitingPayment, Requested}, Declined)
  }

  function RoleOf(actor: Person, requester: Person, owner: Person): Option<Role> {
    if actor == requester then Some(Requester) else if actor == owner then Some(Owner) else None
  }

  function NextStatus(a: Action, s: Status, actor: Person, requester: Person, owner: Person): Result<Status> {
    var t := TransitionOf(a);
    var role := RoleOf(actor, requester, owner);
    if role.None? then Err(Forbidden)
    else if t.who != Either && role.value != t.who then Err(Forbidden)
    else if s !in t.from then Err(Conflict)
    else Ok(t.to)
  }

  function SystemStatus(a: SystemAction, s: Status): Option<Status> {
    var (from, to) := SystemTransition(a);
    if s in from then Some(to) else None
  }

  function CheckCanRate(s: Status, rated: bool, actor: Person, requester: Person): Result<bool> {
    if actor != requester then Err(Forbidden)
    else if s != Completed then Err(Conflict)
    else if rated then Err(Conflict)
    else Ok(true)
  }

  // --- what the two tables mean together ------------------------------------------

  /** The edges of the machine, from each status on. */
  predicate Allowed(from: Status, to: Status) {
    match from
    case AwaitingPayment => to in {Requested, Accepted, Declined, Cancelled, Expired, PaymentFailed}
    case Requested => to in {Accepted, Declined, Cancelled, Expired}
    case Accepted => to in {Active, Completed, Cancelled, PaymentFailed, Disputed}
    case Active => to in {Completed, Disputed}
    case Disputed => to in {Completed, Cancelled}
    case _ => false
  }

  /** They are those of the two tables, and a dispute's settlement. */
  lemma EdgesOfTheTables(from: Status, to: Status)
    ensures Allowed(from, to) <==>
      || (exists a :: from in TransitionOf(a).from && to == TransitionOf(a).to)
      || (exists a :: from in SystemTransition(a).0 && to == SystemTransition(a).1)
      || (from == Disputed && to in {Completed, Cancelled})
  {
    assert forall a :: from in TransitionOf(a).from && to == TransitionOf(a).to ==> Allowed(from, to);
    assert forall a :: from in SystemTransition(a).0 && to == SystemTransition(a).1 ==> Allowed(from, to);
    if Allowed(from, to) && from != Disputed {
      var p := match to
        case Accepted => Accept
        case Declined => Decline
        case Active => Start
        case Completed => Complete
        case Cancelled => Cancel
        case _ => Dispute;
      var s := match to
        case Requested => Authorised
        case Accepted => AuthorisedInstant
        case PaymentFailed => PaymentDeclined
        case Expired => Expire
        case Completed => AutoComplete
        case _ => ListingRemoved;
      assert (from in TransitionOf(p).from && to == TransitionOf(p).to)
        || (from in SystemTransition(s).0 && to == SystemTransition(s).1);
    }
  }

  function Rank(s: Status): nat {
    match s
    case AwaitingPayment => 5
    case Requested => 4
    case Accepted => 3
    case Active => 2
    case Disputed => 1
    case _ => 0
  }

  /** Every edge leads strictly down, so a booking moves at most five times. */
  lemma EdgesDescend(from: Status, to: Status)
    requires Allowed(from, to)
    ensures Rank(to) < Rank(from)
    ensures !Final(from)
  {}

  /** No edge takes a booking that let its window go back to holding it. */
  lemma NeverHoldsAgain(from: Status, to: Status)
    requires Allowed(from, to) && Holding(to)
    ensures Holding(from)
  {}

  /** The final statuses are the ones with no way out. */
  lemma FinalIsStuck(s: Status)
    ensures Final(s) <==> forall to :: !Allowed(s, to)
  {
    if !Final(s) {
      assert Allowed(s, if s in {AwaitingPayment, Requested} then Accepted else Completed);
    }
  }

  /** Accepting and declining are the owner's; confirming the job and
      disputing the requester's; the rest either side's. */
  predicate HasRole(a: Action, actor: Person, requester: Person, owner: Person) {
    if a in {Accept, Decline} then actor == owner
    else if a in {Complete, Dispute} then actor == requester
    else actor == owner || actor == requester
  }

  /** A person's move is refused exactly when they are no party, their side may
      not make it, or the booking is not where it starts from. */
  lemma WhoMayMove(a: Action, s: Status, actor: Person, requester: Person, owner: Person)
    requires requester != owner
    ensures var r := NextStatus(a, s, actor, requester, owner);
      && (r.Ok? ==> Allowed(s, r.value))
      && (r == Err(Conflict) <==> (s !in TransitionOf(a).from && HasRole(a, actor, requester, owner)))
  {
    if NextStatus(a, s, actor, requester, owner).Ok? {
      assert s in TransitionOf(a).from;
    }
  }
}
