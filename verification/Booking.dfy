/** The booking service's tables, and what each request, event and sweep does to
    them in its one transaction (booking/repository.py, routes.py, handlers.py,
    support.py). Every function here answers with the tables after the commit,
    or with the error that rolled the transaction back. Times are milliseconds,
    money is minor units, ids are numbers. */
module Booking {
  import opened Wrappers
  import opened BookingState
  import opened Cancellation

  type Id = nat

  // --- rows ---------------------------------------------------------------------------

  datatype Party = TheOwner | TheRenter

  datatype Actor = Of(person: Person) | System | Payments | Support(staff: Person)

  /** The columns set at creation. `parent`: the booking this one extends. */
  datatype Terms = Terms(
    requester: Person, owner: Person, listing: Id, start: int, end: int, createdAt: int,
    amount: int, ownerNet: int, currency: nat, policy: Policy, instant: bool,
    key: Option<nat>, hash: nat, parent: Option<Id>)

  datatype Reviews = Reviews(outcome: Option<nat>, ratedAt: Option<int>, renterRating: Option<nat>, published: Option<int>)

  datatype Row = Row(
    terms: Terms, status: Status, expires: Option<int>,
    refund: Option<int>, noShow: Option<Party>, reviews: Reviews)

  /** One status change, as the trail and the event both record it. */
  datatype Change = Change(booking: Id, from: Option<Status>, to: Status, actor: Actor)

  datatype Edge = Edge(change: Change, at: int)

  datatype Offer = Offer(amount: int, offeredBy: Person)

  datatype DisputeRow = DisputeRow(opener: Person, openedAt: int, respondBy: int, escalated: Option<int>, offer: Option<Offer>, offeredAt: Option<int>)

  datatype Outcome = PayOwner | RefundBuyer | Partial

  datatype StaffRole = SupportRole | LeadRole | Parties

  datatype ResolutionStatus = PendingApproval | Done | Rejected | Withdrawn

  /** `approver`: who approved it, and in which role they did. */
  datatype Resolution = Resolution(
    booking: Id, outcome: Outcome, refund: int, author: Person, role: StaffRole,
    status: ResolutionStatus, approver: Option<(Person, StaffRole)>)

  datatype NoticeKind = OwnerPaid | Refunded | PartlyRefunded | Escalated

  datatype Event =
    | StatusChanged(change: Change, refund: Option<int>, noShow: Option<Party>)
    | BookingRated(booking: Id, outcome: nat)
    | RenterRated(booking: Id, quality: nat)
    | DisputeOffer(booking: Id, to: Person, offer: Offer)
    | Notice(booking: Id, kind: NoticeKind, refundAmount: int)
    | StaffAction(staff: Person, resolution: Id)

  datatype DB = DB(
    clock: int,
    bookings: map<Id, Row>,
    trail: seq<Edge>,
    disputes: map<Id, DisputeRow>,
    resolutions: map<Id, Resolution>,
    outbox: seq<Event>)

  datatype Settings = Settings(
    paymentTimeout: nat, answerWithin: nat, autoCompleteAfter: nat, startEarly: nat,
    offerWindow: nat, paidPolicies: bool, limit: (nat, StaffRole) -> int)

  const REVIEW_WINDOW := 14 * DAY
  const NO_SHOW_REPORTABLE := 2 * HOUR
  const NO_SHOW_GRACE := HOUR / 2

  function TrailOf(trail: seq<Edge>, id: Id): (r: seq<Edge>)
    ensures forall e :: e in r <==> e in trail && e.change.booking == id
  {
    if trail == [] then []
    else
      var init, e := trail[..|trail| - 1], trail[|trail| - 1];
      assert trail == init + [e];
      TrailOf(init, id) + if e.change.booking == id then [e] else []
  }

  // --- moving a booking -----------------------------------------------------------------

  function StatusEvent(c: Change, row: Row): Event { StatusChanged(c, row.refund, row.noShow) }

  /** `insert`: the row, its first trail line and its first event. */
  function Insert(db: DB, id: Id, row: Row): DB {
    var c := Change(id, None, row.status, Of(row.terms.requester));
    db.(bookings := db.bookings[id := row],
        trail := db.trail + [Edge(c, row.terms.createdAt)],
        outbox := db.outbox + [StatusEvent(c, row)])
  }

  /** `move`: the row as it will be, one trail line, one event. */
  function Move(db: DB, id: Id, row: Row, actor: Actor, now: int): DB
    requires id in db.bookings
  {
    var c := Change(id, Some(db.bookings[id].status), row.status, actor);
    db.(bookings := db.bookings[id := row],
        trail := db.trail + [Edge(c, now)],
        outbox := db.outbox + [StatusEvent(c, row)])
  }

  /** Moves the system makes on many rows at once, each by its own rule. */
  datatype Closing = Lapsing | Finishing | Declining | WithParent

  predicate Closable(k: Closing, row: Row) {
    match k
    case Lapsing => row.status in {AwaitingPayment, Requested}
    case Finishing => row.status in {Accepted, Active}
    case Declining => row.status in {AwaitingPayment, Requested}
    case WithParent => row.status in {AwaitingPayment, Requested, Accepted}
  }

  function Close(k: Closing, row: Row): Row {
    match k
    case Lapsing => row.(status := Expired, expires := None)
    case Finishing => row.(status := Completed, expires := None)
    case Declining => row.(status := Declined, expires := None)
    case WithParent =>
      if row.status == Accepted
      then row.(status := Cancelled, refund := Some(row.terms.amount), expires := None)
      else row.(status := Declined, expires := None)
  }

  /** The rows of `order`, one after the other. */
  function CloseEach(db: DB, k: Closing, order: seq<Id>, now: int): DB {
    if order == [] then db
    else
      var db1 := CloseEach(db, k, order[..|order| - 1], now);
      var id := order[|order| - 1];
      if id in db1.bookings then Move(db1, id, Close(k, db1.bookings[id]), System, now) else db1
  }

  ghost predicate Enumerates(order: seq<Id>, ids: set<Id>) {
    Among(order, ids) && forall id :: id in ids ==> id in order
  }

  ghost predicate Among(order: seq<Id>, ids: set<Id>) {
    Distinct(order) && forall id :: id in order ==> id in ids
  }

  // --- who sees a booking ---------------------------------------------------------------

  predicate FailedAfterAccept(db: DB, id: Id) {
    exists e :: e in db.trail && e.change.booking == id && e.change.from == Some(Accepted) && e.change.to == PaymentFailed
  }

  predicate OwnerSees(db: DB, id: Id)
    requires id in db.bookings
  {
    var s := db.bookings[id].status;
    s != AwaitingPayment && (s != PaymentFailed || FailedAfterAccept(db, id))
  }

  predicate Visible(db: DB, id: Id, viewer: Person) {
    && id in db.bookings
    && var row := db.bookings[id];
      && (viewer == row.terms.requester || viewer == row.terms.owner)
      && (viewer == row.terms.owner && viewer != row.terms.requester ==> OwnerSees(db, id))
  }

  // --- payments tells booking something (handlers.py) --------------------------------------

  function AnswerDeadline(cfg: Settings, now: int, t: Terms): int {
    if now + cfg.answerWithin <= t.start then now + cfg.answerWithin else t.start
  }

  function ApplyEvent(cfg: Settings, db: DB, id: Id, a: SystemAction, now: int): DB {
    if id !in db.bookings then db
    else
      var row := db.bookings[id];
      match SystemStatus(a, row.status)
      case None => db
      case Some(to) =>
        var expires := if to == Requested then Some(AnswerDeadline(cfg, now, row.terms)) else None;
        Move(db, id, row.(status := to, expires := expires), Payments, now)
  }

  function OnAuthorised(cfg: Settings, db: DB, id: Id, now: int): DB {
    var instant := id in db.bookings && db.bookings[id].terms.instant;
    ApplyEvent(cfg, db, id, if instant then AuthorisedInstant else Authorised, now)
  }

  function OnPaymentFailed(cfg: Settings, db: DB, id: Id, now: int): DB {
    ApplyEvent(cfg, db, id, PaymentDeclined, now)
  }

  /** `_with_payment`, when payments definitely refuses: the window is let go. */
  function PaymentRefused(db: DB, id: Id, now: int): DB {
    if id in db.bookings && db.bookings[id].status == AwaitingPayment
    then Move(db, id, db.bookings[id].(status := PaymentFailed, expires := None), System, now)
    else db
  }

  // --- people moving a booking along (routes.py) --------------------------------------------

  /** The card is charged at accept; before that there is only a hold. */
  predicate Charged(row: Row) { row.status in {Accepted, Active} }

  function Refund(cfg: Settings, row: Row, user: Person, now: int): int
    requires row.terms.amount >= 0
  {
    var policy := if cfg.paidPolicies then row.terms.policy else Flexible;
    RefundAmount(policy, row.terms.amount, Charged(row), user == row.terms.owner, now, row.terms.start)
  }

  /** Children `_end_extensions` takes along: direct ones still in flight. */
  function Extensions(db: DB, parent: Id): set<Id> {
    set id | id in db.bookings && id != parent && db.bookings[id].terms.parent == Some(parent) && Closable(WithParent, db.bookings[id])
  }

  /** The checks of `_transition` on a row its user may see, in the code's
      order: the row as the move leaves it. */
  function Checked(cfg: Settings, row: Row, a: Action, user: Person, now: int): Result<Row>
    requires row.terms.amount >= 0
  {
    if row.expires.Some? && row.expires.value <= now then Err(Conflict)
    else
      var to :- NextStatus(a, row.status, user, row.terms.requester, row.terms.owner);
      var started := now >= row.terms.start;
      var missing := if user == row.terms.requester then TheOwner else TheRenter;
      var opens := row.terms.start + if missing == TheRenter then NO_SHOW_GRACE else 0;
      if a == Cancel && started then Err(Conflict)
      else if a == Dispute && !started && row.status != Active then Err(Conflict)
      else if a == Start && now < row.terms.start - cfg.startEarly then Err(Conflict)
      else if a == NoShow && !(opens <= now <= row.terms.start + NO_SHOW_REPORTABLE) then Err(Conflict)
      else
        var moved := row.(status := to, expires := None);
        if a == NoShow then
          Ok(moved.(noShow := Some(missing), refund := Some(if missing == TheOwner then row.terms.amount else 0)))
        else if to == Cancelled && Charged(row) then
          Ok(moved.(refund := Some(Refund(cfg, row, user, now))))
        else Ok(moved)
  }

  /** `_transition`. `order`: the extensions a cancellation ends, as read. */
  function Act(cfg: Settings, db: DB, id: Id, a: Action, user: Person, order: seq<Id>, now: int): Result<DB>
    requires id in db.bookings ==> db.bookings[id].terms.amount >= 0
  {
    if !Visible(db, id, user) then Err(NotFound)
    else
      var row :- Checked(cfg, db.bookings[id], a, user, now);
      var db1 := Move(db, id, row, Of(user), now);
      if row.status == Cancelled then Ok(CloseEach(db1, WithParent, order, now))
      else if row.status == Disputed then
        if id in db1.disputes then Err(Conflict)
        else Ok(db1.(disputes := db1.disputes[id := DisputeRow(user, now, now + cfg.offerWindow, None, None, None)]))
      else Ok(db1)
  }

  // --- reviews --------------------------------------------------------------------------------

  /** The events that publish a row's reviews. */
  function PublishedEvents(id: Id, v: Reviews): seq<Event> {
    (if v.outcome.Some? then [BookingRated(id, v.outcome.value)] else [])
    + (if v.renterRating.Some? then [RenterRated(id, v.renterRating.value)] else [])
  }

  function PublishReviews(db: DB, id: Id, now: int): DB
    requires id in db.bookings
  {
    var row := db.bookings[id];
    if row.reviews.published.Some? then db
    else
      db.(bookings := db.bookings[id := row.(reviews := row.reviews.(published := Some(now)))],
          outbox := db.outbox + PublishedEvents(id, row.reviews))
  }

  function Rate(db: DB, id: Id, user: Person, outcome: nat, now: int): Result<DB> {
    if !Visible(db, id, user) then Err(NotFound)
    else
      var row := db.bookings[id];
      var _ :- CheckCanRate(row.status, row.reviews.outcome.Some?, user, row.terms.requester);
      if now > row.terms.end + REVIEW_WINDOW then Err(Conflict)
      else
        var db1 := db.(bookings := db.bookings[id := row.(reviews := row.reviews.(outcome := Some(outcome), ratedAt := Some(now)))]);
        Ok(if row.reviews.renterRating.Some? then PublishReviews(db1, id, now) else db1)
  }

  function RateRenter(db: DB, id: Id, user: Person, quality: nat, now: int): Result<DB> {
    if !Visible(db, id, user) then Err(NotFound)
    else
      var row := db.bookings[id];
      if user != row.terms.owner then Err(Forbidden)
      else if row.status != Completed then Err(Conflict)
      else if row.reviews.renterRating.Some? then Err(Conflict)
      else if now > row.terms.end + REVIEW_WINDOW then Err(Conflict)
      else
        var db1 := db.(bookings := db.bookings[id := row.(reviews := row.reviews.(renterRating := Some(quality)))]);
        Ok(if row.reviews.outcome.Some? then PublishReviews(db1, id, now) else db1)
  }

  predicate ReviewDue(row: Row, now: int) {
    && row.status == Completed && row.reviews.published.None?
    && (row.reviews.outcome.Some? || row.reviews.renterRating.Some?)
    && row.terms.end < now - REVIEW_WINDOW
  }

  function PublishEach(db: DB, order: seq<Id>, now: int): DB {
    if order == [] then db
    else
      var db1 := PublishEach(db, order[..|order| - 1], now);
      var id := order[|order| - 1];
      if id in db1.bookings then PublishReviews(db1, id, now) else db1
  }

  // --- settling a dispute (support.py) -----------------------------------------------------------

  function RefundFor(o: Outcome, part: Option<int>, amount: int): Result<int> {
    match o
    case PayOwner => Ok(0)
    case RefundBuyer => Ok(amount)
    case Partial => if part.None? || !(0 < part.value < amount) then Err(Invalid) else Ok(part.value)
  }

  function OutcomeOf(refund: int, amount: int): Outcome {
    if refund == 0 then PayOwner else if refund == amount then RefundBuyer else Partial
  }

  function NoticeOf(o: Outcome): NoticeKind {
    match o
    case PayOwner => OwnerPaid
    case RefundBuyer => Refunded
    case Partial => PartlyRefunded
  }

  function SettledRow(row: Row, refund: int): Row {
    var to := if refund == row.terms.amount then Cancelled else Completed;
    if refund != 0 then row.(status := to, refund := Some(refund)) else row.(status := to)
  }

  /** `settle`: the one place a dispute moves money. */
  function Settle(db: DB, id: Id, refund: int, actor: Actor, now: int): Result<DB>
    requires id in db.bookings
  {
    var row := db.bookings[id];
    if row.status != Disputed then Err(Conflict)
    else
      var db1 := Move(db, id, SettledRow(row, refund), actor, now);
      Ok(db1.(outbox := db1.outbox + [Notice(id, NoticeOf(OutcomeOf(refund, row.terms.amount)), refund)]))
  }

  function MakeOffer(cfg: Settings, db: DB, id: Id, user: Person, amount: nat, now: int): Result<DB> {
    if !Visible(db, id, user) then Err(NotFound)
    else
      var row := db.bookings[id];
      if row.status != Disputed then Err(Conflict)
      else if amount > row.terms.amount then Err(Invalid)
      else
        var d := if id in db.disputes then db.disputes[id]
                 else DisputeRow(row.terms.requester, now, now + cfg.offerWindow, None, None, None);
        var offer := Offer(amount, user);
        var other := if user == row.terms.requester then row.terms.owner else row.terms.requester;
        Ok(db.(disputes := db.disputes[id := d.(offer := Some(offer), offeredAt := Some(now), respondBy := now + cfg.offerWindow)],
               outbox := db.outbox + [DisputeOffer(id, other, offer)]))
  }

  function AcceptOffer(db: DB, id: Id, user: Person, amount: nat, rid: Id, now: int): Result<DB> {
    if !Visible(db, id, user) then Err(NotFound)
    else if id !in db.disputes || db.disputes[id].offer.None? then Err(Conflict)
    else
      var offer := db.disputes[id].offer.value;
      if offer.offeredBy == user then Err(Forbidden)
      else if offer.amount != amount then Err(Conflict)
      else
        var row := db.bookings[id];
        var res := Resolution(id, OutcomeOf(amount, row.terms.amount), amount, user, Parties, Done, None);
        Settle(db.(resolutions := db.resolutions[rid := res]), id, amount, Of(user), now)
  }

  predicate AwaitsApproval(db: DB, id: Id) {
    exists r :: r in db.resolutions && db.resolutions[r].booking == id && db.resolutions[r].status == PendingApproval
  }

  function Audit(db: DB, staff: Person, rid: Id): DB {
    db.(outbox := db.outbox + [StaffAction(staff, rid)])
  }

  /** `_resolve`: at once within the proposer's limit, else pending a second pair of eyes. */
  function Resolve(
    cfg: Settings, db: DB, id: Id, o: Outcome, part: Option<int>, staff: Person, role: StaffRole, rid: Id, now: int)
    : Result<DB>
  {
    if id !in db.bookings then Err(NotFound)
    else
      var row := db.bookings[id];
      if row.status != Disputed then Err(Conflict)
      else if AwaitsApproval(db, id) then Err(Conflict)
      else
        var refund :- RefundFor(o, part, row.terms.amount);
        var within := refund <= cfg.limit(row.terms.currency, role);
        var res := Resolution(id, o, refund, staff, role, if within then Done else PendingApproval, None);
        var db1 := db.(resolutions := db.resolutions[rid := res]);
        var db2 :- if within then Settle(db1, id, refund, Support(staff), now) else Ok(db1);
        Ok(Audit(db2, staff, rid))
  }

  /** `_pending`: a resolution still waiting, or why not. */
  function Pending(db: DB, rid: Id): Result<Resolution> {
    if rid !in db.resolutions then Err(NotFound)
    else if db.resolutions[rid].status != PendingApproval then Err(Conflict)
    else if db.resolutions[rid].booking !in db.bookings then Err(NotFound)
    else Ok(db.resolutions[rid])
  }

  function Approve(cfg: Settings, db: DB, rid: Id, staff: Person, role: StaffRole, now: int): Result<DB> {
    var res :- Pending(db, rid);
    if res.author == staff then Err(Forbidden)
    else if role != LeadRole && res.refund > cfg.limit(db.bookings[res.booking].terms.currency, role) then Err(Forbidden)
    else
      var done := res.(status := Done, approver := Some((staff, role)));
      var db1 :- Settle(db.(resolutions := db.resolutions[rid := done]), res.booking, res.refund, Support(staff), now);
      Ok(Audit(db1, staff, rid))
  }

  function Reject(db: DB, rid: Id, staff: Person): Result<DB> {
    var res :- Pending(db, rid);
    if res.author == staff then Err(Forbidden)
    else Ok(Audit(db.(resolutions := db.resolutions[rid := res.(status := Rejected)]), staff, rid))
  }

  function Withdraw(db: DB, rid: Id, staff: Person): Result<DB> {
    var res :- Pending(db, rid);
    if res.author != staff then Err(Forbidden)
    else Ok(Audit(db.(resolutions := db.resolutions[rid := res.(status := Withdrawn)]), staff, rid))
  }

  predicate EscalationDue(db: DB, id: Id, now: int) {
    && id in db.disputes && db.disputes[id].escalated.None? && db.disputes[id].respondBy <= now
    && id in db.bookings && db.bookings[id].status == Disputed
  }

  function EscalateEach(db: DB, order: seq<Id>, now: int): DB {
    if order == [] then db
    else
      var db1 := EscalateEach(db, order[..|order| - 1], now);
      var id := order[|order| - 1];
      if id in db1.disputes then
        db1.(disputes := db1.disputes[id := db1.disputes[id].(escalated := Some(now))],
             outbox := db1.outbox + [Notice(id, Escalated, 0)])
      else db1
  }

  // --- one committed transaction of any kind --------------------------------------------------------

  datatype Op =
    | PaymentAuthorised(id: Id)
    | PaymentFails(id: Id)
    | PaymentIsRefused(id: Id)
    | Acts(id: Id, action: Action, user: Person, order: seq<Id>)
    | RemoveListing(listing: Id, order: seq<Id>)
    | SuspendRequester(person: Person, order: seq<Id>)
    | SweepLapsed(order: seq<Id>)
    | SweepFinished(order: seq<Id>)
    | SweepReviews(order: seq<Id>)
    | SweepDisputes(order: seq<Id>)
    | Rates(id: Id, user: Person, quality: nat)
    | RatesRenter(id: Id, user: Person, quality: nat)
    | Offers(id: Id, user: Person, amount: nat)
    | Accepts(id: Id, user: Person, amount: nat, rid: Id)
    | Resolves(id: Id, outcome: Outcome, part: Option<int>, staff: Person, role: StaffRole, rid: Id)
    | Approves(rid: Id, staff: Person, role: StaffRole)
    | Rejects(rid: Id, staff: Person)
    | Withdraws(rid: Id, staff: Person)

  function PendingOf(db: DB, listing: Id): set<Id> {
    set id | id in db.bookings && db.bookings[id].terms.listing == listing && Closable(Declining, db.bookings[id])
  }

  function PendingBy(db: DB, person: Person): set<Id> {
    set id | id in db.bookings && db.bookings[id].terms.requester == person && Closable(Declining, db.bookings[id])
  }

  predicate LapseDue(row: Row, now: int) {
    Closable(Lapsing, row) && row.expires.Some? && row.expires.value <= now
  }

  predicate FinishDue(cfg: Settings, row: Row, now: int) {
    Closable(Finishing, row) && row.terms.end <= now - cfg.autoCompleteAfter
  }

  /** The booking a transaction locks before it reads the clock. One that closes
      many reads it first and then waits for their locks. */
  function Locks(db: DB, op: Op): Option<Id> {
    match op
    case PaymentAuthorised(id) => Some(id)
    case PaymentFails(id) => Some(id)
    case PaymentIsRefused(id) => Some(id)
    case Acts(id, _, _, _) => Some(id)
    case Rates(id, _, _) => Some(id)
    case RatesRenter(id, _, _) => Some(id)
    case Offers(id, _, _) => Some(id)
    case Accepts(id, _, _, _) => Some(id)
    case Resolves(id, _, _, _, _, _) => Some(id)
    case Approves(rid, _, _) => Decides(db, rid)
    case Rejects(rid, _) => Decides(db, rid)
    case Withdraws(rid, _) => Decides(db, rid)
    case _ => None
  }

  function Decides(db: DB, rid: Id): Option<Id> {
    if rid in db.resolutions then Some(db.resolutions[rid].booking) else None
  }

  predicate NotBefore(tr: seq<Edge>, now: int) { tr == [] || tr[|tr| - 1].at <= now }

  /** Not before the booking last moved, nor before its reviews came out. */
  ghost predicate SinceLast(db: DB, id: Id, now: int) {
    && NotBefore(TrailOf(db.trail, id), now)
    && (id in db.bookings && db.bookings[id].reviews.published.Some? ==> db.bookings[id].reviews.published.value <= now)
  }

  /** A reading of the clock that a transaction committing now may have made. */
  ghost predicate InTurn(db: DB, op: Op, now: int) {
    now <= db.clock && (Locks(db, op).Some? ==> SinceLast(db, Locks(db, op).value, now))
  }

  /** A transaction that commits now, and read the clock at `now`. */
  ghost predicate Enabled(cfg: Settings, db: DB, op: Op, now: int) {
    InTurn(db, op, now) && Finds(cfg, db, op, now)
  }

  /** What the database gives it: rows read as they are, fresh ids. */
  ghost predicate Finds(cfg: Settings, db: DB, op: Op, now: int) {
    match op
    case Acts(id, _, _, order) => Among(order, Extensions(db, id))
    case RemoveListing(listing, order) => Among(order, PendingOf(db, listing))
    case SuspendRequester(person, order) => Among(order, PendingBy(db, person))
    case SweepLapsed(order) =>
      Distinct(order) && forall id :: id in order ==> id in db.bookings && LapseDue(db.bookings[id], now)
    case SweepFinished(order) =>
      Distinct(order) && forall id :: id in order ==> id in db.bookings && FinishDue(cfg, db.bookings[id], now)
    case SweepReviews(order) =>
      Distinct(order) && forall id :: id in order ==> id in db.bookings && ReviewDue(db.bookings[id], now)
    case SweepDisputes(order) => Distinct(order) && forall id :: id in order ==> EscalationDue(db, id, now)
    case Accepts(_, _, _, rid) => rid !in db.resolutions
    case Resolves(_, _, _, _, role, rid) => role != Parties && rid !in db.resolutions
    case Approves(_, _, role) => role != Parties
    case _ => true
  }

  ghost predicate AmountsOk(db: DB) {
    forall id :: id in db.bookings ==> db.bookings[id].terms.amount >= 0
  }

  /** The answer of one transaction that read the clock at `now`. */
  function Answer(cfg: Settings, db: DB, op: Op, now: int): Result<DB>
    requires AmountsOk(db)
  {
    match op
    case PaymentAuthorised(id) => Ok(OnAuthorised(cfg, db, id, now))
    case PaymentFails(id) => Ok(OnPaymentFailed(cfg, db, id, now))
    case PaymentIsRefused(id) => Ok(PaymentRefused(db, id, now))
    case Acts(id, a, user, order) => Act(cfg, db, id, a, user, order, now)
    case RemoveListing(_, order) => Ok(CloseEach(db, Declining, order, now))
    case SuspendRequester(_, order) => Ok(CloseEach(db, Declining, order, now))
    case SweepLapsed(order) => Ok(CloseEach(db, Lapsing, order, now))
    case SweepFinished(order) => Ok(CloseEach(db, Finishing, order, now))
    case SweepReviews(order) => Ok(PublishEach(db, order, now))
    case SweepDisputes(order) => Ok(EscalateEach(db, order, now))
    case Rates(id, user, q) => Rate(db, id, user, q, now)
    case RatesRenter(id, user, q) => RateRenter(db, id, user, q, now)
    case Offers(id, user, amount) => MakeOffer(cfg, db, id, user, amount, now)
    case Accepts(id, user, amount, rid) => AcceptOffer(db, id, user, amount, rid, now)
    case Resolves(id, o, part, staff, role, rid) => Resolve(cfg, db, id, o, part, staff, role, rid, now)
    case Approves(rid, staff, role) => Approve(cfg, db, rid, staff, role, now)
    case Rejects(rid, staff) => Reject(db, rid, staff)
    case Withdraws(rid, staff) => Withdraw(db, rid, staff)
  }

  /** The tables after it: as committed, or untouched when it was refused. */
  function After(cfg: Settings, db: DB, op: Op, now: int): DB
    requires AmountsOk(db)
  {
    match Answer(cfg, db, op, now)
    case Ok(db1) => db1
    case Err(_) => db
  }
}
