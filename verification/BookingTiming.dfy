/** Who made each move of a booking, and when it could be made: what the guards
    of five kinds of writers amount to over whole runs. */
module BookingTiming {
  import opened Wrappers
  import opened BookingState
  import opened Booking
  import opened BookingInvariants
  import opened BookingOps
  import opened BookingSystem
  import opened BookingLog

  /** A line of the trail was written by someone who may, at a time they may. */
  predicate Timely(cfg: Settings, t: Terms, e: Edge) {
    var from, to := e.change.from, e.change.to;
    match e.change.actor
    case Of(user) => (user == t.requester || user == t.owner) && ByAParty(cfg, t, from, to, user, e.at)
    case System => BySystem(cfg, t, from, to, e.at)
    case Payments =>
      || (from == Some(AwaitingPayment) && to == (if t.instant then Accepted else Requested))
      || (from in {Some(AwaitingPayment), Some(Accepted)} && to == PaymentFailed)
    case Support(_) => from == Some(Disputed) && to in {Completed, Cancelled}
  }

  predicate ByAParty(cfg: Settings, t: Terms, from: Option<Status>, to: Status, user: Person, at: int) {
    if from == None then user == t.requester && to == AwaitingPayment
    else if from == Some(Disputed) then to in {Completed, Cancelled}
    else
      match to
      case Accepted => user == t.owner && at < t.start
      case Declined => user == t.owner && at < t.start
      case Active => at >= t.start - cfg.startEarly
      case Completed => user == t.requester && from == Some(Active)
      case Disputed => user == t.requester && (from == Some(Active) || at >= t.start)
      case Cancelled => at < t.start || (from == Some(Accepted) && NoShowTime(t, user, at))
      case _ => false
  }

  /** Someone missing is reported within two hours; a late renter has half of one first. */
  predicate NoShowTime(t: Terms, user: Person, at: int) {
    t.start + (if user == t.owner then NO_SHOW_GRACE else 0) <= at <= t.start + NO_SHOW_REPORTABLE
  }

  predicate BySystem(cfg: Settings, t: Terms, from: Option<Status>, to: Status, at: int) {
    match to
    case Expired => from in {Some(AwaitingPayment), Some(Requested)}
    case Declined => from in {Some(AwaitingPayment), Some(Requested)}
    case Completed => from in {Some(Accepted), Some(Active)} && at >= t.end + cfg.autoCompleteAfter
    case Cancelled => from == Some(Accepted) && t.parent.Some?
    case PaymentFailed => from == Some(AwaitingPayment)
    case _ => false
  }

  ghost predicate TimelyAt(cfg: Settings, db: DB, k: nat)
    requires k < |db.trail|
  {
    var id := db.trail[k].change.booking;
    id in db.bookings && Timely(cfg, db.bookings[id].terms, db.trail[k]) && InOrder(db.trail, k)
  }

  /** The system ends it, with others: the clock was read before its row was locked. */
  predicate Closes(c: Change) { c.actor == System && c.to in {Expired, Declined, Completed, Cancelled} }

  /** A line is no earlier than the booking's line before it, unless it is one of those. */
  predicate InOrder(trail: seq<Edge>, k: nat)
    requires k < |trail|
  {
    Closes(trail[k].change) || NotBefore(TrailOf(trail[..k], trail[k].change.booking), trail[k].at)
  }

  ghost predicate AllTimely(cfg: Settings, db: DB) {
    forall k :: 0 <= k < |db.trail| ==> TimelyAt(cfg, db, k)
  }

  /** The later tables kept every booking's terms, and added only timely lines. */
  ghost predicate AddsTimely(cfg: Settings, db: DB, db': DB) {
    && Appends(db, db') && SameTerms(db, db')
    && forall k :: |db.trail| <= k < |db'.trail| ==> TimelyAt(cfg, db', k)
  }

  ghost predicate SameTerms(db: DB, db': DB) {
    forall id :: id in db.bookings ==> id in db'.bookings && db'.bookings[id].terms == db.bookings[id].terms
  }

  lemma StillTimely(cfg: Settings, db: DB, db': DB)
    requires AllTimely(cfg, db) && AddsTimely(cfg, db, db')
    ensures AllTimely(cfg, db')
  {
    hide Timely, TrailOf;
    forall k | 0 <= k < |db'.trail| ensures TimelyAt(cfg, db', k) {
      if k < |db.trail| { assert TimelyAt(cfg, db, k) && db'.trail[k] == db.trail[k] && db'.trail[..k] == db.trail[..k]; }
    }
  }

  lemma AddsTrans(cfg: Settings, a: DB, b: DB, c: DB)
    requires AddsTimely(cfg, a, b) && AddsTimely(cfg, b, c)
    ensures AddsTimely(cfg, a, c)
  {
    hide Timely, TrailOf;
    forall k | |a.trail| <= k < |c.trail| ensures TimelyAt(cfg, c, k) {
      if k < |b.trail| { assert TimelyAt(cfg, b, k) && c.trail[k] == b.trail[k] && c.trail[..k] == b.trail[..k]; }
    }
  }

  lemma NothingAdded(cfg: Settings, db: DB, db': DB)
    requires db'.trail == db.trail && db.outbox <= db'.outbox && SameTerms(db, db')
    ensures AddsTimely(cfg, db, db')
  {}

  lemma OneMove(cfg: Settings, db: DB, id: Id, row: Row, actor: Actor, now: int)
    requires id in db.bookings && row.terms == db.bookings[id].terms
    requires Timely(cfg, row.terms, Edge(Change(id, Some(db.bookings[id].status), row.status, actor), now))
    requires Closes(Change(id, Some(db.bookings[id].status), row.status, actor)) || NotBefore(TrailOf(db.trail, id), now)
    ensures AddsTimely(cfg, db, Move(db, id, row, actor, now))
  {
    hide Timely, TrailOf;
    assert Move(db, id, row, actor, now).trail[..|db.trail|] == db.trail;
  }

  lemma CloseOneTimely(cfg: Settings, db: DB, k: Closing, id: Id, now: int)
    requires id in db.bookings && Closable(k, db.bookings[id])
    requires k == Finishing ==> db.bookings[id].terms.end <= now - cfg.autoCompleteAfter
    requires k == WithParent ==> db.bookings[id].terms.parent.Some?
    ensures AddsTimely(cfg, db, Move(db, id, Close(k, db.bookings[id]), System, now))
  {
    hide AddsTimely;
    OneMove(cfg, db, id, Close(k, db.bookings[id]), System, now);
  }

  lemma {:induction false} CloseEachTimely(cfg: Settings, db: DB, k: Closing, order: seq<Id>, now: int)
    requires Distinct(order) && forall id :: id in order ==> id in db.bookings && Closable(k, db.bookings[id])
    requires k == Finishing ==> forall id :: id in order ==> db.bookings[id].terms.end <= now - cfg.autoCompleteAfter
    requires k == WithParent ==> forall id :: id in order ==> db.bookings[id].terms.parent.Some?
    ensures AddsTimely(cfg, db, CloseEach(db, k, order, now))
  {
    if order == [] {
      NothingAdded(cfg, db, db);
    } else {
      var init, id := order[..|order| - 1], order[|order| - 1];
      CloseEachTimely(cfg, db, k, init, now);
      CloseEachEffect(db, k, init, now);
      assert id in order && id !in init;
      var db1 := CloseEach(db, k, init, now);
      CloseOneTimely(cfg, db1, k, id, now);
      hide AddsTimely, Closable, Close;
      AddsTrans(cfg, db, db1, CloseEach(db, k, order, now));
    }
  }

  lemma CheckedIsTimely(cfg: Settings, r: Row, tr: seq<Edge>, clock: int, a: Action, user: Person, id: Id, now: int)
    requires RowOk(r, tr, clock) && Checked(cfg, r, a, user, now).Ok? && (user == r.terms.requester || user == r.terms.owner)
    ensures var s := Checked(cfg, r, a, user, now).value;
      s.terms == r.terms && Timely(cfg, r.terms, Edge(Change(id, Some(r.status), s.status, Of(user)), now))
  {
    hide Path, MoneyOk, ReviewsOk, WasAccepted, Refund;
  }

  lemma ActParts(cfg: Settings, db: DB, id: Id, a: Action, user: Person, order: seq<Id>, now: int)
    requires AmountsOk(db) && Act(cfg, db, id, a, user, order, now).Ok?
    ensures id in db.bookings && (user == db.bookings[id].terms.requester || user == db.bookings[id].terms.owner)
    ensures Checked(cfg, db.bookings[id], a, user, now).Ok?
    ensures var row := Checked(cfg, db.bookings[id], a, user, now).value;
      var db1 := Move(db, id, row, Of(user), now);
      Act(cfg, db, id, a, user, order, now).value ==
        if row.status == Cancelled then CloseEach(db1, WithParent, order, now)
        else if row.status == Disputed then
          db1.(disputes := db1.disputes[id := DisputeRow(user, now, now + cfg.offerWindow, None, None, None)])
        else db1
  {
    hide Checked, OwnerSees, CloseEach, Move;
  }

  lemma ActTimely(cfg: Settings, db: DB, id: Id, a: Action, user: Person, order: seq<Id>, now: int)
    requires Inv(cfg, db) && AmountsOk(db) && Among(order, Extensions(db, id))
    requires Act(cfg, db, id, a, user, order, now).Ok? && NotBefore(TrailOf(db.trail, id), now)
    ensures AddsTimely(cfg, db, Act(cfg, db, id, a, user, order, now).value)
  {
    ActParts(cfg, db, id, a, user, order, now);
    TheRow(cfg, db, id);
    var row := Checked(cfg, db.bookings[id], a, user, now).value;
    CheckedIsTimely(cfg, db.bookings[id], TrailOf(db.trail, id), db.clock, a, user, id, now);
    hide Inv, Act, Checked, AmountsOk, RowOk, Timely, AddsTimely, CloseEach, ReviewLogOk, Among, Extensions;
    OneMove(cfg, db, id, row, Of(user), now);
    ChildrenStand(db, id, row, Of(user), order, now);
    hide Move;
    var db1 := Move(db, id, row, Of(user), now);
    var db2 := db1.(disputes := db1.disputes[id := DisputeRow(user, now, now + cfg.offerWindow, None, None, None)]);
    Unseen(cfg, db1, db2);
    AddsTrans(cfg, db, db1, db2);
    CloseEachTimely(cfg, db1, WithParent, order, now);
    AddsTrans(cfg, db, db1, CloseEach(db1, WithParent, order, now));
  }

  lemma Unseen(cfg: Settings, db: DB, db': DB)
    requires db'.trail == db.trail && db'.bookings == db.bookings && db.outbox <= db'.outbox
    ensures AddsTimely(cfg, db, db')
  {
    NothingAdded(cfg, db, db');
  }

  lemma ChildrenStand(db: DB, id: Id, row: Row, actor: Actor, order: seq<Id>, now: int)
    requires id in db.bookings && Among(order, Extensions(db, id))
    ensures var db1 := Move(db, id, row, actor, now);
      && Distinct(order)
      && forall x :: x in order ==> x in db1.bookings && Closable(WithParent, db1.bookings[x]) && db1.bookings[x].terms.parent.Some?
  {}

  lemma SettleTimely(cfg: Settings, db: DB, id: Id, refund: int, actor: Actor, now: int)
    requires id in db.bookings && Settle(db, id, refund, actor, now).Ok? && NotBefore(TrailOf(db.trail, id), now)
    requires actor.Support? || (actor.Of? && actor.person in {db.bookings[id].terms.requester, db.bookings[id].terms.owner})
    ensures AddsTimely(cfg, db, Settle(db, id, refund, actor, now).value)
  {
    var row := SettledRow(db.bookings[id], refund);
    OneMove(cfg, db, id, row, actor, now);
    var db1 := Move(db, id, row, actor, now);
    hide Timely, OutcomeOf, AddsTimely;
    Unseen(cfg, db1, Settle(db, id, refund, actor, now).value);
    AddsTrans(cfg, db, db1, Settle(db, id, refund, actor, now).value);
  }

  lemma AcceptOfferTimely(cfg: Settings, db: DB, id: Id, user: Person, amount: nat, rid: Id, now: int)
    requires AcceptOffer(db, id, user, amount, rid, now).Ok? && NotBefore(TrailOf(db.trail, id), now)
    ensures AddsTimely(cfg, db, AcceptOffer(db, id, user, amount, rid, now).value)
  {
    hide OwnerSees, Settle, AddsTimely, OutcomeOf;
    var res := Resolution(id, OutcomeOf(amount, db.bookings[id].terms.amount), amount, user, Parties, Done, None);
    var db1 := db.(resolutions := db.resolutions[rid := res]);
    Unseen(cfg, db, db1);
    SettleTimely(cfg, db1, id, amount, Of(user), now);
    AddsTrans(cfg, db, db1, AcceptOffer(db, id, user, amount, rid, now).value);
  }

  lemma ResolveTimely(
    cfg: Settings, db: DB, id: Id, o: Outcome, part: Option<int>, staff: Person, role: StaffRole, rid: Id, now: int)
    requires Resolve(cfg, db, id, o, part, staff, role, rid, now).Ok? && NotBefore(TrailOf(db.trail, id), now)
    ensures AddsTimely(cfg, db, Resolve(cfg, db, id, o, part, staff, role, rid, now).value)
  {
    hide Settle, AddsTimely, AwaitsApproval, RefundFor;
    var refund := RefundFor(o, part, db.bookings[id].terms.amount).value;
    var within := refund <= cfg.limit(db.bookings[id].terms.currency, role);
    var res := Resolution(id, o, refund, staff, role, if within then Done else PendingApproval, None);
    var db1 := db.(resolutions := db.resolutions[rid := res]);
    Unseen(cfg, db, db1);
    var db2 := if within then Settle(db1, id, refund, Support(staff), now).value else db1;
    if within {
      SettleTimely(cfg, db1, id, refund, Support(staff), now);
      AddsTrans(cfg, db, db1, db2);
    }
    Unseen(cfg, db2, Audit(db2, staff, rid));
    AddsTrans(cfg, db, db2, Audit(db2, staff, rid));
  }

  lemma ApproveTimely(cfg: Settings, db: DB, rid: Id, staff: Person, role: StaffRole, now: int)
    requires Approve(cfg, db, rid, staff, role, now).Ok? && NotBefore(TrailOf(db.trail, db.resolutions[rid].booking), now)
    ensures AddsTimely(cfg, db, Approve(cfg, db, rid, staff, role, now).value)
  {
    hide Settle, AddsTimely;
    var res := Booking.Pending(db, rid).value;
    var db1 := db.(resolutions := db.resolutions[rid := res.(status := Done, approver := Some((staff, role)))]);
    Unseen(cfg, db, db1);
    SettleTimely(cfg, db1, res.booking, res.refund, Support(staff), now);
    var db2 := Settle(db1, res.booking, res.refund, Support(staff), now).value;
    AddsTrans(cfg, db, db1, db2);
    Unseen(cfg, db2, Audit(db2, staff, rid));
    AddsTrans(cfg, db, db2, Audit(db2, staff, rid));
  }

  lemma PaymentTimely(cfg: Settings, db: DB, id: Id, a: SystemAction, now: int)
    requires a in {Authorised, AuthorisedInstant, PaymentDeclined} && NotBefore(TrailOf(db.trail, id), now)
    requires id in db.bookings && a != PaymentDeclined ==> a == if db.bookings[id].terms.instant then AuthorisedInstant else Authorised
    ensures AddsTimely(cfg, db, ApplyEvent(cfg, db, id, a, now))
    ensures AddsTimely(cfg, db, PaymentRefused(db, id, now))
  {
    hide AddsTimely, ApplyEvent, PaymentRefused;
    EventTimely(cfg, db, id, a, now);
    RefusalTimely(cfg, db, id, now);
  }

  lemma EventTimely(cfg: Settings, db: DB, id: Id, a: SystemAction, now: int)
    requires a in {Authorised, AuthorisedInstant, PaymentDeclined} && NotBefore(TrailOf(db.trail, id), now)
    requires id in db.bookings && a != PaymentDeclined ==> a == if db.bookings[id].terms.instant then AuthorisedInstant else Authorised
    ensures AddsTimely(cfg, db, ApplyEvent(cfg, db, id, a, now))
  {
    hide AnswerDeadline, AddsTimely, TrailOf, Move;
    NothingAdded(cfg, db, db);
    if id in db.bookings && SystemStatus(a, db.bookings[id].status).Some? {
      var to := SystemStatus(a, db.bookings[id].status).value;
      OneMove(cfg, db, id,
        db.bookings[id].(status := to, expires := if to == Requested then Some(AnswerDeadline(cfg, now, db.bookings[id].terms)) else None),
        Payments, now);
    }
  }

  lemma RefusalTimely(cfg: Settings, db: DB, id: Id, now: int)
    requires NotBefore(TrailOf(db.trail, id), now)
    ensures AddsTimely(cfg, db, PaymentRefused(db, id, now))
  {
    hide AddsTimely, TrailOf, Move;
    NothingAdded(cfg, db, db);
    if id in db.bookings && db.bookings[id].status == AwaitingPayment {
      OneMove(cfg, db, id, db.bookings[id].(status := PaymentFailed, expires := None), System, now);
    }
  }

  /** The transactions that write no trail line. */
  lemma QuietOps(cfg: Settings, db: DB, op: Op, now: int)
    requires AmountsOk(db) && (op.Rates? || op.RatesRenter? || op.Offers? || op.Rejects? || op.Withdraws?)
    requires Answer(cfg, db, op, now).Ok?
    ensures AddsTimely(cfg, db, Answer(cfg, db, op, now).value)
  {
    hide OwnerSees, AmountsOk;
    NothingAdded(cfg, db, Answer(cfg, db, op, now).value);
  }

  lemma {:induction false} PublishingIsQuiet(db: DB, order: seq<Id>, now: int)
    ensures PublishEach(db, order, now).trail == db.trail && SameTerms(db, PublishEach(db, order, now))
  {
    if order != [] { PublishingIsQuiet(db, order[..|order| - 1], now); }
  }

  lemma {:induction false} EscalatingIsQuiet(db: DB, order: seq<Id>, now: int)
    ensures EscalateEach(db, order, now).trail == db.trail && EscalateEach(db, order, now).bookings == db.bookings
  {
    if order != [] { EscalatingIsQuiet(db, order[..|order| - 1], now); }
  }

  lemma SweepTimely(cfg: Settings, db: DB, op: Op, now: int)
    requires AmountsOk(db) && Enabled(cfg, db, op, now)
    requires op.RemoveListing? || op.SuspendRequester? || op.SweepLapsed? || op.SweepFinished? || op.SweepReviews? || op.SweepDisputes?
    ensures Answer(cfg, db, op, now).Ok? && AddsTimely(cfg, db, Answer(cfg, db, op, now).value)
  {
    BatchesAreClosable(cfg, db, op, now);
    hide AmountsOk, AddsTimely, CloseEach, PublishEach, EscalateEach, Timely;
    match op {
      case RemoveListing(_, order) => CloseEachTimely(cfg, db, Declining, order, now);
      case SuspendRequester(_, order) => CloseEachTimely(cfg, db, Declining, order, now);
      case SweepLapsed(order) => CloseEachTimely(cfg, db, Lapsing, order, now);
      case SweepFinished(order) => CloseEachTimely(cfg, db, Finishing, order, now);
      case SweepReviews(order) =>
        PublishingIsQuiet(db, order, now);
        PublishEachAppends(db, order, now);
        NothingAdded(cfg, db, PublishEach(db, order, now));
      case SweepDisputes(order) =>
        EscalatingIsQuiet(db, order, now);
        EscalateEachAppends(db, order, now);
        NothingAdded(cfg, db, EscalateEach(db, order, now));
    }
  }

  lemma AfterTimely(cfg: Settings, db: DB, op: Op, now: int)
    requires Inv(cfg, db) && AmountsOk(db) && Enabled(cfg, db, op, now)
    ensures AddsTimely(cfg, db, After(cfg, db, op, now))
  {
    hide AddsTimely, Inv, AmountsOk, Answer, Enabled;
    NothingAdded(cfg, db, db);
    if Answer(cfg, db, op, now).Ok? {
      if op.Rates? || op.RatesRenter? || op.Offers? || op.Rejects? || op.Withdraws? {
        QuietOps(cfg, db, op, now);
      } else if op.PaymentAuthorised? || op.PaymentFails? || op.PaymentIsRefused? || op.Acts? || op.Accepts? || op.Resolves? || op.Approves? {
        OneTimely(cfg, db, op, now);
      } else {
        SweepTimely(cfg, db, op, now);
      }
    }
  }

  lemma OneTimely(cfg: Settings, db: DB, op: Op, now: int)
    requires Inv(cfg, db) && AmountsOk(db) && Enabled(cfg, db, op, now) && Answer(cfg, db, op, now).Ok?
    requires op.PaymentAuthorised? || op.PaymentFails? || op.PaymentIsRefused? || op.Acts? || op.Accepts? || op.Resolves? || op.Approves?
    ensures AddsTimely(cfg, db, Answer(cfg, db, op, now).value)
  {
    hide AddsTimely, Inv, AmountsOk, Timely, Act, AcceptOffer, Resolve, ApplyEvent, PaymentRefused, TrailOf;
    match op {
      case PaymentAuthorised(id) =>
        var instant := id in db.bookings && db.bookings[id].terms.instant;
        PaymentTimely(cfg, db, id, if instant then AuthorisedInstant else Authorised, now);
      case PaymentFails(id) => PaymentTimely(cfg, db, id, PaymentDeclined, now);
      case PaymentIsRefused(id) => PaymentTimely(cfg, db, id, PaymentDeclined, now);
      case Acts(id, a, user, order) => ActTimely(cfg, db, id, a, user, order, now);
      case Accepts(id, user, amount, rid) => AcceptOfferTimely(cfg, db, id, user, amount, rid, now);
      case Resolves(id, o, part, staff, role, rid) => ResolveTimely(cfg, db, id, o, part, staff, role, rid, now);
      case Approves(rid, staff, role) => ApproveTimely(cfg, db, rid, staff, role, now);
    }
  }

  lemma InsertTimely(cfg: Settings, db: DB, id: Id, row: Row)
    requires id !in db.bookings && row.status == AwaitingPayment && TrailOf(db.trail, id) == []
    ensures AddsTimely(cfg, db, Insert(db, id, row))
  {
    hide TrailOf;
    assert Insert(db, id, row).trail[..|db.trail|] == db.trail;
  }

  lemma FirstOfItsTrail(cfg: Settings, s: Sys, id: Id)
    requires SysOk(cfg, s) && id !in s.db.bookings
    ensures TrailOf(s.db.trail, id) == []
  {
    hide DisputesOk, LogOk, NoStrayReviews, NoDoubleBooking, KeysUnique, TxOk, Apart, RowOk, TrailOf;
    NoTrail(s.db, id);
  }

  lemma Awaiting(cfg: Settings, s: Sys, t: TxId)
    requires SysOk(cfg, s) && t in s.txs && s.txs[t].phase.Inserted?
    ensures s.txs[t].phase.id !in s.db.bookings && s.txs[t].phase.row.status == AwaitingPayment
  {
    hide Inv, Apart, Taken, HasKey, AskedFor;
    assert TxOk(s.db, s.txs[t]);
  }

  lemma CommitTimely(cfg: Settings, s: Sys, t: TxId)
    requires SysOk(cfg, s) && CanStep(cfg, s, Commit(t)) && AmountsOk(s.db)
    ensures AddsTimely(cfg, s.db, Next(cfg, s, Commit(t)).db)
  {
    var p := s.txs[t].phase;
    hide SysOk, AmountsOk, AddsTimely, Insert, TrailOf;
    Awaiting(cfg, s, t);
    FirstOfItsTrail(cfg, s, p.id);
    InsertTimely(cfg, s.db, p.id, p.row);
  }

  lemma PayTimely(cfg: Settings, s: Sys, t: TxId, start: PaymentStart, read: int)
    requires CanStep(cfg, s, Pay(t, start, read)) && AmountsOk(s.db)
    ensures AddsTimely(cfg, s.db, Next(cfg, s, Pay(t, start, read)).db)
  {
    NothingAdded(cfg, s.db, s.db);
    PaymentTimely(cfg, s.db, s.txs[t].phase.id, PaymentDeclined, read);
    hide AmountsOk, AddsTimely, PaymentRefused, ApplyEvent;
  }

  lemma StepTimely(cfg: Settings, s: Sys, step: Step)
    requires SysOk(cfg, s) && CanStep(cfg, s, step) && AmountsOk(s.db)
    ensures AddsTimely(cfg, s.db, Next(cfg, s, step).db)
  {
    match step {
      case Commit(t) => CommitTimely(cfg, s, t);
      case Pay(t, start, read) => PayTimely(cfg, s, t, start, read);
      case Other(op, read) => OtherTimely(cfg, s, op, read);
      case Tick(now) => TickTimely(cfg, s, now);
      case _ =>
        TablesUntouched(cfg, s, step);
        NothingAdded(cfg, s.db, s.db);
    }
    hide SysOk, CanStep, Next, AmountsOk, AddsTimely;
  }

  lemma TickTimely(cfg: Settings, s: Sys, now: int)
    requires CanStep(cfg, s, Step.Tick(now)) && AmountsOk(s.db)
    ensures AddsTimely(cfg, s.db, Next(cfg, s, Step.Tick(now)).db)
  {
    hide AmountsOk, AddsTimely;
    NothingAdded(cfg, s.db, s.db.(clock := now));
  }

  lemma OtherTimely(cfg: Settings, s: Sys, op: Op, read: int)
    requires SysOk(cfg, s) && CanStep(cfg, s, Other(op, read)) && AmountsOk(s.db)
    ensures AddsTimely(cfg, s.db, Next(cfg, s, Other(op, read)).db)
  {
    hide AmountsOk, AddsTimely, After, Enabled, TxOk, Apart, Inv;
    AfterTimely(cfg, s.db, op, read);
  }

  lemma {:induction false} RunTimely(cfg: Settings, states: seq<Sys>, steps: seq<Step>, i: nat)
    requires Run(cfg, states, steps) && i < |states|
    ensures AllTimely(cfg, states[i].db)
  {
    hide CanStep, SysOk, AddsTimely, AmountsOk, TimelyAt, Next;
    if i > 0 {
      RunTimely(cfg, states, steps, i - 1);
      RunKeeps(cfg, states, steps, i - 1);
      assert OneStep(cfg, states[i - 1], steps[i - 1], states[i]);
      StepTimely(cfg, states[i - 1], steps[i - 1]);
      StillTimely(cfg, states[i - 1].db, states[i].db);
    }
  }

  /** In every run, every line of every booking's trail was written by someone
      who may make that move of it, at a time it may be made. */
  lemma EveryMoveIsTimely(cfg: Settings, states: seq<Sys>, steps: seq<Step>, i: nat, id: Id, e: Edge)
    requires Run(cfg, states, steps) && i < |states| && id in states[i].db.bookings
    requires e in TrailOf(states[i].db.trail, id)
    ensures Timely(cfg, states[i].db.bookings[id].terms, e)
  {
    RunTimely(cfg, states, steps, i);
    var db := states[i].db;
    hide Run, Timely;
    var k :| 0 <= k < |db.trail| && db.trail[k] == e;
    assert TimelyAt(cfg, db, k);
  }
}
