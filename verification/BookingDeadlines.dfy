/** Everyone has their full time, and no more: a booking that waits for its
    payment or its owner lapses no sooner than the deadline it was given, and
    after that no party moves it. */
module BookingDeadlines {
  import opened Wrappers
  import opened BookingState
  import opened Booking
  import opened BookingInvariants
  import opened BookingOps
  import opened BookingSystem
  import T = BookingTiming

  predicate Waits(s: Status) { s in {AwaitingPayment, Requested} }

  /** How long a booking waits for its payment, or for its owner, from a moment on. */
  function GivenUntil(cfg: Settings, t: Terms, s: Status, since: int): int
    requires Waits(s)
  {
    if s == AwaitingPayment then since + cfg.paymentTimeout
    else if since + cfg.answerWithin < t.start then since + cfg.answerWithin else t.start
  }

  /** It lapsed no sooner than that, and no party moved it later. */
  ghost predicate FullTime(cfg: Settings, t: Terms, tr: seq<Edge>, k: nat)
    requires 1 <= k < |tr|
  {
    Waits(tr[k - 1].change.to) ==>
      var until := GivenUntil(cfg, t, tr[k - 1].change.to, tr[k - 1].at);
      && (tr[k].change.to == Expired ==> tr[k].at >= until)
      && (tr[k].change.actor.Of? ==> tr[k].at < until)
  }

  ghost predicate DueOk(cfg: Settings, r: Row, tr: seq<Edge>) {
    && tr != [] && tr[|tr| - 1].change.to == r.status
    && (Waits(r.status) ==> r.expires == Some(GivenUntil(cfg, r.terms, r.status, tr[|tr| - 1].at)))
    && forall k :: 1 <= k < |tr| ==> FullTime(cfg, r.terms, tr, k)
  }

  ghost predicate AllDue(cfg: Settings, db: DB) {
    && (forall id :: id in db.bookings ==> DueOk(cfg, db.bookings[id], TrailOf(db.trail, id)))
    && (forall e :: e in db.trail ==> e.change.booking in db.bookings)
  }

  lemma DueGrows(cfg: Settings, r: Row, s: Row, tr: seq<Edge>, e: Edge)
    requires DueOk(cfg, r, tr) && r.terms == s.terms && e.change.to == s.status
    requires s.status != AwaitingPayment && (s.status == Requested ==> s.expires == Some(AnswerDeadline(cfg, e.at, s.terms)))
    requires Waits(r.status) && s.status == Expired ==> r.expires.Some? && r.expires.value <= e.at
    requires Waits(r.status) && e.change.actor.Of? && r.expires.Some? ==> e.at < r.expires.value
    ensures DueOk(cfg, s, tr + [e])
  {
    var t := tr + [e];
    forall k | 1 <= k < |t| ensures FullTime(cfg, s.terms, t, k) {
      if k < |tr| { assert FullTime(cfg, r.terms, tr, k); }
    }
  }

  lemma MoveKeepsDue(cfg: Settings, db: DB, id: Id, s: Row, actor: Actor, now: int)
    requires AllDue(cfg, db) && id in db.bookings && s.terms == db.bookings[id].terms
    requires s.status != AwaitingPayment && (s.status == Requested ==> s.expires == Some(AnswerDeadline(cfg, now, s.terms)))
    requires Waits(db.bookings[id].status) && s.status == Expired ==>
      db.bookings[id].expires.Some? && db.bookings[id].expires.value <= now
    requires Waits(db.bookings[id].status) && actor.Of? && db.bookings[id].expires.Some? ==> now < db.bookings[id].expires.value
    ensures AllDue(cfg, Move(db, id, s, actor, now))
  {
    var db' := Move(db, id, s, actor, now);
    var e := db'.trail[|db.trail|];
    assert DueOk(cfg, db.bookings[id], TrailOf(db.trail, id));
    DueGrows(cfg, db.bookings[id], s, TrailOf(db.trail, id), e);
    hide DueOk, TrailOf;
    forall j | j in db'.bookings ensures DueOk(cfg, db'.bookings[j], TrailOf(db'.trail, j)) {
      TrailGrows(db.trail, e, j);
      assert DueOk(cfg, db.bookings[j], TrailOf(db.trail, j));
    }
  }

  /** What moves no booking keeps it: rows may change but in status and deadline. */
  ghost predicate SameMoves(db: DB, db': DB) {
    && db.trail == db'.trail && db.bookings.Keys == db'.bookings.Keys
    && forall id :: id in db.bookings ==>
      var r, s := db.bookings[id], db'.bookings[id]; r.terms == s.terms && r.status == s.status && r.expires == s.expires
  }

  lemma SameMovesSameDue(cfg: Settings, db: DB, db': DB)
    requires AllDue(cfg, db) && SameMoves(db, db')
    ensures AllDue(cfg, db')
  {
    hide TrailOf;
    forall id | id in db'.bookings ensures DueOk(cfg, db'.bookings[id], TrailOf(db'.trail, id)) {
      assert DueOk(cfg, db.bookings[id], TrailOf(db.trail, id));
    }
  }

  lemma {:induction false} CloseEachKeepsDue(cfg: Settings, db: DB, k: Closing, order: seq<Id>, now: int)
    requires AllDue(cfg, db) && Distinct(order) && forall id :: id in order ==> id in db.bookings
    requires k == Lapsing ==> forall id :: id in order ==> LapseDue(db.bookings[id], now)
    ensures AllDue(cfg, CloseEach(db, k, order, now))
  {
    hide AllDue, LapseDue, Close, Move;
    if order != [] {
      var init, id := order[..|order| - 1], order[|order| - 1];
      CloseEachKeepsDue(cfg, db, k, init, now);
      CloseEachEffect(db, k, init, now);
      assert id in order && id !in init;
      CloseOneKeepsDue(cfg, CloseEach(db, k, init, now), k, id, now);
    }
  }

  lemma CloseOneKeepsDue(cfg: Settings, db: DB, k: Closing, id: Id, now: int)
    requires AllDue(cfg, db) && id in db.bookings && (k == Lapsing ==> LapseDue(db.bookings[id], now))
    ensures AllDue(cfg, Move(db, id, Close(k, db.bookings[id]), System, now))
  {
    hide AllDue;
    MoveKeepsDue(cfg, db, id, Close(k, db.bookings[id]), System, now);
  }

  lemma CheckedIsOnTime(cfg: Settings, r: Row, a: Action, user: Person, now: int)
    requires r.terms.amount >= 0 && Checked(cfg, r, a, user, now).Ok?
    ensures var s := Checked(cfg, r, a, user, now).value; s.terms == r.terms && s.status !in {AwaitingPayment, Requested, Expired}
    ensures r.expires.Some? ==> now < r.expires.value
  {
    hide Refund;
  }

  lemma AfterMoveKeepsDue(cfg: Settings, db: DB, id: Id, d: DisputeRow, order: seq<Id>, now: int)
    requires AllDue(cfg, db) && Distinct(order) && forall x :: x in order ==> x in db.bookings
    ensures AllDue(cfg, CloseEach(db, WithParent, order, now))
    ensures AllDue(cfg, db.(disputes := db.disputes[id := d]))
  {
    hide AllDue, CloseEach;
    SameMovesSameDue(cfg, db, db.(disputes := db.disputes[id := d]));
    CloseEachKeepsDue(cfg, db, WithParent, order, now);
  }

  lemma ActKeepsDue(cfg: Settings, db: DB, id: Id, a: Action, user: Person, order: seq<Id>, now: int)
    requires AllDue(cfg, db) && AmountsOk(db) && Among(order, Extensions(db, id))
    requires Act(cfg, db, id, a, user, order, now).Ok?
    ensures AllDue(cfg, Act(cfg, db, id, a, user, order, now).value)
  {
    T.ActParts(cfg, db, id, a, user, order, now);
    var row := Checked(cfg, db.bookings[id], a, user, now).value;
    var was := db.bookings[id];
    assert row.terms == was.terms && row.status !in {AwaitingPayment, Requested, Expired}
      && (was.expires.Some? ==> now < was.expires.value)
    by {
      hide Act, AllDue, Among, Extensions, Move, CloseEach;
      CheckedIsOnTime(cfg, db.bookings[id], a, user, now);
    }
    hide Act, Checked, AmountsOk, AllDue, CloseEach;
    T.ChildrenStand(db, id, row, Of(user), order, now);
    hide Among, Extensions, Closable;
    MoveKeepsDue(cfg, db, id, row, Of(user), now);
    hide Move;
    AfterMoveKeepsDue(cfg, Move(db, id, row, Of(user), now), id, DisputeRow(user, now, now + cfg.offerWindow, None, None, None), order, now);
  }

  lemma SettleKeepsDue(cfg: Settings, db: DB, id: Id, refund: int, actor: Actor, now: int)
    requires AllDue(cfg, db) && id in db.bookings && Settle(db, id, refund, actor, now).Ok?
    ensures AllDue(cfg, Settle(db, id, refund, actor, now).value)
  {
    hide AllDue, OutcomeOf, NoticeOf;
    var row := SettledRow(db.bookings[id], refund);
    MoveKeepsDue(cfg, db, id, row, actor, now);
    hide SettledRow;
    SameMovesSameDue(cfg, Move(db, id, row, actor, now), Settle(db, id, refund, actor, now).value);
  }

  lemma AgreementKeepsDue(cfg: Settings, db: DB, id: Id, user: Person, amount: nat, rid: Id, now: int)
    requires AllDue(cfg, db) && AcceptOffer(db, id, user, amount, rid, now).Ok?
    ensures AllDue(cfg, AcceptOffer(db, id, user, amount, rid, now).value)
  {
    hide OwnerSees, Settle, AllDue, OutcomeOf;
    var res := Resolution(id, OutcomeOf(amount, db.bookings[id].terms.amount), amount, user, Parties, Done, None);
    var db1 := db.(resolutions := db.resolutions[rid := res]);
    SameMovesSameDue(cfg, db, db1);
    SettleKeepsDue(cfg, db1, id, amount, Of(user), now);
  }

  lemma ResolveKeepsDue(
    cfg: Settings, db: DB, id: Id, o: Outcome, part: Option<int>, staff: Person, role: StaffRole, rid: Id, now: int)
    requires AllDue(cfg, db) && Resolve(cfg, db, id, o, part, staff, role, rid, now).Ok?
    ensures AllDue(cfg, Resolve(cfg, db, id, o, part, staff, role, rid, now).value)
  {
    hide Settle, AllDue, AwaitsApproval, RefundFor;
    var refund := RefundFor(o, part, db.bookings[id].terms.amount).value;
    var within := refund <= cfg.limit(db.bookings[id].terms.currency, role);
    var res := Resolution(id, o, refund, staff, role, if within then Done else PendingApproval, None);
    var db1 := db.(resolutions := db.resolutions[rid := res]);
    SameMovesSameDue(cfg, db, db1);
    var db2 := if within then Settle(db1, id, refund, Support(staff), now).value else db1;
    if within { SettleKeepsDue(cfg, db1, id, refund, Support(staff), now); }
    SameMovesSameDue(cfg, db2, Audit(db2, staff, rid));
  }

  lemma ApproveKeepsDue(cfg: Settings, db: DB, rid: Id, staff: Person, role: StaffRole, now: int)
    requires AllDue(cfg, db) && Approve(cfg, db, rid, staff, role, now).Ok?
    ensures AllDue(cfg, Approve(cfg, db, rid, staff, role, now).value)
  {
    hide Settle, AllDue;
    var res := Booking.Pending(db, rid).value;
    var db1 := db.(resolutions := db.resolutions[rid := res.(status := Done, approver := Some((staff, role)))]);
    SameMovesSameDue(cfg, db, db1);
    SettleKeepsDue(cfg, db1, res.booking, res.refund, Support(staff), now);
    var db2 := Settle(db1, res.booking, res.refund, Support(staff), now).value;
    SameMovesSameDue(cfg, db2, Audit(db2, staff, rid));
  }

  lemma PaymentKeepsDue(cfg: Settings, db: DB, id: Id, a: SystemAction, now: int)
    requires AllDue(cfg, db) && a in {Authorised, AuthorisedInstant, PaymentDeclined}
    ensures AllDue(cfg, ApplyEvent(cfg, db, id, a, now)) && AllDue(cfg, PaymentRefused(db, id, now))
  {
    hide AllDue;
    if id in db.bookings && SystemStatus(a, db.bookings[id].status).Some? {
      var to := SystemStatus(a, db.bookings[id].status).value;
      MoveKeepsDue(cfg, db, id,
        db.bookings[id].(status := to, expires := if to == Requested then Some(AnswerDeadline(cfg, now, db.bookings[id].terms)) else None),
        Payments, now);
    }
    if id in db.bookings && db.bookings[id].status == AwaitingPayment {
      MoveKeepsDue(cfg, db, id, db.bookings[id].(status := PaymentFailed, expires := None), System, now);
    }
  }

  lemma ReviewsKeepDue(cfg: Settings, db: DB, op: Op, now: int)
    requires AllDue(cfg, db) && AmountsOk(db) && (op.Rates? || op.RatesRenter?) && Answer(cfg, db, op, now).Ok?
    ensures AllDue(cfg, Answer(cfg, db, op, now).value)
  {
    hide OwnerSees, AmountsOk, AllDue, PublishReviews, SameMoves;
    var v := if op.Rates? then db.bookings[op.id].reviews.(outcome := Some(op.quality), ratedAt := Some(now))
             else db.bookings[op.id].reviews.(renterRating := Some(op.quality));
    ReviewMovesNothing(db, op.id, v, now);
    SameMovesSameDue(cfg, db, Answer(cfg, db, op, now).value);
  }

  lemma ReviewMovesNothing(db: DB, id: Id, v: Reviews, now: int)
    requires id in db.bookings
    ensures var db1 := db.(bookings := db.bookings[id := db.bookings[id].(reviews := v)]);
      SameMoves(db, db1) && SameMoves(db, PublishReviews(db1, id, now))
  {}

  lemma DecisionsKeepDue(cfg: Settings, db: DB, op: Op, now: int)
    requires AllDue(cfg, db) && AmountsOk(db) && (op.Offers? || op.Rejects? || op.Withdraws?) && Answer(cfg, db, op, now).Ok?
    ensures AllDue(cfg, Answer(cfg, db, op, now).value)
  {
    hide OwnerSees, AmountsOk, AllDue;
    SameMovesSameDue(cfg, db, Answer(cfg, db, op, now).value);
  }

  lemma {:induction false} PublishingMovesNothing(db: DB, order: seq<Id>, now: int)
    ensures SameMoves(db, PublishEach(db, order, now))
  {
    if order != [] { PublishingMovesNothing(db, order[..|order| - 1], now); }
  }

  lemma {:induction false} EscalatingMovesNothing(db: DB, order: seq<Id>, now: int)
    ensures SameMoves(db, EscalateEach(db, order, now))
  {
    if order != [] { EscalatingMovesNothing(db, order[..|order| - 1], now); }
  }

  lemma SweepKeepsDue(cfg: Settings, db: DB, op: Op, now: int)
    requires AllDue(cfg, db) && AmountsOk(db) && Enabled(cfg, db, op, now)
    requires op.RemoveListing? || op.SuspendRequester? || op.SweepLapsed? || op.SweepFinished? || op.SweepReviews? || op.SweepDisputes?
    ensures Answer(cfg, db, op, now).Ok? && AllDue(cfg, Answer(cfg, db, op, now).value)
  {
    hide AmountsOk, AllDue, CloseEach, PublishEach, EscalateEach, LapseDue, SameMoves;
    match op {
      case RemoveListing(_, order) => CloseEachKeepsDue(cfg, db, Declining, order, now);
      case SuspendRequester(_, order) => CloseEachKeepsDue(cfg, db, Declining, order, now);
      case SweepLapsed(order) => CloseEachKeepsDue(cfg, db, Lapsing, order, now);
      case SweepFinished(order) => CloseEachKeepsDue(cfg, db, Finishing, order, now);
      case SweepReviews(order) =>
        PublishingMovesNothing(db, order, now);
        SameMovesSameDue(cfg, db, PublishEach(db, order, now));
      case SweepDisputes(order) =>
        EscalatingMovesNothing(db, order, now);
        SameMovesSameDue(cfg, db, EscalateEach(db, order, now));
    }
  }

  lemma AfterKeepsDue(cfg: Settings, db: DB, op: Op, now: int)
    requires AllDue(cfg, db) && AmountsOk(db) && Enabled(cfg, db, op, now)
    ensures AllDue(cfg, After(cfg, db, op, now))
  {
    hide AllDue, AmountsOk;
    if Answer(cfg, db, op, now).Ok? {
      match op {
        case PaymentAuthorised(id) =>
          var instant := id in db.bookings && db.bookings[id].terms.instant;
          PaymentKeepsDue(cfg, db, id, if instant then AuthorisedInstant else Authorised, now);
        case PaymentFails(id) => PaymentKeepsDue(cfg, db, id, PaymentDeclined, now);
        case PaymentIsRefused(id) => PaymentKeepsDue(cfg, db, id, PaymentDeclined, now);
        case Acts(id, a, user, order) => ActKeepsDue(cfg, db, id, a, user, order, now);
        case Accepts(id, user, amount, rid) => AgreementKeepsDue(cfg, db, id, user, amount, rid, now);
        case Resolves(id, o, part, staff, role, rid) => ResolveKeepsDue(cfg, db, id, o, part, staff, role, rid, now);
        case Approves(rid, staff, role) => ApproveKeepsDue(cfg, db, rid, staff, role, now);
        case Rates(_, _, _) => ReviewsKeepDue(cfg, db, op, now);
        case RatesRenter(_, _, _) => ReviewsKeepDue(cfg, db, op, now);
        case Offers(_, _, _) => DecisionsKeepDue(cfg, db, op, now);
        case Rejects(_, _) => DecisionsKeepDue(cfg, db, op, now);
        case Withdraws(_, _) => DecisionsKeepDue(cfg, db, op, now);
        case _ => SweepKeepsDue(cfg, db, op, now);
      }
    }
  }

  lemma FirstIsDue(cfg: Settings, r: Row, e: Edge)
    requires r.status == AwaitingPayment && PaymentDue(cfg, r) && e.change.to == r.status && e.at == r.terms.createdAt
    ensures DueOk(cfg, r, [e])
  {}

  lemma InsertKeepsDue(cfg: Settings, db: DB, id: Id, r: Row)
    requires AllDue(cfg, db) && id !in db.bookings && r.status == AwaitingPayment && PaymentDue(cfg, r)
    ensures AllDue(cfg, Insert(db, id, r))
  {
    var db' := Insert(db, id, r);
    var e := db'.trail[|db.trail|];
    FirstIsDue(cfg, r, e);
    hide TrailOf, DueOk;
    NoneOf(db.trail, id);
    forall j | j in db'.bookings ensures DueOk(cfg, db'.bookings[j], TrailOf(db'.trail, j)) {
      TrailGrows(db.trail, e, j);
      if j == id {
        assert TrailOf(db'.trail, j) == [e];
      } else {
        assert DueOk(cfg, db.bookings[j], TrailOf(db.trail, j));
      }
    }
  }

  /** Every row about to be inserted carries its payment deadline. */
  ghost predicate AllPaymentsDue(cfg: Settings, s: Sys) {
    forall t :: t in s.txs && BookingSystem.Pending(s.txs[t].phase) ==> PaymentDue(cfg, s.txs[t].phase.row)
  }

  lemma StepKeepsPaymentsDue(cfg: Settings, s: Sys, step: Step)
    requires AllPaymentsDue(cfg, s) && CanStep(cfg, s, step) && AmountsOk(s.db)
    ensures AllPaymentsDue(cfg, Next(cfg, s, step))
  {
    hide Fresh, AskedFor, Enabled, HasKey, Taken, PaymentRefused, Insert, After, AmountsOk, PaymentDue;
  }

  lemma StepKeepsDue(cfg: Settings, s: Sys, step: Step)
    requires AllDue(cfg, s.db) && AllPaymentsDue(cfg, s) && SysOk(cfg, s) && CanStep(cfg, s, step) && AmountsOk(s.db)
    ensures AllDue(cfg, Next(cfg, s, step).db)
  {
    match step {
      case Commit(t) => CommitKeepsDue(cfg, s, t);
      case Pay(t, start, read) => PayKeepsDue(cfg, s, t, start, read);
      case Other(op, read) => OtherKeepsDue(cfg, s, op, read);
      case Tick(now) => TickKeepsDue(cfg, s, now);
      case _ => TablesUntouched(cfg, s, step);
    }
    hide SysOk, CanStep, Next, AmountsOk, AllDue;
  }

  lemma CommitKeepsDue(cfg: Settings, s: Sys, t: TxId)
    requires AllDue(cfg, s.db) && AllPaymentsDue(cfg, s) && SysOk(cfg, s) && CanStep(cfg, s, Commit(t)) && AmountsOk(s.db)
    ensures AllDue(cfg, Next(cfg, s, Commit(t)).db)
  {
    T.Awaiting(cfg, s, t);
    hide SysOk, AmountsOk, AllDue, Insert;
    InsertKeepsDue(cfg, s.db, s.txs[t].phase.id, s.txs[t].phase.row);
  }

  lemma PayKeepsDue(cfg: Settings, s: Sys, t: TxId, start: PaymentStart, read: int)
    requires AllDue(cfg, s.db) && CanStep(cfg, s, Pay(t, start, read)) && AmountsOk(s.db)
    ensures AllDue(cfg, Next(cfg, s, Pay(t, start, read)).db)
  {
    hide AmountsOk, AllDue, PaymentRefused, ApplyEvent;
    PaymentKeepsDue(cfg, s.db, s.txs[t].phase.id, PaymentDeclined, read);
  }

  lemma TickKeepsDue(cfg: Settings, s: Sys, now: int)
    requires AllDue(cfg, s.db) && CanStep(cfg, s, Step.Tick(now)) && AmountsOk(s.db)
    ensures AllDue(cfg, Next(cfg, s, Step.Tick(now)).db)
  {
    hide AmountsOk, AllDue;
    SameMovesSameDue(cfg, s.db, s.db.(clock := now));
  }

  lemma OtherKeepsDue(cfg: Settings, s: Sys, op: Op, read: int)
    requires AllDue(cfg, s.db) && CanStep(cfg, s, Other(op, read)) && AmountsOk(s.db)
    ensures AllDue(cfg, Next(cfg, s, Other(op, read)).db)
  {
    hide AmountsOk, AllDue, After, Enabled;
    AfterKeepsDue(cfg, s.db, op, read);
  }

  lemma StartDue(cfg: Settings, s: Sys)
    requires BookingSystem.Start(s)
    ensures AllDue(cfg, s.db) && AllPaymentsDue(cfg, s)
  {}

  lemma {:induction false} RunKeepsDue(cfg: Settings, states: seq<Sys>, steps: seq<Step>, i: nat)
    requires Run(cfg, states, steps) && i < |states|
    ensures AllDue(cfg, states[i].db) && AllPaymentsDue(cfg, states[i])
  {
    hide CanStep, SysOk, AmountsOk, Next, AllDue;
    if i == 0 {
      StartDue(cfg, states[0]);
    } else {
      RunKeepsDue(cfg, states, steps, i - 1);
      RunKeeps(cfg, states, steps, i - 1);
      assert OneStep(cfg, states[i - 1], steps[i - 1], states[i]);
      StepKeepsDue(cfg, states[i - 1], steps[i - 1]);
      StepKeepsPaymentsDue(cfg, states[i - 1], steps[i - 1]);
    }
  }

  lemma DueAt(cfg: Settings, db: DB, id: Id)
    requires AllDue(cfg, db) && id in db.bookings
    ensures DueOk(cfg, db.bookings[id], TrailOf(db.trail, id))
  {
    hide DueOk, TrailOf;
  }

  lemma DueMeans(cfg: Settings, r: Row, tr: seq<Edge>, k: nat)
    requires DueOk(cfg, r, tr) && 1 <= k < |tr| && Waits(tr[k - 1].change.to)
    ensures var until := GivenUntil(cfg, r.terms, tr[k - 1].change.to, tr[k - 1].at);
      && (tr[k].change.to == Expired ==> until <= tr[k].at)
      && (tr[k].change.actor.Of? ==> tr[k].at < until)
  {
    assert FullTime(cfg, r.terms, tr, k);
  }

  /** In every run: a booking that waits shows the deadline it was given: so long
      after it was made for its payment, then so long after the card was held for
      its owner, at the booked time at the latest. */
  lemma WaitingShowsItsDeadline(cfg: Settings, states: seq<Sys>, steps: seq<Step>, i: nat, id: Id)
    requires Run(cfg, states, steps) && i < |states| && id in states[i].db.bookings && Waits(states[i].db.bookings[id].status)
    ensures var r, tr := states[i].db.bookings[id], TrailOf(states[i].db.trail, id);
      tr != [] && r.expires == Some(GivenUntil(cfg, r.terms, r.status, tr[|tr| - 1].at))
  {
    RunKeepsDue(cfg, states, steps, i);
    hide Run, TrailOf, AllDue, GivenUntil;
    DueAt(cfg, states[i].db, id);
  }

  /** And whatever moved it on: the sweep lapsed it no sooner than that deadline,
      and a party acted on it only before, whenever the sweep came. */
  lemma OwnersHaveTheirTime(cfg: Settings, states: seq<Sys>, steps: seq<Step>, i: nat, id: Id, k: nat)
    requires Run(cfg, states, steps) && i < |states| && id in states[i].db.bookings
    requires 1 <= k < |TrailOf(states[i].db.trail, id)| && Waits(TrailOf(states[i].db.trail, id)[k - 1].change.to)
    ensures var tr := TrailOf(states[i].db.trail, id);
      var until := GivenUntil(cfg, states[i].db.bookings[id].terms, tr[k - 1].change.to, tr[k - 1].at);
      && (tr[k].change.to == Expired ==> until <= tr[k].at)
      && (tr[k].change.actor.Of? ==> tr[k].at < until)
  {
    hide Run, TrailOf, AllDue, DueOk, FullTime, GivenUntil;
    RunKeepsDue(cfg, states, steps, i);
    DueAt(cfg, states[i].db, id);
    DueMeans(cfg, states[i].db.bookings[id], TrailOf(states[i].db.trail, id), k);
  }
}
