/** When staff take a dispute over: in every run no sooner than the time its last
    offer, or its opening, gave the two sides, and once. */
module BookingEscalation {
  import opened Wrappers
  import opened BookingState
  import opened Booking
  import opened BookingInvariants
  import opened BookingOps
  import opened BookingSystem
  import T = BookingTiming
  import D = DisputeAnswers
  import A = BookingAnswers
  import N = BookingNotices

  predicate IsEscalation(e: Event, id: Id) { e.Notice? && e.kind == Escalated && e.booking == id }

  /** How often both sides were told that staff decide now. */
  function Escalations(outbox: seq<Event>, id: Id): nat {
    if outbox == [] then 0
    else Escalations(outbox[..|outbox| - 1], id) + if IsEscalation(outbox[|outbox| - 1], id) then 1 else 0
  }

  /** The answer to the last offer, or else the first one, is due when their time is up. */
  predicate OnTime(cfg: Settings, d: DisputeRow) {
    && (d.offer.Some? <==> d.offeredAt.Some?)
    && d.respondBy == d.offeredAt.GetOr(d.openedAt) + cfg.offerWindow
  }

  predicate ToldOnce(db: DB, id: Id) {
    Escalations(db.outbox, id) == if id in db.disputes && db.disputes[id].escalated.Some? then 1 else 0
  }

  ghost predicate AllOnTime(cfg: Settings, db: DB) {
    (forall id :: id in db.disputes ==> OnTime(cfg, db.disputes[id])) && forall id :: ToldOnce(db, id)
  }

  lemma OneTold(outbox: seq<Event>, e: Event)
    ensures forall id :: Escalations(outbox + [e], id) == Escalations(outbox, id) + if IsEscalation(e, id) then 1 else 0
  {
    assert (outbox + [e])[..|outbox|] == outbox;
  }

  // --- transactions that leave disputes as they are -----------------------------------------------------

  ghost predicate Still(db: DB, db': DB) {
    && db'.disputes == db.disputes && db.outbox <= db'.outbox
    && forall k :: |db.outbox| <= k < |db'.outbox| ==> NoEscalation(db'.outbox[k])
  }

  predicate NoEscalation(e: Event) { !(e.Notice? && e.kind == Escalated) }

  lemma {:induction false} NoneTold(outbox: seq<Event>, later: seq<Event>, id: Id)
    requires outbox <= later && forall k :: |outbox| <= k < |later| ==> NoEscalation(later[k])
    ensures Escalations(later, id) == Escalations(outbox, id)
  {
    if outbox != later { NoneTold(outbox, later[..|later| - 1], id); }
  }

  lemma StillOnTime(cfg: Settings, db: DB, db': DB)
    requires AllOnTime(cfg, db) && Still(db, db')
    ensures AllOnTime(cfg, db')
  {
    forall id ensures ToldOnce(db', id) {
      assert ToldOnce(db, id);
      NoneTold(db.outbox, db'.outbox, id);
    }
  }

  lemma StillTrans(a: DB, b: DB, c: DB)
    requires Still(a, b) && Still(b, c)
    ensures Still(a, c)
  {
    forall k | |a.outbox| <= k < |c.outbox| ensures NoEscalation(c.outbox[k]) {
      if k < |b.outbox| { assert c.outbox[k] == b.outbox[k]; }
    }
  }

  lemma MoveIsStill(db: DB, id: Id, row: Row, actor: Actor, now: int)
    requires id in db.bookings
    ensures Still(db, Move(db, id, row, actor, now))
  {}

  lemma {:induction false} ClosingIsStill(db: DB, k: Closing, order: seq<Id>, now: int)
    ensures Still(db, CloseEach(db, k, order, now))
  {
    if order != [] {
      var init, id := order[..|order| - 1], order[|order| - 1];
      ClosingIsStill(db, k, init, now);
      var db1 := CloseEach(db, k, init, now);
      hide Still, Close, Move;
      if id in db1.bookings {
        MoveIsStill(db1, id, Close(k, db1.bookings[id]), System, now);
        StillTrans(db, db1, CloseEach(db, k, order, now));
      }
    }
  }

  lemma {:induction false} PublishingIsStill(db: DB, order: seq<Id>, now: int)
    ensures Still(db, PublishEach(db, order, now))
  {
    if order != [] {
      var init, id := order[..|order| - 1], order[|order| - 1];
      PublishingIsStill(db, init, now);
      var db1 := PublishEach(db, init, now);
      hide Still, PublishReviews;
      if id in db1.bookings {
        PublishOneIsStill(db1, id, now);
        StillTrans(db, db1, PublishEach(db, order, now));
      }
    }
  }

  lemma PublishOneIsStill(db: DB, id: Id, now: int)
    requires id in db.bookings
    ensures Still(db, PublishReviews(db, id, now))
  {}

  lemma NothingIsStill(db: DB)
    ensures Still(db, db)
  {}

  lemma PaymentIsStill(cfg: Settings, db: DB, id: Id, a: SystemAction, now: int)
    ensures Still(db, ApplyEvent(cfg, db, id, a, now)) && Still(db, PaymentRefused(db, id, now))
  {
    hide Still, Move, AnswerDeadline;
    NothingIsStill(db);
    if id in db.bookings {
      forall row, actor ensures Still(db, Move(db, id, row, actor, now)) { MoveIsStill(db, id, row, actor, now); }
    }
  }

  lemma ReviewIsStill(cfg: Settings, db: DB, op: Op, now: int)
    requires AmountsOk(db) && (op.Rates? || op.RatesRenter?) && Answer(cfg, db, op, now).Ok?
    ensures Still(db, Answer(cfg, db, op, now).value)
  {
    A.WhatReviewsDo(db, op.id, op.user, op.quality, now);
    hide AmountsOk, Rate, RateRenter;
  }

  lemma SettlingIsStill(db: DB, db': DB, id: Id, back: int, actor: Actor, now: int, more: seq<Event>)
    requires id in db.bookings && D.Ended(db, db', id, back, actor, now, more) && forall e :: e in more ==> NoEscalation(e)
    ensures Still(db, db')
  {}

  lemma DecisionIsStill(cfg: Settings, db: DB, op: Op, now: int)
    requires Inv(cfg, db) && AmountsOk(db) && Enabled(cfg, db, op, now) && Answer(cfg, db, op, now).Ok?
    requires op.Accepts? || op.Resolves? || op.Approves? || op.Rejects? || op.Withdraws?
    ensures Still(db, Answer(cfg, db, op, now).value)
  {
    hide Inv, AmountsOk, Still, D.Ended, Enabled, AcceptOffer, Resolve, Approve, Reject, Withdraw;
    var db' := Answer(cfg, db, op, now).value;
    match op {
      case Accepts(id, user, amount, rid) =>
        D.WhatAnAgreementDoes(cfg, db, id, user, amount, rid, now);
        SettlingIsStill(db, db', id, amount, Of(user), now, []);
      case Approves(rid, staff, role) =>
        D.WhatAnApprovalDoes(cfg, db, rid, staff, role, now);
        var res := db.resolutions[rid];
        SettlingIsStill(db, db', res.booking, res.refund, Support(staff), now, [StaffAction(staff, rid)]);
      case Resolves(id, o, part, staff, role, rid) => ResolvingIsStill(cfg, db, id, o, part, staff, role, rid, now);
      case Rejects(rid, staff) =>
        D.WhoMayDrop(cfg, db, rid, staff);
        NotingIsStill(db, db', rid, db.resolutions[rid].(status := Rejected), staff);
      case Withdraws(rid, staff) =>
        D.WhoMayDrop(cfg, db, rid, staff);
        NotingIsStill(db, db', rid, db.resolutions[rid].(status := Withdrawn), staff);
    }
  }

  lemma NotingIsStill(db: DB, db': DB, rid: Id, res: Resolution, staff: Person)
    requires D.Noted(db, db', rid, res, staff)
    ensures Still(db, db')
  {}

  lemma ResolvingIsStill(
    cfg: Settings, db: DB, id: Id, o: Outcome, part: Option<int>, staff: Person, role: StaffRole, rid: Id, now: int)
    requires Inv(cfg, db) && Resolve(cfg, db, id, o, part, staff, role, rid, now).Ok?
    ensures Still(db, Resolve(cfg, db, id, o, part, staff, role, rid, now).value)
  {
    hide Inv, Resolve, D.Ended, D.Noted, D.Waiting, Still;
    D.WhoMayResolve(cfg, db, id, o, part, staff, role, rid, now);
    var back :| D.StandsFor(o, part, db.bookings[id].terms.amount, back);
    D.WhatAResolutionDoes(cfg, db, id, o, part, staff, role, rid, now, back);
    var db' := Resolve(cfg, db, id, o, part, staff, role, rid, now).value;
    if back <= cfg.limit(db.bookings[id].terms.currency, role) {
      SettlingIsStill(db, db', id, back, Support(staff), now, [StaffAction(staff, rid)]);
    } else {
      NotingIsStill(db, db', rid, Resolution(id, o, back, staff, role, PendingApproval, None), staff);
    }
  }

  // --- transactions that open, continue or hand over one --------------------------------------------------

  lemma Opened(cfg: Settings, db: DB, db1: DB, id: Id, user: Person, now: int)
    requires AllOnTime(cfg, db) && Still(db, db1) && id !in db.disputes
    ensures AllOnTime(cfg, db1.(disputes := db1.disputes[id := DisputeRow(user, now, now + cfg.offerWindow, None, None, None)]))
  {
    StillOnTime(cfg, db, db1);
    hide Still, Escalations;
    var db2 := db1.(disputes := db1.disputes[id := DisputeRow(user, now, now + cfg.offerWindow, None, None, None)]);
    forall x ensures ToldOnce(db2, x) { assert ToldOnce(db1, x); }
  }

  lemma ActKeepsTime(cfg: Settings, db: DB, id: Id, a: Action, user: Person, order: seq<Id>, now: int)
    requires AllOnTime(cfg, db) && Inv(cfg, db) && AmountsOk(db) && Among(order, Extensions(db, id))
    requires Act(cfg, db, id, a, user, order, now).Ok?
    ensures AllOnTime(cfg, Act(cfg, db, id, a, user, order, now).value)
  {
    T.ActParts(cfg, db, id, a, user, order, now);
    A.DisputesFirst(cfg, db, id, a, user, now);
    hide Inv, Act, Checked, AmountsOk, Among, Extensions, CloseEach, Still, AllOnTime, Move;
    var row := Checked(cfg, db.bookings[id], a, user, now).value;
    var db1 := Move(db, id, row, Of(user), now);
    MoveIsStill(db, id, row, Of(user), now);
    ClosingIsStill(db1, WithParent, order, now);
    StillTrans(db, db1, CloseEach(db1, WithParent, order, now));
    StillOnTime(cfg, db, db1);
    StillOnTime(cfg, db, CloseEach(db1, WithParent, order, now));
    Opened(cfg, db, db1, id, user, now);
  }

  lemma OfferKeepsTime(cfg: Settings, db: DB, id: Id, user: Person, amount: nat, now: int)
    requires AllOnTime(cfg, db) && Inv(cfg, db) && MakeOffer(cfg, db, id, user, amount, now).Ok?
    ensures AllOnTime(cfg, MakeOffer(cfg, db, id, user, amount, now).value)
  {
    hide Inv, MakeOffer, AllOnTime;
    D.WhatAnOfferDoes(cfg, db, id, user, amount, now);
    var t := db.bookings[id].terms;
    var d := db.disputes[id].(offer := Some(Offer(amount, user)), offeredAt := Some(now), respondBy := now + cfg.offerWindow);
    Renewed(cfg, db, id, d, DisputeOffer(id, if user == t.owner then t.requester else t.owner, Offer(amount, user)));
  }

  lemma Renewed(cfg: Settings, db: DB, id: Id, d: DisputeRow, e: Event)
    requires AllOnTime(cfg, db) && id in db.disputes && OnTime(cfg, d) && d.escalated == db.disputes[id].escalated && NoEscalation(e)
    ensures AllOnTime(cfg, db.(disputes := db.disputes[id := d], outbox := db.outbox + [e]))
  {
    var db' := db.(disputes := db.disputes[id := d], outbox := db.outbox + [e]);
    hide Escalations;
    OneTold(db.outbox, e);
    forall x ensures ToldOnce(db', x) { assert ToldOnce(db, x); }
  }

  /** One dispute handed over: it was overdue, so its time was up. */
  lemma {:induction false} EscalatingKeepsTime(cfg: Settings, db: DB, order: seq<Id>, now: int)
    requires AllOnTime(cfg, db) && Distinct(order)
    requires forall id :: id in order ==> id in db.disputes && db.disputes[id].escalated.None?
    ensures AllOnTime(cfg, EscalateEach(db, order, now))
  {
    if order != [] {
      var init, id := order[..|order| - 1], order[|order| - 1];
      EscalatingKeepsTime(cfg, db, init, now);
      EscalateEachEffect(db, init, now);
      assert id in order && id !in init;
      var db1 := EscalateEach(db, init, now);
      hide Escalations;
      OneTold(db1.outbox, Notice(id, Escalated, 0));
      var db2 := EscalateEach(db, order, now);
      forall x ensures ToldOnce(db2, x) { assert ToldOnce(db1, x); }
    }
  }

  lemma BatchIsStill(cfg: Settings, db: DB, op: Op, now: int)
    requires AmountsOk(db) && (op.RemoveListing? || op.SuspendRequester? || op.SweepLapsed? || op.SweepFinished? || op.SweepReviews?)
    ensures Answer(cfg, db, op, now).Ok? && Still(db, Answer(cfg, db, op, now).value)
  {
    hide AmountsOk, CloseEach, PublishEach, Still;
    if op.SweepReviews? {
      PublishingIsStill(db, op.order, now);
    } else {
      ClosingIsStill(db, if op.SweepLapsed? then Lapsing else if op.SweepFinished? then Finishing else Declining, op.order, now);
    }
  }

  /** All but an opening, an offer and a hand-over. */
  lemma MostAreStill(cfg: Settings, db: DB, op: Op, now: int)
    requires Inv(cfg, db) && AmountsOk(db) && Enabled(cfg, db, op, now) && Answer(cfg, db, op, now).Ok?
    requires !op.Acts? && !op.Offers? && !op.SweepDisputes?
    ensures Still(db, Answer(cfg, db, op, now).value)
  {
    hide Inv, AmountsOk, Still, Enabled, ApplyEvent, PaymentRefused;
    if op.Accepts? || op.Resolves? || op.Approves? || op.Rejects? || op.Withdraws? {
      hide Answer;
      DecisionIsStill(cfg, db, op, now);
    } else if op.Rates? || op.RatesRenter? {
      hide Answer;
      ReviewIsStill(cfg, db, op, now);
    } else if op.PaymentAuthorised? || op.PaymentFails? || op.PaymentIsRefused? {
      PaymentIsStill(cfg, db, op.id, Authorised, now);
      PaymentIsStill(cfg, db, op.id, AuthorisedInstant, now);
      PaymentIsStill(cfg, db, op.id, PaymentDeclined, now);
    } else {
      hide Answer;
      BatchIsStill(cfg, db, op, now);
    }
  }

  lemma AnswerKeepsTime(cfg: Settings, db: DB, op: Op, now: int)
    requires AllOnTime(cfg, db) && Inv(cfg, db) && AmountsOk(db) && Enabled(cfg, db, op, now) && Answer(cfg, db, op, now).Ok?
    ensures AllOnTime(cfg, Answer(cfg, db, op, now).value)
  {
    hide AllOnTime, Inv, AmountsOk, Still, InTurn, Act, MakeOffer, EscalateEach;
    match op {
      case Acts(id, a, user, order) => ActKeepsTime(cfg, db, id, a, user, order, now);
      case Offers(id, user, amount) => OfferKeepsTime(cfg, db, id, user, amount, now);
      case SweepDisputes(order) => EscalatingKeepsTime(cfg, db, order, now);
      case _ =>
        hide Answer, Enabled;
        MostAreStill(cfg, db, op, now);
        StillOnTime(cfg, db, Answer(cfg, db, op, now).value);
    }
  }

  ghost predicate HandsOver(db: DB, db': DB, id: Id) {
    && id in db.disputes && id in db'.disputes && db.disputes[id].escalated.None? && db'.disputes[id].escalated.Some?
  }

  /** Only the sweep hands a dispute over, one still open, when its answer was due. */
  lemma OnlyWhenDue(cfg: Settings, db: DB, op: Op, now: int, id: Id)
    requires Inv(cfg, db) && AmountsOk(db) && Enabled(cfg, db, op, now) && Answer(cfg, db, op, now).Ok?
    requires HandsOver(db, Answer(cfg, db, op, now).value, id)
    ensures D.InDispute(db, id) && db.disputes[id].respondBy <= now
    ensures Answer(cfg, db, op, now).value.disputes[id].escalated == Some(now)
  {
    hide Inv, AmountsOk, InTurn, Act, MakeOffer, EscalateEach, Still;
    match op {
      case Acts(own, a, user, order) =>
        A.WhatActsDo(cfg, db, own, a, user, order, now);
        hide Among, Extensions;
        if a == Dispute { OpensNew(cfg, db, own, a, user, order, now); }
      case Offers(own, user, amount) => D.WhatAnOfferDoes(cfg, db, own, user, amount, now);
      case SweepDisputes(order) => EscalateEachEffect(db, order, now);
      case _ =>
        hide Answer, Enabled;
        MostAreStill(cfg, db, op, now);
        SameDisputes(db, Answer(cfg, db, op, now).value);
    }
  }

  lemma SameDisputes(db: DB, db': DB)
    requires Still(db, db')
    ensures db'.disputes == db.disputes
  {}

  lemma OpensNew(cfg: Settings, db: DB, id: Id, a: Action, user: Person, order: seq<Id>, now: int)
    requires Inv(cfg, db) && AmountsOk(db) && Act(cfg, db, id, a, user, order, now).Ok?
    ensures id !in db.disputes
  {
    T.ActParts(cfg, db, id, a, user, order, now);
    hide Inv, Act, Checked;
    A.DisputesFirst(cfg, db, id, a, user, now);
  }

  // --- runs ---------------------------------------------------------------------------------------------

  lemma StepKeepsTime(cfg: Settings, s: Sys, step: Step)
    requires AllOnTime(cfg, s.db) && SysOk(cfg, s) && CanStep(cfg, s, step) && AmountsOk(s.db)
    ensures AllOnTime(cfg, Next(cfg, s, step).db)
  {
    match step {
      case Other(op, read) => OtherKeepsTime(cfg, s, op, read);
      case Commit(t) => CommitKeepsTime(cfg, s, t);
      case Pay(t, start, read) => PayKeepsTime(cfg, s, t, start, read);
      case Tick(now) => TickKeepsTime(cfg, s, now);
      case _ => TablesUntouched(cfg, s, step);
    }
    hide SysOk, CanStep, Next, AmountsOk, AllOnTime;
  }

  lemma OtherKeepsTime(cfg: Settings, s: Sys, op: Op, read: int)
    requires AllOnTime(cfg, s.db) && SysOk(cfg, s) && CanStep(cfg, s, Other(op, read)) && AmountsOk(s.db)
    ensures AllOnTime(cfg, Next(cfg, s, Other(op, read)).db)
  {
    hide SysOk, Inv, AllOnTime, AmountsOk, Enabled, After, CanStep, Next;
    N.TheTables(cfg, s);
    OtherIs(cfg, s, op, read);
    AfterKeepsTime(cfg, s.db, op, read);
  }

  lemma AfterKeepsTime(cfg: Settings, db: DB, op: Op, now: int)
    requires AllOnTime(cfg, db) && Inv(cfg, db) && AmountsOk(db) && Enabled(cfg, db, op, now)
    ensures AllOnTime(cfg, After(cfg, db, op, now))
  {
    hide Inv, AllOnTime, AmountsOk, Enabled, Answer;
    if Answer(cfg, db, op, now).Ok? { AnswerKeepsTime(cfg, db, op, now); }
  }

  lemma CommitKeepsTime(cfg: Settings, s: Sys, t: TxId)
    requires AllOnTime(cfg, s.db) && CanStep(cfg, s, Commit(t)) && AmountsOk(s.db)
    ensures AllOnTime(cfg, Next(cfg, s, Commit(t)).db)
  {
    hide AmountsOk, AllOnTime, Insert, Still;
    InsertIsStill(s.db, s.txs[t].phase.id, s.txs[t].phase.row);
    StillOnTime(cfg, s.db, Insert(s.db, s.txs[t].phase.id, s.txs[t].phase.row));
  }

  lemma InsertIsStill(db: DB, id: Id, row: Row)
    ensures Still(db, Insert(db, id, row))
  {}

  lemma PayKeepsTime(cfg: Settings, s: Sys, t: TxId, start: PaymentStart, read: int)
    requires AllOnTime(cfg, s.db) && CanStep(cfg, s, Pay(t, start, read)) && AmountsOk(s.db)
    ensures AllOnTime(cfg, Next(cfg, s, Pay(t, start, read)).db)
  {
    hide AmountsOk, AllOnTime, PaymentRefused, ApplyEvent, Still, InTurn;
    PaymentIsStill(cfg, s.db, s.txs[t].phase.id, PaymentDeclined, read);
    StillOnTime(cfg, s.db, PaymentRefused(s.db, s.txs[t].phase.id, read));
  }

  lemma TickKeepsTime(cfg: Settings, s: Sys, now: int)
    requires AllOnTime(cfg, s.db) && CanStep(cfg, s, Step.Tick(now)) && AmountsOk(s.db)
    ensures AllOnTime(cfg, Next(cfg, s, Step.Tick(now)).db)
  {
    hide AmountsOk, AllOnTime, Still;
    TickIsStill(s.db, now);
    StillOnTime(cfg, s.db, s.db.(clock := now));
  }

  lemma TickIsStill(db: DB, now: int)
    ensures Still(db, db.(clock := now))
  {}

  lemma {:induction false} RunKeepsTime(cfg: Settings, states: seq<Sys>, steps: seq<Step>, i: nat)
    requires Run(cfg, states, steps) && i < |states|
    ensures AllOnTime(cfg, states[i].db)
  {
    hide CanStep, SysOk, AmountsOk, Next;
    if i > 0 {
      hide AllOnTime;
      RunKeepsTime(cfg, states, steps, i - 1);
      RunKeeps(cfg, states, steps, i - 1);
      assert OneStep(cfg, states[i - 1], steps[i - 1], states[i]);
      StepKeepsTime(cfg, states[i - 1], steps[i - 1]);
    }
  }

  /** In every run a dispute goes to staff once, by a step that read the clock when the
      whole time had passed since its last offer, or since it was opened if there was
      none, and found it still open; and the two sides are told exactly then. */
  lemma EscalatedNoSooner(cfg: Settings, states: seq<Sys>, steps: seq<Step>, i: nat, id: Id)
    requires Run(cfg, states, steps) && i + 1 < |states| && HandsOver(states[i].db, states[i + 1].db, id)
    ensures steps[i].Other? && D.InDispute(states[i].db, id)
    ensures var d := states[i].db.disputes[id];
      (if d.offeredAt.Some? then d.offeredAt.value else d.openedAt) + cfg.offerWindow <= steps[i].read
    ensures states[i + 1].db.disputes[id].escalated == Some(steps[i].read)
    ensures Escalations(states[i].db.outbox, id) == 0 && Escalations(states[i + 1].db.outbox, id) == 1
  {
    hide SysOk, AllOnTime, Next, CanStep, AmountsOk;
    RunKeepsTime(cfg, states, steps, i);
    RunKeepsTime(cfg, states, steps, i + 1);
    RunKeeps(cfg, states, steps, i);
    assert OneStep(cfg, states[i], steps[i], states[i + 1]);
    hide Run;
    StepHandsOver(cfg, states[i], steps[i], id);
    TimeOf(cfg, states[i].db, id);
    TimeOf(cfg, states[i + 1].db, id);
  }

  lemma TimeOf(cfg: Settings, db: DB, id: Id)
    requires AllOnTime(cfg, db) && id in db.disputes
    ensures OnTime(cfg, db.disputes[id]) && ToldOnce(db, id)
  {
    hide OnTime, Escalations;
  }

  lemma StepHandsOver(cfg: Settings, s: Sys, step: Step, id: Id)
    requires SysOk(cfg, s) && CanStep(cfg, s, step) && AmountsOk(s.db) && HandsOver(s.db, Next(cfg, s, step).db, id)
    ensures step.Other? && D.InDispute(s.db, id) && s.db.disputes[id].respondBy <= step.read
    ensures Next(cfg, s, step).db.disputes[id].escalated == Some(step.read)
  {
    hide SysOk, AmountsOk, CanStep, Next;
    N.TheTables(cfg, s);
    if step.Other? {
      OtherIs(cfg, s, step.op, step.read);
      hide Inv, Enabled, After, HandsOver;
      AfterHandsOver(cfg, s.db, step.op, step.read, id);
    } else {
      CreateKeepsDisputes(cfg, s, step);
    }
  }

  lemma AfterHandsOver(cfg: Settings, db: DB, op: Op, now: int, id: Id)
    requires Inv(cfg, db) && AmountsOk(db) && Enabled(cfg, db, op, now) && HandsOver(db, After(cfg, db, op, now), id)
    ensures D.InDispute(db, id) && db.disputes[id].respondBy <= now && After(cfg, db, op, now).disputes[id].escalated == Some(now)
  {
    hide Inv, AmountsOk, Enabled, Answer;
    if Answer(cfg, db, op, now).Ok? { OnlyWhenDue(cfg, db, op, now, id); }
  }

  lemma RefusalKeepsDisputes(db: DB, id: Id, now: int)
    ensures PaymentRefused(db, id, now).disputes == db.disputes
  {}

  lemma CreateKeepsDisputes(cfg: Settings, s: Sys, step: Step)
    requires CanStep(cfg, s, step) && AmountsOk(s.db) && !step.Other?
    ensures Next(cfg, s, step).db.disputes == s.db.disputes
  {
    if step.Pay? { RefusalKeepsDisputes(s.db, s.txs[step.t].phase.id, step.read); }
    hide Fresh, AskedFor, Enabled, HasKey, Taken, AfterCheck, AfterInsert, AfterRollback, Replay, PaymentRefused, InTurn, AmountsOk;
  }
}
