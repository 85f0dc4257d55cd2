/** Offers over runs: each is put to the other side, and the one that stands is
    the last that was announced. */
module BookingOffers {
  import opened Wrappers
  import opened BookingState
  import opened Booking
  import opened BookingInvariants
  import opened BookingOps
  import opened BookingSystem
  import H = BookingHistory
  import T = BookingTiming

  /** One party offers, the other is told. */
  predicate BetweenThem(t: Terms, to: Person, o: Offer) {
    && 0 <= o.amount <= t.amount
    && ((o.offeredBy == t.requester && to == t.owner) || (o.offeredBy == t.owner && to == t.requester))
  }

  /** The last offer announced on a booking. */
  function LastOffer(outbox: seq<Event>, id: Id): Option<Offer> {
    if outbox == [] then None
    else
      var e := outbox[|outbox| - 1];
      if e.DisputeOffer? && e.booking == id then Some(e.offer) else LastOffer(outbox[..|outbox| - 1], id)
  }

  function Standing(db: DB, id: Id): Option<Offer> {
    if id in db.disputes then db.disputes[id].offer else None
  }

  ghost predicate OfferOk(db: DB, e: Event) {
    e.DisputeOffer? ==> e.booking in db.bookings && BetweenThem(db.bookings[e.booking].terms, e.to, e.offer)
  }

  ghost predicate OffersOk(db: DB) {
    && (forall e :: e in db.outbox ==> OfferOk(db, e))
    && forall id :: LastOffer(db.outbox, id) == Standing(db, id)
  }

  /** The later tables hold the same offers: no event of one was added. */
  ghost predicate NoOffer(db: DB, db': DB) {
    && db.outbox <= db'.outbox && T.SameTerms(db, db')
    && (forall k :: |db.outbox| <= k < |db'.outbox| ==> !db'.outbox[k].DisputeOffer?)
    && forall id :: Standing(db', id) == Standing(db, id)
  }

  lemma {:induction false} LastStands(outbox: seq<Event>, later: seq<Event>, id: Id)
    requires outbox <= later && forall k :: |outbox| <= k < |later| ==> !later[k].DisputeOffer?
    ensures LastOffer(later, id) == LastOffer(outbox, id)
  {
    if outbox == later {
    } else {
      LastStands(outbox, later[..|later| - 1], id);
    }
  }

  lemma NoOfferKeeps(db: DB, db': DB)
    requires OffersOk(db) && NoOffer(db, db')
    ensures OffersOk(db')
  {
    forall id ensures LastOffer(db'.outbox, id) == Standing(db', id) { LastStands(db.outbox, db'.outbox, id); }
    forall e | e in db'.outbox ensures OfferOk(db', e) {
      var k :| 0 <= k < |db'.outbox| && db'.outbox[k] == e;
      if k < |db.outbox| { assert db.outbox[k] == e && OfferOk(db, e); }
    }
  }

  lemma NoOfferTrans(a: DB, b: DB, c: DB)
    requires NoOffer(a, b) && NoOffer(b, c)
    ensures NoOffer(a, c)
  {
    hide Standing;
    forall k | |a.outbox| <= k < |c.outbox| ensures !c.outbox[k].DisputeOffer? {
      if k < |b.outbox| { assert c.outbox[k] == b.outbox[k]; }
    }
  }

  lemma {:induction false} ClosingOffersNothing(db: DB, k: Closing, order: seq<Id>, now: int)
    requires Distinct(order)
    ensures NoOffer(db, CloseEach(db, k, order, now))
  {
    if order != [] {
      var init := order[..|order| - 1];
      ClosingOffersNothing(db, k, init, now);
      var db1 := CloseEach(db, k, init, now);
      var db2 := CloseEach(db, k, order, now);
      hide CloseEach;
      NoOfferTrans(db, db1, db2);
    }
  }

  lemma {:induction false} PublishingOffersNothing(db: DB, order: seq<Id>, now: int)
    ensures NoOffer(db, PublishEach(db, order, now))
  {
    if order != [] {
      var init := order[..|order| - 1];
      PublishingOffersNothing(db, init, now);
      var db1 := PublishEach(db, init, now);
      var db2 := PublishEach(db, order, now);
      hide PublishEach;
      NoOfferTrans(db, db1, db2);
    }
  }

  lemma {:induction false} EscalatingOffersNothing(db: DB, order: seq<Id>, now: int)
    ensures NoOffer(db, EscalateEach(db, order, now))
  {
    if order != [] {
      var init := order[..|order| - 1];
      EscalatingOffersNothing(db, init, now);
      var db1 := EscalateEach(db, init, now);
      var db2 := EscalateEach(db, order, now);
      hide EscalateEach;
      NoOfferTrans(db, db1, db2);
    }
  }

  lemma MoveOffersNothing(db: DB, id: Id, row: Row, actor: Actor, now: int)
    requires id in db.bookings && row.terms == db.bookings[id].terms
    ensures NoOffer(db, Move(db, id, row, actor, now)) && Move(db, id, row, actor, now).disputes == db.disputes
  {}

  lemma SideTablesOfferNothing(db: DB, db': DB)
    requires T.SameTerms(db, db') && db'.outbox == db.outbox && forall id :: Standing(db', id) == Standing(db, id)
    ensures NoOffer(db, db')
  {}

  lemma ActsLegally(cfg: Settings, db: DB, id: Id, a: Action, user: Person, now: int)
    requires Inv(cfg, db) && id in db.bookings && db.bookings[id].terms.amount >= 0
    requires Checked(cfg, db.bookings[id], a, user, now).Ok?
    ensures var row := Checked(cfg, db.bookings[id], a, user, now).value;
      row.terms == db.bookings[id].terms && (row.status == Disputed ==> id !in db.disputes)
  {
    TheRow(cfg, db, id);
    CheckedIsLegal(cfg, db.bookings[id], TrailOf(db.trail, id), db.clock, a, user, now);
    hide Inv, Checked, RowOk, ReviewLogOk;
    var row := Checked(cfg, db.bookings[id], a, user, now).value;
    if row.status == Disputed { FirstDispute(cfg, db, id, row); }
  }

  lemma ActOffersNothing(cfg: Settings, db: DB, id: Id, a: Action, user: Person, order: seq<Id>, now: int)
    requires Inv(cfg, db) && AmountsOk(db)
    requires Among(order, Extensions(db, id)) && Act(cfg, db, id, a, user, order, now).Ok?
    ensures NoOffer(db, Act(cfg, db, id, a, user, order, now).value)
  {
    T.ActParts(cfg, db, id, a, user, order, now);
    assert db.bookings[id].terms.amount >= 0 && Distinct(order);
    hide Inv, Act, Checked, CloseEach, Among, AmountsOk, NoOffer, Move;
    ActsLegally(cfg, db, id, a, user, now);
    var row := Checked(cfg, db.bookings[id], a, user, now).value;
    MoveOffersNothing(db, id, row, Of(user), now);
    RestOffersNothing(db, Move(db, id, row, Of(user), now), id, row.status == Disputed,
      DisputeRow(user, now, now + cfg.offerWindow, None, None, None), order, now);
  }

  /** What follows the move: the extensions ended, or the dispute opened. */
  lemma RestOffersNothing(db: DB, db1: DB, id: Id, disputed: bool, d: DisputeRow, order: seq<Id>, now: int)
    requires NoOffer(db, db1) && Distinct(order) && d.offer.None? && (disputed ==> id !in db1.disputes)
    ensures NoOffer(db, CloseEach(db1, WithParent, order, now))
    ensures disputed ==> NoOffer(db, db1.(disputes := db1.disputes[id := d]))
  {
    hide NoOffer, CloseEach;
    ClosingOffersNothing(db1, WithParent, order, now);
    NoOfferTrans(db, db1, CloseEach(db1, WithParent, order, now));
    if disputed {
      SideTablesOfferNothing(db1, db1.(disputes := db1.disputes[id := d]));
      NoOfferTrans(db, db1, db1.(disputes := db1.disputes[id := d]));
    }
  }

  /** Whoever opens a dispute finds none there. */
  lemma FirstDispute(cfg: Settings, db: DB, id: Id, row: Row)
    requires Inv(cfg, db) && id in db.bookings && row.status == Disputed && LegalMove(db.bookings[id], row)
    ensures id !in db.disputes
  {
    hide Core, NoDoubleBooking, KeysUnique;
    EdgesDescend(db.bookings[id].status, Disputed);
    NotInDispute(cfg, db, id, Disputed);
  }

  lemma SettleOffersNothing(db: DB, id: Id, refund: int, actor: Actor, now: int)
    requires id in db.bookings && Settle(db, id, refund, actor, now).Ok?
    ensures NoOffer(db, Settle(db, id, refund, actor, now).value)
  {
    hide OutcomeOf;
  }

  lemma AgreementOffersNothing(db: DB, id: Id, user: Person, amount: nat, rid: Id, now: int)
    requires AcceptOffer(db, id, user, amount, rid, now).Ok?
    ensures NoOffer(db, AcceptOffer(db, id, user, amount, rid, now).value)
  {
    hide OwnerSees, Settle, NoOffer, OutcomeOf;
    var res := Resolution(id, OutcomeOf(amount, db.bookings[id].terms.amount), amount, user, Parties, Done, None);
    var db1 := db.(resolutions := db.resolutions[rid := res]);
    SideTablesOfferNothing(db, db1);
    SettleOffersNothing(db1, id, amount, Of(user), now);
    NoOfferTrans(db, db1, AcceptOffer(db, id, user, amount, rid, now).value);
  }

  lemma AuditOffersNothing(db: DB, staff: Person, rid: Id)
    ensures NoOffer(db, Audit(db, staff, rid))
  {}

  lemma ResolveOffersNothing(
    cfg: Settings, db: DB, id: Id, o: Outcome, part: Option<int>, staff: Person, role: StaffRole, rid: Id, now: int)
    requires Resolve(cfg, db, id, o, part, staff, role, rid, now).Ok?
    ensures NoOffer(db, Resolve(cfg, db, id, o, part, staff, role, rid, now).value)
  {
    hide Settle, NoOffer, AwaitsApproval, RefundFor, Audit;
    var refund := RefundFor(o, part, db.bookings[id].terms.amount).value;
    var within := refund <= cfg.limit(db.bookings[id].terms.currency, role);
    var res := Resolution(id, o, refund, staff, role, if within then Done else PendingApproval, None);
    var db1 := db.(resolutions := db.resolutions[rid := res]);
    SideTablesOfferNothing(db, db1);
    var db2 := if within then Settle(db1, id, refund, Support(staff), now).value else db1;
    if within {
      SettleOffersNothing(db1, id, refund, Support(staff), now);
      NoOfferTrans(db, db1, db2);
    }
    AuditOffersNothing(db2, staff, rid);
    NoOfferTrans(db, db2, Audit(db2, staff, rid));
  }

  lemma ApproveOffersNothing(cfg: Settings, db: DB, rid: Id, staff: Person, role: StaffRole, now: int)
    requires Approve(cfg, db, rid, staff, role, now).Ok?
    ensures NoOffer(db, Approve(cfg, db, rid, staff, role, now).value)
  {
    hide Settle, NoOffer, Audit;
    var res := Booking.Pending(db, rid).value;
    var db1 := db.(resolutions := db.resolutions[rid := res.(status := Done, approver := Some((staff, role)))]);
    SideTablesOfferNothing(db, db1);
    SettleOffersNothing(db1, res.booking, res.refund, Support(staff), now);
    var db2 := Settle(db1, res.booking, res.refund, Support(staff), now).value;
    NoOfferTrans(db, db1, db2);
    AuditOffersNothing(db2, staff, rid);
    NoOfferTrans(db, db2, Audit(db2, staff, rid));
  }

  lemma DropOffersNothing(cfg: Settings, db: DB, op: Op, now: int)
    requires AmountsOk(db) && (op.Rejects? || op.Withdraws?) && Answer(cfg, db, op, now).Ok?
    ensures NoOffer(db, Answer(cfg, db, op, now).value)
  {
    hide AmountsOk;
  }

  lemma ReviewOffersNothing(cfg: Settings, db: DB, op: Op, now: int)
    requires AmountsOk(db) && (op.Rates? || op.RatesRenter?) && Answer(cfg, db, op, now).Ok?
    ensures NoOffer(db, Answer(cfg, db, op, now).value)
  {
    hide AmountsOk, OwnerSees, NoOffer, PublishReviews;
    var id := op.id;
    if op.Rates? {
      var v := db.bookings[id].reviews.(outcome := Some(op.quality), ratedAt := Some(now));
      ReviewedOffersNothing(db, id, v, now);
    } else {
      var v := db.bookings[id].reviews.(renterRating := Some(op.quality));
      ReviewedOffersNothing(db, id, v, now);
    }
  }

  lemma ReviewedOffersNothing(db: DB, id: Id, v: Reviews, now: int)
    requires id in db.bookings
    ensures var db1 := db.(bookings := db.bookings[id := db.bookings[id].(reviews := v)]);
      NoOffer(db, db1) && NoOffer(db, PublishReviews(db1, id, now))
  {}

  lemma PaymentOffersNothing(cfg: Settings, db: DB, id: Id, a: SystemAction, now: int)
    ensures NoOffer(db, ApplyEvent(cfg, db, id, a, now)) && NoOffer(db, PaymentRefused(db, id, now))
  {
    hide AnswerDeadline;
  }

  lemma OfferShape(cfg: Settings, db: DB, id: Id, user: Person, amount: nat, now: int)
    requires MakeOffer(cfg, db, id, user, amount, now).Ok?
    ensures id in db.bookings && user in {db.bookings[id].terms.requester, db.bookings[id].terms.owner}
    ensures amount <= db.bookings[id].terms.amount
    ensures var t, db' := db.bookings[id].terms, MakeOffer(cfg, db, id, user, amount, now).value;
      var to := if user == t.requester then t.owner else t.requester;
      && db'.bookings == db.bookings && db'.outbox == db.outbox + [DisputeOffer(id, to, Offer(amount, user))]
      && forall j :: Standing(db', j) == if j == id then Some(Offer(amount, user)) else Standing(db, j)
  {
    hide OwnerSees;
  }

  /** Making one: the event and the standing offer together, to the other side. */
  lemma OfferKeeps(cfg: Settings, db: DB, id: Id, user: Person, amount: nat, now: int)
    requires OffersOk(db) && MakeOffer(cfg, db, id, user, amount, now).Ok?
    requires id in db.bookings && db.bookings[id].terms.requester != db.bookings[id].terms.owner
    ensures OffersOk(MakeOffer(cfg, db, id, user, amount, now).value)
  {
    OfferShape(cfg, db, id, user, amount, now);
    hide MakeOffer, Standing;
    var db' := MakeOffer(cfg, db, id, user, amount, now).value;
    assert db'.outbox[..|db.outbox|] == db.outbox;
    forall x | x in db'.outbox ensures OfferOk(db', x) {
      assert x in db.outbox ==> OfferOk(db, x);
    }
  }

  lemma SweepOffersNothing(cfg: Settings, db: DB, op: Op, now: int)
    requires AmountsOk(db) && Enabled(cfg, db, op, now)
    requires op.RemoveListing? || op.SuspendRequester? || op.SweepLapsed? || op.SweepFinished? || op.SweepReviews? || op.SweepDisputes?
    ensures Answer(cfg, db, op, now).Ok? && NoOffer(db, Answer(cfg, db, op, now).value)
  {
    hide AmountsOk, NoOffer, CloseEach, PublishEach, EscalateEach, PendingOf, PendingBy, LapseDue, FinishDue, ReviewDue, EscalationDue;
    match op {
      case RemoveListing(_, order) => ClosingOffersNothing(db, Declining, order, now);
      case SuspendRequester(_, order) => ClosingOffersNothing(db, Declining, order, now);
      case SweepLapsed(order) => ClosingOffersNothing(db, Lapsing, order, now);
      case SweepFinished(order) => ClosingOffersNothing(db, Finishing, order, now);
      case SweepReviews(order) => PublishingOffersNothing(db, order, now);
      case SweepDisputes(order) => EscalatingOffersNothing(db, order, now);
    }
  }

  lemma AfterKeepsOffers(cfg: Settings, db: DB, op: Op, now: int)
    requires OffersOk(db) && Inv(cfg, db) && AmountsOk(db) && Enabled(cfg, db, op, now)
    ensures OffersOk(After(cfg, db, op, now))
  {
    hide NoOffer, Inv, AmountsOk, OffersOk;
    if Answer(cfg, db, op, now).Ok? {
      if op.Offers? {
        OfferShape(cfg, db, op.id, op.user, op.amount, now);
        PartiesDiffer(cfg, db, op.id);
        OfferKeeps(cfg, db, op.id, op.user, op.amount, now);
      } else {
        AfterOffersNothing(cfg, db, op, now);
        NoOfferKeeps(db, Answer(cfg, db, op, now).value);
      }
    }
  }

  lemma AfterOffersNothing(cfg: Settings, db: DB, op: Op, now: int)
    requires Inv(cfg, db) && AmountsOk(db) && Enabled(cfg, db, op, now)
    requires !op.Offers? && Answer(cfg, db, op, now).Ok?
    ensures NoOffer(db, Answer(cfg, db, op, now).value)
  {
    hide NoOffer, Inv, AmountsOk;
    match op {
      case PaymentAuthorised(id) =>
        var instant := id in db.bookings && db.bookings[id].terms.instant;
        PaymentOffersNothing(cfg, db, id, if instant then AuthorisedInstant else Authorised, now);
      case PaymentFails(id) => PaymentOffersNothing(cfg, db, id, PaymentDeclined, now);
      case PaymentIsRefused(id) => PaymentOffersNothing(cfg, db, id, PaymentDeclined, now);
      case Acts(id, a, user, order) => ActOffersNothing(cfg, db, id, a, user, order, now);
      case Accepts(id, user, amount, rid) => AgreementOffersNothing(db, id, user, amount, rid, now);
      case Resolves(id, o, part, staff, role, rid) => ResolveOffersNothing(cfg, db, id, o, part, staff, role, rid, now);
      case Approves(rid, staff, role) => ApproveOffersNothing(cfg, db, rid, staff, role, now);
      case Rejects(_, _) => DropOffersNothing(cfg, db, op, now);
      case Withdraws(_, _) => DropOffersNothing(cfg, db, op, now);
      case Rates(_, _, _) => ReviewOffersNothing(cfg, db, op, now);
      case RatesRenter(_, _, _) => ReviewOffersNothing(cfg, db, op, now);
      case _ => SweepOffersNothing(cfg, db, op, now);
    }
  }

  // --- runs -----------------------------------------------------------------------------------

  lemma StepKeepsOffers(cfg: Settings, s: Sys, step: Step)
    requires OffersOk(s.db) && SysOk(cfg, s) && CanStep(cfg, s, step) && AmountsOk(s.db)
    ensures OffersOk(Next(cfg, s, step).db)
  {
    match step {
      case Other(op, read) => OtherKeepsOffers(cfg, s, op, read);
      case Commit(t) => CommitKeepsOffers(cfg, s, t);
      case Pay(t, start, read) => PayKeepsOffers(cfg, s, t, start, read);
      case Tick(now) => TickKeepsOffers(cfg, s, now);
      case _ => TablesUntouched(cfg, s, step);
    }
    hide SysOk, CanStep, Next, AmountsOk, OffersOk;
  }

  lemma OtherKeepsOffers(cfg: Settings, s: Sys, op: Op, read: int)
    requires OffersOk(s.db) && SysOk(cfg, s) && CanStep(cfg, s, Other(op, read)) && AmountsOk(s.db)
    ensures OffersOk(Next(cfg, s, Other(op, read)).db)
  {
    hide AmountsOk, OffersOk, After, Enabled, TxOk, Apart, Inv;
    AfterKeepsOffers(cfg, s.db, op, read);
  }

  lemma CommitKeepsOffers(cfg: Settings, s: Sys, t: TxId)
    requires OffersOk(s.db) && SysOk(cfg, s) && CanStep(cfg, s, Commit(t)) && AmountsOk(s.db)
    ensures OffersOk(Next(cfg, s, Commit(t)).db)
  {
    FreshId(cfg, s, t);
    var p := s.txs[t].phase;
    hide SysOk, AmountsOk, OffersOk, Insert, NoOffer;
    InsertOffersNothing(s.db, p.id, p.row);
    NoOfferKeeps(s.db, Insert(s.db, p.id, p.row));
  }

  lemma InsertOffersNothing(db: DB, id: Id, row: Row)
    requires id !in db.bookings
    ensures NoOffer(db, Insert(db, id, row))
  {}

  lemma PayKeepsOffers(cfg: Settings, s: Sys, t: TxId, start: PaymentStart, read: int)
    requires OffersOk(s.db) && CanStep(cfg, s, Pay(t, start, read)) && AmountsOk(s.db)
    ensures OffersOk(Next(cfg, s, Pay(t, start, read)).db)
  {
    hide AmountsOk, OffersOk, PaymentRefused, ApplyEvent, NoOffer;
    PaymentOffersNothing(cfg, s.db, s.txs[t].phase.id, PaymentDeclined, read);
    NoOfferKeeps(s.db, PaymentRefused(s.db, s.txs[t].phase.id, read));
  }

  lemma TickKeepsOffers(cfg: Settings, s: Sys, now: int)
    requires OffersOk(s.db) && CanStep(cfg, s, Step.Tick(now)) && AmountsOk(s.db)
    ensures OffersOk(Next(cfg, s, Step.Tick(now)).db)
  {
    hide AmountsOk, OffersOk;
    SideTablesOfferNothing(s.db, s.db.(clock := now));
    NoOfferKeeps(s.db, s.db.(clock := now));
  }

  lemma {:induction false} RunKeepsOffers(cfg: Settings, states: seq<Sys>, steps: seq<Step>, i: nat)
    requires Run(cfg, states, steps) && i < |states|
    ensures OffersOk(states[i].db)
  {
    hide CanStep, SysOk, AmountsOk, Next;
    if i > 0 {
      hide OffersOk;
      RunKeepsOffers(cfg, states, steps, i - 1);
      RunKeeps(cfg, states, steps, i - 1);
      assert OneStep(cfg, states[i - 1], steps[i - 1], states[i]);
      StepKeepsOffers(cfg, states[i - 1], steps[i - 1]);
    }
  }

  /** In every run every offer announced is one party's, of no more than the price,
      and told to the other; and the offer on the table is the last announced. */
  lemma OffersReachTheOtherSide(cfg: Settings, states: seq<Sys>, steps: seq<Step>, i: nat, e: Event, id: Id)
    requires Run(cfg, states, steps) && i < |states|
    ensures var db := states[i].db;
      && (e in db.outbox && e.DisputeOffer? ==>
        e.booking in db.bookings && BetweenThem(db.bookings[e.booking].terms, e.to, e.offer))
      && LastOffer(db.outbox, id) == Standing(db, id)
  {
    RunKeepsOffers(cfg, states, steps, i);
    hide Run, LastOffer, Standing, BetweenThem;
    assert e in states[i].db.outbox ==> OfferOk(states[i].db, e);
  }

  /** So what two parties agreed on is what was last announced to the one who agreed. */
  lemma AgreementsAreAnnounced(cfg: Settings, states: seq<Sys>, steps: seq<Step>, i: nat, x: Id)
    requires Run(cfg, states, steps) && i < |states|
    requires x in states[i].db.resolutions && states[i].db.resolutions[x].role == Parties
    ensures var p := states[i].db.resolutions[x];
      var last := LastOffer(states[i].db.outbox, p.booking);
      last.Some? && last.value.amount == p.refund && last.value.offeredBy != p.author
  {
    var p := states[i].db.resolutions[x];
    H.AgreedOnTheLatestOffer(cfg, states, steps, i, x);
    RunKeepsOffers(cfg, states, steps, i);
    OffersReachTheOtherSide(cfg, states, steps, i, Notice(0, Escalated, 0), p.booking);
    RunKeeps(cfg, states, steps, i);
    assert Inv(cfg, states[i].db) by { hide Inv, TxOk, Apart; }
    PartiesDiffer(cfg, states[i].db, p.booking);
    hide Run, SysOk, OffersOk;
  }

  lemma PartiesDiffer(cfg: Settings, db: DB, id: Id)
    requires Inv(cfg, db) && id in db.bookings
    ensures db.bookings[id].terms.requester != db.bookings[id].terms.owner
  {
    TheRow(cfg, db, id);
    hide Inv, Path, MoneyOk, DeadlineOk, ReviewsOk, ReviewLogOk;
  }
}
