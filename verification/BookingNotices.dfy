/** What the parties and the audit log are told, over runs: one settlement notice
    for every settled dispute, and a line for every decision of staff. */
module BookingNotices {
  import opened Wrappers
  import opened BookingState
  import opened Booking
  import opened BookingInvariants
  import opened BookingOps
  import opened BookingSystem
  import T = BookingTiming

  /** The notices that a dispute of a booking was settled, in order. */
  function Settlements(outbox: seq<Event>, id: Id): seq<Event> {
    if outbox == [] then []
    else
      var e := outbox[|outbox| - 1];
      Settlements(outbox[..|outbox| - 1], id) + if e.Notice? && e.kind != Escalated && e.booking == id then [e] else []
  }

  /** Who has an audit line about a resolution, in order. */
  function AuditedBy(outbox: seq<Event>, rid: Id): seq<Person> {
    if outbox == [] then []
    else
      var e := outbox[|outbox| - 1];
      AuditedBy(outbox[..|outbox| - 1], rid) + if e.StaffAction? && e.resolution == rid then [e.staff] else []
  }

  predicate SettledNow(db: DB, id: Id) {
    id in db.disputes && id in db.bookings && db.bookings[id].status in {Completed, Cancelled}
  }

  /** How it ended, and what went back. */
  function TheNotice(id: Id, r: Row): Event {
    Notice(id, NoticeOf(OutcomeOf(r.refund.GetOr(0), r.terms.amount)), r.refund.GetOr(0))
  }

  predicate SettlementTold(db: DB, id: Id) {
    && Settlements(db.outbox, id) == (if SettledNow(db, id) then [TheNotice(id, db.bookings[id])] else [])
    && (SettledNow(db, id) ==> AllBack(db.bookings[id]))
  }

  /** It is cancelled exactly if everything went back. */
  predicate AllBack(r: Row) { r.status == Cancelled <==> r.refund.GetOr(0) == r.terms.amount }

  /** Its author's line; then whoever decided on it. */
  predicate Decided(res: Resolution, lines: seq<Person>) {
    if res.role == Parties then lines == []
    else
      match res.status
      case PendingApproval => lines == [res.author]
      case Done => lines == if res.approver.Some? then [res.author, res.approver.value.0] else [res.author]
      case Rejected => |lines| == 2 && lines[0] == res.author && lines[1] != res.author
      case Withdrawn => lines == [res.author, res.author]
  }

  predicate DecisionsTold(db: DB, rid: Id) {
    if rid in db.resolutions then
      && Decided(db.resolutions[rid], AuditedBy(db.outbox, rid))
      && (db.resolutions[rid].status == PendingApproval ==> db.resolutions[rid].role != Parties && db.resolutions[rid].approver.None?)
    else AuditedBy(db.outbox, rid) == []
  }

  ghost predicate SettlementsTold(db: DB) { forall id :: SettlementTold(db, id) }

  ghost predicate Told(db: DB) {
    SettlementsTold(db) && forall rid :: DecisionsTold(db, rid)
  }

  lemma OneEvent(outbox: seq<Event>, e: Event)
    ensures forall id :: Settlements(outbox + [e], id) ==
                         if e.Notice? && e.kind != Escalated && e.booking == id then Settlements(outbox, id) + [e] else Settlements(outbox, id)
    ensures forall rid :: AuditedBy(outbox + [e], rid) ==
                          if e.StaffAction? && e.resolution == rid then AuditedBy(outbox, rid) + [e.staff] else AuditedBy(outbox, rid)
  {
    assert (outbox + [e])[..|outbox|] == outbox;
  }

  // --- transactions that settle and decide nothing -----------------------------------------------------

  predicate Plain(e: Event) { !e.StaffAction? && !(e.Notice? && e.kind != Escalated) }

  lemma {:induction false} PlainAdded(outbox: seq<Event>, later: seq<Event>)
    requires outbox <= later && forall k :: |outbox| <= k < |later| ==> Plain(later[k])
    ensures forall id :: Settlements(later, id) == Settlements(outbox, id)
    ensures forall rid :: AuditedBy(later, rid) == AuditedBy(outbox, rid)
  {
    if outbox != later {
      PlainAdded(outbox, later[..|later| - 1]);
      assert later == later[..|later| - 1] + [later[|later| - 1]];
      OneEvent(later[..|later| - 1], later[|later| - 1]);
    }
  }

  /** No booking in dispute moved, and those that came into one are still there. */
  ghost predicate DisputesStand(db: DB, db': DB) {
    && db'.resolutions == db.resolutions
    && (forall id :: id in db.bookings ==> id in db'.bookings && (id in db.disputes ==> Stands(db.bookings[id], db'.bookings[id])))
    && (forall id :: id in db.disputes ==> id in db'.disputes)
    && (forall id :: id in db'.disputes && id !in db.disputes ==> id in db'.bookings && db'.bookings[id].status == Disputed)
  }

  predicate Stands(r: Row, s: Row) { s.status == r.status && s.refund == r.refund && s.terms == r.terms }

  ghost predicate Quiet(db: DB, db': DB) {
    && DisputesStand(db, db') && db.outbox <= db'.outbox
    && forall k :: |db.outbox| <= k < |db'.outbox| ==> Plain(db'.outbox[k])
  }

  lemma QuietKeeps(cfg: Settings, db: DB, db': DB)
    requires Told(db) && Quiet(db, db') && DisputesOk(cfg, db)
    ensures Told(db')
  {
    PlainAdded(db.outbox, db'.outbox);
    forall id | id in db.disputes ensures id in db.bookings { hide DisputeOk, ResolutionOk, Rivals; }
    hide DisputesOk, Settlements, AuditedBy, Decided, TheNotice;
    forall id ensures SettlementTold(db', id) { assert SettlementTold(db, id); SameNotice(db, db', id); }
    forall rid ensures DecisionsTold(db', rid) { assert DecisionsTold(db, rid); }
  }

  lemma SameNotice(db: DB, db': DB, id: Id)
    requires DisputesStand(db, db') && (id in db.disputes ==> id in db.bookings)
    ensures SettledNow(db', id) <==> SettledNow(db, id)
    ensures SettledNow(db, id) ==>
      TheNotice(id, db'.bookings[id]) == TheNotice(id, db.bookings[id]) && (AllBack(db.bookings[id]) ==> AllBack(db'.bookings[id]))
  {}

  lemma QuietTrans(a: DB, b: DB, c: DB)
    requires Quiet(a, b) && Quiet(b, c)
    ensures Quiet(a, c)
  {
    forall k | |a.outbox| <= k < |c.outbox| ensures Plain(c.outbox[k]) {
      if k < |b.outbox| { assert c.outbox[k] == b.outbox[k]; }
    }
    hide Plain;
  }

  lemma MoveIsQuiet(db: DB, id: Id, row: Row, actor: Actor, now: int)
    requires id in db.bookings && id !in db.disputes
    ensures Quiet(db, Move(db, id, row, actor, now))
  {}

  lemma {:induction false} ClosingIsQuiet(db: DB, k: Closing, order: seq<Id>, now: int)
    requires Distinct(order) && forall id :: id in order ==> id in db.bookings && id !in db.disputes
    ensures Quiet(db, CloseEach(db, k, order, now))
  {
    if order != [] {
      var init, id := order[..|order| - 1], order[|order| - 1];
      ClosingIsQuiet(db, k, init, now);
      CloseEachEffect(db, k, init, now);
      assert id in order;
      var db1 := CloseEach(db, k, init, now);
      hide Quiet, Close;
      MoveIsQuiet(db1, id, Close(k, db1.bookings[id]), System, now);
      QuietTrans(db, db1, CloseEach(db, k, order, now));
    }
  }

  lemma PublishOneIsQuiet(db: DB, id: Id, now: int)
    requires id in db.bookings
    ensures Quiet(db, PublishReviews(db, id, now))
  {}

  lemma {:induction false} PublishingIsQuiet(db: DB, order: seq<Id>, now: int)
    ensures Quiet(db, PublishEach(db, order, now))
  {
    if order != [] {
      var init, id := order[..|order| - 1], order[|order| - 1];
      PublishingIsQuiet(db, init, now);
      var db1 := PublishEach(db, init, now);
      hide Quiet, PublishReviews;
      if id in db1.bookings {
        PublishOneIsQuiet(db1, id, now);
        QuietTrans(db, db1, PublishEach(db, order, now));
      }
    }
  }

  lemma EscalateOneIsQuiet(db: DB, id: Id, d: DisputeRow)
    requires id in db.disputes
    ensures Quiet(db, db.(disputes := db.disputes[id := d], outbox := db.outbox + [Notice(id, Escalated, 0)]))
  {}

  lemma {:induction false} EscalatingIsQuiet(db: DB, order: seq<Id>, now: int)
    ensures Quiet(db, EscalateEach(db, order, now))
  {
    if order != [] {
      var init, id := order[..|order| - 1], order[|order| - 1];
      EscalatingIsQuiet(db, init, now);
      var db1 := EscalateEach(db, init, now);
      hide Quiet;
      if id in db1.disputes {
        EscalateOneIsQuiet(db1, id, db1.disputes[id].(escalated := Some(now)));
        QuietTrans(db, db1, EscalateEach(db, order, now));
      }
    }
  }

  lemma NothingIsQuiet(db: DB)
    ensures Quiet(db, db)
  {}

  /** A booking some transaction may still move is in no dispute, unless it is Disputed. */
  lemma Undisputed(cfg: Settings, db: DB, id: Id)
    requires Inv(cfg, db) && id in db.bookings && db.bookings[id].status in {AwaitingPayment, Requested, Accepted, Active}
    ensures id !in db.disputes
  {
    hide Core, NoDoubleBooking, KeysUnique, ResolutionOk, Rivals;
  }

  lemma PaymentIsQuiet(cfg: Settings, db: DB, id: Id, a: SystemAction, now: int)
    requires Inv(cfg, db) && a in {Authorised, AuthorisedInstant, PaymentDeclined}
    ensures Quiet(db, ApplyEvent(cfg, db, id, a, now)) && Quiet(db, PaymentRefused(db, id, now))
  {
    hide Inv, Quiet, Move, AnswerDeadline;
    NothingIsQuiet(db);
    if id in db.bookings && db.bookings[id].status in {AwaitingPayment, Accepted} {
      Undisputed(cfg, db, id);
      forall row, actor ensures Quiet(db, Move(db, id, row, actor, now)) { MoveIsQuiet(db, id, row, actor, now); }
    }
  }

  lemma ActIsQuiet(cfg: Settings, db: DB, id: Id, a: Action, user: Person, order: seq<Id>, now: int)
    requires Inv(cfg, db) && AmountsOk(db) && Among(order, Extensions(db, id)) && Act(cfg, db, id, a, user, order, now).Ok?
    ensures Quiet(db, Act(cfg, db, id, a, user, order, now).value)
  {
    T.ActParts(cfg, db, id, a, user, order, now);
    CheckedFrom(cfg, db.bookings[id], a, user, now);
    Undisputed(cfg, db, id);
    forall x | x in order ensures x in db.bookings && x !in db.disputes {
      assert Closable(WithParent, db.bookings[x]);
      Undisputed(cfg, db, x);
    }
    assert Distinct(order);
    hide Inv, Act, Checked, AmountsOk, Among, Extensions, CloseEach, Quiet;
    var row := Checked(cfg, db.bookings[id], a, user, now).value;
    MoveIsQuiet(db, id, row, Of(user), now);
    var db1 := Move(db, id, row, Of(user), now);
    if row.status == Cancelled {
      ClosingIsQuiet(db1, WithParent, order, now);
      QuietTrans(db, db1, CloseEach(db1, WithParent, order, now));
    } else if row.status == Disputed {
      OpeningIsQuiet(db1, id, DisputeRow(user, now, now + cfg.offerWindow, None, None, None));
      QuietTrans(db, db1, db1.(disputes := db1.disputes[id := DisputeRow(user, now, now + cfg.offerWindow, None, None, None)]));
    }
  }

  lemma OpeningIsQuiet(db: DB, id: Id, d: DisputeRow)
    requires id in db.bookings && (id in db.disputes || db.bookings[id].status == Disputed)
    ensures Quiet(db, db.(disputes := db.disputes[id := d]))
  {}

  lemma CheckedFrom(cfg: Settings, r: Row, a: Action, user: Person, now: int)
    requires r.terms.amount >= 0 && Checked(cfg, r, a, user, now).Ok?
    ensures r.status in {AwaitingPayment, Requested, Accepted, Active}
  {
    hide Refund;
  }

  lemma BatchIsQuiet(cfg: Settings, db: DB, op: Op, now: int)
    requires Inv(cfg, db) && AmountsOk(db) && Enabled(cfg, db, op, now)
    requires op.RemoveListing? || op.SuspendRequester? || op.SweepLapsed? || op.SweepFinished? || op.SweepReviews? || op.SweepDisputes?
    ensures Answer(cfg, db, op, now).Ok? && Quiet(db, Answer(cfg, db, op, now).value)
  {
    BatchesAreClosable(cfg, db, op, now);
    hide AmountsOk, Enabled, CloseEach, PublishEach, EscalateEach, Quiet;
    if op.SweepReviews? {
      PublishingIsQuiet(db, op.order, now);
    } else if op.SweepDisputes? {
      EscalatingIsQuiet(db, op.order, now);
    } else {
      forall id | id in op.order ensures id in db.bookings && id !in db.disputes { Undisputed(cfg, db, id); }
      ClosingIsQuiet(db,
        if op.SweepLapsed? then Lapsing else if op.SweepFinished? then Finishing else Declining, op.order, now);
    }
  }

  lemma ReviewIsQuiet(cfg: Settings, db: DB, op: Op, now: int)
    requires AmountsOk(db) && (op.Rates? || op.RatesRenter?) && Answer(cfg, db, op, now).Ok?
    ensures Quiet(db, Answer(cfg, db, op, now).value)
  {
    hide AmountsOk, OwnerSees;
  }

  lemma OfferIsQuiet(cfg: Settings, db: DB, id: Id, user: Person, amount: nat, now: int)
    requires MakeOffer(cfg, db, id, user, amount, now).Ok?
    ensures Quiet(db, MakeOffer(cfg, db, id, user, amount, now).value)
  {
    hide OwnerSees;
  }

  // --- transactions that do ----------------------------------------------------------------------------

  ghost predicate SameAudit(db: DB, db': DB) {
    forall rid :: AuditedBy(db'.outbox, rid) == AuditedBy(db.outbox, rid)
  }

  lemma RefundIsWritten(db: DB, id: Id, refund: int)
    requires Core(db) && id in db.bookings && db.bookings[id].status == Disputed
    ensures SettledRow(db.bookings[id], refund).refund.GetOr(0) == refund
    ensures SettledRow(db.bookings[id], refund).status in {Completed, Cancelled} && AllBack(SettledRow(db.bookings[id], refund))
  {
    hide Path, LogOk, NoStrayReviews, ReviewsOk, DeadlineOk, TermsOk, TrailOf, WasAccepted;
    assert RowOk(db.bookings[id], TrailOf(db.trail, id), db.clock);
  }

  /** A settlement: the notice, and no audit line. */
  lemma SettleTells(db: DB, id: Id, refund: int, actor: Actor, now: int)
    requires SettlementsTold(db) && Core(db) && id in db.bookings && id in db.disputes && db.bookings[id].status == Disputed
    ensures Settle(db, id, refund, actor, now).Ok?
    ensures var db' := Settle(db, id, refund, actor, now).value;
      SettlementsTold(db') && db'.resolutions == db.resolutions && SameAudit(db, db')
  {
    hide Core, Settlements, AuditedBy, SettledRow, SettlementsTold, TheNotice;
    RefundIsWritten(db, id, refund);
    var e := SettleShape(db, id, refund, actor, now);
    hide Settle;
    var s, db' := SettledRow(db.bookings[id], refund), Settle(db, id, refund, actor, now).value;
    OneEvent(db.outbox, e);
    OneEvent(db.outbox + [e], TheNotice(id, s));
    NoticeAdded(db, db', id, s);
  }

  lemma SettleShape(db: DB, id: Id, refund: int, actor: Actor, now: int) returns (e: Event)
    requires id in db.bookings && db.bookings[id].status == Disputed
    requires SettledRow(db.bookings[id], refund).refund.GetOr(0) == refund
    ensures Settle(db, id, refund, actor, now).Ok? && e.StatusChanged? && TheNotice(id, SettledRow(db.bookings[id], refund)).Notice?
    ensures TheNotice(id, SettledRow(db.bookings[id], refund)).kind != Escalated
    ensures TheNotice(id, SettledRow(db.bookings[id], refund)).booking == id
    ensures var s, db' := SettledRow(db.bookings[id], refund), Settle(db, id, refund, actor, now).value;
      && db'.bookings == db.bookings[id := s] && db'.disputes == db.disputes && db'.resolutions == db.resolutions
      && db'.outbox == db.outbox + [e] + [TheNotice(id, s)]
  {
    var s := SettledRow(db.bookings[id], refund);
    e := StatusEvent(Change(id, Some(Disputed), s.status, actor), s);
    hide SettledRow;
    assert s.terms == db.bookings[id].terms by { SameTermsSettled(db.bookings[id], refund); }
  }

  lemma SameTermsSettled(r: Row, refund: int)
    ensures SettledRow(r, refund).terms == r.terms
  {}

  lemma NoticeAdded(db: DB, db': DB, id: Id, s: Row)
    requires SettlementsTold(db) && id in db.bookings && id in db.disputes && db.bookings[id].status == Disputed
    requires db'.bookings == db.bookings[id := s] && db'.disputes == db.disputes && s.status in {Completed, Cancelled} && AllBack(s)
    requires forall j :: Settlements(db'.outbox, j) ==
                         if j == id then Settlements(db.outbox, j) + [TheNotice(id, s)] else Settlements(db.outbox, j)
    ensures SettlementsTold(db')
  {
    hide Settlements, TheNotice;
    forall j ensures SettlementTold(db', j) { assert SettlementTold(db, j); }
  }

  /** The audit line of a decision on a resolution. */
  lemma AuditTells(db: DB, db': DB, staff: Person, rid: Id, res: Resolution)
    requires Told(db) && SettlementsTold(db') && SameAudit(db, db') && db'.resolutions == db.resolutions[rid := res]
    requires Decided(res, AuditedBy(db.outbox, rid) + [staff])
    requires res.status == PendingApproval ==> res.role != Parties && res.approver.None?
    ensures Told(Audit(db', staff, rid))
  {
    hide Settlements, AuditedBy, Decided, TheNotice;
    var after := Audit(db', staff, rid);
    OneEvent(db'.outbox, StaffAction(staff, rid));
    forall j ensures SettlementTold(after, j) { assert SettlementTold(db', j); }
    forall x ensures DecisionsTold(after, x) {
      assert DecisionsTold(db, x) && AuditedBy(db'.outbox, x) == AuditedBy(db.outbox, x);
    }
  }

  /** A resolution row alone tells nothing. */
  lemma RowTellsNothing(db: DB, rid: Id, res: Resolution)
    requires Told(db) && Core(db)
    ensures var db1 := db.(resolutions := db.resolutions[rid := res]);
      SettlementsTold(db1) && SameAudit(db, db1) && Core(db1)
  {
    var db1 := db.(resolutions := db.resolutions[rid := res]);
    SideTablesKeepCore(db, db.disputes, db.resolutions[rid := res]);
    assert db1 == db.(disputes := db.disputes, resolutions := db.resolutions[rid := res]);
    hide Core, Settlements, AuditedBy, TheNotice;
    forall j ensures SettlementTold(db1, j) { assert SettlementTold(db, j); }
  }

  lemma AgreementTells(cfg: Settings, db: DB, id: Id, user: Person, amount: nat, rid: Id, now: int)
    requires Told(db) && Inv(cfg, db) && rid !in db.resolutions && AcceptOffer(db, id, user, amount, rid, now).Ok?
    ensures Told(AcceptOffer(db, id, user, amount, rid, now).value)
  {
    hide Told, Core, SettlementsTold, SameAudit, OwnerSees, Settle, OutcomeOf, DisputesOk, NoDoubleBooking, KeysUnique;
    var res := Resolution(id, OutcomeOf(amount, db.bookings[id].terms.amount), amount, user, Parties, Done, None);
    var db1 := db.(resolutions := db.resolutions[rid := res]);
    RowTellsNothing(db, rid, res);
    assert db1.bookings[id].status == Disputed by { SettleNeeds(db1, id, amount, Of(user), now); }
    SettleTells(db1, id, amount, Of(user), now);
    UnauditedTells(db, db1, AcceptOffer(db, id, user, amount, rid, now).value, rid, res);
  }

  lemma SettleNeeds(db: DB, id: Id, refund: int, actor: Actor, now: int)
    requires id in db.bookings && Settle(db, id, refund, actor, now).Ok?
    ensures db.bookings[id].status == Disputed
  {}

  lemma UnauditedTells(db: DB, db1: DB, db': DB, rid: Id, res: Resolution)
    requires Told(db) && SettlementsTold(db') && SameAudit(db, db1) && SameAudit(db1, db') && rid !in db.resolutions
    requires db'.resolutions == db.resolutions[rid := res] && res.role == Parties && res.status == Done
    ensures Told(db')
  {
    hide SettlementsTold, AuditedBy;
    forall x ensures DecisionsTold(db', x) {
      assert DecisionsTold(db, x) && AuditedBy(db'.outbox, x) == AuditedBy(db1.outbox, x) == AuditedBy(db.outbox, x);
    }
  }

  /** A resolution written, and settled if it is done; then its audit line. */
  lemma WrittenTells(db: DB, rid: Id, res: Resolution, staff: Person, now: int)
    requires Told(db) && Core(db) && Decided(res, AuditedBy(db.outbox, rid) + [staff])
    requires res.status == PendingApproval ==> res.role != Parties && res.approver.None?
    requires res.status == Done ==>
      res.booking in db.disputes && res.booking in db.bookings && db.bookings[res.booking].status == Disputed
    ensures var db1 := db.(resolutions := db.resolutions[rid := res]);
      if res.status == Done then
        var r := Settle(db1, res.booking, res.refund, Support(staff), now);
        r.Ok? && Told(Audit(r.value, staff, rid))
      else Told(Audit(db1, staff, rid))
  {
    var db1 := db.(resolutions := db.resolutions[rid := res]);
    hide Told, Core, SettlementsTold, Settle, Decided, Audit, AuditedBy, SameAudit;
    RowTellsNothing(db, rid, res);
    if res.status == Done {
      SettleTells(db1, res.booking, res.refund, Support(staff), now);
      var db2 := Settle(db1, res.booking, res.refund, Support(staff), now).value;
      SameAuditTrans(db, db1, db2);
      AuditTells(db, db2, staff, rid, res);
    } else {
      AuditTells(db, db1, staff, rid, res);
    }
  }

  lemma SameAuditTrans(a: DB, b: DB, c: DB)
    requires SameAudit(a, b) && SameAudit(b, c)
    ensures SameAudit(a, c)
  {
    forall rid ensures AuditedBy(c.outbox, rid) == AuditedBy(a.outbox, rid) {
      assert AuditedBy(c.outbox, rid) == AuditedBy(b.outbox, rid);
    }
  }

  lemma CoreOf(cfg: Settings, db: DB)
    requires Inv(cfg, db)
    ensures Core(db) && DisputesOk(cfg, db)
  {
    hide Core, DisputesOk;
  }

  lemma NewResolution(db: DB, rid: Id)
    requires Told(db) && rid !in db.resolutions
    ensures AuditedBy(db.outbox, rid) == []
  {
    hide SettlementsTold, AuditedBy;
    assert DecisionsTold(db, rid);
  }

  lemma ResolveTells(
    cfg: Settings, db: DB, id: Id, o: Outcome, part: Option<int>, staff: Person, role: StaffRole, rid: Id, now: int)
    requires Told(db) && Inv(cfg, db) && role != Parties && rid !in db.resolutions
    requires Resolve(cfg, db, id, o, part, staff, role, rid, now).Ok?
    ensures Told(Resolve(cfg, db, id, o, part, staff, role, rid, now).value)
  {
    hide Inv, Told, AwaitsApproval, RefundFor, Audit, Settle, AuditedBy, Core, DisputesOk;
    NewResolution(db, rid);
    CoreOf(cfg, db);
    HasDispute(cfg, db, id);
    var refund := RefundFor(o, part, db.bookings[id].terms.amount).value;
    var within := refund <= cfg.limit(db.bookings[id].terms.currency, role);
    var res := Resolution(id, o, refund, staff, role, if within then Done else PendingApproval, None);
    assert [] + [staff] == [staff];
    WrittenTells(db, rid, res, staff, now);
  }

  /** What a waiting resolution has in the log so far, and whose dispute it is about. */
  lemma WaitingIs(cfg: Settings, db: DB, rid: Id)
    requires Told(db) && Inv(cfg, db) && Booking.Pending(db, rid).Ok?
    ensures rid in db.resolutions && Booking.Pending(db, rid).value == db.resolutions[rid]
    ensures var res := db.resolutions[rid];
      && AuditedBy(db.outbox, rid) == [res.author] && res.role != Parties && res.approver.None?
      && res.booking in db.disputes && res.booking in db.bookings
  {
    hide Inv, SettlementsTold, AuditedBy;
    PendingIs(cfg, db, rid);
    assert DecisionsTold(db, rid);
  }

  lemma ApproveTells(cfg: Settings, db: DB, rid: Id, staff: Person, role: StaffRole, now: int)
    requires Told(db) && Inv(cfg, db) && Approve(cfg, db, rid, staff, role, now).Ok?
    ensures Told(Approve(cfg, db, rid, staff, role, now).value)
  {
    hide Inv, Told, Audit, AuditedBy, Settle, Core, DisputesOk, Booking.Pending;
    WaitingIs(cfg, db, rid);
    CoreOf(cfg, db);
    var res := db.resolutions[rid];
    var done := res.(status := Done, approver := Some((staff, role)));
    SettleNeeds(db.(resolutions := db.resolutions[rid := done]), res.booking, res.refund, Support(staff), now);
    assert [res.author] + [staff] == [res.author, staff];
    WrittenTells(db, rid, done, staff, now);
  }

  lemma DropTells(cfg: Settings, db: DB, rid: Id, staff: Person, to: ResolutionStatus)
    requires Told(db) && Inv(cfg, db) && Booking.Pending(db, rid).Ok?
    requires (to == Rejected && db.resolutions[rid].author != staff) || (to == Withdrawn && db.resolutions[rid].author == staff)
    ensures Told(Audit(db.(resolutions := db.resolutions[rid := db.resolutions[rid].(status := to)]), staff, rid))
  {
    hide Inv, Told, Audit, AuditedBy, Core, DisputesOk, Booking.Pending;
    WaitingIs(cfg, db, rid);
    CoreOf(cfg, db);
    var res := db.resolutions[rid];
    assert [res.author] + [staff] == [res.author, staff];
    WrittenTells(db, rid, res.(status := to), staff, 0);
  }

  lemma DropsTell(cfg: Settings, db: DB, op: Op, now: int)
    requires Told(db) && Inv(cfg, db) && AmountsOk(db) && (op.Rejects? || op.Withdraws?) && Answer(cfg, db, op, now).Ok?
    ensures Told(Answer(cfg, db, op, now).value)
  {
    hide Inv, Told, Audit, AmountsOk;
    DropTells(cfg, db, op.rid, op.staff, if op.Rejects? then Rejected else Withdrawn);
  }

  lemma AnswerTells(cfg: Settings, db: DB, op: Op, now: int)
    requires Told(db) && Inv(cfg, db) && AmountsOk(db) && Enabled(cfg, db, op, now) && Answer(cfg, db, op, now).Ok?
    ensures Told(Answer(cfg, db, op, now).value)
  {
    hide Told, Inv, AmountsOk, Quiet, InTurn;
    match op {
      case Accepts(id, user, amount, rid) => AgreementTells(cfg, db, id, user, amount, rid, now);
      case Resolves(id, o, part, staff, role, rid) => ResolveTells(cfg, db, id, o, part, staff, role, rid, now);
      case Approves(rid, staff, role) => ApproveTells(cfg, db, rid, staff, role, now);
      case Rejects(_, _) => DropsTell(cfg, db, op, now);
      case Withdraws(_, _) => DropsTell(cfg, db, op, now);
      case _ =>
        QuietAnswer(cfg, db, op, now);
        CoreOf(cfg, db);
        QuietKeeps(cfg, db, Answer(cfg, db, op, now).value);
    }
  }

  lemma QuietAnswer(cfg: Settings, db: DB, op: Op, now: int)
    requires Inv(cfg, db) && AmountsOk(db) && Enabled(cfg, db, op, now) && Answer(cfg, db, op, now).Ok?
    requires !op.Accepts? && !op.Resolves? && !op.Approves? && !op.Rejects? && !op.Withdraws?
    ensures Quiet(db, Answer(cfg, db, op, now).value)
  {
    hide Inv, AmountsOk, Quiet, InTurn, ApplyEvent, PaymentRefused, Act, MakeOffer, Rate, RateRenter, CloseEach, PublishEach, EscalateEach;
    match op {
      case PaymentAuthorised(id) =>
        PaymentIsQuiet(cfg, db, id, if id in db.bookings && db.bookings[id].terms.instant then AuthorisedInstant else Authorised, now);
      case PaymentFails(id) => PaymentIsQuiet(cfg, db, id, PaymentDeclined, now);
      case PaymentIsRefused(id) => PaymentIsQuiet(cfg, db, id, PaymentDeclined, now);
      case Acts(id, a, user, order) => ActIsQuiet(cfg, db, id, a, user, order, now);
      case Offers(id, user, amount) => OfferIsQuiet(cfg, db, id, user, amount, now);
      case Rates(_, _, _) => ReviewIsQuiet(cfg, db, op, now);
      case RatesRenter(_, _, _) => ReviewIsQuiet(cfg, db, op, now);
      case _ => BatchIsQuiet(cfg, db, op, now);
    }
  }

  // --- runs ---------------------------------------------------------------------------------------------

  lemma StepTells(cfg: Settings, s: Sys, step: Step)
    requires Told(s.db) && SysOk(cfg, s) && CanStep(cfg, s, step) && AmountsOk(s.db)
    ensures Told(Next(cfg, s, step).db)
  {
    match step {
      case Other(op, read) => OtherTells(cfg, s, op, read);
      case Commit(t) => CommitTells(cfg, s, t);
      case Pay(t, start, read) => PayTells(cfg, s, t, start, read);
      case Tick(now) => TickTells(cfg, s, now);
      case _ => TablesUntouched(cfg, s, step);
    }
    hide SysOk, CanStep, Next, AmountsOk, Told;
  }

  lemma TheTables(cfg: Settings, s: Sys)
    requires SysOk(cfg, s)
    ensures Inv(cfg, s.db) && DisputesOk(cfg, s.db)
  {
    hide TxOk, Apart, Core, NoDoubleBooking, KeysUnique, DisputesOk;
  }

  lemma OtherTells(cfg: Settings, s: Sys, op: Op, read: int)
    requires Told(s.db) && SysOk(cfg, s) && CanStep(cfg, s, Other(op, read)) && AmountsOk(s.db)
    ensures Told(Next(cfg, s, Other(op, read)).db)
  {
    hide SysOk, Inv, DisputesOk, Told, AmountsOk, Enabled, After, CanStep, Next;
    TheTables(cfg, s);
    OtherIs(cfg, s, op, read);
    AfterTells(cfg, s.db, op, read);
  }

  lemma AfterTells(cfg: Settings, db: DB, op: Op, now: int)
    requires Told(db) && Inv(cfg, db) && AmountsOk(db) && Enabled(cfg, db, op, now)
    ensures Told(After(cfg, db, op, now))
  {
    hide Inv, Told, AmountsOk, Enabled, Answer;
    if Answer(cfg, db, op, now).Ok? { AnswerTells(cfg, db, op, now); }
  }

  lemma CommitTells(cfg: Settings, s: Sys, t: TxId)
    requires Told(s.db) && SysOk(cfg, s) && CanStep(cfg, s, Commit(t)) && AmountsOk(s.db)
    ensures Told(Next(cfg, s, Commit(t)).db)
  {
    FreshId(cfg, s, t);
    TheTables(cfg, s);
    var p := s.txs[t].phase;
    hide SysOk, Inv, AmountsOk, Told, Insert, Quiet;
    InsertIsQuiet(cfg, s.db, p.id, p.row);
    QuietKeeps(cfg, s.db, Insert(s.db, p.id, p.row));
  }

  lemma InsertIsQuiet(cfg: Settings, db: DB, id: Id, row: Row)
    requires id !in db.bookings && DisputesOk(cfg, db)
    ensures Quiet(db, Insert(db, id, row))
  {
    hide DisputeOk, ResolutionOk, Rivals;
  }

  lemma PayTells(cfg: Settings, s: Sys, t: TxId, start: PaymentStart, read: int)
    requires Told(s.db) && SysOk(cfg, s) && CanStep(cfg, s, Pay(t, start, read)) && AmountsOk(s.db)
    ensures Told(Next(cfg, s, Pay(t, start, read)).db)
  {
    hide SysOk, Inv, DisputesOk, AmountsOk, Told, PaymentRefused, ApplyEvent, Quiet, InTurn;
    TheTables(cfg, s);
    PaymentIsQuiet(cfg, s.db, s.txs[t].phase.id, PaymentDeclined, read);
    QuietKeeps(cfg, s.db, PaymentRefused(s.db, s.txs[t].phase.id, read));
  }

  lemma TickIsQuiet(db: DB, now: int)
    ensures Quiet(db, db.(clock := now))
  {}

  lemma TickTells(cfg: Settings, s: Sys, now: int)
    requires Told(s.db) && SysOk(cfg, s) && CanStep(cfg, s, Step.Tick(now)) && AmountsOk(s.db)
    ensures Told(Next(cfg, s, Step.Tick(now)).db)
  {
    TheTables(cfg, s);
    hide SysOk, Inv, DisputesOk, AmountsOk, Told, Quiet;
    TickIsQuiet(s.db, now);
    QuietKeeps(cfg, s.db, s.db.(clock := now));
  }

  lemma {:induction false} RunTells(cfg: Settings, states: seq<Sys>, steps: seq<Step>, i: nat)
    requires Run(cfg, states, steps) && i < |states|
    ensures Told(states[i].db)
  {
    hide CanStep, SysOk, AmountsOk, Next;
    if i > 0 {
      hide Told;
      RunTells(cfg, states, steps, i - 1);
      RunKeeps(cfg, states, steps, i - 1);
      assert OneStep(cfg, states[i - 1], steps[i - 1], states[i]);
      StepTells(cfg, states[i - 1], steps[i - 1]);
    }
  }

  /** In every run a booking whose dispute was settled has one notice of it, which
      says how it ended and what its row says went back; no other booking has any. */
  lemma SettlementsAreToldOnce(cfg: Settings, states: seq<Sys>, steps: seq<Step>, i: nat, id: Id)
    requires Run(cfg, states, steps) && i < |states|
    ensures var db := states[i].db;
      Settlements(db.outbox, id) ==
        if id in db.disputes && id in db.bookings && db.bookings[id].status in {Completed, Cancelled}
        then [TheNotice(id, db.bookings[id])] else []
    ensures SettledNow(states[i].db, id) ==>
      var r := states[i].db.bookings[id];
      var told := TheNotice(id, r);
      && (told.kind == Refunded <==> r.status == Cancelled) && (told.kind == OwnerPaid <==> r.refund.GetOr(0) == 0)
      && (told.kind == PartlyRefunded <==> 0 < r.refund.GetOr(0) < r.terms.amount)
  {
    hide Run, SysOk, Told, Settlements, TheNotice, AllBack, OneStep;
    RunTells(cfg, states, steps, i);
    RunKeeps(cfg, states, steps, i);
    ToldAt(states[i].db, id);
    if SettledNow(states[i].db, id) {
      RefundFits(cfg, states[i], id);
      KindSays(id, states[i].db.bookings[id]);
    }
  }

  lemma ToldAt(db: DB, id: Id)
    requires Told(db)
    ensures SettlementTold(db, id)
  {
    hide SettlementTold, DecisionsTold;
  }

  lemma KindSays(id: Id, r: Row)
    requires r.terms.amount > 0 && 0 <= r.refund.GetOr(0) <= r.terms.amount && AllBack(r) && r.status in {Completed, Cancelled}
    ensures var told := TheNotice(id, r);
      && (told.kind == Refunded <==> r.status == Cancelled) && (told.kind == OwnerPaid <==> r.refund.GetOr(0) == 0)
      && (told.kind == PartlyRefunded <==> 0 < r.refund.GetOr(0) < r.terms.amount)
  {}

  lemma RefundFits(cfg: Settings, s: Sys, id: Id)
    requires SysOk(cfg, s) && id in s.db.bookings
    ensures s.db.bookings[id].terms.amount > 0 && 0 <= s.db.bookings[id].refund.GetOr(0) <= s.db.bookings[id].terms.amount
  {
    TheTables(cfg, s);
    hide SysOk, TxOk, Apart;
    TheRow(cfg, s.db, id);
    hide Inv, DisputesOk, Path, ReviewsOk, DeadlineOk, ReviewLogOk, WasAccepted, TrailOf;
  }

  /** And the audit log has, of every resolution, its author's line and that of who
      approved, rejected or withdrew it, and no other; of an agreement of the two
      sides none. */
  lemma EveryDecisionIsAudited(cfg: Settings, states: seq<Sys>, steps: seq<Step>, i: nat, rid: Id)
    requires Run(cfg, states, steps) && i < |states|
    ensures var db := states[i].db;
      if rid in db.resolutions then Decided(db.resolutions[rid], AuditedBy(db.outbox, rid)) else AuditedBy(db.outbox, rid) == []
  {
    RunTells(cfg, states, steps, i);
    hide Run;
    assert DecisionsTold(states[i].db, rid);
  }
}
