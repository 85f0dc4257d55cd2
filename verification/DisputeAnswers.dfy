/** How a dispute ends, by whom, and for how much: what offers, agreements and
    decisions of staff are answered, exactly, in terms of the rows alone. */
module DisputeAnswers {
  import opened Wrappers
  import opened BookingState
  import opened Booking
  import opened BookingInvariants
  import opened BookingOps
  import A = BookingAnswers

  predicate InDispute(db: DB, id: Id) { id in db.bookings && db.bookings[id].status == Disputed }

  /** What a settlement for `back` writes and tells: cancelled if all of the price goes
      back, else completed; the refund, if any; one line, one event, one notice. */
  predicate Ended(db: DB, db': DB, id: Id, back: int, actor: Actor, now: int, more: seq<Event>)
    requires id in db.bookings
  {
    var r := db.bookings[id];
    var s := r.(status := if back == r.terms.amount then Cancelled else Completed, refund := if back == 0 then None else Some(back));
    var change := Change(id, Some(Disputed), s.status, actor);
    var kind := if back == 0 then OwnerPaid else if back == r.terms.amount then Refunded else PartlyRefunded;
    && db'.bookings == db.bookings[id := s] && db'.disputes == db.disputes && db'.trail == db.trail + [Edge(change, now)]
    && db'.outbox == db.outbox + [StatusChanged(change, s.refund, s.noShow), Notice(id, kind, back)] + more
  }

  /** Nothing but a resolution's row and its audit line. */
  predicate Noted(db: DB, db': DB, rid: Id, res: Resolution, staff: Person) {
    db' == db.(resolutions := db.resolutions[rid := res], outbox := db.outbox + [StaffAction(staff, rid)])
  }

  lemma DisputedRow(cfg: Settings, db: DB, id: Id)
    requires Inv(cfg, db) && InDispute(db, id)
    ensures db.bookings[id].refund == None && db.bookings[id].terms.amount > 0 && id in db.disputes
  {
    TheRow(cfg, db, id);
    HasDispute(cfg, db, id);
    hide Inv, Path, ReviewsOk, DeadlineOk, ReviewLogOk, TrailOf, WasAccepted;
  }

  /** `settle`, on its own: of a booking in dispute, and of no other. */
  lemma HowItEnds(db: DB, id: Id, back: int, actor: Actor, now: int)
    requires id in db.bookings && db.bookings[id].terms.amount > 0 && db.bookings[id].refund == None
    ensures var answer := Settle(db, id, back, actor, now);
      if db.bookings[id].status == Disputed then
        answer.Ok? && Ended(db, answer.value, id, back, actor, now, []) && answer.value.resolutions == db.resolutions
      else answer == Err(Conflict)
  {
    if db.bookings[id].status == Disputed {
      var s := SettledRow(db.bookings[id], back);
      var change := Change(id, Some(Disputed), s.status, actor);
      assert [StatusChanged(change, s.refund, s.noShow)] + [Notice(id, NoticeOf(OutcomeOf(back, db.bookings[id].terms.amount)), back)]
        == [StatusChanged(change, s.refund, s.noShow), Notice(id, NoticeOf(OutcomeOf(back, db.bookings[id].terms.amount)), back)];
    }
  }

  // --- the two sides ---------------------------------------------------------------------------

  /** Either side may offer at most the price while the dispute is open. */
  lemma WhoMayOffer(cfg: Settings, db: DB, id: Id, user: Person, amount: nat, now: int)
    requires Inv(cfg, db)
    ensures var answer := MakeOffer(cfg, db, id, user, amount, now);
      && (answer.Ok? <==> A.SeenBy(db, id, user) && InDispute(db, id) && amount <= db.bookings[id].terms.amount)
      && (answer == Err(NotFound) <==> !A.SeenBy(db, id, user))
      && (answer == Err(Invalid) <==> A.SeenBy(db, id, user) && InDispute(db, id) && amount > db.bookings[id].terms.amount)
  {
    hide Inv, A.SeenBy, Visible, MakeOffer;
    A.WhoSeesIt(cfg, db, id, user);
    OfferIs(cfg, db, id, user, amount, now);
  }

  lemma OfferIs(cfg: Settings, db: DB, id: Id, user: Person, amount: nat, now: int)
    ensures var answer := MakeOffer(cfg, db, id, user, amount, now);
      if !Visible(db, id, user) then answer == Err(NotFound)
      else
        && (answer.Ok? <==> InDispute(db, id) && amount <= db.bookings[id].terms.amount) && answer != Err(NotFound)
        && (answer == Err(Invalid) <==> InDispute(db, id) && amount > db.bookings[id].terms.amount)
  {
    hide OwnerSees;
  }

  /** It takes the place of the one on the table, is put to the other side, and gives
      them the whole time again. */
  lemma WhatAnOfferDoes(cfg: Settings, db: DB, id: Id, user: Person, amount: nat, now: int)
    requires Inv(cfg, db) && MakeOffer(cfg, db, id, user, amount, now).Ok?
    ensures id in db.bookings && id in db.disputes
    ensures var t := db.bookings[id].terms;
      var d := db.disputes[id].(offer := Some(Offer(amount, user)), offeredAt := Some(now), respondBy := now + cfg.offerWindow);
      var other := if user == t.owner then t.requester else t.owner;
      MakeOffer(cfg, db, id, user, amount, now).value ==
        db.(disputes := db.disputes[id := d], outbox := db.outbox + [DisputeOffer(id, other, Offer(amount, user))])
  {
    hide Inv, Visible, MakeOffer;
    OfferIs(cfg, db, id, user, amount, now);
    A.Seen(db, id, user);
    A.PartiesDiffer(cfg, db, id);
    DisputedRow(cfg, db, id);
    OfferWrites(cfg, db, id, user, amount, now);
  }

  lemma OfferWrites(cfg: Settings, db: DB, id: Id, user: Person, amount: nat, now: int)
    requires MakeOffer(cfg, db, id, user, amount, now).Ok? && id in db.bookings && id in db.disputes
    ensures var t := db.bookings[id].terms;
      var d := db.disputes[id].(offer := Some(Offer(amount, user)), offeredAt := Some(now), respondBy := now + cfg.offerWindow);
      MakeOffer(cfg, db, id, user, amount, now).value ==
        db.(disputes := db.disputes[id := d],
            outbox := db.outbox + [DisputeOffer(id, if user == t.requester then t.owner else t.requester, Offer(amount, user))])
  {
    hide Visible;
  }

  /** Whoever did not make it may agree to the offer on the table, and to no other. */
  lemma WhoMayAgree(cfg: Settings, db: DB, id: Id, user: Person, amount: nat, rid: Id, now: int)
    requires Inv(cfg, db)
    ensures var answer := AcceptOffer(db, id, user, amount, rid, now);
      var offer := if id in db.disputes then db.disputes[id].offer else None;
      && (answer.Ok? <==>
        && A.SeenBy(db, id, user) && InDispute(db, id)
        && offer.Some? && offer.value.offeredBy != user && offer.value.amount == amount)
      && (answer == Err(NotFound) <==> !A.SeenBy(db, id, user))
      && (answer == Err(Forbidden) <==> A.SeenBy(db, id, user) && offer.Some? && offer.value.offeredBy == user)
  {
    hide Inv, A.SeenBy, Visible, AcceptOffer;
    A.WhoSeesIt(cfg, db, id, user);
    AgreementIs(db, id, user, amount, rid, now);
  }

  lemma AgreementIs(db: DB, id: Id, user: Person, amount: nat, rid: Id, now: int)
    ensures var answer := AcceptOffer(db, id, user, amount, rid, now);
      var offer := if id in db.disputes then db.disputes[id].offer else None;
      if !Visible(db, id, user) then answer == Err(NotFound)
      else
        && (answer.Ok? <==> InDispute(db, id) && offer.Some? && offer.value.offeredBy != user && offer.value.amount == amount)
        && (answer == Err(Forbidden) <==> offer.Some? && offer.value.offeredBy == user) && answer != Err(NotFound)
        && (answer.Ok? ==>
          var res := Resolution(id, OutcomeOf(amount, db.bookings[id].terms.amount), amount, user, Parties, Done, None);
          answer == Settle(db.(resolutions := db.resolutions[rid := res]), id, amount, Of(user), now))
  {
    hide OwnerSees, OutcomeOf, SettledRow, NoticeOf, Move;
  }

  /** The agreement is written as done, and the dispute ends for what was offered. */
  lemma WhatAnAgreementDoes(cfg: Settings, db: DB, id: Id, user: Person, amount: nat, rid: Id, now: int)
    requires Inv(cfg, db) && AcceptOffer(db, id, user, amount, rid, now).Ok?
    ensures InDispute(db, id)
    ensures var db' := AcceptOffer(db, id, user, amount, rid, now).value;
      var price := db.bookings[id].terms.amount;
      var outcome := if amount == 0 then PayOwner else if amount == price then RefundBuyer else Partial;
      && db'.resolutions == db.resolutions[rid := Resolution(id, outcome, amount, user, Parties, Done, None)]
      && Ended(db, db', id, amount, Of(user), now, [])
  {
    hide Inv, AcceptOffer, Settle, Visible, Ended;
    AgreementIs(db, id, user, amount, rid, now);
    DisputedRow(cfg, db, id);
    var res := Resolution(id, OutcomeOf(amount, db.bookings[id].terms.amount), amount, user, Parties, Done, None);
    HowItEnds(db.(resolutions := db.resolutions[rid := res]), id, amount, Of(user), now);
    SameEnd(db, db.resolutions[rid := res], AcceptOffer(db, id, user, amount, rid, now).value, id, amount, Of(user), now, []);
  }

  /** A resolution's row is no part of how it ends. */
  lemma SameEnd(db: DB, resolutions: map<Id, Resolution>, db': DB, id: Id, back: int, actor: Actor, now: int, more: seq<Event>)
    requires id in db.bookings && Ended(db.(resolutions := resolutions), db', id, back, actor, now, [])
    ensures Ended(db, db'.(outbox := db'.outbox + more), id, back, actor, now, more)
    ensures more == [] ==> Ended(db, db', id, back, actor, now, [])
  {}

  // --- staff --------------------------------------------------------------------------------------

  predicate Waiting(db: DB, id: Id) {
    exists x :: x in db.resolutions && db.resolutions[x].booking == id && db.resolutions[x].status == PendingApproval
  }

  /** What an outcome stands for in money. */
  predicate StandsFor(o: Outcome, part: Option<int>, price: int, back: int) {
    match o
    case PayOwner => back == 0
    case RefundBuyer => back == price
    case Partial => part == Some(back) && 0 < back < price
  }

  /** Staff may decide any open dispute that waits for no approval, a partial refund
      being some of the price and not all of it. */
  lemma WhoMayResolve(
    cfg: Settings, db: DB, id: Id, o: Outcome, part: Option<int>, staff: Person, role: StaffRole, rid: Id, now: int)
    requires Inv(cfg, db)
    ensures var answer := Resolve(cfg, db, id, o, part, staff, role, rid, now);
      && (answer.Ok? <==>
        InDispute(db, id) && !Waiting(db, id) && exists back :: StandsFor(o, part, db.bookings[id].terms.amount, back))
      && (answer == Err(NotFound) <==> id !in db.bookings)
      && (answer == Err(Conflict) <==> id in db.bookings && (!InDispute(db, id) || Waiting(db, id)))
  {
    hide Inv, Waiting, Resolve, StandsFor;
    ResolveIs(cfg, db, id, o, part, staff, role, rid, now);
  }

  lemma SomeRefund(o: Outcome, part: Option<int>, price: int)
    ensures RefundFor(o, part, price).Ok? <==> exists back :: StandsFor(o, part, price, back)
    ensures forall back :: StandsFor(o, part, price, back) ==> RefundFor(o, part, price) == Ok(back)
    ensures RefundFor(o, part, price).Err? ==> RefundFor(o, part, price) == Err(Invalid)
  {
    if RefundFor(o, part, price).Ok? { assert StandsFor(o, part, price, RefundFor(o, part, price).value); }
  }

  lemma ResolveIs(
    cfg: Settings, db: DB, id: Id, o: Outcome, part: Option<int>, staff: Person, role: StaffRole, rid: Id, now: int)
    ensures var answer := Resolve(cfg, db, id, o, part, staff, role, rid, now);
      && (answer.Ok? <==>
        InDispute(db, id) && !Waiting(db, id) && exists back :: StandsFor(o, part, db.bookings[id].terms.amount, back))
      && (answer == Err(NotFound) <==> id !in db.bookings)
      && (answer == Err(Conflict) <==> id in db.bookings && (!InDispute(db, id) || Waiting(db, id)))
  {
    assert AwaitsApproval(db, id) <==> Waiting(db, id);
    if id in db.bookings { SomeRefund(o, part, db.bookings[id].terms.amount); }
    hide AwaitsApproval, Waiting, SettledRow, NoticeOf, OutcomeOf, Move, Audit, RefundFor, StandsFor;
  }

  /** Within the limit of whoever decides it is done: the dispute ends at once. Above
      it waits, and the booking stays as it is. */
  lemma WhatAResolutionDoes(
    cfg: Settings, db: DB, id: Id, o: Outcome, part: Option<int>, staff: Person, role: StaffRole, rid: Id, now: int, back: int)
    requires Inv(cfg, db) && Resolve(cfg, db, id, o, part, staff, role, rid, now).Ok?
    requires id in db.bookings ==> StandsFor(o, part, db.bookings[id].terms.amount, back)
    ensures InDispute(db, id)
    ensures var db' := Resolve(cfg, db, id, o, part, staff, role, rid, now).value;
      if back <= cfg.limit(db.bookings[id].terms.currency, role) then
        && db'.resolutions == db.resolutions[rid := Resolution(id, o, back, staff, role, Done, None)]
        && Ended(db, db', id, back, Support(staff), now, [StaffAction(staff, rid)])
      else Noted(db, db', rid, Resolution(id, o, back, staff, role, PendingApproval, None), staff)
  {
    hide Inv, Resolve, Settle, Ended, Waiting, StandsFor;
    ResolveIs(cfg, db, id, o, part, staff, role, rid, now);
    DisputedRow(cfg, db, id);
    var within := back <= cfg.limit(db.bookings[id].terms.currency, role);
    var res := Resolution(id, o, back, staff, role, if within then Done else PendingApproval, None);
    var db1 := db.(resolutions := db.resolutions[rid := res]);
    HowItEnds(db1, id, back, Support(staff), now);
    ResolveWrites(cfg, db, id, o, part, staff, role, rid, now, back);
    if within { SameEnd(db, db1.resolutions, Settle(db1, id, back, Support(staff), now).value, id, back, Support(staff), now, [StaffAction(staff, rid)]); }
  }

  lemma ResolveWrites(
    cfg: Settings, db: DB, id: Id, o: Outcome, part: Option<int>, staff: Person, role: StaffRole, rid: Id, now: int, back: int)
    requires Resolve(cfg, db, id, o, part, staff, role, rid, now).Ok?
    requires id in db.bookings && StandsFor(o, part, db.bookings[id].terms.amount, back)
    ensures var within := back <= cfg.limit(db.bookings[id].terms.currency, role);
      var res := Resolution(id, o, back, staff, role, if within then Done else PendingApproval, None);
      var db1 := db.(resolutions := db.resolutions[rid := res]);
      && (within ==> Settle(db1, id, back, Support(staff), now).Ok?)
      && var db2 := if within then Settle(db1, id, back, Support(staff), now).value else db1;
        Resolve(cfg, db, id, o, part, staff, role, rid, now).value == db2.(outbox := db2.outbox + [StaffAction(staff, rid)])
  {
    SomeRefund(o, part, db.bookings[id].terms.amount);
    hide AwaitsApproval, Settle, RefundFor, StandsFor;
  }

  /** What waits may be approved by somebody else: a lead always, others within their
      limit; while the dispute is open. */
  lemma WhoMayApprove(cfg: Settings, db: DB, rid: Id, staff: Person, role: StaffRole, now: int)
    requires Inv(cfg, db)
    ensures var answer := Approve(cfg, db, rid, staff, role, now);
      && (answer.Ok? <==>
        && rid in db.resolutions && db.resolutions[rid].status == PendingApproval && db.resolutions[rid].author != staff
        && InDispute(db, db.resolutions[rid].booking)
        && (role == LeadRole
            || db.resolutions[rid].refund <= cfg.limit(db.bookings[db.resolutions[rid].booking].terms.currency, role)))
      && (answer == Err(NotFound) <==> rid !in db.resolutions)
  {
    hide Inv, Approve;
    if rid in db.resolutions { ItsBooking(cfg, db, rid); }
    ApproveIs(cfg, db, rid, staff, role, now);
  }

  lemma ApproveIs(cfg: Settings, db: DB, rid: Id, staff: Person, role: StaffRole, now: int)
    requires rid in db.resolutions ==> db.resolutions[rid].booking in db.bookings
    ensures var answer := Approve(cfg, db, rid, staff, role, now);
      && (answer.Ok? <==>
        && rid in db.resolutions && db.resolutions[rid].status == PendingApproval && db.resolutions[rid].author != staff
        && InDispute(db, db.resolutions[rid].booking)
        && (role == LeadRole
            || db.resolutions[rid].refund <= cfg.limit(db.bookings[db.resolutions[rid].booking].terms.currency, role)))
      && (answer == Err(NotFound) <==> rid !in db.resolutions)
      && (answer.Ok? ==>
        var res := db.resolutions[rid];
        var done := res.(status := Done, approver := Some((staff, role)));
        var settled := Settle(db.(resolutions := db.resolutions[rid := done]), res.booking, res.refund, Support(staff), now);
        settled.Ok? && answer.value == settled.value.(outbox := settled.value.outbox + [StaffAction(staff, rid)]))
  {
    hide SettledRow, NoticeOf, OutcomeOf, Move;
  }

  lemma ItsBooking(cfg: Settings, db: DB, rid: Id)
    requires Inv(cfg, db) && rid in db.resolutions
    ensures db.resolutions[rid].booking in db.bookings
  {
    hide Core, NoDoubleBooking, KeysUnique, ResolutionOk, Rivals, DisputeOk;
  }

  /** Then it is done, in their name too, and the dispute ends as proposed. */
  lemma WhatAnApprovalDoes(cfg: Settings, db: DB, rid: Id, staff: Person, role: StaffRole, now: int)
    requires Inv(cfg, db) && Approve(cfg, db, rid, staff, role, now).Ok?
    ensures rid in db.resolutions && InDispute(db, db.resolutions[rid].booking)
    ensures var db', res := Approve(cfg, db, rid, staff, role, now).value, db.resolutions[rid];
      && db'.resolutions == db.resolutions[rid := res.(status := Done, approver := Some((staff, role)))]
      && Ended(db, db', res.booking, res.refund, Support(staff), now, [StaffAction(staff, rid)])
  {
    hide Inv, Approve, Settle, Ended;
    if rid in db.resolutions { ItsBooking(cfg, db, rid); }
    ApproveIs(cfg, db, rid, staff, role, now);
    var res := db.resolutions[rid];
    var done := res.(status := Done, approver := Some((staff, role)));
    var db1 := db.(resolutions := db.resolutions[rid := done]);
    DisputedRow(cfg, db, res.booking);
    HowItEnds(db1, res.booking, res.refund, Support(staff), now);
    SameEnd(db, db1.resolutions, Settle(db1, res.booking, res.refund, Support(staff), now).value, res.booking, res.refund, Support(staff), now, [StaffAction(staff, rid)]);
  }

  /** Somebody else rejects, and the author alone withdraws, what waits. */
  lemma WhoMayDrop(cfg: Settings, db: DB, rid: Id, staff: Person)
    requires Inv(cfg, db)
    ensures var waits := rid in db.resolutions && db.resolutions[rid].status == PendingApproval;
      && (Reject(db, rid, staff).Ok? <==> waits && db.resolutions[rid].author != staff)
      && (Withdraw(db, rid, staff).Ok? <==> waits && db.resolutions[rid].author == staff)
    ensures Reject(db, rid, staff).Ok? ==>
      rid in db.resolutions && Noted(db, Reject(db, rid, staff).value, rid, db.resolutions[rid].(status := Rejected), staff)
    ensures Withdraw(db, rid, staff).Ok? ==>
      rid in db.resolutions && Noted(db, Withdraw(db, rid, staff).value, rid, db.resolutions[rid].(status := Withdrawn), staff)
  {
    hide Inv, Reject, Withdraw, Noted;
    if rid in db.resolutions { ItsBooking(cfg, db, rid); }
    DropIs(db, rid, staff);
  }

  lemma DropIs(db: DB, rid: Id, staff: Person)
    requires rid in db.resolutions ==> db.resolutions[rid].booking in db.bookings
    ensures var waits := rid in db.resolutions && db.resolutions[rid].status == PendingApproval;
      && (Reject(db, rid, staff).Ok? <==> waits && db.resolutions[rid].author != staff)
      && (Withdraw(db, rid, staff).Ok? <==> waits && db.resolutions[rid].author == staff)
      && (Reject(db, rid, staff).Ok? ==> Noted(db, Reject(db, rid, staff).value, rid, db.resolutions[rid].(status := Rejected), staff))
      && (Withdraw(db, rid, staff).Ok? ==> Noted(db, Withdraw(db, rid, staff).value, rid, db.resolutions[rid].(status := Withdrawn), staff))
  {}
}
