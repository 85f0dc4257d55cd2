/** Who may do what with a booking and when, and what then becomes of it, in
    terms of its row and its trail: the rules as the app shows them, each an
    exact account of what the service answers. Milliseconds are written out. */
module BookingAnswers {
  import opened Wrappers
  import opened BookingState
  import opened Cancellation
  import opened Booking
  import opened BookingInvariants
  import opened BookingOps
  import H = BookingHistory
  import T = BookingTiming
  import N = BookingNotices
  import L = BookingLog

  // --- who can see it ------------------------------------------------------------------------

  /** The one who asked; the one who was asked, once the card was held, or it ended unpaid. */
  ghost predicate SeenBy(db: DB, id: Id, user: Person) {
    && id in db.bookings
    && var t, tr := db.bookings[id].terms, TrailOf(db.trail, id);
      user == t.requester || (user == t.owner && (H.CardHeld(tr) || H.LeftUnpaid(tr)))
  }

  lemma WhoSeesIt(cfg: Settings, db: DB, id: Id, user: Person)
    requires Inv(cfg, db)
    ensures Visible(db, id, user) <==> SeenBy(db, id, user)
  {
    hide Inv, OwnerSees, TrailOf, H.CardHeld, H.LeftUnpaid;
    if id in db.bookings {
      H.WhatOwnersSee(cfg, db, id);
      PartiesDiffer(cfg, db, id);
    }
  }

  lemma PartiesDiffer(cfg: Settings, db: DB, id: Id)
    requires Inv(cfg, db) && id in db.bookings
    ensures db.bookings[id].terms.requester != db.bookings[id].terms.owner
  {
    TheRow(cfg, db, id);
    hide Inv, Path, MoneyOk, DeadlineOk, ReviewsOk, ReviewLogOk;
  }

  // --- the seven moves of the two parties --------------------------------------------------------

  predicate Lapsed(r: Row, now: int) { r.expires.Some? && r.expires.value <= now }

  /** From where, by whom and when. */
  predicate MayMove(cfg: Settings, r: Row, a: Action, user: Person, now: int) {
    var t := r.terms;
    match a
    case Accept => r.status == Requested && user == t.owner
    case Decline => r.status == Requested && user == t.owner
    case Start => r.status == Accepted && t.start - cfg.startEarly <= now
    case Complete => r.status == Active && user == t.requester
    case Cancel => r.status in {AwaitingPayment, Requested, Accepted} && now < t.start
    case Dispute => user == t.requester && (r.status == Active || (r.status == Accepted && t.start <= now))
    case NoShow =>
      r.status == Accepted && now <= t.start + 7_200_000 && (if user == t.requester then t.start else t.start + 1_800_000) <= now
  }

  predicate WrongSide(r: Row, a: Action, user: Person) {
    (a in {Accept, Decline} && user != r.terms.owner) || (a in {Complete, Dispute} && user != r.terms.requester)
  }

  /** A party's move succeeds exactly then; to others the booking does not exist. */
  lemma WhoMayAct(cfg: Settings, db: DB, id: Id, a: Action, user: Person, order: seq<Id>, now: int)
    requires Inv(cfg, db) && (id in db.bookings ==> db.bookings[id].terms.amount >= 0)
    ensures var answer := Act(cfg, db, id, a, user, order, now);
      && (answer.Ok? <==> SeenBy(db, id, user) && !Lapsed(db.bookings[id], now) && MayMove(cfg, db.bookings[id], a, user, now))
      && (answer == Err(NotFound) <==> !SeenBy(db, id, user))
      && (answer == Err(Forbidden) <==> SeenBy(db, id, user) && !Lapsed(db.bookings[id], now) && WrongSide(db.bookings[id], a, user))
      && (answer.Err? ==> answer.error in {NotFound, Forbidden, Conflict})
  {
    hide Inv, SeenBy, Visible, Checked, MayMove, WrongSide, Lapsed;
    WhoSeesIt(cfg, db, id, user);
    if Visible(db, id, user) {
      Seen(db, id, user);
      PartiesDiffer(cfg, db, id);
      CheckedWhen(cfg, db.bookings[id], a, user, now);
      if Checked(cfg, db.bookings[id], a, user, now).Ok? {
        DisputesFirst(cfg, db, id, a, user, now);
        CheckedGives(cfg, db.bookings[id], a, user, now);
      }
      ActIs(cfg, db, id, a, user, order, now);
    }
  }

  lemma Seen(db: DB, id: Id, user: Person)
    requires Visible(db, id, user)
    ensures id in db.bookings && user in {db.bookings[id].terms.requester, db.bookings[id].terms.owner}
  {
    hide OwnerSees;
  }

  lemma DisputesFirst(cfg: Settings, db: DB, id: Id, a: Action, user: Person, now: int)
    requires Inv(cfg, db) && id in db.bookings && db.bookings[id].terms.amount >= 0
    requires Checked(cfg, db.bookings[id], a, user, now).Ok?
    ensures id !in db.disputes
  {
    hide Inv;
    N.CheckedFrom(cfg, db.bookings[id], a, user, now);
    N.Undisputed(cfg, db, id);
  }

  lemma ActIs(cfg: Settings, db: DB, id: Id, a: Action, user: Person, order: seq<Id>, now: int)
    requires Visible(db, id, user) && db.bookings[id].terms.amount >= 0
    ensures var c := Checked(cfg, db.bookings[id], a, user, now);
      && (c.Err? ==> Act(cfg, db, id, a, user, order, now) == Err(c.error))
      && (c.Ok? && id !in db.disputes ==> Act(cfg, db, id, a, user, order, now).Ok?)
  {
    hide Visible, Checked, CloseEach;
  }

  lemma CheckedWhen(cfg: Settings, r: Row, a: Action, user: Person, now: int)
    requires r.terms.amount >= 0 && r.terms.requester != r.terms.owner && (user == r.terms.requester || user == r.terms.owner)
    ensures var c := Checked(cfg, r, a, user, now);
      && (c.Ok? <==> !Lapsed(r, now) && MayMove(cfg, r, a, user, now))
      && (c == Err(Forbidden) <==> !Lapsed(r, now) && WrongSide(r, a, user))
      && (c.Err? ==> c.error in {Forbidden, Conflict})
  {
    hide Refund;
  }

  function Reaches(a: Action): Status {
    match a
    case Accept => Accepted
    case Decline => Declined
    case Start => Active
    case Complete => Completed
    case Cancel => Cancelled
    case Dispute => Disputed
    case NoShow => Cancelled
  }

  lemma CheckedGives(cfg: Settings, r: Row, a: Action, user: Person, now: int)
    requires r.terms.amount >= 0 && Checked(cfg, r, a, user, now).Ok?
    ensures var s := Checked(cfg, r, a, user, now).value;
      && s.status == Reaches(a) && s.expires == None && s.terms == r.terms && s.reviews == r.reviews
      && (a !in {Cancel, NoShow} ==> s.refund == r.refund && s.noShow == r.noShow)
  {
    hide Refund;
  }

  /** What it does: the row where the move leads, no deadline any more, one line and
      one event that say so; a dispute's row with its three days; nothing else but
      what a cancellation takes along. */
  lemma WhatActsDo(cfg: Settings, db: DB, id: Id, a: Action, user: Person, order: seq<Id>, now: int)
    requires AmountsOk(db) && Among(order, Extensions(db, id)) && Act(cfg, db, id, a, user, order, now).Ok?
    ensures var db' := Act(cfg, db, id, a, user, order, now).value;
      && id in db.bookings && id in db'.bookings
      && var r, s := db.bookings[id], db'.bookings[id];
      var change := Change(id, Some(r.status), s.status, Of(user));
      && s.status == Reaches(a) && s.expires == None && s.terms == r.terms && s.reviews == r.reviews
      && (a !in {Cancel, NoShow} ==> s.refund == r.refund && s.noShow == r.noShow)
      && db.trail + [Edge(change, now)] <= db'.trail && db.outbox + [StatusChanged(change, s.refund, s.noShow)] <= db'.outbox
      && db'.resolutions == db.resolutions
      && db'.disputes == (if a == Dispute then db.disputes[id := DisputeRow(user, now, now + cfg.offerWindow, None, None, None)] else db.disputes)
      && (a !in {Cancel, NoShow} ==> db'.bookings == db.bookings[id := s] && |db'.trail| == |db.trail| + 1)
  {
    T.ActParts(cfg, db, id, a, user, order, now);
    CheckedGives(cfg, db.bookings[id], a, user, now);
    assert id !in order && Distinct(order);
    hide Act, Checked, AmountsOk, Among, Extensions, CloseEach;
    var row := Checked(cfg, db.bookings[id], a, user, now).value;
    var db1 := Move(db, id, row, Of(user), now);
    MovesOne(db, id, row, Of(user), now);
    hide Move;
    CloseEachEffect(db1, WithParent, order, now);
    L.CloseEachAppends(db1, WithParent, order, now);
  }

  lemma MovesOne(db: DB, id: Id, row: Row, actor: Actor, now: int)
    requires id in db.bookings
    ensures var db1, change := Move(db, id, row, actor, now), Change(id, Some(db.bookings[id].status), row.status, actor);
      && db1.bookings == db.bookings[id := row] && db1.disputes == db.disputes && db1.resolutions == db.resolutions
      && db1.trail == db.trail + [Edge(change, now)] && db1.outbox == db.outbox + [StatusChanged(change, row.refund, row.noShow)]
  {}

  // --- and what comes back ---------------------------------------------------------------------------

  /** The published terms, of a confirmed booking of some price: in full when the owner
      cancels, while paid policies are off, under the flexible policy, a day ahead
      under the moderate one, seven days under the strict; nothing on the last day
      under the strict; else half, a tie going to the even unit. */
  predicate PaysBack(cfg: Settings, t: Terms, user: Person, now: int, back: int) {
    if user == t.owner || !cfg.paidPolicies || t.policy == Flexible
       || (t.policy == Moderate && now + 86_400_000 <= t.start) || (t.policy == Strict && now + 604_800_000 <= t.start)
    then back == t.amount
    else if t.policy == Strict && t.start < now + 86_400_000 then back == 0
    else -1 <= 2 * back - t.amount <= 1 && (t.amount % 2 == 1 ==> back % 2 == 0)
  }

  /** A confirmed booking that a party cancels pays back by its terms; one not yet
      confirmed was not charged, and shows no refund. */
  lemma WhatACancellationPaysBack(cfg: Settings, db: DB, id: Id, user: Person, order: seq<Id>, now: int)
    requires Inv(cfg, db) && AmountsOk(db) && Among(order, Extensions(db, id)) && Act(cfg, db, id, Cancel, user, order, now).Ok?
    ensures id in db.bookings && id in Act(cfg, db, id, Cancel, user, order, now).value.bookings
    ensures var r, s := db.bookings[id], Act(cfg, db, id, Cancel, user, order, now).value.bookings[id];
      && s.noShow == None
      && if r.status == Accepted then s.refund.Some? && PaysBack(cfg, r.terms, user, now, s.refund.value) else s.refund == None
  {
    var row := TheMovedRow(cfg, db, id, Cancel, user, order, now);
    TheRow(cfg, db, id);
    hide Inv, Act, AmountsOk, ReviewLogOk, TrailOf;
    CancelledRow(cfg, db.bookings[id], TrailOf(db.trail, id), db.clock, user, now);
  }

  /** A missed meeting: whoever did not come is named, and the renter has everything
      back if that was the owner, and nothing if it was the renter. */
  lemma WhatAMissedMeetingPaysBack(cfg: Settings, db: DB, id: Id, user: Person, order: seq<Id>, now: int)
    requires Inv(cfg, db) && AmountsOk(db) && Among(order, Extensions(db, id)) && Act(cfg, db, id, NoShow, user, order, now).Ok?
    ensures id in db.bookings && id in Act(cfg, db, id, NoShow, user, order, now).value.bookings
    ensures var t, s := db.bookings[id].terms, Act(cfg, db, id, NoShow, user, order, now).value.bookings[id];
      if user == t.requester then s.noShow == Some(TheOwner) && s.refund == Some(t.amount)
      else user == t.owner && s.noShow == Some(TheRenter) && s.refund == Some(0)
  {
    var row := TheMovedRow(cfg, db, id, NoShow, user, order, now);
    T.ActParts(cfg, db, id, NoShow, user, order, now);
    PartiesDiffer(cfg, db, id);
    hide Inv, Act, AmountsOk;
    MissedRow(cfg, db.bookings[id], user, now);
  }

  lemma MissedRow(cfg: Settings, r: Row, user: Person, now: int)
    requires r.terms.amount >= 0 && Checked(cfg, r, NoShow, user, now).Ok?
    ensures var s := Checked(cfg, r, NoShow, user, now).value;
      if user == r.terms.requester then s.noShow == Some(TheOwner) && s.refund == Some(r.terms.amount)
      else s.noShow == Some(TheRenter) && s.refund == Some(0)
  {
    hide Refund;
  }

  lemma TheMovedRow(cfg: Settings, db: DB, id: Id, a: Action, user: Person, order: seq<Id>, now: int) returns (row: Row)
    requires AmountsOk(db) && Among(order, Extensions(db, id)) && Act(cfg, db, id, a, user, order, now).Ok?
    ensures id in db.bookings && Checked(cfg, db.bookings[id], a, user, now) == Ok(row)
    ensures id in Act(cfg, db, id, a, user, order, now).value.bookings
    ensures Act(cfg, db, id, a, user, order, now).value.bookings[id] == row
  {
    T.ActParts(cfg, db, id, a, user, order, now);
    assert id !in order && Distinct(order);
    row := Checked(cfg, db.bookings[id], a, user, now).value;
    hide Act, Checked, AmountsOk, Among, Extensions, CloseEach;
    MovesOne(db, id, row, Of(user), now);
    CloseEachEffect(Move(db, id, row, Of(user), now), WithParent, order, now);
  }

  lemma CancelledRow(cfg: Settings, r: Row, tr: seq<Edge>, clock: int, user: Person, now: int)
    requires RowOk(r, tr, clock) && Checked(cfg, r, Cancel, user, now).Ok?
    ensures var s := Checked(cfg, r, Cancel, user, now).value;
      && s.noShow == None
      && if r.status == Accepted then s.refund.Some? && PaysBack(cfg, r.terms, user, now, s.refund.value) else s.refund == None
  {
    var policy := if cfg.paidPolicies then r.terms.policy else Flexible;
    RefundSchedule(policy, r.terms.amount, user == r.terms.owner, now, r.terms.start);
    hide Path, ReviewsOk, DeadlineOk, WasAccepted, RefundAmount;
  }

  // --- payments, listings and accounts tell it something -------------------------------------------------

  predicate Only(db: DB, db': DB, id: Id, row: Row) {
    id in db.bookings && db'.bookings == db.bookings[id := row] && db'.disputes == db.disputes && db'.resolutions == db.resolutions
  }

  /** A held card makes an unpaid booking confirmed at once if its listing takes
      instant bookings, else a request with so long to be answered, never past its
      start; any other booking it leaves alone. */
  lemma WhatAHeldCardDoes(cfg: Settings, db: DB, id: Id, now: int)
    requires AmountsOk(db)
    ensures var db' := After(cfg, db, PaymentAuthorised(id), now);
      if id in db.bookings && db.bookings[id].status == AwaitingPayment then
        var r := db.bookings[id];
        var until := if now + cfg.answerWithin < r.terms.start then now + cfg.answerWithin else r.terms.start;
        Only(db, db', id, if r.terms.instant then r.(status := Accepted, expires := None) else r.(status := Requested, expires := Some(until)))
      else db' == db
  {}

  /** A failed payment ends one that awaits it or was just confirmed; a definite
      refusal to start one, only one that awaits it. */
  lemma WhatAFailedPaymentDoes(cfg: Settings, db: DB, id: Id, now: int)
    requires AmountsOk(db)
    ensures var db' := After(cfg, db, PaymentFails(id), now);
      if id in db.bookings && db.bookings[id].status in {AwaitingPayment, Accepted}
      then Only(db, db', id, db.bookings[id].(status := PaymentFailed, expires := None)) else db' == db
    ensures var db' := After(cfg, db, PaymentIsRefused(id), now);
      if id in db.bookings && db.bookings[id].status == AwaitingPayment
      then Only(db, db', id, db.bookings[id].(status := PaymentFailed, expires := None)) else db' == db
  {}

  /** The sweeps and the two handlers end rows as the system's part of the status table
      says: from where, and to what. */
  lemma SweepsFollowTheTable(r: Row)
    ensures Closable(Lapsing, r) <==> SystemStatus(Expire, r.status) == Some(Close(Lapsing, r).status)
    ensures Closable(Finishing, r) <==> SystemStatus(AutoComplete, r.status) == Some(Close(Finishing, r).status)
    ensures Closable(Declining, r) <==> SystemStatus(ListingRemoved, r.status) == Some(Close(Declining, r).status)
  {}

  /** A suspension declines the person's own unanswered requests that it finds, and
      nothing else; none is left when it finds them all. */
  lemma SuspensionDeclines(cfg: Settings, db: DB, person: Person, order: seq<Id>, now: int, id: Id)
    requires AmountsOk(db) && Enabled(cfg, db, SuspendRequester(person, order), now) && id in db.bookings
    ensures id in After(cfg, db, SuspendRequester(person, order), now).bookings
    ensures var r, s := db.bookings[id], After(cfg, db, SuspendRequester(person, order), now).bookings[id];
      if id in order
      then r.terms.requester == person && r.status in {AwaitingPayment, Requested} && s == r.(status := Declined, expires := None)
      else s == r
    ensures Enumerates(order, PendingBy(db, person)) && db.bookings[id].terms.requester == person ==>
      After(cfg, db, SuspendRequester(person, order), now).bookings[id].status !in {AwaitingPayment, Requested}
  {
    hide Among, Enumerates, CloseEach;
    H.TheseAmong(order, PendingBy(db, person), id);
    CloseEachEffect(db, Declining, order, now);
  }

  // --- reviews ------------------------------------------------------------------------------------------------

  /** The renter's review: theirs alone, once, of a completed booking, for 14 days. */
  lemma WhoMayRate(cfg: Settings, db: DB, id: Id, user: Person, outcome: nat, now: int)
    requires Inv(cfg, db)
    ensures var answer := Rate(db, id, user, outcome, now);
      && (answer.Ok? <==>
        && id in db.bookings && user == db.bookings[id].terms.requester && db.bookings[id].status == Completed
        && db.bookings[id].reviews.outcome.None? && now <= db.bookings[id].terms.end + 1_209_600_000)
      && (answer == Err(NotFound) <==> !SeenBy(db, id, user))
      && (answer == Err(Forbidden) <==> SeenBy(db, id, user) && user != db.bookings[id].terms.requester)
  {
    WhoSeesIt(cfg, db, id, user);
    hide Inv, SeenBy, Visible, Rate;
    RateIs(db, id, user, outcome, now);
    if Visible(db, id, user) { Seen(db, id, user); }
    if id in db.bookings { AskersSee(db, id); }
  }

  lemma RateIs(db: DB, id: Id, user: Person, outcome: nat, now: int)
    ensures var answer := Rate(db, id, user, outcome, now);
      if !Visible(db, id, user) then answer == Err(NotFound)
      else
        var r := db.bookings[id];
        var mine := user == r.terms.requester;
        && (answer.Ok? <==> mine && r.status == Completed && r.reviews.outcome.None? && now <= r.terms.end + 1_209_600_000)
        && (answer == Err(Forbidden) <==> !mine) && answer != Err(NotFound)
  {
    hide OwnerSees, PublishReviews;
  }

  lemma AskersSee(db: DB, id: Id)
    requires id in db.bookings
    ensures Visible(db, id, db.bookings[id].terms.requester)
  {
    hide OwnerSees;
  }

  /** And the owner's. */
  lemma WhoMayRateTheRenter(cfg: Settings, db: DB, id: Id, user: Person, quality: nat, now: int)
    requires Inv(cfg, db)
    ensures var answer := RateRenter(db, id, user, quality, now);
      && (answer.Ok? <==>
        && id in db.bookings && user == db.bookings[id].terms.owner && db.bookings[id].status == Completed
        && db.bookings[id].reviews.renterRating.None? && now <= db.bookings[id].terms.end + 1_209_600_000)
      && (answer == Err(NotFound) <==> !SeenBy(db, id, user))
      && (answer == Err(Forbidden) <==> SeenBy(db, id, user) && user != db.bookings[id].terms.owner)
  {
    WhoSeesIt(cfg, db, id, user);
    if id in db.bookings { PartiesDiffer(cfg, db, id); }
    hide Inv, SeenBy, PublishReviews;
  }

  /** A review is kept as written; the second of the two publishes both, once. */
  lemma WhatReviewsDo(db: DB, id: Id, user: Person, given: nat, now: int)
    ensures var a := Rate(db, id, user, given, now);
      a.Ok? ==> id in db.bookings && var v := db.bookings[id].reviews;
        a.value == Written(db, id, v.(outcome := Some(given), ratedAt := Some(now)), v.renterRating.Some?, now)
    ensures var a := RateRenter(db, id, user, given, now);
      a.Ok? ==> id in db.bookings && var v := db.bookings[id].reviews;
        a.value == Written(db, id, v.(renterRating := Some(given)), v.outcome.Some?, now)
  {
    hide OwnerSees;
  }

  /** The reviews of a row, and their publication if both are in and it was not before. */
  function Written(db: DB, id: Id, v: Reviews, both: bool, now: int): DB
    requires id in db.bookings && (both ==> v.outcome.Some? && v.renterRating.Some?)
  {
    var out := both && v.published.None?;
    db.(bookings := db.bookings[id := db.bookings[id].(reviews := if out then v.(published := Some(now)) else v)],
        outbox := if out then db.outbox + [BookingRated(id, v.outcome.value), RenterRated(id, v.renterRating.value)] else db.outbox)
  }
}
