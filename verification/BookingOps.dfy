/** Every request, payment event, sweep, offer and resolution keeps the
    invariant and moves each row only onward. */
module BookingOps {
  import opened Wrappers
  import opened BookingState
  import opened Cancellation
  import opened Booking
  import opened BookingInvariants

  // --- the rules across rows ----------------------------------------------------------------

  /** No two bookings holding a window of one listing overlap. */
  ghost predicate NoDoubleBooking(bookings: map<Id, Row>) {
    forall a, b :: a in bookings && b in bookings && a != b ==> !Clash(bookings[a], bookings[b])
  }

  predicate Clash(r: Row, s: Row) {
    && Holding(r.status) && Holding(s.status) && r.terms.listing == s.terms.listing
    && r.terms.start < s.terms.end && s.terms.start < r.terms.end
  }

  /** One booking per requester and key. */
  ghost predicate KeysUnique(bookings: map<Id, Row>) {
    forall a, b :: a in bookings && b in bookings && a != b ==> !SameKey(bookings[a], bookings[b])
  }

  predicate SameKey(r: Row, s: Row) {
    r.terms.key.Some? && r.terms.key == s.terms.key && r.terms.requester == s.terms.requester
  }

  lemma ExclusiveKept(db: DB, db': DB)
    requires Onward(db, db')
    ensures NoDoubleBooking(db.bookings) ==> NoDoubleBooking(db'.bookings)
    ensures KeysUnique(db.bookings) ==> KeysUnique(db'.bookings)
  {
    if NoDoubleBooking(db.bookings) {
      forall a, b | a in db'.bookings && b in db'.bookings && a != b ensures !Clash(db'.bookings[a], db'.bookings[b]) {
        assert !Clash(db.bookings[a], db.bookings[b]);
        assert RowLater(db.bookings[a], db'.bookings[a]) && RowLater(db.bookings[b], db'.bookings[b]);
      }
    }
    if KeysUnique(db.bookings) {
      forall a, b | a in db'.bookings && b in db'.bookings && a != b ensures !SameKey(db'.bookings[a], db'.bookings[b]) {
        assert !SameKey(db.bookings[a], db.bookings[b]);
        assert RowLater(db.bookings[a], db'.bookings[a]) && RowLater(db.bookings[b], db'.bookings[b]);
      }
    }
  }

  // --- disputes and their resolutions ---------------------------------------------------------

  ghost predicate DisputeOk(r: Row, d: DisputeRow) {
    && r.status in {Disputed, Completed, Cancelled}
    && (d.offer.Some? ==>
      && 0 <= d.offer.value.amount <= r.terms.amount
      && d.offer.value.offeredBy in {r.terms.requester, r.terms.owner})
  }

  /** Within the proposer's limit, or approved by someone else who is a lead or whose limit covers it. */
  ghost predicate FourEyes(cfg: Settings, currency: nat, res: Resolution) {
    || res.refund <= cfg.limit(currency, res.role)
    || (res.approver.Some? && res.approver.value.0 != res.author && res.approver.value.1 != Parties
        && (res.approver.value.1 == LeadRole || res.refund <= cfg.limit(currency, res.approver.value.1)))
  }

  ghost predicate ResolutionOk(cfg: Settings, r: Row, d: DisputeRow, res: Resolution) {
    && 0 <= res.refund <= r.terms.amount && res.outcome == OutcomeOf(res.refund, r.terms.amount)
    && (res.status == Done ==>
      && r.status == (if res.refund == r.terms.amount then Cancelled else Completed)
      && r.refund.GetOr(0) == res.refund)
    && (res.role == Parties ==>
      && res.status == Done && d.offer.Some? && d.offer.value.amount == res.refund
      && res.author in {r.terms.requester, r.terms.owner} && d.offer.value.offeredBy != res.author)
    && (res.role != Parties && res.status == Done ==> FourEyes(cfg, r.terms.currency, res))
  }

  ghost predicate Rivals(r: Resolution, s: Resolution) {
    r.booking == s.booking && r.status == s.status && r.status in {Done, PendingApproval}
  }

  ghost predicate DisputesOk(cfg: Settings, db: DB) {
    && (forall id :: id in db.bookings && db.bookings[id].status == Disputed ==> id in db.disputes)
    && (forall id :: id in db.disputes ==> id in db.bookings && DisputeOk(db.bookings[id], db.disputes[id]))
    && (forall x :: x in db.resolutions ==>
      && db.resolutions[x].booking in db.disputes
      && ResolutionOk(cfg, db.bookings[db.resolutions[x].booking], db.disputes[db.resolutions[x].booking], db.resolutions[x]))
    && (forall x, y :: x in db.resolutions && y in db.resolutions && x != y ==> !Rivals(db.resolutions[x], db.resolutions[y]))
  }

  ghost predicate Inv(cfg: Settings, db: DB) {
    && Core(db) && DisputesOk(cfg, db)
    && NoDoubleBooking(db.bookings) && KeysUnique(db.bookings)
  }

  /** Moves that neither open nor settle a dispute leave them all as they are. */
  lemma DisputesUntouched(cfg: Settings, db: DB, db': DB)
    requires DisputesOk(cfg, db) && db'.disputes == db.disputes && db'.resolutions == db.resolutions
    requires db.bookings.Keys <= db'.bookings.Keys
    requires forall id :: id in db.disputes ==> db'.bookings[id] == db.bookings[id] || DiffersInReviews(db.bookings[id], db'.bookings[id])
    requires forall id :: id in db'.bookings && id !in db.disputes ==> db'.bookings[id].status != Disputed
    ensures DisputesOk(cfg, db')
  {
    hide FourEyes, Rivals;
    forall x | x in db'.resolutions
      ensures ResolutionOk(cfg, db'.bookings[db'.resolutions[x].booking], db'.disputes[db'.resolutions[x].booking], db'.resolutions[x])
    {
      assert db.resolutions[x].booking in db.disputes;
    }
  }

  ghost predicate DiffersInReviews(r: Row, s: Row) {
    s == r.(reviews := s.reviews)
  }

  // --- one row, moved legally -------------------------------------------------------------------

  lemma NotInDispute(cfg: Settings, db: DB, id: Id, to: Status)
    requires DisputesOk(cfg, db) && id in db.bookings
    requires db.bookings[id].status != Disputed && Allowed(db.bookings[id].status, to)
    ensures id !in db.disputes
  {
    hide ResolutionOk, Rivals;
    assert id in db.disputes ==> DisputeOk(db.bookings[id], db.disputes[id]);
  }

  lemma MoveKeepsDisputes(cfg: Settings, db: DB, id: Id, s: Row, actor: Actor, now: int)
    requires DisputesOk(cfg, db) && id in db.bookings
    requires db.bookings[id].status != Disputed && s.status != Disputed && Allowed(db.bookings[id].status, s.status)
    ensures DisputesOk(cfg, Move(db, id, s, actor, now))
  {
    NotInDispute(cfg, db, id, s.status);
    hide ResolutionOk, Rivals, DisputeOk;
    DisputesUntouched(cfg, db, Move(db, id, s, actor, now));
  }

  /** All a caller needs of one legal move of a booking not in dispute. */
  lemma MoveKeeps(cfg: Settings, db: DB, id: Id, s: Row, actor: Actor, now: int)
    requires now <= db.clock
    requires Inv(cfg, db) && id in db.bookings && LegalMove(db.bookings[id], s)
    requires db.bookings[id].status != Disputed && s.status != Disputed
    ensures var db' := Move(db, id, s, actor, now); Inv(cfg, db') && Onward(db, db')
  {
    assert Allowed(db.bookings[id].status, s.status);
    hide Core, DisputesOk, NoDoubleBooking, KeysUnique, Onward, LegalMove, Move;
    MoveKeepsCore(db, id, s, actor, now);
    ExclusiveKept(db, Move(db, id, s, actor, now));
    MoveKeepsDisputes(cfg, db, id, s, actor, now);
  }

  ghost predicate Keeps(cfg: Settings, db: DB, db': DB) {
    Inv(cfg, db') && Onward(db, db') && db'.clock == db.clock
  }

  lemma KeepsTrans(cfg: Settings, a: DB, b: DB, c: DB)
    requires Keeps(cfg, a, b) && Keeps(cfg, b, c)
    ensures Keeps(cfg, a, c)
  {
    hide Inv, Onward;
    OnwardTrans(a, b, c);
  }

  lemma Nothing(cfg: Settings, db: DB)
    requires Inv(cfg, db)
    ensures Keeps(cfg, db, db)
  {
    hide Inv, RowLater;
    forall id | id in db.bookings ensures RowLater(db.bookings[id], db.bookings[id]) { Unmoved(db.bookings[id]); }
  }

  lemma TheRow(cfg: Settings, db: DB, id: Id)
    requires Inv(cfg, db) && id in db.bookings
    ensures var r := db.bookings[id];
      RowOk(r, TrailOf(db.trail, id), db.clock) && ReviewLogOk(db, id)
  {
    hide RowOk, ReviewLogOk, DisputesOk, NoDoubleBooking, KeysUnique, LogOk;
    assert LogOk(db) by { assert Core(db); }
    LogRow(db, id);
  }

  lemma LogRow(db: DB, id: Id)
    requires LogOk(db) && id in db.bookings
    ensures ReviewLogOk(db, id)
  {}

  // --- payments ------------------------------------------------------------------------------

  lemma EventIsLegal(cfg: Settings, r: Row, tr: seq<Edge>, clock: int, a: SystemAction, now: int)
    requires RowOk(r, tr, clock)
    requires a in {Authorised, AuthorisedInstant, PaymentDeclined} && SystemStatus(a, r.status).Some?
    ensures var to := SystemStatus(a, r.status).value;
      LegalMove(r, r.(status := to, expires := if to == Requested then Some(AnswerDeadline(cfg, now, r.terms)) else None))
    ensures r.status != Disputed && SystemStatus(a, r.status).value != Disputed
  {
    hide Path;
  }

  lemma ApplyEventKeeps(cfg: Settings, db: DB, id: Id, a: SystemAction, now: int)
    requires now <= db.clock
    requires Inv(cfg, db) && a in {Authorised, AuthorisedInstant, PaymentDeclined}
    ensures Keeps(cfg, db, ApplyEvent(cfg, db, id, a, now))
  {
    hide RowOk, LegalMove, Inv, Onward, ReviewLogOk, AnswerDeadline;
    Nothing(cfg, db);
    if id in db.bookings && SystemStatus(a, db.bookings[id].status).Some? {
      var r := db.bookings[id];
      TheRow(cfg, db, id);
      EventIsLegal(cfg, r, TrailOf(db.trail, id), db.clock, a, now);
      var to := SystemStatus(a, r.status).value;
      MoveKeeps(cfg, db, id,
        r.(status := to, expires := if to == Requested then Some(AnswerDeadline(cfg, now, r.terms)) else None), Payments, now);
    }
  }

  lemma RefusalIsLegal(r: Row, tr: seq<Edge>, clock: int)
    requires RowOk(r, tr, clock) && r.status == AwaitingPayment
    ensures LegalMove(r, r.(status := PaymentFailed, expires := None))
  {
    hide Path;
  }

  lemma PaymentRefusedKeeps(cfg: Settings, db: DB, id: Id, now: int)
    requires now <= db.clock
    requires Inv(cfg, db)
    ensures Keeps(cfg, db, PaymentRefused(db, id, now))
  {
    hide RowOk, LegalMove, Inv, Onward, ReviewLogOk;
    Nothing(cfg, db);
    if id in db.bookings && db.bookings[id].status == AwaitingPayment {
      TheRow(cfg, db, id);
      RefusalIsLegal(db.bookings[id], TrailOf(db.trail, id), db.clock);
      MoveKeeps(cfg, db, id, db.bookings[id].(status := PaymentFailed, expires := None), System, now);
    }
  }

  // --- many rows at once ------------------------------------------------------------------------

  /** What closing a list of rows leaves: those rows closed, the rest as they were. */
  lemma {:induction false} CloseEachEffect(db: DB, k: Closing, order: seq<Id>, now: int)
    requires Distinct(order)
    ensures var db' := CloseEach(db, k, order, now);
      && db'.bookings.Keys == db.bookings.Keys
      && (forall id :: id in db.bookings ==>
          db'.bookings[id] == if id in order then Close(k, db.bookings[id]) else db.bookings[id])
      && db'.disputes == db.disputes && db'.resolutions == db.resolutions && db'.clock == db.clock
  {
    if order != [] {
      CloseEachEffect(db, k, order[..|order| - 1], now);
      assert order == order[..|order| - 1] + [order[|order| - 1]];
    }
  }

  lemma CloseIsLegal(k: Closing, r: Row, tr: seq<Edge>, clock: int)
    requires RowOk(r, tr, clock) && Closable(k, r)
    ensures LegalMove(r, Close(k, r)) && r.status != Disputed && Close(k, r).status != Disputed
  {
    hide Path;
  }

  lemma {:induction false} CloseEachKeeps(cfg: Settings, db: DB, k: Closing, order: seq<Id>, now: int)
    requires now <= db.clock
    requires Inv(cfg, db) && Distinct(order)
    requires forall id :: id in order ==> id in db.bookings && Closable(k, db.bookings[id])
    ensures Keeps(cfg, db, CloseEach(db, k, order, now))
  {
    if order == [] {
      Nothing(cfg, db);
    } else {
      var init, id := order[..|order| - 1], order[|order| - 1];
      CloseEachKeeps(cfg, db, k, init, now);
      CloseEachEffect(db, k, init, now);
      assert id !in init && id in order;
      var db1 := CloseEach(db, k, init, now);
      assert db1.bookings[id] == db.bookings[id];
      CloseOneKeeps(cfg, db1, k, id, now);
      hide Inv, Onward;
      KeepsTrans(cfg, db, db1, CloseEach(db, k, order, now));
    }
  }

  lemma CloseOneKeeps(cfg: Settings, db: DB, k: Closing, id: Id, now: int)
    requires now <= db.clock
    requires Inv(cfg, db) && id in db.bookings && Closable(k, db.bookings[id])
    ensures Keeps(cfg, db, Move(db, id, Close(k, db.bookings[id]), System, now))
  {
    hide RowOk, LegalMove, Inv, Onward, ReviewLogOk, Close, Closable;
    TheRow(cfg, db, id);
    CloseIsLegal(k, db.bookings[id], TrailOf(db.trail, id), db.clock);
    MoveKeeps(cfg, db, id, Close(k, db.bookings[id]), System, now);
  }

  // --- people ---------------------------------------------------------------------------------------

  /** What passes `_transition`'s checks is a legal move; only a dispute leads to Disputed. */
  lemma CheckedIsLegal(cfg: Settings, r: Row, tr: seq<Edge>, clock: int, a: Action, user: Person, now: int)
    requires RowOk(r, tr, clock) && Checked(cfg, r, a, user, now).Ok?
    ensures var s := Checked(cfg, r, a, user, now).value;
      LegalMove(r, s) && r.status != Disputed && (s.status == Disputed <==> a == Dispute)
  {
    hide Path, RefundAmount;
    assert 0 <= Refund(cfg, r, user, now) <= r.terms.amount;
  }

  lemma ActKeeps(cfg: Settings, db: DB, id: Id, a: Action, user: Person, order: seq<Id>, now: int)
    requires now <= db.clock
    requires Inv(cfg, db) && Among(order, Extensions(db, id))
    requires id in db.bookings ==> db.bookings[id].terms.amount >= 0
    ensures var r := Act(cfg, db, id, a, user, order, now); r.Ok? ==> Keeps(cfg, db, r.value)
  {
    hide RowOk, LegalMove, Inv, Onward, ReviewLogOk, Checked, CloseEach, Closable;
    if Visible(db, id, user) && Checked(cfg, db.bookings[id], a, user, now).Ok? {
      TheRow(cfg, db, id);
      CheckedIsLegal(cfg, db.bookings[id], TrailOf(db.trail, id), db.clock, a, user, now);
      var s := Checked(cfg, db.bookings[id], a, user, now).value;
      var db1 := Move(db, id, s, Of(user), now);
      if s.status == Disputed {
        OpenDisputeKeeps(cfg, db, id, s, user, now + cfg.offerWindow, now);
      } else {
        MoveKeeps(cfg, db, id, s, Of(user), now);
        if s.status == Cancelled {
          ExtensionsStand(db, id, s, Of(user), order, now);
          CloseEachKeeps(cfg, db1, WithParent, order, now);
          KeepsTrans(cfg, db, db1, CloseEach(db1, WithParent, order, now));
        }
      }
    }
  }

  lemma ExtensionsStand(db: DB, id: Id, s: Row, actor: Actor, order: seq<Id>, now: int)
    requires id in db.bookings && Among(order, Extensions(db, id))
    ensures var db1 := Move(db, id, s, actor, now);
      Distinct(order) && forall j :: j in order ==> j in db1.bookings && Closable(WithParent, db1.bookings[j])
  {}

  lemma OpenDisputeKeeps(cfg: Settings, db: DB, id: Id, s: Row, user: Person, respondBy: int, now: int)
    requires now <= db.clock
    requires Inv(cfg, db) && id in db.bookings && LegalMove(db.bookings[id], s)
    requires db.bookings[id].status != Disputed && s.status == Disputed
    ensures var db1 := Move(db, id, s, Of(user), now);
      id !in db.disputes &&
      Keeps(cfg, db, db1.(disputes := db1.disputes[id := DisputeRow(user, now, respondBy, None, None, None)]))
  {
    assert Allowed(db.bookings[id].status, s.status);
    hide RowsOk, LogOk, NoStrayReviews, NoDoubleBooking, KeysUnique, Onward, LegalMove;
    var db1 := Move(db, id, s, Of(user), now);
    var disputes := db1.disputes[id := DisputeRow(user, now, respondBy, None, None, None)];
    var db2 := db1.(disputes := disputes);
    NotInDispute(cfg, db, id, s.status);
    MoveKeepsCore(db, id, s, Of(user), now);
    SideTablesKeepCore(db1, disputes, db1.resolutions);
    assert db2 == db1.(disputes := disputes, resolutions := db1.resolutions);
    OnwardTrans(db, db1, db2);
    ExclusiveKept(db, db2);
    OpenedDisputesOk(cfg, db, db2, id);
  }

  lemma OpenedDisputesOk(cfg: Settings, db: DB, db': DB, id: Id)
    requires DisputesOk(cfg, db) && id !in db.disputes && id in db.bookings && id in db'.bookings
    requires id in db'.disputes && db'.disputes == db.disputes[id := db'.disputes[id]] && db'.disputes[id].offer.None?
    requires db'.bookings == db.bookings[id := db'.bookings[id]] && db'.bookings[id].status == Disputed
    requires db'.resolutions == db.resolutions
    ensures DisputesOk(cfg, db')
  {
    hide Rivals, FourEyes;
    forall x | x in db'.resolutions
      ensures db'.resolutions[x].booking in db'.disputes
      ensures ResolutionOk(cfg, db'.bookings[db'.resolutions[x].booking], db'.disputes[db'.resolutions[x].booking], db'.resolutions[x])
    {
      assert db.resolutions[x].booking in db.disputes;
    }
  }

  // --- reviews ----------------------------------------------------------------------------------------

  function Reviewed(db: DB, id: Id, v: Reviews): DB
    requires id in db.bookings
  {
    db.(bookings := db.bookings[id := db.bookings[id].(reviews := v)],
        outbox := if v.published.Some? then db.outbox + PublishedEvents(id, v) else db.outbox)
  }

  /** Reviews written or published, on a row whose reviews were not out yet. */
  ghost predicate LegalReview(r: Row, v: Reviews, clock: int) {
    && ReviewsOk(r.(reviews := v), clock) && r.reviews.published.None?
    && (r.reviews.outcome.Some? ==> v.outcome == r.reviews.outcome && v.ratedAt == r.reviews.ratedAt)
    && (r.reviews.renterRating.Some? ==> v.renterRating == r.reviews.renterRating)
  }

  lemma PublishingLog(outbox: seq<Event>, id: Id, v: Reviews)
    ensures var out := outbox + PublishedEvents(id, v);
      && Announced(out) == Announced(outbox)
      && (forall j :: j != id ==> RatingsOf(out, j) == RatingsOf(outbox, j) && RenterRatingsOf(out, j) == RenterRatingsOf(outbox, j))
      && RatingsOf(out, id) == RatingsOf(outbox, id) + OneIf(true, v.outcome)
      && RenterRatingsOf(out, id) == RenterRatingsOf(outbox, id) + OneIf(true, v.renterRating)
  {
    hide Announced, RatingsOf, RenterRatingsOf;
    var out1 := if v.outcome.Some? then outbox + [BookingRated(id, v.outcome.value)] else outbox;
    if v.outcome.Some? { EventAdded(outbox, BookingRated(id, v.outcome.value)); }
    if v.renterRating.Some? { EventAdded(out1, RenterRated(id, v.renterRating.value)); }
    var out := outbox + PublishedEvents(id, v);
    assert out == if v.renterRating.Some? then out1 + [RenterRated(id, v.renterRating.value)] else out1;
    assert RatingsOf(outbox, id) + [] == RatingsOf(outbox, id);
    assert RenterRatingsOf(outbox, id) + [] == RenterRatingsOf(outbox, id);
  }

  lemma ReviewedLog(db: DB, id: Id, v: Reviews)
    requires LogOk(db) && NoStrayReviews(db) && id in db.bookings && db.bookings[id].reviews.published.None?
    ensures LogOk(Reviewed(db, id, v)) && NoStrayReviews(Reviewed(db, id, v))
  {
    hide Announced, RatingsOf, RenterRatingsOf, PublishedEvents;
    var db' := Reviewed(db, id, v);
    PublishingLog(db.outbox, id, v);
    assert ReviewLogOk(db, id) && RatingsOf(db.outbox, id) == [] && RenterRatingsOf(db.outbox, id) == [];
    assert [] + OneIf(true, v.outcome) == OneIf(true, v.outcome) && [] + OneIf(true, v.renterRating) == OneIf(true, v.renterRating);
    forall j | j in db'.bookings ensures ReviewLogOk(db', j) { assert ReviewLogOk(db, j); }
    forall j | j !in db'.bookings ensures RatingsOf(db'.outbox, j) == [] && RenterRatingsOf(db'.outbox, j) == [] {
      assert j != id;
    }
  }

  lemma ReviewedRows(db: DB, id: Id, v: Reviews)
    requires RowsOk(db) && id in db.bookings && LegalReview(db.bookings[id], v, db.clock)
    ensures RowsOk(Reviewed(db, id, v)) && Onward(db, Reviewed(db, id, v))
  {
    hide RowOk, RowLater, LegalReview, PublishedEvents, TrailOf;
    var db' := Reviewed(db, id, v);
    assert RowOk(db.bookings[id], TrailOf(db.trail, id), db.clock);
    ReviewedRow(db.bookings[id], v, TrailOf(db.trail, id), db.clock);
    forall j | j in db'.bookings
      ensures RowOk(db'.bookings[j], TrailOf(db'.trail, j), db'.clock) && RowLater(db.bookings[j], db'.bookings[j])
    {
      assert RowOk(db.bookings[j], TrailOf(db.trail, j), db.clock);
      Unmoved(db.bookings[j]);
    }
  }

  lemma ReviewedRow(r: Row, v: Reviews, tr: seq<Edge>, clock: int)
    requires RowOk(r, tr, clock) && LegalReview(r, v, clock)
    ensures RowOk(r.(reviews := v), tr, clock) && RowLater(r, r.(reviews := v))
  {
    hide Path, WasAccepted;
  }

  lemma ReviewedKeeps(cfg: Settings, db: DB, id: Id, v: Reviews)
    requires Inv(cfg, db) && id in db.bookings && LegalReview(db.bookings[id], v, db.clock)
    ensures Keeps(cfg, db, Reviewed(db, id, v))
  {
    assert db.bookings[id].reviews.published.None?;
    hide RowsOk, LogOk, NoStrayReviews, NoDoubleBooking, KeysUnique, Onward, LegalReview, DisputesOk;
    ReviewedLog(db, id, v);
    ReviewedRows(db, id, v);
    ExclusiveKept(db, Reviewed(db, id, v));
    ReviewedDisputes(cfg, db, id, v);
  }

  lemma ReviewedDisputes(cfg: Settings, db: DB, id: Id, v: Reviews)
    requires DisputesOk(cfg, db) && id in db.bookings
    ensures DisputesOk(cfg, Reviewed(db, id, v))
  {
    hide DisputeOk, ResolutionOk, Rivals;
    DisputesUntouched(cfg, db, Reviewed(db, id, v));
  }

  /** A review written in time; with it, both go out if the other is in. */
  function WithReview(v: Reviews, outcome: Option<nat>, rating: Option<nat>, now: int): Reviews {
    if outcome.Some? then
      v.(outcome := outcome, ratedAt := Some(now), published := if v.renterRating.Some? then Some(now) else v.published)
    else
      v.(renterRating := rating, published := if v.outcome.Some? then Some(now) else v.published)
  }

  lemma ReviewIsLegal(r: Row, tr: seq<Edge>, clock: int, outcome: Option<nat>, rating: Option<nat>, now: int)
    requires RowOk(r, tr, clock) && r.status == Completed && now <= clock && now <= r.terms.end + REVIEW_WINDOW
    requires r.reviews.published.Some? ==> r.reviews.published.value <= now
    requires (outcome.Some? && r.reviews.outcome.None?) || (outcome.None? && rating.Some? && r.reviews.renterRating.None?)
    ensures LegalReview(r, WithReview(r.reviews, outcome, rating, now), clock)
    ensures r.reviews.published.None?
  {
    hide Path, MoneyOk, TermsOk, DeadlineOk;
  }

  lemma RateKeeps(cfg: Settings, db: DB, id: Id, user: Person, outcome: nat, now: int)
    requires now <= db.clock && SinceLast(db, id, now)
    requires Inv(cfg, db)
    ensures var r := Rate(db, id, user, outcome, now); r.Ok? ==> Keeps(cfg, db, r.value)
  {
    hide Inv, Onward, OwnerSees, RowOk, ReviewLogOk, LegalReview;
    if Rate(db, id, user, outcome, now).Ok? {
      TheRow(cfg, db, id);
      ReviewIsLegal(db.bookings[id], TrailOf(db.trail, id), db.clock, Some(outcome), None, now);
      var v := WithReview(db.bookings[id].reviews, Some(outcome), None, now);
      ReviewedKeeps(cfg, db, id, v);
      assert Rate(db, id, user, outcome, now).value.bookings == Reviewed(db, id, v).bookings;
    }
  }

  lemma RateRenterKeeps(cfg: Settings, db: DB, id: Id, user: Person, quality: nat, now: int)
    requires now <= db.clock && SinceLast(db, id, now)
    requires Inv(cfg, db)
    ensures var r := RateRenter(db, id, user, quality, now); r.Ok? ==> Keeps(cfg, db, r.value)
  {
    hide Inv, Onward, OwnerSees, RowOk, ReviewLogOk, LegalReview;
    if RateRenter(db, id, user, quality, now).Ok? {
      TheRow(cfg, db, id);
      ReviewIsLegal(db.bookings[id], TrailOf(db.trail, id), db.clock, None, Some(quality), now);
      var v := WithReview(db.bookings[id].reviews, None, Some(quality), now);
      ReviewedKeeps(cfg, db, id, v);
      assert RateRenter(db, id, user, quality, now).value.bookings == Reviewed(db, id, v).bookings;
    }
  }

  lemma {:induction false} PublishEachEffect(db: DB, order: seq<Id>, now: int)
    requires Distinct(order) && forall id :: id in order ==> id in db.bookings && db.bookings[id].reviews.published.None?
    ensures var db' := PublishEach(db, order, now);
      && db'.bookings.Keys == db.bookings.Keys
      && (forall id :: id in db.bookings ==>
          db'.bookings[id] == if id in order then db.bookings[id].(reviews := db.bookings[id].reviews.(published := Some(now)))
                              else db.bookings[id])
      && db'.disputes == db.disputes && db'.resolutions == db.resolutions && db'.clock == db.clock
  {
    if order != [] {
      PublishEachEffect(db, order[..|order| - 1], now);
      assert order == order[..|order| - 1] + [order[|order| - 1]];
    }
  }

  lemma {:induction false} PublishEachKeeps(cfg: Settings, db: DB, order: seq<Id>, now: int)
    requires now <= db.clock
    requires Inv(cfg, db) && Distinct(order)
    requires forall id :: id in order ==> id in db.bookings && ReviewDue(db.bookings[id], now)
    ensures Keeps(cfg, db, PublishEach(db, order, now))
  {
    hide Inv, Onward;
    if order == [] {
      Nothing(cfg, db);
    } else {
      var init, id := order[..|order| - 1], order[|order| - 1];
      PublishEachKeeps(cfg, db, init, now);
      PublishEachEffect(db, init, now);
      assert id !in init && id in order;
      var db1 := PublishEach(db, init, now);
      assert db1.bookings[id] == db.bookings[id];
      PublishOneKeeps(cfg, db1, id, now);
      KeepsTrans(cfg, db, db1, PublishEach(db, order, now));
    }
  }

  lemma PublishOneKeeps(cfg: Settings, db: DB, id: Id, now: int)
    requires now <= db.clock
    requires Inv(cfg, db) && id in db.bookings && ReviewDue(db.bookings[id], now)
    ensures Keeps(cfg, db, PublishReviews(db, id, now))
  {
    hide Inv, Onward, Path, MoneyOk, TermsOk, DeadlineOk;
    var r := db.bookings[id];
    var v := r.reviews.(published := Some(now));
    TheRow(cfg, db, id);
    assert LegalReview(r, v, db.clock);
    ReviewedKeeps(cfg, db, id, v);
    assert PublishReviews(db, id, now) == Reviewed(db, id, v);
  }

  // --- settling --------------------------------------------------------------------------------------

  /** `refund_for` and `outcome_of` undo each other on what a dispute can refund. */
  lemma OutcomesAreRefunds(o: Outcome, part: Option<int>, refund: int, amount: int)
    requires amount > 0 && 0 <= refund <= amount
    ensures RefundFor(o, part, amount).Ok? ==>
      0 <= RefundFor(o, part, amount).value <= amount && OutcomeOf(RefundFor(o, part, amount).value, amount) == o
    ensures RefundFor(OutcomeOf(refund, amount), Some(refund), amount) == Ok(refund)
    ensures RefundFor(o, part, amount).Err? <==> o == Partial && (part.None? || part.value <= 0 || part.value >= amount)
  {}

  /** What settling needs of the resolution that does it. */
  ghost predicate Settles(cfg: Settings, db: DB, rid: Id, res: Resolution) {
    && res.booking in db.bookings && db.bookings[res.booking].status == Disputed
    && res.status == Done
    && var r := db.bookings[res.booking];
      && 0 <= res.refund <= r.terms.amount && res.outcome == OutcomeOf(res.refund, r.terms.amount)
      && (rid in db.resolutions ==> db.resolutions[rid].booking == res.booking)
      && (res.role == Parties ==>
        && res.booking in db.disputes && db.disputes[res.booking].offer.Some?
        && db.disputes[res.booking].offer.value.amount == res.refund
        && res.author in {r.terms.requester, r.terms.owner}
        && db.disputes[res.booking].offer.value.offeredBy != res.author)
      && (res.role != Parties ==> FourEyes(cfg, r.terms.currency, res))
  }

  /** The tables once a resolution has settled its booking. */
  function Settled(db: DB, rid: Id, res: Resolution, actor: Actor, now: int): Result<DB>
    requires res.booking in db.bookings
  {
    Settle(db.(resolutions := db.resolutions[rid := res]), res.booking, res.refund, actor, now)
  }

  lemma SettledIsLegal(r: Row, tr: seq<Edge>, clock: int, refund: int)
    requires RowOk(r, tr, clock) && r.status == Disputed && 0 <= refund <= r.terms.amount
    ensures LegalMove(r, SettledRow(r, refund))
    ensures SettledRow(r, refund).refund.GetOr(0) == refund
  {
    hide Path;
  }

  /** The tables of disputes once a resolution has settled its booking. */
  ghost predicate JustSettled(cfg: Settings, db: DB, rid: Id, res: Resolution, db': DB) {
    && Settles(cfg, db, rid, res)
    && db'.disputes == db.disputes && db'.resolutions == db.resolutions[rid := res]
    && db'.bookings == db.bookings[res.booking := SettledRow(db.bookings[res.booking], res.refund)]
    && db.bookings[res.booking].refund.None?
  }

  lemma SettledDisputes(cfg: Settings, db: DB, rid: Id, res: Resolution, db': DB)
    requires DisputesOk(cfg, db) && JustSettled(cfg, db, rid, res, db')
    ensures DisputesOk(cfg, db')
  {
    SettledResolutions(cfg, db, rid, res, db');
    SettledRivals(cfg, db, rid, res, db');
    hide FourEyes, Rivals, ResolutionOk;
  }

  lemma SettledResolutions(cfg: Settings, db: DB, rid: Id, res: Resolution, db': DB)
    requires DisputesOk(cfg, db) && JustSettled(cfg, db, rid, res, db')
    ensures forall x :: x in db'.resolutions ==>
      && db'.resolutions[x].booking in db'.disputes && db'.resolutions[x].booking in db'.bookings
      && ResolutionOk(cfg, db'.bookings[db'.resolutions[x].booking], db'.disputes[db'.resolutions[x].booking], db'.resolutions[x])
  {
    hide FourEyes, Rivals;
    forall x | x in db'.resolutions
      ensures db'.resolutions[x].booking in db'.disputes && db'.resolutions[x].booking in db'.bookings
      ensures ResolutionOk(cfg, db'.bookings[db'.resolutions[x].booking], db'.disputes[db'.resolutions[x].booking], db'.resolutions[x])
    {
      if x != rid {
        assert db.resolutions[x].booking in db.disputes;
        NotYetDone(cfg, db, x);
      }
    }
  }

  lemma SettledRivals(cfg: Settings, db: DB, rid: Id, res: Resolution, db': DB)
    requires DisputesOk(cfg, db) && JustSettled(cfg, db, rid, res, db')
    ensures forall x, y :: x in db'.resolutions && y in db'.resolutions && x != y ==> !Rivals(db'.resolutions[x], db'.resolutions[y])
  {
    forall x, y | x in db'.resolutions && y in db'.resolutions && x != y
      ensures !Rivals(db'.resolutions[x], db'.resolutions[y])
    {
      if x != rid { NotYetDone(cfg, db, x); }
      if y != rid { NotYetDone(cfg, db, y); }
      if x != rid && y != rid { assert !Rivals(db.resolutions[x], db.resolutions[y]); }
    }
  }

  lemma NotYetDone(cfg: Settings, db: DB, x: Id)
    requires DisputesOk(cfg, db) && x in db.resolutions
    ensures db.resolutions[x].booking in db.bookings
    ensures db.bookings[db.resolutions[x].booking].status == Disputed ==> db.resolutions[x].status != Done
  {
    hide FourEyes, Rivals;
  }

  lemma SettledKeeps(cfg: Settings, db: DB, rid: Id, res: Resolution, actor: Actor, now: int)
    requires now <= db.clock
    requires Inv(cfg, db) && Settles(cfg, db, rid, res)
    ensures Settled(db, rid, res, actor, now).Ok?
    ensures Keeps(cfg, db, Settled(db, rid, res, actor, now).value)
  {
    hide RowsOk, LogOk, NoStrayReviews, NoDoubleBooking, KeysUnique, Onward, LegalMove, DisputesOk, Settles, RowOk, FourEyes;
    assert res.booking in db.bookings && db.bookings[res.booking].status == Disputed
      && 0 <= res.refund <= db.bookings[res.booking].terms.amount by { SettlesWhat(cfg, db, rid, res); }
    var id, r := res.booking, db.bookings[res.booking];
    TheRow(cfg, db, id);
    SettledIsLegal(r, TrailOf(db.trail, id), db.clock, res.refund);
    NoRefundYet(r, TrailOf(db.trail, id), db.clock);
    var db0 := db.(resolutions := db.resolutions[rid := res]);
    SideTablesKeepCore(db, db.disputes, db.resolutions[rid := res]);
    assert db0 == db.(disputes := db.disputes, resolutions := db.resolutions[rid := res]);
    var s := SettledRow(r, res.refund);
    MoveKeepsCore(db0, id, s, actor, now);
    var db1 := Move(db0, id, s, actor, now);
    var e := Notice(id, NoticeOf(OutcomeOf(res.refund, r.terms.amount)), res.refund);
    PlainEventKeepsCore(db1, e);
    var db2 := db1.(outbox := db1.outbox + [e]);
    OnwardTrans(db, db0, db1);
    OnwardTrans(db, db1, db2);
    ExclusiveKept(db, db2);
    SettledDisputes(cfg, db, rid, res, db2);
  }

  lemma SettlesWhat(cfg: Settings, db: DB, rid: Id, res: Resolution)
    requires Settles(cfg, db, rid, res)
    ensures res.booking in db.bookings && db.bookings[res.booking].status == Disputed
    ensures 0 <= res.refund <= db.bookings[res.booking].terms.amount
  {}

  lemma NoRefundYet(r: Row, tr: seq<Edge>, clock: int)
    requires RowOk(r, tr, clock) && r.status == Disputed
    ensures r.refund.None?
  {
    hide Path;
  }

  lemma AuditKeeps(cfg: Settings, db: DB, staff: Person, rid: Id)
    requires Inv(cfg, db)
    ensures Keeps(cfg, db, Audit(db, staff, rid))
  {
    hide RowsOk, LogOk, NoStrayReviews, NoDoubleBooking, KeysUnique, Onward;
    PlainEventKeepsCore(db, StaffAction(staff, rid));
    ExclusiveKept(db, Audit(db, staff, rid));
  }

  lemma AgreementSettles(cfg: Settings, db: DB, id: Id, user: Person, amount: nat, rid: Id)
    requires Inv(cfg, db) && rid !in db.resolutions && id in db.bookings && db.bookings[id].status == Disputed
    requires user == db.bookings[id].terms.requester || user == db.bookings[id].terms.owner
    requires id in db.disputes && db.disputes[id].offer.Some?
    requires db.disputes[id].offer.value.offeredBy != user && db.disputes[id].offer.value.amount == amount
    ensures Settles(cfg, db, rid,
      Resolution(id, OutcomeOf(amount, db.bookings[id].terms.amount), amount, user, Parties, Done, None))
  {
    TheDispute(cfg, db, id);
    hide Inv;
  }

  lemma AcceptOfferKeeps(cfg: Settings, db: DB, id: Id, user: Person, amount: nat, rid: Id, now: int)
    requires now <= db.clock
    requires Inv(cfg, db) && rid !in db.resolutions
    ensures var r := AcceptOffer(db, id, user, amount, rid, now); r.Ok? ==> Keeps(cfg, db, r.value)
  {
    hide Inv, Onward, Settles, OwnerSees, SettledRow, Move;
    if AcceptOffer(db, id, user, amount, rid, now).Ok? {
      AgreementSettles(cfg, db, id, user, amount, rid);
      var res := Resolution(id, OutcomeOf(amount, db.bookings[id].terms.amount), amount, user, Parties, Done, None);
      SettledKeeps(cfg, db, rid, res, Of(user), now);
    }
  }

  lemma ResolveKeeps(
    cfg: Settings, db: DB, id: Id, o: Outcome, part: Option<int>, staff: Person, role: StaffRole, rid: Id, now: int)
    requires now <= db.clock
    requires Inv(cfg, db) && role != Parties && rid !in db.resolutions
    ensures var r := Resolve(cfg, db, id, o, part, staff, role, rid, now); r.Ok? ==> Keeps(cfg, db, r.value)
  {
    hide Inv, Onward, Settles, RowOk, AwaitsApproval, RefundFor, Audit, Settle;
    if Resolve(cfg, db, id, o, part, staff, role, rid, now).Ok? {
      var r := db.bookings[id];
      TheRow(cfg, db, id);
      Positive(r, TrailOf(db.trail, id), db.clock);
      OutcomesAreRefunds(o, part, 0, r.terms.amount);
      var refund := RefundFor(o, part, r.terms.amount).value;
      var within := refund <= cfg.limit(r.terms.currency, role);
      var res := Resolution(id, o, refund, staff, role, if within then Done else PendingApproval, None);
      if within {
        AlwaysSettles(cfg, db, rid, res);
        SettledKeeps(cfg, db, rid, res, Support(staff), now);
        AuditKeeps(cfg, Settled(db, rid, res, Support(staff), now).value, staff, rid);
        KeepsTrans(cfg, db, Settled(db, rid, res, Support(staff), now).value, Audit(Settled(db, rid, res, Support(staff), now).value, staff, rid));
      } else {
        ProposalKeeps(cfg, db, rid, res);
        var db1 := db.(resolutions := db.resolutions[rid := res]);
        AuditKeeps(cfg, db1, staff, rid);
        KeepsTrans(cfg, db, db1, Audit(db1, staff, rid));
      }
    }
  }

  lemma Positive(r: Row, tr: seq<Edge>, clock: int)
    requires RowOk(r, tr, clock)
    ensures r.terms.amount > 0
  {
    hide Path;
  }

  lemma AlwaysSettles(cfg: Settings, db: DB, rid: Id, res: Resolution)
    requires res.booking in db.bookings && db.bookings[res.booking].status == Disputed && rid !in db.resolutions
    requires res.status == Done && res.role != Parties && FourEyes(cfg, db.bookings[res.booking].terms.currency, res)
    requires 0 <= res.refund <= db.bookings[res.booking].terms.amount
    requires res.outcome == OutcomeOf(res.refund, db.bookings[res.booking].terms.amount)
    ensures Settles(cfg, db, rid, res)
  {}

  /** A resolution row changed without settling anything: proposed, rejected or withdrawn. */
  lemma ResolutionWritten(cfg: Settings, db: DB, rid: Id, res: Resolution)
    requires Inv(cfg, db) && res.booking in db.disputes && res.status != Done && res.role != Parties
    requires 0 <= res.refund <= db.bookings[res.booking].terms.amount
    requires res.outcome == OutcomeOf(res.refund, db.bookings[res.booking].terms.amount)
    requires res.status == PendingApproval ==> !AwaitsApproval(db, res.booking)
    ensures Keeps(cfg, db, db.(resolutions := db.resolutions[rid := res]))
  {
    hide RowsOk, LogOk, NoStrayReviews, NoDoubleBooking, KeysUnique, Onward, DisputesOk, AwaitsApproval;
    var db' := db.(resolutions := db.resolutions[rid := res]);
    SideTablesKeepCore(db, db.disputes, db.resolutions[rid := res]);
    assert db' == db.(disputes := db.disputes, resolutions := db.resolutions[rid := res]);
    ExclusiveKept(db, db');
    WrittenDisputes(cfg, db, rid, res);
  }

  lemma WrittenDisputes(cfg: Settings, db: DB, rid: Id, res: Resolution)
    requires DisputesOk(cfg, db) && res.booking in db.disputes && res.status != Done && res.role != Parties
    requires 0 <= res.refund <= db.bookings[res.booking].terms.amount
    requires res.outcome == OutcomeOf(res.refund, db.bookings[res.booking].terms.amount)
    requires res.status == PendingApproval ==> !AwaitsApproval(db, res.booking)
    ensures DisputesOk(cfg, db.(resolutions := db.resolutions[rid := res]))
  {
    hide FourEyes, DisputeOk;
    var db' := db.(resolutions := db.resolutions[rid := res]);
    forall x, y | x in db'.resolutions && y in db'.resolutions && x != y
      ensures !Rivals(db'.resolutions[x], db'.resolutions[y])
    {
      if x != rid && y != rid { assert !Rivals(db.resolutions[x], db.resolutions[y]); }
    }
  }

  lemma ProposalKeeps(cfg: Settings, db: DB, rid: Id, res: Resolution)
    requires Inv(cfg, db) && res.booking in db.bookings && db.bookings[res.booking].status == Disputed
    requires res.status == PendingApproval && res.role != Parties && !AwaitsApproval(db, res.booking)
    requires 0 <= res.refund <= db.bookings[res.booking].terms.amount
    requires res.outcome == OutcomeOf(res.refund, db.bookings[res.booking].terms.amount)
    ensures Keeps(cfg, db, db.(resolutions := db.resolutions[rid := res]))
  {
    assert res.booking in db.disputes;
    hide Inv, Onward, AwaitsApproval;
    ResolutionWritten(cfg, db, rid, res);
  }

  lemma PendingIs(cfg: Settings, db: DB, rid: Id)
    requires Inv(cfg, db) && Pending(db, rid).Ok?
    ensures var res := db.resolutions[rid];
      && res.booking in db.disputes && res.booking in db.bookings && res.role != Parties && res.status == PendingApproval
      && 0 <= res.refund <= db.bookings[res.booking].terms.amount
      && res.outcome == OutcomeOf(res.refund, db.bookings[res.booking].terms.amount)
  {
    hide Core, NoDoubleBooking, KeysUnique, Rivals, FourEyes, DisputeOk;
  }

  lemma ApproveKeeps(cfg: Settings, db: DB, rid: Id, staff: Person, role: StaffRole, now: int)
    requires now <= db.clock
    requires Inv(cfg, db) && role != Parties
    ensures var r := Approve(cfg, db, rid, staff, role, now); r.Ok? ==> Keeps(cfg, db, r.value)
  {
    hide Inv, Onward, Settles, Audit, Pending;
    if Approve(cfg, db, rid, staff, role, now).Ok? {
      PendingValue(db, rid);
      PendingIs(cfg, db, rid);
      var res := db.resolutions[rid];
      var done := res.(status := Done, approver := Some((staff, role)));
      assert db.bookings[res.booking].status == Disputed;
      assert Settles(cfg, db, rid, done) by { ApprovalSettles(cfg, db, rid, done); }
      SettledKeeps(cfg, db, rid, done, Support(staff), now);
      AuditKeeps(cfg, Settled(db, rid, done, Support(staff), now).value, staff, rid);
      KeepsTrans(cfg, db, Settled(db, rid, done, Support(staff), now).value, Audit(Settled(db, rid, done, Support(staff), now).value, staff, rid));
    }
  }

  lemma PendingValue(db: DB, rid: Id)
    requires Pending(db, rid).Ok?
    ensures rid in db.resolutions && Pending(db, rid).value == db.resolutions[rid]
  {}

  lemma ApprovalSettles(cfg: Settings, db: DB, rid: Id, res: Resolution)
    requires rid in db.resolutions && db.resolutions[rid].booking == res.booking
    requires res.booking in db.bookings && db.bookings[res.booking].status == Disputed
    requires res.status == Done && res.role != Parties && FourEyes(cfg, db.bookings[res.booking].terms.currency, res)
    requires 0 <= res.refund <= db.bookings[res.booking].terms.amount
    requires res.outcome == OutcomeOf(res.refund, db.bookings[res.booking].terms.amount)
    ensures Settles(cfg, db, rid, res)
  {}

  /** Rejected or withdrawn. */
  lemma DroppedKeeps(cfg: Settings, db: DB, rid: Id, staff: Person, to: ResolutionStatus)
    requires Inv(cfg, db) && Pending(db, rid).Ok? && to in {Rejected, Withdrawn}
    ensures Keeps(cfg, db, Audit(db.(resolutions := db.resolutions[rid := db.resolutions[rid].(status := to)]), staff, rid))
  {
    hide Inv, Onward, Audit, Pending;
    PendingIs(cfg, db, rid);
    PendingValue(db, rid);
    var res := db.resolutions[rid].(status := to);
    ResolutionWritten(cfg, db, rid, res);
    var db1 := db.(resolutions := db.resolutions[rid := res]);
    AuditKeeps(cfg, db1, staff, rid);
    KeepsTrans(cfg, db, db1, Audit(db1, staff, rid));
  }

  /** A dispute's own row rewritten while it is open, and one plain event. */
  lemma DisputeWritten(cfg: Settings, db: DB, id: Id, d: DisputeRow, e: Event)
    requires Inv(cfg, db) && id in db.disputes && DisputeOk(db.bookings[id], d)
    requires d.offer == db.disputes[id].offer || db.bookings[id].status == Disputed
    requires !e.StatusChanged? && !e.BookingRated? && !e.RenterRated?
    ensures Keeps(cfg, db, db.(disputes := db.disputes[id := d], outbox := db.outbox + [e]))
  {
    hide RowsOk, LogOk, NoStrayReviews, NoDoubleBooking, KeysUnique, Onward, DisputesOk;
    var db1 := db.(disputes := db.disputes[id := d]);
    var db2 := db1.(outbox := db1.outbox + [e]);
    SideTablesKeepCore(db, db.disputes[id := d], db.resolutions);
    assert db1 == db.(disputes := db.disputes[id := d], resolutions := db.resolutions);
    PlainEventKeepsCore(db1, e);
    OnwardTrans(db, db1, db2);
    ExclusiveKept(db, db2);
    RewrittenDisputes(cfg, db, id, d, db2);
  }

  lemma RewrittenDisputes(cfg: Settings, db: DB, id: Id, d: DisputeRow, db': DB)
    requires DisputesOk(cfg, db) && id in db.disputes && DisputeOk(db.bookings[id], d)
    requires d.offer == db.disputes[id].offer || db.bookings[id].status == Disputed
    requires db'.bookings == db.bookings && db'.resolutions == db.resolutions && db'.disputes == db.disputes[id := d]
    ensures DisputesOk(cfg, db')
  {
    hide FourEyes, Rivals, DisputeOk;
    forall x | x in db'.resolutions
      ensures db'.resolutions[x].booking in db'.disputes
      ensures ResolutionOk(cfg, db'.bookings[db'.resolutions[x].booking], db'.disputes[db'.resolutions[x].booking], db'.resolutions[x])
    {
      assert db.resolutions[x].booking in db.disputes;
      NotYetDone(cfg, db, x);
    }
  }

  lemma MakeOfferKeeps(cfg: Settings, db: DB, id: Id, user: Person, amount: nat, now: int)
    requires now <= db.clock
    requires Inv(cfg, db)
    ensures var r := MakeOffer(cfg, db, id, user, amount, now); r.Ok? ==> Keeps(cfg, db, r.value)
  {
    hide Inv, Onward, DisputeOk, OwnerSees;
    if MakeOffer(cfg, db, id, user, amount, now).Ok? {
      var r := db.bookings[id];
      HasDispute(cfg, db, id);
      var d := db.disputes[id].(offer := Some(Offer(amount, user)), offeredAt := Some(now), respondBy := now + cfg.offerWindow);
      var other := if user == r.terms.requester then r.terms.owner else r.terms.requester;
      OfferFits(r, d);
      DisputeWritten(cfg, db, id, d, DisputeOffer(id, other, Offer(amount, user)));
    }
  }

  lemma HasDispute(cfg: Settings, db: DB, id: Id)
    requires Inv(cfg, db) && id in db.bookings && db.bookings[id].status == Disputed
    ensures id in db.disputes
  {
    hide Core, NoDoubleBooking, KeysUnique, ResolutionOk, Rivals, DisputeOk;
  }

  lemma OfferFits(r: Row, d: DisputeRow)
    requires r.status == Disputed && d.offer.Some? && 0 <= d.offer.value.amount <= r.terms.amount
    requires d.offer.value.offeredBy == r.terms.requester || d.offer.value.offeredBy == r.terms.owner
    ensures DisputeOk(r, d)
  {}

  lemma {:induction false} EscalateEachEffect(db: DB, order: seq<Id>, now: int)
    requires Distinct(order)
    ensures var db' := EscalateEach(db, order, now);
      && db'.disputes.Keys == db.disputes.Keys
      && (forall id :: id in db.disputes ==>
          db'.disputes[id] == if id in order then db.disputes[id].(escalated := Some(now)) else db.disputes[id])
      && db'.bookings == db.bookings && db'.resolutions == db.resolutions && db'.clock == db.clock && db'.trail == db.trail
  {
    if order != [] {
      EscalateEachEffect(db, order[..|order| - 1], now);
      assert order == order[..|order| - 1] + [order[|order| - 1]];
    }
  }

  lemma {:induction false} EscalateEachKeeps(cfg: Settings, db: DB, order: seq<Id>, now: int)
    requires now <= db.clock
    requires Inv(cfg, db) && Distinct(order) && forall id :: id in order ==> EscalationDue(db, id, now)
    ensures Keeps(cfg, db, EscalateEach(db, order, now))
  {
    hide Inv, Onward;
    if order == [] {
      Nothing(cfg, db);
    } else {
      var init, id := order[..|order| - 1], order[|order| - 1];
      EscalateEachKeeps(cfg, db, init, now);
      EscalateEachEffect(db, init, now);
      assert id !in init && id in order;
      var db1 := EscalateEach(db, init, now);
      var d := db1.disputes[id].(escalated := Some(now));
      TheDispute(cfg, db1, id);
      assert DisputeOk(db1.bookings[id], d);
      DisputeWritten(cfg, db1, id, d, Notice(id, Escalated, 0));
      KeepsTrans(cfg, db, db1, EscalateEach(db, order, now));
    }
  }

  lemma TheDispute(cfg: Settings, db: DB, id: Id)
    requires Inv(cfg, db) && id in db.disputes
    ensures id in db.bookings && DisputeOk(db.bookings[id], db.disputes[id])
  {
    hide Core, NoDoubleBooking, KeysUnique, ResolutionOk, Rivals, DisputeOk;
  }

  // --- all of them ----------------------------------------------------------------------------------

  lemma Amounts(cfg: Settings, db: DB)
    requires Inv(cfg, db)
    ensures AmountsOk(db)
  {
    hide Path, ReviewsOk, DisputesOk, NoDoubleBooking, KeysUnique, LogOk, NoStrayReviews, MoneyOk, DeadlineOk;
    forall id | id in db.bookings ensures db.bookings[id].terms.amount >= 0 {
      assert RowOk(db.bookings[id], TrailOf(db.trail, id), db.clock);
    }
  }

  lemma BatchesAreClosable(cfg: Settings, db: DB, op: Op, now: int)
    requires Enabled(cfg, db, op, now)
    ensures op.RemoveListing? || op.SuspendRequester? ==>
      Distinct(op.order) && forall id :: id in op.order ==> id in db.bookings && Closable(Declining, db.bookings[id])
    ensures op.SweepLapsed? ==>
      Distinct(op.order) && forall id :: id in op.order ==> id in db.bookings && Closable(Lapsing, db.bookings[id])
    ensures op.SweepFinished? ==>
      Distinct(op.order) && forall id :: id in op.order ==> id in db.bookings && Closable(Finishing, db.bookings[id])
  {}

  lemma AnsweredBySystem(cfg: Settings, db: DB, op: Op, now: int)
    requires Inv(cfg, db) && AmountsOk(db) && Enabled(cfg, db, op, now)
    requires op.PaymentAuthorised? || op.PaymentFails? || op.PaymentIsRefused? || op.RemoveListing? || op.SuspendRequester?
      || op.SweepLapsed? || op.SweepFinished? || op.SweepReviews? || op.SweepDisputes?
    ensures Answer(cfg, db, op, now).Ok? && Keeps(cfg, db, Answer(cfg, db, op, now).value)
  {
    BatchesAreClosable(cfg, db, op, now);
    hide Inv, Onward, Keeps, Move, CloseEach, PublishEach, EscalateEach, ApplyEvent, PaymentRefused;
    hide Closable, ReviewDue, AmountsOk, LapseDue, FinishDue, PendingOf, PendingBy;
    match op
    case PaymentAuthorised(id) =>
      ApplyEventKeeps(cfg, db, id, if id in db.bookings && db.bookings[id].terms.instant then AuthorisedInstant else Authorised, now);
    case PaymentFails(id) => ApplyEventKeeps(cfg, db, id, PaymentDeclined, now);
    case PaymentIsRefused(id) => PaymentRefusedKeeps(cfg, db, id, now);
    case RemoveListing(_, order) => CloseEachKeeps(cfg, db, Declining, order, now);
    case SuspendRequester(_, order) => CloseEachKeeps(cfg, db, Declining, order, now);
    case SweepLapsed(order) => CloseEachKeeps(cfg, db, Lapsing, order, now);
    case SweepFinished(order) => CloseEachKeeps(cfg, db, Finishing, order, now);
    case SweepReviews(order) => PublishEachKeeps(cfg, db, order, now);
    case SweepDisputes(order) => EscalateEachKeeps(cfg, db, order, now);
  }

  lemma AnsweredByPeople(cfg: Settings, db: DB, op: Op, now: int)
    requires Inv(cfg, db) && AmountsOk(db) && Enabled(cfg, db, op, now)
    requires op.Acts? || op.Rates? || op.RatesRenter? || op.Offers? || op.Accepts?
    ensures var r := Answer(cfg, db, op, now); r.Ok? ==> Keeps(cfg, db, r.value)
  {
    hide Inv, Onward, Keeps, Rate, RateRenter, MakeOffer, AcceptOffer, Act, Extensions;
    match op
    case Acts(id, a, user, order) => ActKeeps(cfg, db, id, a, user, order, now);
    case Rates(id, user, q) => RateKeeps(cfg, db, id, user, q, now);
    case RatesRenter(id, user, q) => RateRenterKeeps(cfg, db, id, user, q, now);
    case Offers(id, user, amount) => MakeOfferKeeps(cfg, db, id, user, amount, now);
    case Accepts(id, user, amount, rid) => AcceptOfferKeeps(cfg, db, id, user, amount, rid, now);
  }

  lemma AnsweredByStaff(cfg: Settings, db: DB, op: Op, now: int)
    requires Inv(cfg, db) && AmountsOk(db) && Enabled(cfg, db, op, now)
    requires op.Resolves? || op.Approves? || op.Rejects? || op.Withdraws?
    ensures var r := Answer(cfg, db, op, now); r.Ok? ==> Keeps(cfg, db, r.value)
  {
    hide Inv, Onward, Keeps, Resolve, Approve, Audit, Pending;
    match op
    case Resolves(id, o, part, staff, role, rid) => ResolveKeeps(cfg, db, id, o, part, staff, role, rid, now);
    case Approves(rid, staff, role) => ApproveKeeps(cfg, db, rid, staff, role, now);
    case Rejects(rid, staff) =>
      if Pending(db, rid).Ok? { PendingValue(db, rid); DroppedKeeps(cfg, db, rid, staff, Rejected); }
    case Withdraws(rid, staff) =>
      if Pending(db, rid).Ok? { PendingValue(db, rid); DroppedKeeps(cfg, db, rid, staff, Withdrawn); }
  }

  /** Whatever one transaction is, it keeps the invariant and every row moves only onward. */
  lemma AfterKeeps(cfg: Settings, db: DB, op: Op, now: int)
    requires Inv(cfg, db) && Enabled(cfg, db, op, now)
    ensures AmountsOk(db)
    ensures Keeps(cfg, db, After(cfg, db, op, now))
  {
    hide Inv, Keeps, Enabled, Answer, AmountsOk;
    Amounts(cfg, db);
    Nothing(cfg, db);
    if op.Acts? || op.Rates? || op.RatesRenter? || op.Offers? || op.Accepts? {
      AnsweredByPeople(cfg, db, op, now);
    } else if op.Resolves? || op.Approves? || op.Rejects? || op.Withdraws? {
      AnsweredByStaff(cfg, db, op, now);
    } else {
      AnsweredBySystem(cfg, db, op, now);
    }
  }

  /** Whatever a transaction locks, the present is not before. */
  lemma NowIsInTurn(cfg: Settings, db: DB, id: Id)
    requires Inv(cfg, db)
    ensures SinceLast(db, id, db.clock)
  {
    if id in db.bookings {
      TheRow(cfg, db, id);
      hide Inv, Path, MoneyOk, DeadlineOk, TermsOk, ReviewLogOk, TrailOf;
    } else {
      hide RowOk, DisputesOk, NoDoubleBooking, KeysUnique, LogOk, NoStrayReviews, TrailOf;
      NoTrail(db, id);
    }
  }

  /** A booking that asks for a free window under an unused key joins the rest. */
  lemma InsertKeeps(cfg: Settings, db: DB, id: Id, r: Row)
    requires Inv(cfg, db) && id !in db.bookings && Fresh(r, db.clock)
    requires forall b :: b in db.bookings ==> !Clash(r, db.bookings[b]) && !SameKey(r, db.bookings[b])
    ensures Inv(cfg, Insert(db, id, r))
  {
    hide Core, DisputesOk, NoDoubleBooking, KeysUnique, Insert, Fresh, Clash, SameKey;
    assert r.status == AwaitingPayment by { FreshAwaits(r, db.clock); }
    InsertKeepsCore(db, id, r);
    InsertKeepsDisputes(cfg, db, id, r);
    InsertKeepsExclusive(db, id, r);
  }

  lemma FreshAwaits(r: Row, now: int)
    requires Fresh(r, now)
    ensures r.status == AwaitingPayment
  {}

  lemma InsertKeepsExclusive(db: DB, id: Id, r: Row)
    requires NoDoubleBooking(db.bookings) && KeysUnique(db.bookings) && id !in db.bookings
    requires forall b :: b in db.bookings ==> !Clash(r, db.bookings[b]) && !SameKey(r, db.bookings[b])
    ensures NoDoubleBooking(Insert(db, id, r).bookings) && KeysUnique(Insert(db, id, r).bookings)
  {
    var db' := Insert(db, id, r);
    forall a, b | a in db'.bookings && b in db'.bookings && a != b
      ensures !Clash(db'.bookings[a], db'.bookings[b]) && !SameKey(db'.bookings[a], db'.bookings[b])
    {
      if a != id && b != id {
        assert !Clash(db.bookings[a], db.bookings[b]) && !SameKey(db.bookings[a], db.bookings[b]);
      }
    }
  }

  lemma InsertKeepsDisputes(cfg: Settings, db: DB, id: Id, r: Row)
    requires DisputesOk(cfg, db) && id !in db.bookings && r.status == AwaitingPayment
    ensures DisputesOk(cfg, Insert(db, id, r))
  {
    hide DisputeOk, ResolutionOk, Rivals;
    DisputesUntouched(cfg, db, Insert(db, id, r));
  }
}
