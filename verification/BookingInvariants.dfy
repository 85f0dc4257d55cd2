/** What every reachable state of the booking tables satisfies. The row
    invariant ties a row's current fields to its own trail: the status, the
    deadline, the money and the reviews a row shows are those of its history. */
module BookingInvariants {
  import opened Wrappers
  import opened BookingState
  import opened Cancellation
  import opened Booking

  // --- one row and its trail ---------------------------------------------------------------

  ghost predicate Follows(d: Edge, e: Edge) {
    e.change.from == Some(d.change.to) && Allowed(d.change.to, e.change.to)
  }

  ghost predicate Joined(tr: seq<Edge>, k: nat)
    requires 1 <= k < |tr|
  {
    Follows(tr[k - 1], tr[k])
  }

  /** A connected walk along allowed edges, from the payment step on. */
  ghost predicate Path(tr: seq<Edge>) {
    && tr != [] && tr[0].change.from == None && tr[0].change.to == AwaitingPayment
    && forall k :: 1 <= k < |tr| ==> Joined(tr, k)
  }

  ghost predicate WasAccepted(tr: seq<Edge>) {
    exists e :: e in tr && e.change.to == Accepted
  }

  ghost predicate TermsOk(r: Row) {
    r.terms.amount > 0 && 0 <= r.terms.ownerNet <= r.terms.amount && r.terms.start < r.terms.end && r.terms.requester != r.terms.owner
  }

  /** A deadline is set exactly while an answer is awaited, and an owner's lies
      no later than the booked time. */
  ghost predicate DeadlineOk(r: Row) {
    && (r.expires.Some? <==> r.status in {AwaitingPayment, Requested})
    && (r.status == Requested ==> r.expires.value <= r.terms.start)
  }

  ghost predicate MoneyOk(r: Row, accepted: bool) {
    && (r.status in {Accepted, Active, Disputed, Completed} ==> accepted)
    && (r.status in {AwaitingPayment, Requested, Declined, Expired} ==> !accepted)
    && (r.status == Cancelled ==> (r.refund.Some? <==> accepted))
    && (r.refund.Some? ==> r.status in {Cancelled, Completed} && 0 <= r.refund.value <= r.terms.amount)
    && (r.status == Completed && r.refund.Some? ==> 0 < r.refund.value < r.terms.amount)
    && (r.noShow.Some? ==> r.status == Cancelled && r.refund == Some(if r.noShow.value == TheOwner then r.terms.amount else 0))
  }

  ghost predicate ReviewsOk(r: Row, clock: int) {
    && (r.reviews.outcome.Some? || r.reviews.renterRating.Some? || r.reviews.published.Some? ==> r.status == Completed)
    && (r.reviews.outcome.Some? <==> r.reviews.ratedAt.Some?)
    && (r.reviews.outcome.Some? && r.reviews.renterRating.Some? ==> r.reviews.published.Some?)
    && (r.reviews.published.Some? ==>
      && (r.reviews.outcome.Some? || r.reviews.renterRating.Some?)
      && r.reviews.published.value <= clock
      && ((r.reviews.outcome.Some? && r.reviews.renterRating.Some?) || r.reviews.published.value > r.terms.end + REVIEW_WINDOW))
  }

  ghost predicate RowOk(r: Row, tr: seq<Edge>, clock: int) {
    && TermsOk(r)
    && Path(tr) && tr[|tr| - 1].change.to == r.status && tr[|tr| - 1].at <= clock && r.terms.createdAt == tr[0].at
    && DeadlineOk(r)
    && MoneyOk(r, WasAccepted(tr))
    && ReviewsOk(r, clock)
  }

  /** What `create` inserts. */
  ghost predicate Fresh(r: Row, now: int) {
    && TermsOk(r) && r.status == AwaitingPayment && r.terms.createdAt <= now && r.expires.Some?
    && r.refund.None? && r.noShow.None? && r.reviews.outcome.None? && r.reviews.renterRating.None?
    && r.reviews.ratedAt.None? && r.reviews.published.None?
  }

  /** A move the code makes: an allowed edge that writes a refund only when it ends the booking. */
  ghost predicate LegalMove(r: Row, s: Row) {
    && r.terms == s.terms && r.reviews == s.reviews
    && Allowed(r.status, s.status)
    && DeadlineOk(s)
    && (s.refund.Some? ==> s.status in {Cancelled, Completed} && 0 <= s.refund.value <= s.terms.amount)
    && (s.status == Cancelled ==> (s.refund.Some? <==> r.status !in {AwaitingPayment, Requested}))
    && (s.status == Completed && s.refund.Some? ==> 0 < s.refund.value < s.terms.amount)
    && (s.noShow.Some? ==> s.status == Cancelled && s.refund == Some(if s.noShow.value == TheOwner then s.terms.amount else 0))
  }

  lemma MoveKeepsRow(r: Row, s: Row, tr: seq<Edge>, e: Edge, clock: int)
    requires RowOk(r, tr, clock) && LegalMove(r, s)
    requires e.change.from == Some(r.status) && e.change.to == s.status && e.at <= clock
    ensures RowOk(s, tr + [e], clock)
  {
    EdgesDescend(r.status, s.status);
    PathGrows(tr, e);
    AcceptedGrows(tr, e);
    hide Path, WasAccepted;
  }

  lemma PathGrows(tr: seq<Edge>, e: Edge)
    requires Path(tr) && Follows(tr[|tr| - 1], e)
    ensures Path(tr + [e])
  {
    hide Follows;
    var t := tr + [e];
    forall k | 1 <= k < |t| ensures Joined(t, k) {
      if k < |tr| { assert Joined(tr, k); }
    }
  }

  lemma AcceptedGrows(tr: seq<Edge>, e: Edge)
    ensures WasAccepted(tr + [e]) <==> WasAccepted(tr) || e.change.to == Accepted
  {
    if WasAccepted(tr) {
      var x :| x in tr && x.change.to == Accepted;
      assert x in tr + [e];
    }
    assert e in tr + [e];
  }

  // --- how one row may look later -------------------------------------------------------------

  /** Terms never change; ranks only fall; a final status, a refund, a review
      once written and reviews once published stand; a refund is written only
      together with the final status. */
  ghost predicate RowLater(r: Row, s: Row) {
    && r.terms == s.terms
    && Rank(s.status) <= Rank(r.status)
    && (Final(r.status) ==> s.status == r.status)
    && (Holding(s.status) ==> Holding(r.status))
    && (s.refund != r.refund ==> r.refund.None? && !Final(r.status) && Final(s.status))
    && (s.noShow != r.noShow ==> r.noShow.None? && !Final(r.status) && Final(s.status))
    && (r.reviews.outcome.Some? ==> s.reviews.outcome == r.reviews.outcome && s.reviews.ratedAt == r.reviews.ratedAt)
    && (r.reviews.renterRating.Some? ==> s.reviews.renterRating == r.reviews.renterRating)
    && (r.reviews.published.Some? ==> r.reviews == s.reviews)
  }

  lemma MoveIsLater(r: Row, s: Row, tr: seq<Edge>, clock: int)
    requires RowOk(r, tr, clock) && LegalMove(r, s)
    ensures RowLater(r, s)
  {
    EdgesDescend(r.status, s.status);
    if Holding(s.status) { NeverHoldsAgain(r.status, s.status); }
  }

  // --- all rows ---------------------------------------------------------------------------------

  ghost predicate RowsOk(db: DB) {
    && (forall id :: id in db.bookings ==> RowOk(db.bookings[id], TrailOf(db.trail, id), db.clock))
    && (forall e :: e in db.trail ==> e.change.booking in db.bookings)
  }

  /** The later tables hold the same bookings, each at the same point or further on. */
  ghost predicate Onward(db: DB, db': DB) {
    && db.bookings.Keys == db'.bookings.Keys
    && forall id :: id in db.bookings ==> RowLater(db.bookings[id], db'.bookings[id])
  }

  lemma OnwardTrans(a: DB, b: DB, c: DB)
    requires Onward(a, b) && Onward(b, c)
    ensures Onward(a, c)
  {
    forall id | id in a.bookings ensures RowLater(a.bookings[id], c.bookings[id]) {
      assert RowLater(a.bookings[id], b.bookings[id]) && RowLater(b.bookings[id], c.bookings[id]);
    }
  }

  lemma TrailGrows(trail: seq<Edge>, e: Edge, id: Id)
    ensures TrailOf(trail + [e], id) == if e.change.booking == id then TrailOf(trail, id) + [e] else TrailOf(trail, id)
  {
    assert (trail + [e])[..|trail|] == trail;
  }

  // --- the events that go with it ----------------------------------------------------------------

  function Changes(trail: seq<Edge>): seq<Change> {
    seq(|trail|, i requires 0 <= i < |trail| => trail[i].change)
  }

  /** The status changes announced, in order. */
  function Announced(outbox: seq<Event>): seq<Change> {
    if outbox == [] then []
    else
      var e := outbox[|outbox| - 1];
      Announced(outbox[..|outbox| - 1]) + if e.StatusChanged? then [e.change] else []
  }

  /** The renter's reviews of a booking announced, in order; then the owner's. */
  function RatingsOf(outbox: seq<Event>, id: Id): seq<nat> {
    if outbox == [] then []
    else
      var e := outbox[|outbox| - 1];
      RatingsOf(outbox[..|outbox| - 1], id) + if e.BookingRated? && e.booking == id then [e.outcome] else []
  }

  function RenterRatingsOf(outbox: seq<Event>, id: Id): seq<nat> {
    if outbox == [] then []
    else
      var e := outbox[|outbox| - 1];
      RenterRatingsOf(outbox[..|outbox| - 1], id) + if e.RenterRated? && e.booking == id then [e.quality] else []
  }

  function OneIf(shown: bool, v: Option<nat>): seq<nat> {
    if shown && v.Some? then [v.value] else []
  }

  /** Every trail line was announced, in order, and each published review once. */
  ghost predicate LogOk(db: DB) {
    && Announced(db.outbox) == Changes(db.trail)
    && forall id :: id in db.bookings ==> ReviewLogOk(db, id)
  }

  ghost predicate ReviewLogOk(db: DB, id: Id)
    requires id in db.bookings
  {
    var r := db.bookings[id];
    && RatingsOf(db.outbox, id) == OneIf(r.reviews.published.Some?, r.reviews.outcome)
    && RenterRatingsOf(db.outbox, id) == OneIf(r.reviews.published.Some?, r.reviews.renterRating)
  }

  /** Nothing was ever announced about a booking that does not exist. */
  ghost predicate NoStrayReviews(db: DB) {
    forall id :: id !in db.bookings ==> RatingsOf(db.outbox, id) == [] && RenterRatingsOf(db.outbox, id) == []
  }

  lemma EventAdded(outbox: seq<Event>, e: Event)
    ensures Announced(outbox + [e]) == if e.StatusChanged? then Announced(outbox) + [e.change] else Announced(outbox)
    ensures forall id :: RatingsOf(outbox + [e], id) ==
                         if e.BookingRated? && e.booking == id then RatingsOf(outbox, id) + [e.outcome] else RatingsOf(outbox, id)
    ensures forall id :: RenterRatingsOf(outbox + [e], id) ==
                         if e.RenterRated? && e.booking == id then RenterRatingsOf(outbox, id) + [e.quality] else RenterRatingsOf(outbox, id)
  {
    assert (outbox + [e])[..|outbox|] == outbox;
  }

  // --- the core: rows, trail and events -------------------------------------------------------------

  ghost predicate Core(db: DB) {
    RowsOk(db) && LogOk(db) && NoStrayReviews(db)
  }

  lemma ClockAdvances(db: DB, now: int)
    requires Core(db) && db.clock <= now
    ensures Core(db.(clock := now)) && Onward(db, db.(clock := now))
  {
    hide RowOk, RowLater, ReviewLogOk;
    var db' := db.(clock := now);
    forall id | id in db.bookings
      ensures RowOk(db'.bookings[id], TrailOf(db'.trail, id), now) && ReviewLogOk(db', id)
      ensures RowLater(db.bookings[id], db'.bookings[id])
    {
      assert RowOk(db.bookings[id], TrailOf(db.trail, id), db.clock) && ReviewLogOk(db, id);
      RowOkLater(db.bookings[id], TrailOf(db.trail, id), db.clock, now);
      Unmoved(db.bookings[id]);
      SameLog(db, db', id);
    }
  }

  lemma RowOkLater(r: Row, tr: seq<Edge>, clock: int, now: int)
    requires RowOk(r, tr, clock) && clock <= now
    ensures RowOk(r, tr, now)
  {}

  lemma SameLog(db: DB, db': DB, id: Id)
    requires id in db.bookings && id in db'.bookings && db.outbox == db'.outbox
    requires db.bookings[id].reviews == db'.bookings[id].reviews && ReviewLogOk(db, id)
    ensures ReviewLogOk(db', id)
  {}

  lemma MoveKeepsCore(db: DB, id: Id, s: Row, actor: Actor, now: int)
    requires now <= db.clock && Core(db) && id in db.bookings && LegalMove(db.bookings[id], s)
    ensures Core(Move(db, id, s, actor, now))
    ensures Onward(db, Move(db, id, s, actor, now))
  {
    assert db.bookings[id].reviews == s.reviews;
    hide RowsOk, LogOk, NoStrayReviews, Onward, LegalMove, Move;
    MoveIsOnward(db, id, s, actor, now);
    MoveKeepsRows(db, id, s, actor, now);
    MoveKeepsLog(db, id, s, actor, now);
  }

  lemma MoveIsOnward(db: DB, id: Id, s: Row, actor: Actor, now: int)
    requires RowsOk(db) && id in db.bookings && LegalMove(db.bookings[id], s)
    ensures Onward(db, Move(db, id, s, actor, now))
  {
    hide RowOk, LegalMove, RowLater;
    assert RowOk(db.bookings[id], TrailOf(db.trail, id), db.clock);
    MoveIsLater(db.bookings[id], s, TrailOf(db.trail, id), db.clock);
    forall j | j in db.bookings ensures RowLater(db.bookings[j], db.bookings[j]) { Unmoved(db.bookings[j]); }
  }

  lemma Unmoved(r: Row)
    ensures RowLater(r, r)
  {}

  lemma MoveKeepsRows(db: DB, id: Id, s: Row, actor: Actor, now: int)
    requires now <= db.clock && RowsOk(db) && id in db.bookings && LegalMove(db.bookings[id], s)
    ensures RowsOk(Move(db, id, s, actor, now))
  {
    hide RowOk, LegalMove, TrailOf;
    var r := db.bookings[id];
    var db' := Move(db, id, s, actor, now);
    var e := db'.trail[|db.trail|];
    assert RowOk(r, TrailOf(db.trail, id), db.clock);
    MoveKeepsRow(r, s, TrailOf(db.trail, id), e, db.clock);
    forall j | j in db'.bookings ensures RowOk(db'.bookings[j], TrailOf(db'.trail, j), db.clock) {
      TrailGrows(db.trail, e, j);
      assert RowOk(db.bookings[j], TrailOf(db.trail, j), db.clock);
    }
  }

  lemma MoveKeepsLog(db: DB, id: Id, s: Row, actor: Actor, now: int)
    requires LogOk(db) && NoStrayReviews(db) && id in db.bookings && db.bookings[id].reviews == s.reviews
    ensures LogOk(Move(db, id, s, actor, now)) && NoStrayReviews(Move(db, id, s, actor, now))
  {
    hide RatingsOf, RenterRatingsOf, Announced;
    var db' := Move(db, id, s, actor, now);
    EventAdded(db.outbox, db'.outbox[|db.outbox|]);
    assert Changes(db'.trail) == Changes(db.trail) + [db'.trail[|db.trail|].change];
    forall j | j in db'.bookings ensures ReviewLogOk(db', j) { assert ReviewLogOk(db, j); }
  }

  /** An event that is neither a status change nor a review disturbs nothing. */
  lemma PlainEventKeepsCore(db: DB, e: Event)
    requires Core(db) && !e.StatusChanged? && !e.BookingRated? && !e.RenterRated?
    ensures Core(db.(outbox := db.outbox + [e])) && Onward(db, db.(outbox := db.outbox + [e]))
  {
    hide RowOk, RatingsOf, RenterRatingsOf, Announced, TrailOf;
    var db' := db.(outbox := db.outbox + [e]);
    EventAdded(db.outbox, e);
    forall j | j in db'.bookings ensures RowOk(db'.bookings[j], TrailOf(db'.trail, j), db'.clock) && ReviewLogOk(db', j) {
      assert RowOk(db.bookings[j], TrailOf(db.trail, j), db.clock) && ReviewLogOk(db, j);
    }
  }

  /** Dispute and resolution rows are not part of the core. */
  lemma SideTablesKeepCore(db: DB, disputes: map<Id, DisputeRow>, resolutions: map<Id, Resolution>)
    requires Core(db)
    ensures var db' := db.(disputes := disputes, resolutions := resolutions); Core(db') && Onward(db, db')
  {
    hide RowOk, RatingsOf, RenterRatingsOf, Announced, TrailOf;
    var db' := db.(disputes := disputes, resolutions := resolutions);
    forall j | j in db'.bookings ensures RowOk(db'.bookings[j], TrailOf(db'.trail, j), db'.clock) && ReviewLogOk(db', j) {
      assert RowOk(db.bookings[j], TrailOf(db.trail, j), db.clock) && ReviewLogOk(db, j);
    }
  }

  lemma InsertKeepsCore(db: DB, id: Id, r: Row)
    requires Core(db) && id !in db.bookings && Fresh(r, db.clock)
    ensures Core(Insert(db, id, r))
  {
    InsertKeepsRows(db, id, r);
    InsertKeepsLog(db, id, r);
    hide RowsOk, LogOk, NoStrayReviews, Insert;
  }

  lemma InsertKeepsRows(db: DB, id: Id, r: Row)
    requires RowsOk(db) && id !in db.bookings && Fresh(r, db.clock)
    ensures RowsOk(Insert(db, id, r))
  {
    hide RowOk, TrailOf;
    var db' := Insert(db, id, r);
    var e := db'.trail[|db.trail|];
    forall j | j in db'.bookings ensures RowOk(db'.bookings[j], TrailOf(db'.trail, j), db'.clock) {
      TrailGrows(db.trail, e, j);
      if j == id {
        NoTrail(db, id);
        assert TrailOf(db'.trail, id) == [e];
        FreshRowOk(r, e, db.clock);
      } else {
        assert RowOk(db.bookings[j], TrailOf(db.trail, j), db.clock);
      }
    }
  }

  lemma InsertKeepsLog(db: DB, id: Id, r: Row)
    requires LogOk(db) && NoStrayReviews(db) && id !in db.bookings && Fresh(r, db.clock)
    ensures LogOk(Insert(db, id, r)) && NoStrayReviews(Insert(db, id, r))
  {
    hide RatingsOf, RenterRatingsOf, Announced, TermsOk;
    var db' := Insert(db, id, r);
    EventAdded(db.outbox, db'.outbox[|db.outbox|]);
    assert Changes(db'.trail) == Changes(db.trail) + [db'.trail[|db.trail|].change];
    forall j | j in db'.bookings ensures ReviewLogOk(db', j) {
      if j != id { assert ReviewLogOk(db, j); }
    }
  }

  lemma FreshRowOk(r: Row, e: Edge, now: int)
    requires Fresh(r, now) && e.change.from == None && e.change.to == r.status && e.at == r.terms.createdAt
    ensures RowOk(r, [e], now)
  {}

  lemma {:induction false} NoneOf(trail: seq<Edge>, id: Id)
    requires forall e :: e in trail ==> e.change.booking != id
    ensures TrailOf(trail, id) == []
  {
    if trail != [] { NoneOf(trail[..|trail| - 1], id); }
  }

  lemma NoTrail(db: DB, id: Id)
    requires RowsOk(db) && id !in db.bookings
    ensures TrailOf(db.trail, id) == []
  {
    hide RowOk;
    NoneOf(db.trail, id);
  }
}
