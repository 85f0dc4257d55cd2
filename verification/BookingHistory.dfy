/** What holds in every run of the booking service, whatever the interleaving:
    the claims its code and documents make about windows, money, disputes,
    staff, reviews, keys and who sees what. */
module BookingHistory {
  import opened Wrappers
  import opened BookingState
  import opened Booking
  import opened BookingInvariants
  import opened BookingOps
  import opened BookingSystem
  import opened Pricing

  // --- windows ---------------------------------------------------------------------------------

  /** Two bookings of one listing that both hold their window never share a moment. */
  lemma NeverDoubleBooked(cfg: Settings, states: seq<Sys>, steps: seq<Step>, i: nat, a: Id, b: Id)
    requires Run(cfg, states, steps) && i < |states|
    requires a in states[i].db.bookings && b in states[i].db.bookings && a != b
    ensures var r, s := states[i].db.bookings[a], states[i].db.bookings[b];
      Holding(r.status) && Holding(s.status) && r.terms.listing == s.terms.listing ==>
      r.terms.end <= s.terms.start || s.terms.end <= r.terms.start
  {
    RunKeeps(cfg, states, steps, i);
    hide Core, DisputesOk, TxOk, Apart, KeysUnique;
    assert !Clash(states[i].db.bookings[a], states[i].db.bookings[b]);
  }

  /** `busy` of one listing: the holding rows that meet [start, until), by start. */
  ghost predicate BusyAnswer(db: DB, listing: Id, start: int, until: int, order: seq<Id>) {
    && Distinct(order)
    && (forall id :: id in order <==> id in db.bookings && InRange(db.bookings[id], listing, start, until))
    && forall i, j :: 0 <= i < j < |order| && order[i] in db.bookings && order[j] in db.bookings ==>
      db.bookings[order[i]].terms.start <= db.bookings[order[j]].terms.start
  }

  predicate InRange(r: Row, listing: Id, start: int, until: int) {
    r.terms.listing == listing && Holding(r.status) && r.terms.start < until && start < r.terms.end
  }

  /** The busy windows it answers with come one after the other, none touching the next. */
  lemma BusyIsDisjoint(cfg: Settings, db: DB, listing: Id, start: int, until: int, order: seq<Id>, i: nat, j: nat)
    requires Inv(cfg, db) && BusyAnswer(db, listing, start, until, order) && i < j < |order|
    ensures order[i] in db.bookings && order[j] in db.bookings
    ensures db.bookings[order[i]].terms.start < db.bookings[order[i]].terms.end <= db.bookings[order[j]].terms.start
    ensures start < db.bookings[order[i]].terms.end && db.bookings[order[j]].terms.start < until
  {
    assert order[i] in order && order[j] in order;
    TheRow(cfg, db, order[i]);
    TheRow(cfg, db, order[j]);
    assert !Clash(db.bookings[order[i]], db.bookings[order[j]]);
    hide Core, DisputesOk, KeysUnique, NoDoubleBooking, Path, MoneyOk, ReviewsOk, DeadlineOk, ReviewLogOk;
  }

  // --- status and money are those of the trail ------------------------------------------------------

  lemma {:induction false} RanksFall(tr: seq<Edge>, k: nat)
    requires Path(tr) && k < |tr|
    ensures k + Rank(tr[k].change.to) <= 5
  {
    if k > 0 {
      RanksFall(tr, k - 1);
      assert Joined(tr, k);
      EdgesDescend(tr[k - 1].change.to, tr[k].change.to);
    }
  }

  /** Each booking's trail is a connected walk along allowed edges that ends at
      its status; it has at most six lines. */
  lemma StatusIsHistory(cfg: Settings, states: seq<Sys>, steps: seq<Step>, i: nat, id: Id)
    requires Run(cfg, states, steps) && i < |states| && id in states[i].db.bookings
    ensures var tr := TrailOf(states[i].db.trail, id);
      Path(tr) && tr[|tr| - 1].change.to == states[i].db.bookings[id].status && |tr| <= 6
  {
    var db := states[i].db;
    RunKeeps(cfg, states, steps, i);
    assert RowOk(db.bookings[id], TrailOf(db.trail, id), db.clock) by {
      hide RowOk, DisputesOk, TxOk, Apart, KeysUnique, NoDoubleBooking;
    }
    hide Run;
    var tr := TrailOf(db.trail, id);
    RanksFall(tr, |tr| - 1);
  }

  /** What a row says was charged is the price exactly when its history has an
      acceptance that payments did not undo; what went back fits in it. */
  lemma MoneyIsHistory(cfg: Settings, states: seq<Sys>, steps: seq<Step>, i: nat, id: Id)
    requires Run(cfg, states, steps) && i < |states| && id in states[i].db.bookings
    ensures var r := states[i].db.bookings[id];
      var accepted := WasAccepted(TrailOf(states[i].db.trail, id));
      && MoneyOf(r).charged == (if accepted && r.status != PaymentFailed then r.terms.amount else 0)
      && MoneyOf(r).refunded == r.refund.GetOr(0)
      && 0 <= MoneyOf(r).refunded <= MoneyOf(r).charged
  {
    var db := states[i].db;
    RunKeeps(cfg, states, steps, i);
    assert RowOk(db.bookings[id], TrailOf(db.trail, id), db.clock) by {
      hide RowOk, DisputesOk, TxOk, Apart, KeysUnique, NoDoubleBooking;
    }
    hide Run, WasAccepted, MoneyOk, MoneyOf;
    assert TermsOk(db.bookings[id]) && MoneyOk(db.bookings[id], WasAccepted(TrailOf(db.trail, id))) by { hide Path, TermsOk; }
    hide RowOk;
    MoneyOfRow(db.bookings[id], WasAccepted(TrailOf(db.trail, id)));
  }

  lemma MoneyOfRow(r: Row, accepted: bool)
    requires TermsOk(r) && MoneyOk(r, accepted)
    ensures MoneyOf(r).charged == (if accepted && r.status != PaymentFailed then r.terms.amount else 0)
    ensures MoneyOf(r).refunded == r.refund.GetOr(0)
    ensures 0 <= MoneyOf(r).refunded <= MoneyOf(r).charged
  {
    MoneyIsConserved(r);
  }

  /** Between any two moments of a run: the terms stand, the status only ever
      moves down, a refund once written never changes and is written only by the
      move that ends the booking. */
  lemma HistoryOnlyGrows(cfg: Settings, states: seq<Sys>, steps: seq<Step>, i: nat, j: nat, id: Id)
    requires Run(cfg, states, steps) && i <= j < |states| && id in states[i].db.bookings
    ensures id in states[j].db.bookings
    ensures var r, s := states[i].db.bookings[id], states[j].db.bookings[id];
      && r.terms == s.terms
      && (Final(r.status) ==> s.status == r.status && s.refund == r.refund)
      && (r.refund != s.refund ==> r.refund == None && !Final(r.status) && Final(s.status))
      && (r.reviews.published.Some? ==> s.reviews == r.reviews)
      && (r.reviews.outcome.Some? ==> s.reviews.outcome == r.reviews.outcome)
      && (r.reviews.renterRating.Some? ==> s.reviews.renterRating == r.reviews.renterRating)
  {
    RunGrows(cfg, states, steps, i, j);
    hide Run;
    assert RowLater(states[i].db.bookings[id], states[j].db.bookings[id]);
  }

  /** An owner can only accept before the booked time starts. */
  lemma AcceptedInTime(cfg: Settings, states: seq<Sys>, steps: seq<Step>, i: nat, id: Id, owner: Person, order: seq<Id>, now: int)
    requires Run(cfg, states, steps) && i < |states| && AmountsOk(states[i].db)
    requires Answer(cfg, states[i].db, Acts(id, Accept, owner, order), now).Ok?
    ensures id in states[i].db.bookings && now < states[i].db.bookings[id].terms.start
    ensures owner == states[i].db.bookings[id].terms.owner
  {
    var db := states[i].db;
    RunKeeps(cfg, states, steps, i);
    hide Run, SysOk, OwnerSees, Inv, Checked, RowOk, ReviewLogOk, Move, CloseEach;
    assert Inv(cfg, db) by { TablesOk(cfg, states[i]); }
    TheRow(cfg, db, id);
    AcceptIsInTime(cfg, db.bookings[id], TrailOf(db.trail, id), db.clock, owner, now);
  }

  lemma TablesOk(cfg: Settings, s: Sys)
    requires SysOk(cfg, s)
    ensures Inv(cfg, s.db)
  {}

  lemma AcceptIsInTime(cfg: Settings, r: Row, tr: seq<Edge>, clock: int, user: Person, now: int)
    requires RowOk(r, tr, clock) && Checked(cfg, r, Accept, user, now).Ok?
    ensures now < r.terms.start && user == r.terms.owner
  {
    hide Path, MoneyOk, ReviewsOk;
  }

  // --- disputes ------------------------------------------------------------------------------------------

  /** At most one resolution settles a booking and at most one awaits approval;
      the one that settled it is what its status and refund say. */
  lemma DisputeSettledOnce(cfg: Settings, states: seq<Sys>, steps: seq<Step>, i: nat, x: Id, y: Id)
    requires Run(cfg, states, steps) && i < |states|
    requires x in states[i].db.resolutions && y in states[i].db.resolutions
    ensures var p, q := states[i].db.resolutions[x], states[i].db.resolutions[y];
      && (p.booking == q.booking && p.status == q.status && p.status in {Done, PendingApproval} ==> x == y)
      && p.booking in states[i].db.bookings
      && (p.status == Done ==>
        var r := states[i].db.bookings[p.booking];
        && r.status == (if p.refund == r.terms.amount then Cancelled else Completed)
        && r.refund.GetOr(0) == p.refund && MoneyOf(r).refunded == p.refund
        && p.outcome == OutcomeOf(p.refund, r.terms.amount))
  {
    var db := states[i].db;
    RunKeeps(cfg, states, steps, i);
    var p := db.resolutions[x];
    assert !(x != y && Rivals(p, db.resolutions[y])) && p.booking in db.bookings;
    MoneyIsHistory(cfg, states, steps, i, p.booking);
    hide Run, Core, KeysUnique, NoDoubleBooking, TxOk, Apart, MoneyOf;
    assert ResolutionOk(cfg, db.bookings[p.booking], db.disputes[p.booking], p);
  }

  /** An agreement is for the amount the other side last offered. */
  lemma AgreedOnTheLatestOffer(cfg: Settings, states: seq<Sys>, steps: seq<Step>, i: nat, x: Id)
    requires Run(cfg, states, steps) && i < |states|
    requires x in states[i].db.resolutions && states[i].db.resolutions[x].role == Parties
    ensures var p := states[i].db.resolutions[x];
      && p.booking in states[i].db.disputes && p.booking in states[i].db.bookings
      && var r, d := states[i].db.bookings[p.booking].terms, states[i].db.disputes[p.booking];
        && d.offer.Some? && d.offer.value.amount == p.refund
        && ((p.author == r.requester && d.offer.value.offeredBy == r.owner)
            || (p.author == r.owner && d.offer.value.offeredBy == r.requester))
  {
    var db := states[i].db;
    RunKeeps(cfg, states, steps, i);
    var p := db.resolutions[x];
    hide Run, Core, KeysUnique, NoDoubleBooking, TxOk, Apart, FourEyes, Rivals;
    assert ResolutionOk(cfg, db.bookings[p.booking], db.disputes[p.booking], p);
    assert DisputeOk(db.bookings[p.booking], db.disputes[p.booking]);
  }

  /** No staff member alone refunds above their limit. */
  lemma TwoPairsOfEyes(cfg: Settings, states: seq<Sys>, steps: seq<Step>, i: nat, x: Id)
    requires Run(cfg, states, steps) && i < |states| && x in states[i].db.resolutions
    requires states[i].db.resolutions[x].status == Done && states[i].db.resolutions[x].role != Parties
    ensures var p := states[i].db.resolutions[x];
      && p.booking in states[i].db.bookings
      && var limit := (role: StaffRole) => cfg.limit(states[i].db.bookings[p.booking].terms.currency, role);
        p.refund > limit(p.role) ==>
          && p.approver.Some? && p.approver.value.0 != p.author
          && (p.approver.value.1 == LeadRole || p.refund <= limit(p.approver.value.1))
  {
    var db := states[i].db;
    RunKeeps(cfg, states, steps, i);
    hide Run, Core, KeysUnique, NoDoubleBooking, TxOk, Apart, Rivals;
    assert ResolutionOk(cfg, db.bookings[db.resolutions[x].booking], db.disputes[db.resolutions[x].booking], db.resolutions[x]);
  }

  // --- reviews -------------------------------------------------------------------------------------------------

  /** What `to_booking` shows a viewer of the two reviews. */
  function ReviewsSeen(r: Row, viewer: Person): (Option<nat>, Option<nat>) {
    var blind := r.reviews.published.None?;
    (if blind && viewer == r.terms.owner then None else r.reviews.outcome,
     if blind && viewer == r.terms.requester then None else r.reviews.renterRating)
  }

  /** Until both are out, neither side's view depends on the other's review;
      each always sees their own. */
  lemma ReviewsAreBlind(r: Row, v: Option<nat>, w: Option<nat>)
    requires r.reviews.published.None? && r.terms.requester != r.terms.owner
    ensures ReviewsSeen(r.(reviews := r.reviews.(outcome := v)), r.terms.owner) == ReviewsSeen(r, r.terms.owner)
    ensures ReviewsSeen(r.(reviews := r.reviews.(renterRating := w)), r.terms.requester) == ReviewsSeen(r, r.terms.requester)
    ensures ReviewsSeen(r, r.terms.requester).0 == r.reviews.outcome && ReviewsSeen(r, r.terms.owner).1 == r.reviews.renterRating
  {}

  /** Then both see both, and before it neither sees anything of the other's. */
  lemma BothSeeBoth(r: Row, viewer: Person)
    requires r.terms.requester != r.terms.owner && viewer in {r.terms.requester, r.terms.owner}
    ensures r.reviews.published.Some? ==> ReviewsSeen(r, viewer) == (r.reviews.outcome, r.reviews.renterRating)
    ensures r.reviews.published.None? ==>
      ReviewsSeen(r, viewer) == if viewer == r.terms.owner then (None, r.reviews.renterRating) else (r.reviews.outcome, None)
  {}

  /** In every run: a review is announced exactly when the booking's reviews are
      published, once, with what was written; and they come out only when both
      are in or the review window has closed. */
  lemma ReviewsPublishedOnce(cfg: Settings, states: seq<Sys>, steps: seq<Step>, i: nat, id: Id)
    requires Run(cfg, states, steps) && i < |states| && id in states[i].db.bookings
    ensures var v, db := states[i].db.bookings[id].reviews, states[i].db;
      && RatingsOf(db.outbox, id) == OneIf(v.published.Some?, v.outcome)
      && RenterRatingsOf(db.outbox, id) == OneIf(v.published.Some?, v.renterRating)
      && (v.outcome.Some? && v.renterRating.Some? ==> v.published.Some?)
      && (v.published.Some? && !(v.outcome.Some? && v.renterRating.Some?) ==>
        v.published.value > db.bookings[id].terms.end + REVIEW_WINDOW)
  {
    RunKeeps(cfg, states, steps, i);
    TheRow(cfg, states[i].db, id);
    hide Run, SysOk, Path, MoneyOk, DeadlineOk;
  }

  /** The last review, whichever side's it is, can be written exactly until the
      sweep may publish without it; and writing it publishes both. */
  lemma RatingEndsWhereSweepBegins(db: DB, id: Id, quality: nat, now: int)
    requires id in db.bookings && db.bookings[id].status == Completed && db.bookings[id].reviews.published.None?
    requires db.bookings[id].terms.requester != db.bookings[id].terms.owner
    ensures var t, v := db.bookings[id].terms, db.bookings[id].reviews;
      var byRenter, byOwner := Rate(db, id, t.requester, quality, now), RateRenter(db, id, t.owner, quality, now);
      && (v.outcome.None? && v.renterRating.Some? ==>
        && (byRenter.Ok? <==> !ReviewDue(db.bookings[id], now))
        && (byRenter.Ok? ==> byRenter.value.bookings[id].reviews.published == Some(now)))
      && (v.renterRating.None? && v.outcome.Some? ==>
        && (byOwner.Ok? <==> !ReviewDue(db.bookings[id], now))
        && (byOwner.Ok? ==> byOwner.value.bookings[id].reviews.published == Some(now)))
  {}

  // --- keys and replies ------------------------------------------------------------------------------------------

  /** One booking per requester and key; every reply that names a booking names
      the one made for that requester, key and body. */
  lemma RepliesNameOneBooking(cfg: Settings, states: seq<Sys>, steps: seq<Step>, i: nat, t: TxId, u: TxId)
    requires Run(cfg, states, steps) && i < |states| && t in states[i].txs && u in states[i].txs
    requires states[i].txs[t].phase.Answered? && states[i].txs[t].phase.reply.Created?
    requires states[i].txs[u].phase.Answered? && states[i].txs[u].phase.reply.Created?
    ensures var s, a, b := states[i], states[i].txs[t].phase.reply.id, states[i].txs[u].phase.reply.id;
      && Names(s.db, s.txs[t].ask, a)
      && (s.txs[t].ask.requester == s.txs[u].ask.requester && s.txs[t].ask.key.Some? && s.txs[t].ask.key == s.txs[u].ask.key ==>
        a == b && s.txs[t].ask.hash == s.txs[u].ask.hash)
  {
    var s := states[i];
    RunKeeps(cfg, states, steps, i);
    hide Run, Core, DisputesOk, NoDoubleBooking, Apart, Fresh;
    assert TxOk(s.db, s.txs[t]) && TxOk(s.db, s.txs[u]);
    var a, b := s.txs[t].phase.reply.id, s.txs[u].phase.reply.id;
    assert a != b ==> !SameKey(s.db.bookings[a], s.db.bookings[b]);
  }

  lemma OnlyOneKeyed(cfg: Settings, db: DB, ask: Ask, first: Id)
    requires Inv(cfg, db) && Keyed(db, ask, first)
    ensures forall id :: Keyed(db, ask, id) ==> id == first
  {
    hide Core, DisputesOk, NoDoubleBooking;
    forall id | id in db.bookings && id != first ensures !Keyed(db, ask, id) {
      assert !SameKey(db.bookings[id], db.bookings[first]);
    }
  }

  // --- who sees a booking -------------------------------------------------------------------------------------------

  /** The card was held (or charged at once) at some point. */
  ghost predicate CardHeld(tr: seq<Edge>) {
    exists e :: e in tr && e.change.to in {Requested, Accepted}
  }

  /** The booking ended straight from the payment step, other than by a failed payment. */
  ghost predicate LeftUnpaid(tr: seq<Edge>) {
    tr != [] && tr[|tr| - 1].change.from == Some(AwaitingPayment) && tr[|tr| - 1].change.to in {Cancelled, Declined, Expired}
  }

  /** An owner sees every booking whose card was held, and besides those exactly
      the ones cancelled, declined or lapsed before anybody paid. */
  lemma WhatOwnersSee(cfg: Settings, db: DB, id: Id)
    requires Inv(cfg, db) && id in db.bookings
    ensures var tr := TrailOf(db.trail, id);
      && (CardHeld(tr) ==> OwnerSees(db, id))
      && (OwnerSees(db, id) && !CardHeld(tr) <==> LeftUnpaid(tr))
  {
    hide Inv, MoneyOk, ReviewsOk, DeadlineOk, ReviewLogOk, TrailOf;
    TheRow(cfg, db, id);
    var tr := TrailOf(db.trail, id);
    var last := tr[|tr| - 1];
    HeldOrLeft(tr);
    assert last in tr;
    hide Path, CardHeld;
    if last.change.to == PaymentFailed {
      assert last in db.trail && last.change.booking == id;
      if last.change.from == Some(Accepted) {
        assert FailedAfterAccept(db, id);
      } else if FailedAfterAccept(db, id) {
        OnlyLastFails(cfg, db, id);
      }
    }
  }

  /** A trail either reached a held card or is at, or one step past, the payment step. */
  lemma HeldOrLeft(tr: seq<Edge>)
    requires Path(tr)
    ensures var last := tr[|tr| - 1].change;
      && (last.to == AwaitingPayment ==> !CardHeld(tr) && last.from == None)
      && (last.from == Some(AwaitingPayment) ==> (CardHeld(tr) <==> last.to in {Requested, Accepted}))
      && (!CardHeld(tr) ==> last.to == AwaitingPayment || last.from == Some(AwaitingPayment))
      && (if last.from.Some? then Allowed(last.from.value, last.to) else last.to == AwaitingPayment)
  {
    var n := |tr|;
    RanksFall(tr, n - 1);
    if n == 1 {
      assert forall e :: e in tr ==> e == tr[0];
    } else {
      RanksFall(tr, n - 2);
      assert Joined(tr, n - 1) && Joined(tr, 1);
      if n == 2 {
        assert tr == [tr[0], tr[1]];
        assert CardHeld(tr) <==> tr[1].change.to in {Requested, Accepted} by { HeldAtTwo(tr); }
      } else {
        assert Joined(tr, 2);
        assert tr[1] in tr;
        assert CardHeld(tr);
      }
    }
  }

  lemma HeldAtTwo(tr: seq<Edge>)
    requires |tr| == 2 && tr[0].change.to == AwaitingPayment
    ensures CardHeld(tr) <==> tr[1].change.to in {Requested, Accepted}
  {
    assert tr[1] in tr;
    assert forall e :: e in tr ==> e == tr[0] || e == tr[1];
  }

  /** A failed payment is the last thing that happens to a booking. */
  lemma OnlyLastFails(cfg: Settings, db: DB, id: Id)
    requires Inv(cfg, db) && id in db.bookings && FailedAfterAccept(db, id)
    ensures var tr := TrailOf(db.trail, id); tr != [] && tr[|tr| - 1].change.from == Some(Accepted)
  {
    hide Inv, MoneyOk, ReviewsOk, DeadlineOk, ReviewLogOk, TrailOf;
    TheRow(cfg, db, id);
    var tr := TrailOf(db.trail, id);
    var e :| e in db.trail && e.change.booking == id && e.change.from == Some(Accepted) && e.change.to == PaymentFailed;
    assert e in tr;
    var k :| 0 <= k < |tr| && tr[k] == e;
    assert k + 1 < |tr| ==> Joined(tr, k + 1);
  }

  lemma NeverHeld(trail: seq<Edge>, id: Id)
    requires forall e :: e in trail ==> e.change.to !in {Requested, Accepted}
    ensures !CardHeld(TrailOf(trail, id))
  {
    hide TrailOf;
  }

  // --- what a cancellation or a removed listing takes along -----------------------------------------------------------

  /** A cancelled or missed booking takes its extensions along: none of the direct
      ones it finds is still to happen, a confirmed one is refunded in full, an
      unanswered one declined; and no other booking changes. */
  lemma ExtensionsEndWithTheirParent(
    cfg: Settings, db: DB, id: Id, a: Action, user: Person, order: seq<Id>, now: int, ext: Id)
    requires AmountsOk(db) && Among(order, Extensions(db, id)) && Act(cfg, db, id, a, user, order, now).Ok?
    requires var db' := Act(cfg, db, id, a, user, order, now).value; id in db'.bookings && db'.bookings[id].status == Cancelled
    requires ext in db.bookings && ext != id
    ensures ext in Act(cfg, db, id, a, user, order, now).value.bookings
    ensures var r, s := db.bookings[ext], Act(cfg, db, id, a, user, order, now).value.bookings[ext];
      if ext in order
      then r.terms.parent == Some(id) && r.status in {AwaitingPayment, Requested, Accepted}
        && s.status == (if r.status == Accepted then Cancelled else Declined)
        && s.refund == (if r.status == Accepted then Some(r.terms.amount) else r.refund)
        && s.expires == None
      else s == r
    ensures Enumerates(order, Extensions(db, id)) && db.bookings[ext].terms.parent == Some(id) ==>
      Act(cfg, db, id, a, user, order, now).value.bookings[ext].status !in {AwaitingPayment, Requested, Accepted}
  {
    hide Checked, OwnerSees;
    var row := Checked(cfg, db.bookings[id], a, user, now).value;
    var db1 := Move(db, id, row, Of(user), now);
    hide Among, Enumerates, CloseEach;
    TheseAmong(order, Extensions(db, id), ext);
    CloseEachEffect(db1, WithParent, order, now);
  }

  lemma TheseAmong(order: seq<Id>, ids: set<Id>, id: Id)
    requires Among(order, ids)
    ensures Distinct(order) && (id in order ==> id in ids) && (Enumerates(order, ids) ==> (id in order <==> id in ids))
  {}

  /** Taking a listing down declines the requests for it that it finds unanswered,
      and nothing else; none is left when it finds them all. */
  lemma RemovedListingDeclines(cfg: Settings, db: DB, listing: Id, order: seq<Id>, now: int, id: Id)
    requires AmountsOk(db) && Enabled(cfg, db, RemoveListing(listing, order), now) && id in db.bookings
    ensures id in After(cfg, db, RemoveListing(listing, order), now).bookings
    ensures var r, s := db.bookings[id], After(cfg, db, RemoveListing(listing, order), now).bookings[id];
      if id in order
      then r.terms.listing == listing && r.status in {AwaitingPayment, Requested} && s == r.(status := Declined, expires := None)
      else s == r
    ensures Enumerates(order, PendingOf(db, listing)) && db.bookings[id].terms.listing == listing ==>
      After(cfg, db, RemoveListing(listing, order), now).bookings[id].status !in {AwaitingPayment, Requested}
  {
    hide Among, Enumerates, CloseEach;
    TheseAmong(order, PendingOf(db, listing), id);
    CloseEachEffect(db, Declining, order, now);
  }
}
