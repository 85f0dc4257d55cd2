/** A person's list of bookings, page after page, while the service runs
    (`page` in booking/repository.py). */
module BookingListing {
  import opened Wrappers
  import opened BookingState
  import opened Booking
  import opened BookingInvariants
  import opened BookingOps
  import opened BookingSystem
  import opened BookingHistory
  import opened BookingLog
  import P = Pagination
  import A = BookingAnswers

  /** The bookings a viewer asked for, is asked for, or both. */
  datatype Side = Asked | WasAsked | Either

  predicate Listed(db: DB, id: Id, viewer: Person, side: Side) {
    && id in db.bookings
    && var t := db.bookings[id].terms;
      || (side != WasAsked && t.requester == viewer)
      || (side != Asked && t.owner == viewer && OwnerSees(db, id))
  }

  function KeyOf(db: DB, id: Id): P.Key
    requires id in db.bookings
  {
    P.Key(db.bookings[id].terms.createdAt, id)
  }

  function Listing(db: DB, viewer: Person, side: Side): set<P.Key> {
    set id | id in db.bookings && Listed(db, id, viewer, side) :: KeyOf(db, id)
  }

  /** Somebody's list, on either side, is exactly what they may see; each side of it
      what they asked for, and what they are asked for. */
  lemma WhoIsListed(cfg: Settings, db: DB, id: Id, viewer: Person)
    requires Inv(cfg, db)
    ensures Listed(db, id, viewer, Side.Either) <==> A.SeenBy(db, id, viewer)
    ensures Listed(db, id, viewer, Asked) <==> A.SeenBy(db, id, viewer) && db.bookings[id].terms.requester == viewer
    ensures Listed(db, id, viewer, WasAsked) <==> A.SeenBy(db, id, viewer) && db.bookings[id].terms.owner == viewer
  {
    A.WhoSeesIt(cfg, db, id, viewer);
    if id in db.bookings { A.PartiesDiffer(cfg, db, id); }
    hide Inv, OwnerSees, A.SeenBy;
  }

  /** What an owner has once seen they never lose sight of. */
  lemma OnceSeenAlwaysSeen(cfg: Settings, states: seq<Sys>, steps: seq<Step>, i: nat, j: nat, id: Id)
    requires Run(cfg, states, steps) && i <= j < |states| && id in states[i].db.bookings && OwnerSees(states[i].db, id)
    ensures id in states[j].db.bookings && OwnerSees(states[j].db, id)
  {
    var a, b := states[i].db, states[j].db;
    HistoryOnlyGrows(cfg, states, steps, i, j, id);
    LogsOnlyGrow(cfg, states, steps, i, j);
    StatusIsHistory(cfg, states, steps, i, id);
    RunKeeps(cfg, states, steps, i);
    RunKeeps(cfg, states, steps, j);
    TablesOk(cfg, states[i]);
    TablesOk(cfg, states[j]);
    hide Run, SysOk, Inv, Path, OwnerSees;
    WhatOwnersSee(cfg, a, id);
    WhatOwnersSee(cfg, b, id);
    if CardHeld(TrailOf(a.trail, id)) {
      HeldStays(a.trail, b.trail, id);
    } else {
      EndedIsSeen(a, b, id);
    }
  }

  lemma HeldStays(a: seq<Edge>, b: seq<Edge>, id: Id)
    requires a <= b && CardHeld(TrailOf(a, id))
    ensures CardHeld(TrailOf(b, id))
  {
    var e :| e in TrailOf(a, id) && e.change.to in {Requested, Accepted};
    assert e in b;
    assert e in TrailOf(b, id);
  }

  lemma EndedIsSeen(a: DB, b: DB, id: Id)
    requires id in a.bookings && id in b.bookings && LeftUnpaid(TrailOf(a.trail, id))
    requires TrailOf(a.trail, id)[|TrailOf(a.trail, id)| - 1].change.to == a.bookings[id].status
    requires Final(a.bookings[id].status) ==> b.bookings[id].status == a.bookings[id].status
    ensures OwnerSees(b, id)
  {}

  lemma OnceListedAlwaysListed(
    cfg: Settings, states: seq<Sys>, steps: seq<Step>, i: nat, j: nat, id: Id, viewer: Person, side: Side)
    requires Run(cfg, states, steps) && i <= j < |states| && Listed(states[i].db, id, viewer, side)
    ensures Listed(states[j].db, id, viewer, side) && KeyOf(states[j].db, id) == KeyOf(states[i].db, id)
  {
    HistoryOnlyGrows(cfg, states, steps, i, j, id);
    if OwnerSees(states[i].db, id) { OnceSeenAlwaysSeen(cfg, states, steps, i, j, id); }
    hide Run, OwnerSees;
  }

  /** Pages read at moments of a run, each at the one before's or later. */
  ghost predicate Reading(
    states: seq<Sys>, at: seq<nat>, viewer: Person, side: Side, limit: nat, pages: seq<seq<P.Key>>, cursors: seq<Option<P.Key>>)
  {
    && (forall m :: 0 <= m < |at| ==> at[m] < |states|)
    && (forall m, n :: 0 <= m <= n < |at| ==> at[m] <= at[n])
    && P.Walk(Tables(states, at, viewer, side), limit, pages, cursors)
  }

  function Tables(states: seq<Sys>, at: seq<nat>, viewer: Person, side: Side): seq<set<P.Key>>
    requires forall m :: 0 <= m < |at| ==> at[m] < |states|
  {
    seq(|at|, m requires 0 <= m < |at| => Listing(states[at[m]].db, viewer, side))
  }

  /** Following the cursors to the end, while bookings are made, paid, moved and
      ended in between, shows every booking that was on the list at the first page
      exactly once, and no booking twice. */
  lemma EveryBookingOnce(
    cfg: Settings, states: seq<Sys>, steps: seq<Step>, at: seq<nat>, viewer: Person, side: Side, limit: nat,
    pages: seq<seq<P.Key>>, cursors: seq<Option<P.Key>>, k: P.Key)
    requires Run(cfg, states, steps) && Reading(states, at, viewer, side, limit, pages, cursors) && cursors[|pages|].None?
    ensures |at| > 0 && P.Descends(P.Joined(pages)) && P.Times(P.Joined(pages), k) <= 1
    ensures k in Listing(states[at[0]].db, viewer, side) ==> P.Times(P.Joined(pages), k) == 1
  {
    var tables := Tables(states, at, viewer, side);
    if k in Listing(states[at[0]].db, viewer, side) {
      var id :| id in states[at[0]].db.bookings && Listed(states[at[0]].db, id, viewer, side) && KeyOf(states[at[0]].db, id) == k;
      forall m | 0 <= m < |tables| ensures k in tables[m] {
        OnceListedAlwaysListed(cfg, states, steps, at[0], at[m], id, viewer, side);
      }
    }
    hide Run, Listed, P.Walk;
    P.EveryRowOnce(tables, limit, pages, cursors, k);
  }
}
