/** Bookings and the bus together: a transaction's events reach the outbox with
    its rows or not at all, and the relays, queues and consumers do the rest. */
module EndToEnd {
  import opened Wrappers
  import opened BookingState
  import opened Booking
  import opened BookingInvariants
  import opened BookingOps
  import opened BookingLog
  import S = BookingSystem
  import D = Delivery
  import N = BookingNotices

  datatype World = World(sys: S.Sys, net: D.Net)

  datatype Step = Tables(step: S.Step) | Bus(move: D.Step)

  const STATUS_CHANGED := 0

  function KindOf(e: Event): D.Kind {
    match e
    case StatusChanged(_, _, _) => STATUS_CHANGED
    case BookingRated(_, _) => 1
    case RenterRated(_, _) => 2
    case DisputeOffer(_, _, _) => 3
    case Notice(_, _, _) => 4
    case StaffAction(_, _) => 5
  }

  /** An event's id is its place in the outbox. */
  function Written(outbox: seq<Event>, since: nat): map<D.Id, D.Kind> {
    map i: D.Id | since <= i < |outbox| :: KindOf(outbox[i])
  }

  ghost predicate CanStep(cfg: Settings, subs: D.Subscriptions, w: World, step: Step) {
    match step
    case Tables(s) => S.CanStep(cfg, w.sys, s) && AmountsOk(w.sys.db)
    case Bus(m) => !m.Commit? && D.CanStep(subs, w.net, m)
  }

  ghost predicate OneStep(cfg: Settings, subs: D.Subscriptions, w: World, step: Step, w': World) {
    && CanStep(cfg, subs, w, step)
    && match step
       case Tables(s) =>
         && w'.sys == S.Next(cfg, w.sys, s)
         && D.OneStep(subs, w.net, D.Commit(Written(w'.sys.db.outbox, |w.sys.db.outbox|)), w'.net)
       case Bus(m) => w'.sys == w.sys && D.OneStep(subs, w.net, m, w'.net)
  }

  ghost predicate Run(cfg: Settings, subs: D.Subscriptions, states: seq<World>, steps: seq<Step>) {
    && |states| == |steps| + 1 && S.Start(states[0].sys) && D.Start(states[0].net)
    && forall i :: 0 <= i < |steps| ==> OneStep(cfg, subs, states[i], steps[i], states[i + 1])
  }

  /** No message is received later than its marker is kept. */
  ghost predicate InTime(w: World, step: Step) {
    step.Bus? ==> D.InTime(w.net, step.move, D.PROCESSED_RETENTION)
  }

  ghost predicate WorldOk(cfg: Settings, subs: D.Subscriptions, w: World) {
    S.SysOk(cfg, w.sys) && D.Safe(subs, w.net) && D.OnceEach(w.net) && w.net.kinds == Written(w.sys.db.outbox, 0)
    && N.Told(w.sys.db)
  }

  lemma StepKeeps(cfg: Settings, subs: D.Subscriptions, w: World, step: Step, w': World)
    requires WorldOk(cfg, subs, w) && OneStep(cfg, subs, w, step, w') && InTime(w, step)
    ensures WorldOk(cfg, subs, w')
  {
    hide S.SysOk, D.Safe, D.OnceEach, S.CanStep, D.CanStep, S.Next, AmountsOk, N.Told;
    match step {
      case Tables(s) =>
        S.StepKeeps(cfg, w.sys, s);
        StepAppends(cfg, w.sys, s);
        N.StepTells(cfg, w.sys, s);
        var commit := D.Commit(Written(w'.sys.db.outbox, |w.sys.db.outbox|));
        D.StepIsSafe(subs, w.net, commit);
        D.StepHandlesOnce(subs, w.net, commit);
        CommitWrites(subs, w, w', commit);
      case Bus(m) =>
        D.StepIsSafe(subs, w.net, m);
        D.StepHandlesOnce(subs, w.net, m);
        OnlyCommitsWrite(subs, w.net, m);
    }
  }

  lemma CommitWrites(subs: D.Subscriptions, w: World, w': World, commit: D.Step)
    requires w.net.kinds == Written(w.sys.db.outbox, 0) && w.sys.db.outbox <= w'.sys.db.outbox
    requires commit == D.Commit(Written(w'.sys.db.outbox, |w.sys.db.outbox|)) && D.OneStep(subs, w.net, commit, w'.net)
    ensures w'.net.kinds == Written(w'.sys.db.outbox, 0)
  {}

  lemma OnlyCommitsWrite(subs: D.Subscriptions, n: D.Net, m: D.Step)
    requires D.CanStep(subs, n, m) && !m.Commit?
    ensures D.Next(subs, n, m).kinds == n.kinds
  {}

  lemma {:induction false} RunKeeps(cfg: Settings, subs: D.Subscriptions, states: seq<World>, steps: seq<Step>, i: nat)
    requires Run(cfg, subs, states, steps) && i < |states|
    requires forall k :: 0 <= k < i ==> InTime(states[k], steps[k])
    ensures WorldOk(cfg, subs, states[i])
  {
    hide OneStep, InTime;
    if i == 0 {
      S.StartOk(cfg, states[0].sys);
    } else {
      hide WorldOk;
      RunKeeps(cfg, subs, states, steps, i - 1);
      StepKeeps(cfg, subs, states[i - 1], steps[i - 1], states[i]);
    }
  }

  // --- what a consumer has applied --------------------------------------------------------------------

  function Times(c: Change, n: nat): multiset<Change> { multiset{}[c := n] }

  /** Every status change its handler committed, as often as it did. */
  function Applied(net: D.Net, outbox: seq<Event>, consumer: D.Consumer): multiset<Change> {
    if outbox == [] then multiset{}
    else
      var k := |outbox| - 1;
      Applied(net, outbox[..k], consumer)
      + if outbox[k].StatusChanged? then Times(outbox[k].change, D.At(net, D.Copy(consumer, k)).effects) else multiset{}
  }

  predicate Hears(subs: D.Subscriptions, consumer: D.Consumer) {
    consumer in subs && STATUS_CHANGED in subs[consumer]
  }

  lemma {:induction false} AppliedIsAnnounced(net: D.Net, outbox: seq<Event>, consumer: D.Consumer)
    requires forall k :: 0 <= k < |outbox| ==> D.At(net, D.Copy(consumer, k)).effects <= 1
    ensures Applied(net, outbox, consumer) <= multiset(Announced(outbox))
    ensures (forall k :: 0 <= k < |outbox| && outbox[k].StatusChanged? ==> D.At(net, D.Copy(consumer, k)).effects == 1)
      ==> Applied(net, outbox, consumer) == multiset(Announced(outbox))
  {
    if outbox != [] {
      AppliedIsAnnounced(net, outbox[..|outbox| - 1], consumer);
    }
  }

  /** At any moment of any run: what a consumer applied are changes the trail
      holds, none of them more often than there. */
  lemma NothingInvented(
    cfg: Settings, subs: D.Subscriptions, states: seq<World>, steps: seq<Step>, i: nat, consumer: D.Consumer)
    requires Run(cfg, subs, states, steps) && i < |states|
    requires forall k :: 0 <= k < i ==> InTime(states[k], steps[k])
    ensures Applied(states[i].net, states[i].sys.db.outbox, consumer) <= multiset(Changes(states[i].sys.db.trail))
  {
    RunKeeps(cfg, subs, states, steps, i);
    hide Run, S.TxOk, S.Apart, D.Safe, RowsOk;
    var w := states[i];
    forall k | 0 <= k < |w.sys.db.outbox| ensures D.At(w.net, D.Copy(consumer, k)).effects <= 1 {
      assert D.OnceOnly(w.net, D.Copy(consumer, k));
    }
    AppliedIsAnnounced(w.net, w.sys.db.outbox, consumer);
  }

  /** Once nothing is unsent, queued or dead-lettered, a consumer of status
      changes has applied exactly the trail, every line of it once. */
  lemma ExactlyTheTrail(
    cfg: Settings, subs: D.Subscriptions, states: seq<World>, steps: seq<Step>, i: nat, consumer: D.Consumer)
    requires Run(cfg, subs, states, steps) && i < |states| && D.Quiet(states[i].net) && Hears(subs, consumer)
    requires forall k :: 0 <= k < i ==> InTime(states[k], steps[k])
    ensures Applied(states[i].net, states[i].sys.db.outbox, consumer) == multiset(Changes(states[i].sys.db.trail))
  {
    RunKeeps(cfg, subs, states, steps, i);
    hide Run, S.TxOk, S.Apart, D.RowsOk, D.BatchesOk, RowsOk;
    var w := states[i];
    forall k | 0 <= k < |w.sys.db.outbox|
      ensures D.At(w.net, D.Copy(consumer, k)).effects <= 1
      ensures w.sys.db.outbox[k].StatusChanged? ==> D.At(w.net, D.Copy(consumer, k)).effects == 1
    {
      var m := D.Copy(consumer, k);
      assert D.OnceOnly(w.net, m) && D.PassageOk(subs, w.net, m);
    }
    AppliedIsAnnounced(w.net, w.sys.db.outbox, consumer);
  }

  lemma {:induction false} RanksDescend(tr: seq<Edge>, j: nat, k: nat)
    requires Path(tr) && j < k < |tr|
    ensures Rank(tr[k].change.to) < Rank(tr[j].change.to)
    decreases k
  {
    assert Joined(tr, k);
    EdgesDescend(tr[k - 1].change.to, tr[k].change.to);
    if j < k - 1 { RanksDescend(tr, j, k - 1); }
  }

  lemma ChangesOf(trail: seq<Edge>, c: Change)
    ensures c in multiset(Changes(trail)) <==> exists e :: e in trail && e.change == c
  {
    if c in multiset(Changes(trail)) {
      var k :| 0 <= k < |trail| && Changes(trail)[k] == c;
      assert trail[k] in trail;
    }
    if exists e :: e in trail && e.change == c {
      var k :| 0 <= k < |trail| && trail[k].change == c;
      assert Changes(trail)[k] == c;
    }
  }

  /** So the order of arrival does not matter: of the statuses a consumer heard
      for a booking, the one furthest along is the booking's own. */
  lemma FurthestHeardIsCurrent(
    cfg: Settings, subs: D.Subscriptions, states: seq<World>, steps: seq<Step>, i: nat, consumer: D.Consumer, id: Id)
    requires Run(cfg, subs, states, steps) && i < |states| && D.Quiet(states[i].net) && Hears(subs, consumer)
    requires forall k :: 0 <= k < i ==> InTime(states[k], steps[k])
    requires id in states[i].sys.db.bookings
    ensures var heard := Applied(states[i].net, states[i].sys.db.outbox, consumer);
      var status := states[i].sys.db.bookings[id].status;
      && (exists c :: c in heard && c.booking == id && c.to == status)
      && (forall c :: c in heard && c.booking == id ==> c.to == status || Rank(c.to) > Rank(status))
  {
    ExactlyTheTrail(cfg, subs, states, steps, i, consumer);
    RunKeeps(cfg, subs, states, steps, i);
    var db := states[i].sys.db;
    assert RowOk(db.bookings[id], TrailOf(db.trail, id), db.clock) by {
      hide RowOk, DisputesOk, S.TxOk, S.Apart, KeysUnique, NoDoubleBooking, LogOk, D.Safe, D.OnceEach, Run, Applied;
    }
    hide Run, WorldOk, Applied, D.Quiet, Hears, InTime;
    var heard := Applied(states[i].net, db.outbox, consumer);
    TrailHasIt(db.trail, id);
    forall c | c in heard && c.booking == id ensures c.to == db.bookings[id].status || Rank(c.to) > Rank(db.bookings[id].status) {
      TrailTops(db.trail, id, c);
    }
  }

  lemma TrailHasIt(trail: seq<Edge>, id: Id)
    requires Path(TrailOf(trail, id))
    ensures var tr := TrailOf(trail, id); tr[|tr| - 1].change in multiset(Changes(trail)) && tr[|tr| - 1].change.booking == id
  {
    var tr := TrailOf(trail, id);
    assert tr[|tr| - 1] in tr;
    ChangesOf(trail, tr[|tr| - 1].change);
  }

  lemma TrailTops(trail: seq<Edge>, id: Id, c: Change)
    requires Path(TrailOf(trail, id)) && c in multiset(Changes(trail)) && c.booking == id
    ensures var tr := TrailOf(trail, id); var last := tr[|tr| - 1].change.to; c.to == last || Rank(c.to) > Rank(last)
  {
    var tr := TrailOf(trail, id);
    ChangesOf(trail, c);
    var e :| e in trail && e.change == c;
    assert e in tr;
    var k :| 0 <= k < |tr| && tr[k] == e;
    if k < |tr| - 1 { RanksDescend(tr, k, |tr| - 1); }
  }

  // --- and of everything else that is announced ---------------------------------------------------------

  /** Every event its handler committed, as often as it did. */
  function Handled(net: D.Net, outbox: seq<Event>, consumer: D.Consumer): multiset<Event> {
    if outbox == [] then multiset{}
    else
      var k := |outbox| - 1;
      Handled(net, outbox[..k], consumer) + multiset{}[outbox[k] := D.At(net, D.Copy(consumer, k)).effects]
  }

  predicate HearsOf(subs: D.Subscriptions, consumer: D.Consumer, e: Event) {
    consumer in subs && KindOf(e) in subs[consumer]
  }

  lemma {:induction false} HandledIsWritten(net: D.Net, outbox: seq<Event>, consumer: D.Consumer, subs: D.Subscriptions, e: Event)
    requires forall k :: 0 <= k < |outbox| ==>
      D.At(net, D.Copy(consumer, k)).effects == if HearsOf(subs, consumer, outbox[k]) then 1 else 0
    ensures Handled(net, outbox, consumer)[e] == if HearsOf(subs, consumer, e) then multiset(outbox)[e] else 0
  {
    if outbox != [] {
      var k := |outbox| - 1;
      HandledIsWritten(net, outbox[..k], consumer, subs, e);
      assert outbox == outbox[..k] + [outbox[k]];
    }
  }

  ghost predicate AtRest(cfg: Settings, subs: D.Subscriptions, w: World) { WorldOk(cfg, subs, w) && D.Quiet(w.net) }

  lemma RestsAt(cfg: Settings, subs: D.Subscriptions, states: seq<World>, steps: seq<Step>, i: nat)
    requires Run(cfg, subs, states, steps) && i < |states| && D.Quiet(states[i].net)
    requires forall k :: 0 <= k < i ==> InTime(states[k], steps[k])
    ensures AtRest(cfg, subs, states[i])
  {
    hide Run, InTime, WorldOk, D.Quiet;
    RunKeeps(cfg, subs, states, steps, i);
  }

  lemma OnceAtRest(cfg: Settings, subs: D.Subscriptions, w: World, consumer: D.Consumer, e: Event)
    requires AtRest(cfg, subs, w)
    ensures Handled(w.net, w.sys.db.outbox, consumer)[e] == if HearsOf(subs, consumer, e) then multiset(w.sys.db.outbox)[e] else 0
  {
    hide S.SysOk, N.Told, D.RowsOk, D.BatchesOk, D.LocksApart;
    forall k | 0 <= k < |w.sys.db.outbox|
      ensures D.At(w.net, D.Copy(consumer, k)).effects == if HearsOf(subs, consumer, w.sys.db.outbox[k]) then 1 else 0
    {
      var m := D.Copy(consumer, k);
      assert D.OnceOnly(w.net, m) && D.PassageOk(subs, w.net, m);
    }
    hide WorldOk, D.Quiet;
    HandledIsWritten(w.net, w.sys.db.outbox, consumer, subs, e);
  }

  /** Once all is at rest, a consumer has handled each event it hears of exactly as
      often as it was committed, and no other. */
  lemma EveryEventOnce(
    cfg: Settings, subs: D.Subscriptions, states: seq<World>, steps: seq<Step>, i: nat, consumer: D.Consumer, e: Event)
    requires Run(cfg, subs, states, steps) && i < |states| && D.Quiet(states[i].net)
    requires forall k :: 0 <= k < i ==> InTime(states[k], steps[k])
    ensures Handled(states[i].net, states[i].sys.db.outbox, consumer)[e] ==
      if HearsOf(subs, consumer, e) then multiset(states[i].sys.db.outbox)[e] else 0
  {
    hide Run, InTime, AtRest, D.Quiet, Handled;
    RestsAt(cfg, subs, states, steps, i);
    OnceAtRest(cfg, subs, states[i], consumer, e);
  }

  lemma {:induction false} CountedRatings(outbox: seq<Event>, id: Id, v: nat)
    ensures multiset(outbox)[BookingRated(id, v)] == multiset(RatingsOf(outbox, id))[v]
  {
    if outbox != [] {
      var init, last := outbox[..|outbox| - 1], outbox[|outbox| - 1];
      CountedRatings(init, id, v);
      assert outbox == init + [last];
    }
  }

  lemma {:induction false} CountedRenterRatings(outbox: seq<Event>, id: Id, v: nat)
    ensures multiset(outbox)[RenterRated(id, v)] == multiset(RenterRatingsOf(outbox, id))[v]
  {
    if outbox != [] {
      var init, last := outbox[..|outbox| - 1], outbox[|outbox| - 1];
      CountedRenterRatings(init, id, v);
      assert outbox == init + [last];
    }
  }

  /** So whoever hears of reviews has each published one once, with what it says,
      and none that is not published. */
  lemma ReviewsArriveOnce(
    cfg: Settings, subs: D.Subscriptions, states: seq<World>, steps: seq<Step>, i: nat, consumer: D.Consumer, id: Id, v: nat)
    requires Run(cfg, subs, states, steps) && i < |states| && D.Quiet(states[i].net)
    requires forall k :: 0 <= k < i ==> InTime(states[k], steps[k])
    requires HearsOf(subs, consumer, BookingRated(id, v)) && HearsOf(subs, consumer, RenterRated(id, v))
    ensures var db := states[i].sys.db;
      var handled := Handled(states[i].net, db.outbox, consumer);
      var out := id in db.bookings && db.bookings[id].reviews.published.Some?;
      && handled[BookingRated(id, v)] == (if out && db.bookings[id].reviews.outcome == Some(v) then 1 else 0)
      && handled[RenterRated(id, v)] == (if out && db.bookings[id].reviews.renterRating == Some(v) then 1 else 0)
  {
    hide Run, InTime, AtRest, D.Quiet, Handled, HearsOf, RatingsOf, RenterRatingsOf;
    RestsAt(cfg, subs, states, steps, i);
    OnceAtRest(cfg, subs, states[i], consumer, BookingRated(id, v));
    OnceAtRest(cfg, subs, states[i], consumer, RenterRated(id, v));
    CountedRatings(states[i].sys.db.outbox, id, v);
    CountedRenterRatings(states[i].sys.db.outbox, id, v);
    ReviewsAre(cfg, subs, states[i], id);
  }

  lemma ReviewsAre(cfg: Settings, subs: D.Subscriptions, w: World, id: Id)
    requires AtRest(cfg, subs, w)
    ensures var db := w.sys.db;
      if id in db.bookings then ReviewLogOk(db, id) else RatingsOf(db.outbox, id) == [] && RenterRatingsOf(db.outbox, id) == []
  {
    hide RatingsOf, RenterRatingsOf, S.TxOk, S.Apart, DisputesOk, NoDoubleBooking, KeysUnique, RowsOk, D.Safe, D.OnceEach, N.Told, D.Quiet;
  }

  lemma {:induction false} CountedNotices(outbox: seq<Event>, id: Id, e: Event)
    requires e.Notice? && e.kind != Escalated && e.booking == id
    ensures multiset(outbox)[e] == multiset(N.Settlements(outbox, id))[e]
  {
    if outbox != [] {
      var init, last := outbox[..|outbox| - 1], outbox[|outbox| - 1];
      CountedNotices(init, id, e);
      assert outbox == init + [last];
    }
  }

  lemma SettlementsAre(cfg: Settings, subs: D.Subscriptions, w: World, id: Id)
    requires AtRest(cfg, subs, w)
    ensures N.SettlementTold(w.sys.db, id)
  {
    hide S.SysOk, D.Safe, D.OnceEach, D.Quiet, N.Told, N.SettlementTold;
    N.ToldAt(w.sys.db, id);
  }

  /** Whoever hears of notices tells each settled dispute's end once, and no other end. */
  lemma SettlementsArriveOnce(
    cfg: Settings, subs: D.Subscriptions, states: seq<World>, steps: seq<Step>, i: nat, consumer: D.Consumer, e: Event)
    requires Run(cfg, subs, states, steps) && i < |states| && D.Quiet(states[i].net)
    requires forall k :: 0 <= k < i ==> InTime(states[k], steps[k])
    requires HearsOf(subs, consumer, e) && e.Notice? && e.kind != Escalated
    ensures var db := states[i].sys.db;
      Handled(states[i].net, db.outbox, consumer)[e] ==
        if N.SettledNow(db, e.booking) && e == N.TheNotice(e.booking, db.bookings[e.booking]) then 1 else 0
  {
    hide Run, InTime, AtRest, D.Quiet, Handled, HearsOf, N.Settlements, N.TheNotice;
    RestsAt(cfg, subs, states, steps, i);
    OnceAtRest(cfg, subs, states[i], consumer, e);
    CountedNotices(states[i].sys.db.outbox, e.booking, e);
    SettlementsAre(cfg, subs, states[i], e.booking);
  }

  lemma {:induction false} CountedLines(outbox: seq<Event>, rid: Id, staff: Person)
    ensures multiset(outbox)[StaffAction(staff, rid)] == multiset(N.AuditedBy(outbox, rid))[staff]
  {
    if outbox != [] {
      var init, last := outbox[..|outbox| - 1], outbox[|outbox| - 1];
      CountedLines(init, rid, staff);
      assert outbox == init + [last];
    }
  }

  /** And the audit log holds, of a resolution, its author's line, its decider's, and
      nobody else's. */
  lemma AuditArrivesOnce(
    cfg: Settings, subs: D.Subscriptions, states: seq<World>, steps: seq<Step>, i: nat, consumer: D.Consumer, rid: Id)
    returns (lines: seq<Person>)
    requires Run(cfg, subs, states, steps) && i < |states| && D.Quiet(states[i].net)
    requires forall k :: 0 <= k < i ==> InTime(states[k], steps[k])
    requires HearsOf(subs, consumer, StaffAction(0, rid))
    ensures var db := states[i].sys.db;
      && (if rid in db.resolutions then N.Decided(db.resolutions[rid], lines) else lines == [])
      && forall staff :: Handled(states[i].net, db.outbox, consumer)[StaffAction(staff, rid)] == multiset(lines)[staff]
  {
    hide Run, InTime, AtRest, D.Quiet;
    RestsAt(cfg, subs, states, steps, i);
    lines := AuditAtRest(cfg, subs, states[i], consumer, rid);
  }

  lemma AuditAtRest(cfg: Settings, subs: D.Subscriptions, w: World, consumer: D.Consumer, rid: Id) returns (lines: seq<Person>)
    requires AtRest(cfg, subs, w) && HearsOf(subs, consumer, StaffAction(0, rid))
    ensures if rid in w.sys.db.resolutions then N.Decided(w.sys.db.resolutions[rid], lines) else lines == []
    ensures forall staff :: Handled(w.net, w.sys.db.outbox, consumer)[StaffAction(staff, rid)] == multiset(lines)[staff]
  {
    lines := N.AuditedBy(w.sys.db.outbox, rid);
    hide AtRest, Handled, N.Decided, N.AuditedBy;
    DecisionsAre(cfg, subs, w, rid);
    forall staff ensures Handled(w.net, w.sys.db.outbox, consumer)[StaffAction(staff, rid)] == multiset(lines)[staff] {
      OnceAtRest(cfg, subs, w, consumer, StaffAction(staff, rid));
      CountedLines(w.sys.db.outbox, rid, staff);
    }
  }

  lemma DecisionsAre(cfg: Settings, subs: D.Subscriptions, w: World, rid: Id)
    requires AtRest(cfg, subs, w)
    ensures N.DecisionsTold(w.sys.db, rid)
  {
    hide S.SysOk, D.Safe, D.OnceEach, D.Quiet, N.AuditedBy, N.SettlementsTold, N.DecisionsTold;
  }
}
