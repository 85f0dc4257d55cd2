/** `hit` as it runs (cappy_common/guard.py): any number of requests between the
    statements that delete, count and insert, and housekeeping beside them. */
module RateLimitRuns {
  import opened Wrappers
  import opened RateLimit

  // --- one hit ---------------------------------------------------------------------------------

  lemma {:induction false} SinceSplits(log: seq<Hit>, more: seq<Hit>, key: Key, since: int)
    ensures Since(log + more, key, since) == Since(log, key, since) + Since(more, key, since)
  {
    if more == [] {
      assert log + more == log;
    } else {
      var m := more[..|more| - 1];
      assert (log + more)[..|log + more| - 1] == log + m;
      SinceSplits(log, m, key, since);
    }
  }

  /** The count and the insert are two statements: of two overlapping requests of a
      key that had one hit left, neither sees the other. */
  lemma OverlapPassesTheLimit(log: seq<Hit>, key: Key, now: int, rule: Rule)
    requires rule.window >= 0 && |Since(log, key, now - rule.window)| == rule.limit - 1
    ensures |Since(log + [Hit(key, now)] + [Hit(key, now)], key, now - rule.window)| == rule.limit + 1
  {
    SinceAdded(log, Hit(key, now), key, now - rule.window);
    SinceAdded(log + [Hit(key, now)], Hit(key, now), key, now - rule.window);
  }

  // --- runs ----------------------------------------------------------------------------------------

  type TxId = nat

  /** A request at work: when it read the clock, and whether it has counted. */
  datatype Flight = Flight(key: Key, at: int, counted: bool)

  /** `hits`: the table. `log`: every hit ever committed. */
  datatype Sys = Sys(clock: int, hits: seq<Hit>, log: seq<Hit>, flights: map<TxId, Flight>)

  /** `doomed`: which rows the delete of the transaction that commits had found. */
  datatype Step =
    | Arrive(t: TxId, key: Key)
    | Tally(t: TxId)
    | Land(t: TxId, doomed: set<nat>)
    | Drop(t: TxId)
    | Housekeep(doomed: set<nat>)
    | Tick(now: int)

  function Reach(rules: Key -> Rule, f: Flight): int { f.at - rules(f.key).window }

  predicate CanStep(rules: Key -> Rule, s: Sys, step: Step) {
    match step
    case Arrive(t, _) => t !in s.flights
    case Tally(t) => t in s.flights && !s.flights[t].counted
    case Land(t, doomed) =>
      && t in s.flights && s.flights[t].counted
      && forall i :: i in doomed ==> i < |s.hits| && s.hits[i].key == s.flights[t].key && s.hits[i].at < Reach(rules, s.flights[t])
    case Drop(t) => t in s.flights
    case Housekeep(doomed) => forall i :: i in doomed ==> i < |s.hits| && s.hits[i].at < s.clock - RATE_HITS_KEPT
    case Tick(now) => s.clock <= now
  }

  function Spared(hits: seq<Hit>, doomed: set<nat>): seq<Hit> {
    if hits == [] then []
    else
      var n := |hits| - 1;
      if n in doomed then Spared(hits[..n], doomed) else Spared(hits[..n], doomed) + [hits[n]]
  }

  function Next(rules: Key -> Rule, s: Sys, step: Step): Sys
    requires CanStep(rules, s, step)
  {
    match step
    case Arrive(t, key) => s.(flights := s.flights[t := Flight(key, s.clock, false)])
    case Tally(t) =>
      var f := s.flights[t];
      if |Since(s.hits, f.key, Reach(rules, f))| < rules(f.key).limit then s.(flights := s.flights[t := f.(counted := true)])
      else s.(flights := s.flights - {t})
    case Land(t, doomed) =>
      var h := Hit(s.flights[t].key, s.flights[t].at);
      s.(hits := Spared(s.hits, doomed) + [h], log := s.log + [h], flights := s.flights - {t})
    case Drop(t) => s.(flights := s.flights - {t})
    case Housekeep(doomed) => s.(hits := Spared(s.hits, doomed))
    case Tick(now) => s.(clock := now)
  }

  ghost predicate Run(rules: Key -> Rule, states: seq<Sys>, steps: seq<Step>) {
    && |states| == |steps| + 1 && states[0] == Sys(states[0].clock, [], [], map[])
    && forall i :: 0 <= i < |steps| ==> OneStep(rules, states[i], steps[i], states[i + 1])
  }

  predicate OneStep(rules: Key -> Rule, s: Sys, step: Step, s': Sys) {
    CanStep(rules, s, step) && s' == Next(rules, s, step)
  }

  ghost predicate WindowsFit(rules: Key -> Rule) {
    forall key :: 0 <= rules(key).window <= RATE_HITS_KEPT
  }

  /** A request is let through exactly if the table has room for one more of its key
      since its window began. */
  lemma WhatATallyAnswers(rules: Key -> Rule, s: Sys, t: TxId, to: int)
    requires CanStep(rules, s, Tally(t)) && forall h :: h in s.hits ==> h.at <= to
    ensures var f, s' := s.flights[t], Next(rules, s, Tally(t));
      && (t in s'.flights <==> |HitsIn(s.hits, f.key, f.at - rules(f.key).window, to)| < rules(f.key).limit)
      && s' == s.(flights := if t in s'.flights then s.flights[t := f.(counted := true)] else s.flights - {t})
  {
    SinceCounts(s.hits, s.flights[t].key, Reach(rules, s.flights[t]), to);
  }

  /** Requests of the key in flight together. */
  function InFlight(s: Sys, key: Key): set<TxId> {
    set t | t in s.flights && s.flights[t].key == key
  }

  // --- one window ------------------------------------------------------------------------------------

  /** The requests in flight whose hits would fall in the window; those of them that counted. */
  function Bound(s: Sys, key: Key, from: int, to: int): set<TxId> {
    set t | t in s.flights && s.flights[t].key == key && from <= s.flights[t].at <= to
  }

  function Counted(s: Sys, key: Key, from: int, to: int): set<TxId> {
    set t | t in s.flights && s.flights[t].key == key && from <= s.flights[t].at <= to && s.flights[t].counted
  }

  lemma WithinAdded(log: seq<Hit>, h: Hit, key: Key, from: int, to: int)
    ensures |Within(log + [h], key, from, to)| ==
      |Within(log, key, from, to)| + if h.key == key && from <= h.at <= to then 1 else 0
  {
    assert (log + [h])[..|log|] == log;
  }

  lemma {:induction false} SparedWithin(hits: seq<Hit>, doomed: set<nat>, key: Key, from: int, to: int)
    ensures |Within(Spared(hits, doomed), key, from, to)| <= |Within(hits, key, from, to)|
    ensures (forall i :: i in doomed && i < |hits| ==> !(hits[i].key == key && from <= hits[i].at <= to)) ==>
      |Within(Spared(hits, doomed), key, from, to)| == |Within(hits, key, from, to)|
  {
    if hits != [] {
      var n := |hits| - 1;
      SparedWithin(hits[..n], doomed, key, from, to);
      WithinAdded(Spared(hits[..n], doomed), hits[n], key, from, to);
    }
  }

  /** What holds of one window, of requests of its key never more than `most` at
      once: either the table still has all its hits, or its time is past. */
  ghost predicate WindowOk(s: Sys, key: Key, from: int, rule: Rule, most: nat) {
    var to := from + rule.window;
    var held := |Within(s.log, key, from, to)|;
    && (forall t :: t in s.flights ==> s.flights[t].at <= s.clock)
    && (|| (|Within(s.hits, key, from, to)| == held && held + |Counted(s, key, from, to)| <= rule.limit + most - 1)
        || (s.clock > to && held + |Bound(s, key, from, to)| <= rule.limit + 2 * most - 1))
  }

  lemma Sets(s: Sys, key: Key, from: int, to: int)
    ensures |Counted(s, key, from, to)| <= |Bound(s, key, from, to)| <= |InFlight(s, key)|
  {
    SubsetCount(Counted(s, key, from, to), Bound(s, key, from, to));
    SubsetCount(Bound(s, key, from, to), InFlight(s, key));
  }

  lemma ArriveKeeps(rules: Key -> Rule, s: Sys, t: TxId, k: Key, key: Key, from: int, most: nat)
    requires WindowOk(s, key, from, rules(key), most) && CanStep(rules, s, Arrive(t, k))
    ensures WindowOk(Next(rules, s, Arrive(t, k)), key, from, rules(key), most)
  {
    var s', to := Next(rules, s, Arrive(t, k)), from + rules(key).window;
    assert Counted(s', key, from, to) == Counted(s, key, from, to);
    if s.clock > to { assert Bound(s', key, from, to) == Bound(s, key, from, to); }
  }

  lemma TallyKeeps(rules: Key -> Rule, s: Sys, t: TxId, key: Key, from: int, most: nat)
    requires WindowOk(s, key, from, rules(key), most) && CanStep(rules, s, Tally(t)) && |InFlight(s, key)| <= most
    ensures WindowOk(Next(rules, s, Tally(t)), key, from, rules(key), most)
  {
    var s', to := Next(rules, s, Tally(t)), from + rules(key).window;
    var f := s.flights[t];
    Sets(s', key, from, to);
    SubsetCount(InFlight(s', key), InFlight(s, key));
    SubsetCount(Bound(s', key, from, to), Bound(s, key, from, to));
    if t in s'.flights && f.key == key && from <= f.at <= to {
      WithinIsSince(s.hits, key, from, Reach(rules, f), to);
    } else {
      SubsetCount(Counted(s', key, from, to), Counted(s, key, from, to));
    }
  }

  lemma BoundLeaves(s: Sys, s': Sys, t: TxId, key: Key, from: int, to: int)
    requires t in s.flights && s'.flights == s.flights - {t}
    ensures |Bound(s', key, from, to)| ==
      |Bound(s, key, from, to)| - if s.flights[t].key == key && from <= s.flights[t].at <= to then 1 else 0
  {
    assert Bound(s', key, from, to) == Bound(s, key, from, to) - {t};
  }

  lemma CountedLeaves(s: Sys, s': Sys, t: TxId, key: Key, from: int, to: int)
    requires t in s.flights && s.flights[t].counted && s'.flights == s.flights - {t}
    ensures |Counted(s', key, from, to)| ==
      |Counted(s, key, from, to)| - if s.flights[t].key == key && from <= s.flights[t].at <= to then 1 else 0
  {
    assert Counted(s', key, from, to) == Counted(s, key, from, to) - {t};
  }

  lemma OutsideOfIt(s: Sys, t: TxId, key: Key, from: int, to: int)
    requires t in s.flights && s.flights[t].key == key && !(from <= s.flights[t].at <= to)
    ensures |Bound(s, key, from, to)| < |InFlight(s, key)|
  {
    assert t in InFlight(s, key) && t !in Bound(s, key, from, to);
    SubsetCount(Bound(s, key, from, to), InFlight(s, key));
  }

  /** What landing does to the counts of a window. */
  lemma LandCounts(rules: Key -> Rule, s: Sys, t: TxId, doomed: set<nat>, key: Key, from: int, to: int)
    requires CanStep(rules, s, Land(t, doomed))
    ensures var s', f := Next(rules, s, Land(t, doomed)), s.flights[t];
      var mine := if f.key == key && from <= f.at <= to then 1 else 0;
      && |Within(s'.log, key, from, to)| == |Within(s.log, key, from, to)| + mine
      && |Counted(s', key, from, to)| == |Counted(s, key, from, to)| - mine
      && |Bound(s', key, from, to)| == |Bound(s, key, from, to)| - mine
      && (mine == 0 && f.key == key ==> |Bound(s, key, from, to)| < |InFlight(s, key)|)
  {
    var f := s.flights[t];
    WithinAdded(s.log, Hit(f.key, f.at), key, from, to);
    hide Within, Counted, Bound, InFlight, Spared;
    BoundLeaves(s, Next(rules, s, Land(t, doomed)), t, key, from, to);
    CountedLeaves(s, Next(rules, s, Land(t, doomed)), t, key, from, to);
    if f.key == key && !(from <= f.at <= to) { OutsideOfIt(s, t, key, from, to); }
  }

  /** Whatever the delete of a request takes, it is past its own window, so past any
      other the hit was in. */
  lemma DeletedIsPast(rules: Key -> Rule, s: Sys, t: TxId, doomed: set<nat>, key: Key, from: int, i: nat)
    requires CanStep(rules, s, Land(t, doomed)) && s.flights[t].at <= s.clock
    requires i in doomed && i < |s.hits| && s.hits[i].key == key && from <= s.hits[i].at
    ensures s.flights[t].key == key && from + rules(key).window < s.flights[t].at
  {}

  /** And to the window's hits in the table: if any was deleted, the window is past,
      and the request that landed is not one of it. */
  lemma LandDeletes(rules: Key -> Rule, s: Sys, t: TxId, doomed: set<nat>, key: Key, from: int)
    requires CanStep(rules, s, Land(t, doomed)) && s.flights[t].at <= s.clock
    ensures var s', f, to := Next(rules, s, Land(t, doomed)), s.flights[t], from + rules(key).window;
      var mine := if f.key == key && from <= f.at <= to then 1 else 0;
      || |Within(s'.hits, key, from, to)| == |Within(s.hits, key, from, to)| + mine
      || (s.clock > to && f.key == key && mine == 0)
  {
    var f, to := s.flights[t], from + rules(key).window;
    hide Within, Spared;
    WithinAdded(Spared(s.hits, doomed), Hit(f.key, f.at), key, from, to);
    SparedWithin(s.hits, doomed, key, from, to);
    assert Next(rules, s, Land(t, doomed)).hits == Spared(s.hits, doomed) + [Hit(f.key, f.at)];
    hide Next, CanStep;
    if i :| i in doomed && i < |s.hits| && s.hits[i].key == key && from <= s.hits[i].at <= to {
      DeletedIsPast(rules, s, t, doomed, key, from, i);
    }
  }

  lemma LandKeeps(rules: Key -> Rule, s: Sys, t: TxId, doomed: set<nat>, key: Key, from: int, most: nat)
    requires WindowOk(s, key, from, rules(key), most) && CanStep(rules, s, Land(t, doomed)) && |InFlight(s, key)| <= most
    ensures WindowOk(Next(rules, s, Land(t, doomed)), key, from, rules(key), most)
  {
    LandCounts(rules, s, t, doomed, key, from, from + rules(key).window);
    LandDeletes(rules, s, t, doomed, key, from);
    hide Within, Counted, Bound, InFlight, Spared;
  }

  lemma DropKeeps(rules: Key -> Rule, s: Sys, t: TxId, key: Key, from: int, most: nat)
    requires WindowOk(s, key, from, rules(key), most) && CanStep(rules, s, Drop(t))
    ensures WindowOk(Next(rules, s, Drop(t)), key, from, rules(key), most)
  {
    var s', to := Next(rules, s, Drop(t)), from + rules(key).window;
    SubsetCount(Counted(s', key, from, to), Counted(s, key, from, to));
    SubsetCount(Bound(s', key, from, to), Bound(s, key, from, to));
  }

  lemma HousekeepKeeps(rules: Key -> Rule, s: Sys, doomed: set<nat>, key: Key, from: int, most: nat)
    requires WindowOk(s, key, from, rules(key), most) && CanStep(rules, s, Housekeep(doomed)) && |InFlight(s, key)| <= most
    requires WindowsFit(rules)
    ensures WindowOk(Next(rules, s, Housekeep(doomed)), key, from, rules(key), most)
  {
    var s', to := Next(rules, s, Housekeep(doomed)), from + rules(key).window;
    SparedWithin(s.hits, doomed, key, from, to);
    Sets(s, key, from, to);
    assert Counted(s', key, from, to) == Counted(s, key, from, to) && Bound(s', key, from, to) == Bound(s, key, from, to);
  }

  lemma TickKeeps(rules: Key -> Rule, s: Sys, now: int, key: Key, from: int, most: nat)
    requires WindowOk(s, key, from, rules(key), most) && CanStep(rules, s, Tick(now))
    ensures WindowOk(Next(rules, s, Tick(now)), key, from, rules(key), most)
  {
    var s', to := Next(rules, s, Tick(now)), from + rules(key).window;
    assert Counted(s', key, from, to) == Counted(s, key, from, to) && Bound(s', key, from, to) == Bound(s, key, from, to);
  }

  lemma StepKeeps(rules: Key -> Rule, s: Sys, step: Step, key: Key, from: int, most: nat)
    requires WindowOk(s, key, from, rules(key), most) && CanStep(rules, s, step) && |InFlight(s, key)| <= most
    requires WindowsFit(rules)
    ensures WindowOk(Next(rules, s, step), key, from, rules(key), most)
  {
    hide WindowOk, WindowsFit;
    match step {
      case Arrive(t, k) => ArriveKeeps(rules, s, t, k, key, from, most);
      case Tally(t) => TallyKeeps(rules, s, t, key, from, most);
      case Land(t, doomed) => LandKeeps(rules, s, t, doomed, key, from, most);
      case Drop(t) => DropKeeps(rules, s, t, key, from, most);
      case Housekeep(doomed) => HousekeepKeeps(rules, s, doomed, key, from, most);
      case Tick(now) => TickKeeps(rules, s, now, key, from, most);
    }
  }

  ghost predicate AtMost(states: seq<Sys>, i: nat, key: Key, most: nat) {
    forall k :: 0 <= k <= i && k < |states| ==> |InFlight(states[k], key)| <= most
  }

  lemma {:induction false} RunKeeps(rules: Key -> Rule, states: seq<Sys>, steps: seq<Step>, i: nat, key: Key, from: int, most: nat)
    requires Run(rules, states, steps) && i < |states| && WindowsFit(rules) && AtMost(states, i, key, most) && most >= 1
    ensures WindowOk(states[i], key, from, rules(key), most)
  {
    hide CanStep, Next;
    if i == 0 {
      assert Counted(states[0], key, from, from + rules(key).window) == {};
    } else {
      hide WindowOk, WindowsFit;
      assert AtMost(states, i - 1, key, most);
      RunKeeps(rules, states, steps, i - 1, key, from, most);
      assert OneStep(rules, states[i - 1], steps[i - 1], states[i]);
      StepKeeps(rules, states[i - 1], steps[i - 1], key, from, most);
    }
  }

  /** In every run, however requests overlap and whatever is deleted meanwhile: an
      interval as long as the window never holds more hits than the limit and,
      twice over, the requests of its key in flight together. */
  lemma NeverFarBeyond(rules: Key -> Rule, states: seq<Sys>, steps: seq<Step>, i: nat, key: Key, from: int, most: nat)
    requires Run(rules, states, steps) && i < |states| && WindowsFit(rules) && AtMost(states, i, key, most) && most >= 1
    ensures |Within(states[i].log, key, from, from + rules(key).window)| <= rules(key).limit + 2 * most - 1
  {
    RunKeeps(rules, states, steps, i, key, from, most);
  }

  // --- when the deletes stay clear of everyone's window ---------------------------------------------------

  /** Nothing is deleted that a request of its key still in flight would count. */
  predicate Clear(rules: Key -> Rule, s: Sys, step: Step) {
    (step.Land? || step.Housekeep?) ==>
      forall i, u :: i in step.doomed && i < |s.hits| && u in s.flights && s.flights[u].key == s.hits[i].key ==>
        s.hits[i].at < Reach(rules, s.flights[u])
  }

  predicate SameReach(s: Sys, key: Key, since: int) {
    Since(s.hits, key, since) == Since(s.log, key, since)
  }

  lemma {:induction false} SparedSince(hits: seq<Hit>, doomed: set<nat>, key: Key, since: int)
    requires forall i :: i in doomed && i < |hits| && hits[i].key == key ==> hits[i].at < since
    ensures Since(Spared(hits, doomed), key, since) == Since(hits, key, since)
  {
    if hits != [] {
      var n := |hits| - 1;
      SparedSince(hits[..n], doomed, key, since);
      SinceAdded(Spared(hits[..n], doomed), hits[n], key, since);
    }
  }

  lemma DeletingIsExact(rules: Key -> Rule, s: Sys, step: Step, key: Key, since: int)
    requires CanStep(rules, s, step) && (step.Land? || step.Housekeep?) && SameReach(s, key, since)
    requires forall i :: i in step.doomed && i < |s.hits| && s.hits[i].key == key ==> s.hits[i].at < since
    ensures SameReach(Next(rules, s, step), key, since)
  {
    SparedSince(s.hits, step.doomed, key, since);
    if step.Land? {
      var h := Hit(s.flights[step.t].key, s.flights[step.t].at);
      SinceAdded(Spared(s.hits, step.doomed), h, key, since);
      SinceAdded(s.log, h, key, since);
    }
  }

  /** The reaches of the key's requests in flight, and of the next to come. */
  ghost predicate ReachesAgree(rules: Key -> Rule, s: Sys, key: Key) {
    && (forall t :: t in s.flights && s.flights[t].key == key ==> SameReach(s, key, Reach(rules, s.flights[t])))
    && SameReach(s, key, s.clock - rules(key).window)
  }

  lemma DeletingStaysExact(rules: Key -> Rule, s: Sys, step: Step, key: Key)
    requires ReachesAgree(rules, s, key) && CanStep(rules, s, step) && WindowsFit(rules) && Clear(rules, s, step)
    requires step.Land? || step.Housekeep?
    requires forall t :: t in s.flights ==> s.flights[t].at <= s.clock
    ensures ReachesAgree(rules, Next(rules, s, step), key)
  {
    var s' := Next(rules, s, step);
    forall i | i in step.doomed && i < |s.hits| && s.hits[i].key == key ensures s.hits[i].at < s.clock - rules(key).window {}
    DeletingIsExact(rules, s, step, key, s.clock - rules(key).window);
    forall t | t in s'.flights && s'.flights[t].key == key ensures SameReach(s', key, Reach(rules, s'.flights[t])) {
      DeletingIsExact(rules, s, step, key, Reach(rules, s.flights[t]));
    }
  }

  lemma TickStaysExact(rules: Key -> Rule, s: Sys, now: int, key: Key)
    requires ReachesAgree(rules, s, key) && s.clock <= now
    ensures ReachesAgree(rules, s.(clock := now), key)
  {
    var since, later := s.clock - rules(key).window, now - rules(key).window;
    LaterAgrees(s.hits, key, since, later);
    LaterAgrees(s.log, key, since, later);
    forall t | t in s.flights && s.flights[t].key == key ensures SameReach(s.(clock := now), key, Reach(rules, s.flights[t])) {
      assert SameReach(s, key, Reach(rules, s.flights[t]));
    }
  }

  lemma FlightStaysExact(rules: Key -> Rule, s: Sys, step: Step, key: Key)
    requires ReachesAgree(rules, s, key) && CanStep(rules, s, step) && (step.Arrive? || step.Tally? || step.Drop?)
    ensures ReachesAgree(rules, Next(rules, s, step), key)
  {
    var s' := Next(rules, s, step);
    hide Since;
    forall t | t in s'.flights && s'.flights[t].key == key ensures SameReach(s', key, Reach(rules, s'.flights[t])) {
      if t in s.flights && s.flights[t].key == key { assert SameReach(s, key, Reach(rules, s.flights[t])); }
    }
  }

  lemma ReachStaysExact(rules: Key -> Rule, s: Sys, step: Step, key: Key)
    requires ReachesAgree(rules, s, key) && CanStep(rules, s, step) && WindowsFit(rules) && Clear(rules, s, step)
    requires forall t :: t in s.flights ==> s.flights[t].at <= s.clock
    ensures ReachesAgree(rules, Next(rules, s, step), key)
  {
    hide ReachesAgree, Clear, WindowsFit;
    if step.Land? || step.Housekeep? {
      DeletingStaysExact(rules, s, step, key);
    } else if step.Tick? {
      TickStaysExact(rules, s, step.now, key);
    } else {
      FlightStaysExact(rules, s, step, key);
    }
  }

  function Held(s: Sys, key: Key, from: int, to: int): nat { |Within(s.log, key, from, to)| + |Counted(s, key, from, to)| }

  lemma TallyHolds(rules: Key -> Rule, s: Sys, t: TxId, key: Key, from: int, most: nat)
    requires CanStep(rules, s, Tally(t)) && |InFlight(s, key)| <= most && ReachesAgree(rules, s, key)
    requires Held(s, key, from, from + rules(key).window) <= rules(key).limit + most - 1
    ensures Held(Next(rules, s, Tally(t)), key, from, from + rules(key).window) <= rules(key).limit + most - 1
  {
    var s', to, f := Next(rules, s, Tally(t)), from + rules(key).window, s.flights[t];
    Sets(s', key, from, to);
    SubsetCount(InFlight(s', key), InFlight(s, key));
    if t in s'.flights && f.key == key && from <= f.at <= to {
      WithinIsSince(s.log, key, from, Reach(rules, f), to);
      assert SameReach(s, key, Reach(rules, f));
    } else {
      SubsetCount(Counted(s', key, from, to), Counted(s, key, from, to));
    }
  }

  lemma OthersHold(rules: Key -> Rule, s: Sys, step: Step, key: Key, from: int, to: int)
    requires CanStep(rules, s, step) && !step.Tally?
    ensures Held(Next(rules, s, step), key, from, to) <= Held(s, key, from, to)
  {
    if step.Land? {
      LandCounts(rules, s, step.t, step.doomed, key, from, to);
    } else {
      SubsetCount(Counted(Next(rules, s, step), key, from, to), Counted(s, key, from, to));
    }
  }

  /** Each request of the key, now or later, then counts in the table what a log that
      forgets nothing has. */
  lemma {:induction false} RunAgrees(rules: Key -> Rule, states: seq<Sys>, steps: seq<Step>, i: nat, key: Key)
    requires Run(rules, states, steps) && i < |states| && WindowsFit(rules)
    requires forall k :: 0 <= k < i ==> Clear(rules, states[k], steps[k])
    ensures ReachesAgree(rules, states[i], key) && forall t :: t in states[i].flights ==> states[i].flights[t].at <= states[i].clock
  {
    hide CanStep, Next, ReachesAgree, WindowsFit, Clear;
    if i == 0 {
      StartAgrees(rules, states[0], key);
    } else {
      RunAgrees(rules, states, steps, i - 1, key);
      assert OneStep(rules, states[i - 1], steps[i - 1], states[i]);
      ReachStaysExact(rules, states[i - 1], steps[i - 1], key);
      ReadsStayPast(rules, states[i - 1], steps[i - 1]);
    }
  }

  lemma StartAgrees(rules: Key -> Rule, s: Sys, key: Key)
    requires s == Sys(s.clock, [], [], map[])
    ensures ReachesAgree(rules, s, key)
  {}

  lemma ReadsStayPast(rules: Key -> Rule, s: Sys, step: Step)
    requires CanStep(rules, s, step) && forall t :: t in s.flights ==> s.flights[t].at <= s.clock
    ensures var s' := Next(rules, s, step); forall t :: t in s'.flights ==> s'.flights[t].at <= s'.clock
  {}

  lemma {:induction false} RunHolds(rules: Key -> Rule, states: seq<Sys>, steps: seq<Step>, i: nat, key: Key, from: int, most: nat)
    requires Run(rules, states, steps) && i < |states| && WindowsFit(rules) && AtMost(states, i, key, most) && most >= 1
    requires forall k :: 0 <= k < i ==> Clear(rules, states[k], steps[k])
    ensures Held(states[i], key, from, from + rules(key).window) <= rules(key).limit + most - 1
  {
    hide CanStep, Next, Held, WindowsFit, Clear, ReachesAgree;
    if i == 0 {
      StartHolds(states[0], key, from, from + rules(key).window);
    } else {
      assert AtMost(states, i - 1, key, most);
      RunHolds(rules, states, steps, i - 1, key, from, most);
      RunAgrees(rules, states, steps, i - 1, key);
      assert OneStep(rules, states[i - 1], steps[i - 1], states[i]);
      StepHolds(rules, states[i - 1], steps[i - 1], key, from, most);
    }
  }

  lemma StartHolds(s: Sys, key: Key, from: int, to: int)
    requires s == Sys(s.clock, [], [], map[])
    ensures Held(s, key, from, to) == 0
  {
    assert Counted(s, key, from, to) == {};
  }

  lemma StepHolds(rules: Key -> Rule, s: Sys, step: Step, key: Key, from: int, most: nat)
    requires ReachesAgree(rules, s, key) && CanStep(rules, s, step) && |InFlight(s, key)| <= most
    requires Held(s, key, from, from + rules(key).window) <= rules(key).limit + most - 1
    ensures Held(Next(rules, s, step), key, from, from + rules(key).window) <= rules(key).limit + most - 1
  {
    hide ReachesAgree, Held, InFlight;
    if step.Tally? {
      TallyHolds(rules, s, step.t, key, from, most);
    } else {
      OthersHold(rules, s, step, key, from, from + rules(key).window);
    }
  }

  /** While no delete reaches into the window of a request in flight, no interval as
      long as the window holds more than the limit and the requests of its key in
      flight together, less one; taken one at a time, no more than the limit. */
  lemma NoMoreThanInFlight(rules: Key -> Rule, states: seq<Sys>, steps: seq<Step>, i: nat, key: Key, from: int, most: nat)
    requires Run(rules, states, steps) && i < |states| && WindowsFit(rules) && AtMost(states, i, key, most) && most >= 1
    requires forall k :: 0 <= k < i ==> Clear(rules, states[k], steps[k])
    ensures |Within(states[i].log, key, from, from + rules(key).window)| <= rules(key).limit + most - 1
  {
    RunHolds(rules, states, steps, i, key, from, most);
  }

  // --- when one hit passes its limit --------------------------------------------------------------------

  /** A request counted at step `i` and lands at step `j`. */
  ghost predicate Lands(states: seq<Sys>, steps: seq<Step>, i: nat, j: nat, t: TxId) {
    && i < j < |steps| && |states| == |steps| + 1
    && steps[i] == Tally(t) && steps[j].Land? && steps[j].t == t
    && forall k :: i < k < j ==> steps[k] != Tally(t)
  }

  /** Hits its window had when it counted that it did not see: deleted by then. */
  function Gone(s: Sys, key: Key, since: int): int { |Since(s.log, key, since)| - |Since(s.hits, key, since)| }

  /** Between the two it stays as it was: what lands is what counted. */
  lemma {:induction false} StaysCounted(rules: Key -> Rule, states: seq<Sys>, steps: seq<Step>, i: nat, j: nat, t: TxId)
    requires Run(rules, states, steps) && i < j < |states| && t in states[j].flights && states[j].flights[t].counted
    requires steps[i] == Tally(t) && forall k :: i < k < j ==> steps[k] != Tally(t)
    ensures t in states[i].flights && states[j].flights[t] == states[i].flights[t].(counted := true)
    ensures var f := states[i].flights[t]; |Since(states[i].hits, f.key, Reach(rules, f))| < rules(f.key).limit
    decreases j
  {
    assert OneStep(rules, states[j - 1], steps[j - 1], states[j]);
    if i < j - 1 {
      assert t in states[j - 1].flights && states[j - 1].flights[t] == states[j].flights[t];
      hide OneStep;
      StaysCounted(rules, states, steps, i, j - 1, t);
    }
  }

  lemma {:induction false} LogGrows(rules: Key -> Rule, states: seq<Sys>, steps: seq<Step>, i: nat, j: nat)
    requires Run(rules, states, steps) && i <= j < |states|
    ensures states[i].log <= states[j].log
    decreases j
  {
    if i < j {
      LogGrows(rules, states, steps, i, j - 1);
      assert OneStep(rules, states[j - 1], steps[j - 1], states[j]);
    }
  }

  /** A hit's window keeps to the limit exactly if what it saw, what landed before it
      since it counted, and what it could not see because it was deleted leave room. */
  lemma WhenAHitFits(rules: Key -> Rule, states: seq<Sys>, steps: seq<Step>, i: nat, j: nat, t: TxId)
    requires Run(rules, states, steps) && WindowsFit(rules) && Lands(states, steps, i, j, t)
    ensures t in states[i].flights && states[i].log <= states[j].log
    ensures var f := states[i].flights[t];
      var since, between := Reach(rules, f), states[j].log[|states[i].log|..];
      && |Since(states[i].hits, f.key, since)| < rules(f.key).limit && Gone(states[i], f.key, since) >= 0
      && (|Since(states[j + 1].log, f.key, since)| <= rules(f.key).limit <==>
        |Since(states[i].hits, f.key, since)| + |Since(between, f.key, since)| + Gone(states[i], f.key, since) < rules(f.key).limit)
  {
    assert OneStep(rules, states[j], steps[j], states[j + 1]);
    StaysCounted(rules, states, steps, i, j, t);
    LogGrows(rules, states, steps, i, j);
    var f := states[i].flights[t];
    var since, between := Reach(rules, f), states[j].log[|states[i].log|..];
    assert states[j].log == states[i].log + between;
    hide Since;
    SinceSplits(states[i].log, between, f.key, since);
    SinceAdded(states[j].log, Hit(f.key, f.at), f.key, since);
    NoneInvented(rules, states, steps, i, f.key, since);
  }

  lemma {:induction false} SparedShrinks(hits: seq<Hit>, doomed: set<nat>, key: Key, since: int)
    ensures |Since(Spared(hits, doomed), key, since)| <= |Since(hits, key, since)|
  {
    if hits != [] {
      var n := |hits| - 1;
      SparedShrinks(hits[..n], doomed, key, since);
      SinceAdded(Spared(hits[..n], doomed), hits[n], key, since);
    }
  }

  /** The table has no hit that the log has not. */
  lemma {:induction false} NoneInvented(rules: Key -> Rule, states: seq<Sys>, steps: seq<Step>, i: nat, key: Key, since: int)
    requires Run(rules, states, steps) && i < |states|
    ensures |Since(states[i].hits, key, since)| <= |Since(states[i].log, key, since)|
  {
    if i > 0 {
      NoneInvented(rules, states, steps, i - 1, key, since);
      assert OneStep(rules, states[i - 1], steps[i - 1], states[i]);
      var s, step := states[i - 1], steps[i - 1];
      hide Since, Spared;
      if step.Land? || step.Housekeep? { SparedShrinks(s.hits, step.doomed, key, since); }
      if step.Land? {
        var h := Hit(s.flights[step.t].key, s.flights[step.t].at);
        SinceAdded(Spared(s.hits, step.doomed), h, key, since);
        SinceAdded(s.log, h, key, since);
      }
    }
  }

  /** Nothing is gone from it while no delete reaches into a window in flight. */
  lemma NothingGone(rules: Key -> Rule, states: seq<Sys>, steps: seq<Step>, i: nat, t: TxId)
    requires Run(rules, states, steps) && WindowsFit(rules) && i < |states| && t in states[i].flights
    requires forall k :: 0 <= k < i ==> Clear(rules, states[k], steps[k])
    ensures Gone(states[i], states[i].flights[t].key, Reach(rules, states[i].flights[t])) == 0
  {
    RunAgrees(rules, states, steps, i, states[i].flights[t].key);
    hide Run, WindowsFit, Clear, Since;
    assert SameReach(states[i], states[i].flights[t].key, Reach(rules, states[i].flights[t]));
  }

  // --- and when one does reach in ----------------------------------------------------------------------------

  /** Two in ten milliseconds. */
  function TwoInTen(k: Key): Rule { Rule(2, 10) }

  function At(clock: int, hits: seq<Hit>, log: seq<Hit>, flights: map<TxId, Flight>): Sys { Sys(clock, hits, log, flights) }

  /** Three hits at 0, the last two overlapping. A request reads the clock at 10;
      another, at 11, deletes those three, counts none, and lands. The first then
      counts one, and lands too. */
  function Crowd(k: Key): seq<Sys> {
    var h, a, b := Hit(k, 0), Hit(k, 10), Hit(k, 11);
    var asked, counted := Flight(k, 0, false), Flight(k, 0, true);
    var early := Flight(k, 10, false);
    [At(0, [], [], map[]),
     At(0, [], [], map[0 := asked]),
     At(0, [], [], map[0 := counted]),
     At(0, [h], [h], map[]),
     At(0, [h], [h], map[1 := asked]),
     At(0, [h], [h], map[1 := asked, 2 := asked]),
     At(0, [h], [h], map[1 := counted, 2 := asked]),
     At(0, [h], [h], map[1 := counted, 2 := counted]),
     At(0, [h, h], [h, h], map[2 := counted]),
     At(0, [h, h, h], [h, h, h], map[]),
     At(10, [h, h, h], [h, h, h], map[]),
     At(10, [h, h, h], [h, h, h], map[3 := early]),
     At(11, [h, h, h], [h, h, h], map[3 := early]),
     At(11, [h, h, h], [h, h, h], map[3 := early, 4 := Flight(k, 11, false)]),
     At(11, [h, h, h], [h, h, h], map[3 := early, 4 := Flight(k, 11, true)]),
     At(11, [b], [h, h, h, b], map[3 := early]),
     At(11, [b], [h, h, h, b], map[3 := Flight(k, 10, true)]),
     At(11, [b, a], [h, h, h, b, a], map[])]
  }

  function CrowdSteps(k: Key): seq<Step> {
    [Arrive(0, k), Tally(0), Land(0, {}), Arrive(1, k), Arrive(2, k), Tally(1), Tally(2), Land(1, {}), Land(2, {}),
     Tick(10), Arrive(3, k), Tick(11), Arrive(4, k), Tally(4), Land(4, {0, 1, 2}), Tally(3), Land(3, {})]
  }

  lemma CrowdSince(k: Key)
    ensures var h, b := Hit(k, 0), Hit(k, 11);
      Since([], k, -10) == [] && |Since([h], k, -10)| == 1 && Since([h, h, h], k, 1) == [] && |Since([b], k, 0)| == 1
  {
    var h := Hit(k, 0);
    assert [h] + [h] == [h, h] && [h, h] + [h] == [h, h, h];
    SinceAdded([h], h, k, 1);
    SinceAdded([h, h], h, k, 1);
  }

  lemma CrowdWithin(k: Key)
    ensures var h, a, b := Hit(k, 0), Hit(k, 10), Hit(k, 11); |Within([h, h, h, b, a], k, 0, 10)| == 4
  {
    var h, a, b := Hit(k, 0), Hit(k, 10), Hit(k, 11);
    assert |Within([h], k, 0, 10)| == 1;
    hide Within;
    assert [h] + [h] == [h, h] && [h, h] + [h] == [h, h, h] && [h, h, h] + [b] == [h, h, h, b] && [h, h, h, b] + [a] == [h, h, h, b, a];
    WithinAdded([h], h, k, 0, 10);
    WithinAdded([h, h], h, k, 0, 10);
    WithinAdded([h, h, h], b, k, 0, 10);
    WithinAdded([h, h, h, b], a, k, 0, 10);
  }

  lemma CrowdSpared(k: Key)
    ensures var h, b := Hit(k, 0), Hit(k, 11);
      Spared([h], {}) == [h] && Spared([h, h], {}) == [h, h] && Spared([b], {}) == [b] && Spared([h, h, h], {0, 1, 2}) == []
  {
    var h := Hit(k, 0);
    assert [h, h][..1] == [h] && [h, h, h][..2] == [h, h] && [h][..0] == [];
    assert Spared([h], {0, 1, 2}) == [];
    assert Spared([h, h], {0, 1, 2}) == [];
    assert Spared([h], {}) == [h];
    assert Spared([h, h], {}) == [h, h];
  }

  lemma CrowdArrives(k: Key, i: nat)
    requires i in {0, 3, 4, 9, 10, 11, 12}
    ensures OneStep(TwoInTen, Crowd(k)[i], CrowdSteps(k)[i], Crowd(k)[i + 1])
  {
    hide Since, Within, Spared;
  }

  lemma CrowdTallies(k: Key, i: nat)
    requires i in {5, 6}
    ensures OneStep(TwoInTen, Crowd(k)[i], CrowdSteps(k)[i], Crowd(k)[i + 1])
  {
    CrowdSince(k);
    hide Since, Within, Spared;
  }

  lemma CrowdTalliesFirst(k: Key, i: nat)
    requires i in {1}
    ensures OneStep(TwoInTen, Crowd(k)[i], CrowdSteps(k)[i], Crowd(k)[i + 1])
  {
    CrowdSince(k);
    hide Since, Within, Spared;
  }

  lemma CrowdTalliesLater(k: Key, i: nat)
    requires i in {13, 15}
    ensures OneStep(TwoInTen, Crowd(k)[i], CrowdSteps(k)[i], Crowd(k)[i + 1])
  {
    CrowdSince(k);
    hide Since, Within, Spared;
  }

  lemma CrowdLandsFirst(k: Key)
    ensures OneStep(TwoInTen, Crowd(k)[2], CrowdSteps(k)[2], Crowd(k)[3])
  {
    CrowdSpared(k);
    assert Spared([], {}) == [];
    hide Since, Within, Spared;
    var h := Hit(k, 0);
    assert [] + [h] == [h];
  }

  lemma CrowdLandsSecond(k: Key)
    ensures OneStep(TwoInTen, Crowd(k)[7], CrowdSteps(k)[7], Crowd(k)[8])
  {
    CrowdSpared(k);
    hide Since, Within, Spared;
    var h := Hit(k, 0);
    assert [h] + [h] == [h, h];
  }

  lemma CrowdLandsThird(k: Key)
    ensures OneStep(TwoInTen, Crowd(k)[8], CrowdSteps(k)[8], Crowd(k)[9])
  {
    CrowdSpared(k);
    hide Since, Within, Spared;
    var h := Hit(k, 0);
    assert [h, h] + [h] == [h, h, h];
  }

  lemma CrowdLandsFourth(k: Key)
    ensures OneStep(TwoInTen, Crowd(k)[14], CrowdSteps(k)[14], Crowd(k)[15])
  {
    CrowdSpared(k);
    hide Since, Within, Spared;
    var h, b := Hit(k, 0), Hit(k, 11);
    assert [h, h, h] + [b] == [h, h, h, b] && [] + [b] == [b];
  }

  lemma CrowdLandsLast(k: Key)
    ensures OneStep(TwoInTen, Crowd(k)[16], CrowdSteps(k)[16], Crowd(k)[17])
  {
    CrowdSpared(k);
    hide Since, Within, Spared;
    var h, a, b := Hit(k, 0), Hit(k, 10), Hit(k, 11);
    assert [h, h, h, b] + [a] == [h, h, h, b, a] && [b] + [a] == [b, a];
  }

  lemma CrowdStep(k: Key, i: nat)
    requires i < 17
    ensures OneStep(TwoInTen, Crowd(k)[i], CrowdSteps(k)[i], Crowd(k)[i + 1])
  {
    if i == 1 {
      CrowdTalliesFirst(k, i);
    } else if i in {5, 6} {
      CrowdTallies(k, i);
    } else if i in {13, 15} {
      CrowdTalliesLater(k, i);
    } else if i in {2, 7, 8, 14, 16} {
      CrowdLandsFirst(k);
      CrowdLandsSecond(k);
      CrowdLandsThird(k);
      CrowdLandsFourth(k);
      CrowdLandsLast(k);
    } else {
      CrowdArrives(k, i);
    }
    hide OneStep;
  }

  lemma CrowdIsSmall(k: Key, i: nat)
    requires i < 18
    ensures |InFlight(Crowd(k)[i], k)| <= 2
  {
    var s := Crowd(k)[i];
    assert InFlight(s, k) == s.flights.Keys;
  }

  /** Then the bound of `NoMoreThanInFlight` fails: of a key of two hits at most, and
      never more than two requests in flight, a window holds four. */
  lemma DeletesLetMoreIn(k: Key)
    ensures Run(TwoInTen, Crowd(k), CrowdSteps(k)) && WindowsFit(TwoInTen) && AtMost(Crowd(k), 17, k, 2)
    ensures |Within(Crowd(k)[17].log, k, 0, 10)| == 4 > TwoInTen(k).limit + 2 - 1
  {
    CrowdWithin(k);
    forall i | 0 <= i < 17 ensures OneStep(TwoInTen, Crowd(k)[i], CrowdSteps(k)[i], Crowd(k)[i + 1]) { CrowdStep(k, i); }
    forall i | 0 <= i < 18 ensures |InFlight(Crowd(k)[i], k)| <= 2 { CrowdIsSmall(k, i); }
    hide OneStep, InFlight, Within, Since;
  }
}
