/** Counters for per-person rate limits (cappy_common/guard.py): a table of hits
    that forgets old ones, against a log that forgets nothing. Milliseconds. */
module RateLimit {
  type Key = nat

  datatype Hit = Hit(key: Key, at: int)

  const DAY := 86_400_000
  const RATE_HITS_KEPT := 2 * DAY

  /** The hits of a key since a moment, that moment included. */
  function Since(log: seq<Hit>, key: Key, since: int): seq<Hit> {
    if log == [] then []
    else
      var last := log[|log| - 1];
      var earlier := Since(log[..|log| - 1], key, since);
      if last.key == key && last.at >= since then earlier + [last] else earlier
  }

  /** The hits of a key in a closed interval. */
  function Within(log: seq<Hit>, key: Key, from: int, to: int): seq<Hit> {
    if log == [] then []
    else
      var last := log[|log| - 1];
      var earlier := Within(log[..|log| - 1], key, from, to);
      if last.key == key && from <= last.at <= to then earlier + [last] else earlier
  }

  function Without(log: seq<Hit>, key: Key, before: int): seq<Hit> {
    if log == [] then []
    else
      var last := log[|log| - 1];
      var earlier := Without(log[..|log| - 1], key, before);
      if last.key == key && last.at < before then earlier else earlier + [last]
  }

  function Newer(log: seq<Hit>, before: int): seq<Hit> {
    if log == [] then []
    else
      var last := log[|log| - 1];
      var earlier := Newer(log[..|log| - 1], before);
      if last.at < before then earlier else earlier + [last]
  }

  // --- forgetting what no window reaches changes no count ------------------------------------

  lemma SinceAdded(log: seq<Hit>, h: Hit, key: Key, since: int)
    ensures Since(log + [h], key, since) == if h.key == key && h.at >= since then Since(log, key, since) + [h] else Since(log, key, since)
  {
    assert (log + [h])[..|log|] == log;
  }

  lemma {:induction false} DeletedUnseen(log: seq<Hit>, key: Key, before: int, other: Key, since: int)
    requires other == key ==> before <= since
    ensures Since(Without(log, key, before), other, since) == Since(log, other, since)
  {
    if log != [] {
      var init, last := log[..|log| - 1], log[|log| - 1];
      DeletedUnseen(init, key, before, other, since);
      SinceAdded(Without(init, key, before), last, other, since);
    }
  }

  lemma {:induction false} PrunedUnseen(log: seq<Hit>, before: int, key: Key, since: int)
    requires before <= since
    ensures Since(Newer(log, before), key, since) == Since(log, key, since)
  {
    if log != [] {
      var init, last := log[..|log| - 1], log[|log| - 1];
      PrunedUnseen(init, before, key, since);
      SinceAdded(Newer(init, before), last, key, since);
    }
  }

  /** A later start sees the same of two logs that agree from an earlier one. */
  lemma {:induction false} LaterAgrees(a: seq<Hit>, key: Key, since: int, later: int)
    requires since <= later
    ensures Since(a, key, later) == Since(Since(a, key, since), key, later)
  {
    if a != [] {
      var init, last := a[..|a| - 1], a[|a| - 1];
      LaterAgrees(init, key, since, later);
      SinceAdded(Since(init, key, since), last, key, later);
    }
  }

  // --- what the limit means -----------------------------------------------------------------------

  /** What a service allows: so many hits of a key in so long a window. */
  datatype Rule = Rule(limit: nat, window: int)

  /** Every hit of the log was allowed when it came, and they came in order. */
  ghost predicate Allowed(log: seq<Hit>, rules: Key -> Rule) {
    && (forall i, j :: 0 <= i <= j < |log| ==> log[i].at <= log[j].at)
    && forall i :: 0 <= i < |log| ==> AllowedAt(log, i, rules)
  }

  ghost predicate AllowedAt(log: seq<Hit>, i: nat, rules: Key -> Rule)
    requires i < |log|
  {
    |Since(log[..i], log[i].key, log[i].at - rules(log[i].key).window)| < rules(log[i].key).limit
  }

  lemma {:induction false} WithinIsSince(log: seq<Hit>, key: Key, from: int, since: int, to: int)
    requires since <= from
    ensures |Within(log, key, from, to)| <= |Since(log, key, since)|
  {
    if log != [] { WithinIsSince(log[..|log| - 1], key, from, since, to); }
  }

  lemma AllowedPrefix(log: seq<Hit>, n: nat, rules: Key -> Rule)
    requires Allowed(log, rules) && n <= |log|
    ensures Allowed(log[..n], rules)
  {
    forall i | 0 <= i < n ensures AllowedAt(log[..n], i, rules) {
      assert AllowedAt(log, i, rules) && log[..n][..i] == log[..i];
    }
  }

  /** Which hits of a log are of a key, and in an interval. */
  function HitsIn(log: seq<Hit>, key: Key, from: int, to: int): set<nat> {
    set i | 0 <= i < |log| && log[i].key == key && from <= log[i].at <= to
  }

  lemma {:induction false} WithinCounts(log: seq<Hit>, key: Key, from: int, to: int)
    ensures |Within(log, key, from, to)| == |HitsIn(log, key, from, to)|
  {
    if log != [] {
      var n := |log| - 1;
      WithinCounts(log[..n], key, from, to);
      var more := if log[n].key == key && from <= log[n].at <= to then {n} else {};
      assert HitsIn(log, key, from, to) == HitsIn(log[..n], key, from, to) + more;
    } else {
      assert HitsIn(log, key, from, to) == {};
    }
  }

  lemma {:induction false} SinceCounts(log: seq<Hit>, key: Key, since: int, to: int)
    requires forall h :: h in log ==> h.at <= to
    ensures |Since(log, key, since)| == |HitsIn(log, key, since, to)|
  {
    if log != [] {
      var n := |log| - 1;
      SinceCounts(log[..n], key, since, to);
      assert log[n] in log;
      var more := if log[n].key == key && log[n].at >= since then {n} else {};
      assert HitsIn(log, key, since, to) == HitsIn(log[..n], key, since, to) + more;
    } else {
      assert HitsIn(log, key, since, to) == {};
    }
  }

  /** No interval as long as the window ever holds more hits than the limit. */
  lemma {:induction false} NeverMoreThanTheLimit(log: seq<Hit>, key: Key, from: int, rules: Key -> Rule)
    requires Allowed(log, rules)
    ensures |Within(log, key, from, from + rules(key).window)| <= rules(key).limit
    ensures |HitsIn(log, key, from, from + rules(key).window)| <= rules(key).limit
  {
    WithinCounts(log, key, from, from + rules(key).window);
    if log != [] {
      var n := |log| - 1;
      AllowedPrefix(log, n, rules);
      NeverMoreThanTheLimit(log[..n], key, from, rules);
      var to := from + rules(key).window;
      if log[n].key == key && from <= log[n].at <= to {
        assert AllowedAt(log, n, rules);
        WithinIsSince(log[..n], key, from, log[n].at - rules(key).window, to);
      }
    }
  }

  // --- the table ------------------------------------------------------------------------------------

  /** For each key, the table holds all its window can still reach. */
  ghost predicate Agree(hits: seq<Hit>, log: seq<Hit>, clock: int, rules: Key -> Rule) {
    forall key :: AgreeOn(hits, log, clock, rules, key)
  }

  ghost predicate AgreeOn(hits: seq<Hit>, log: seq<Hit>, clock: int, rules: Key -> Rule, key: Key) {
    Since(hits, key, clock - rules(key).window) == Since(log, key, clock - rules(key).window)
  }

  lemma StillAgree(hits: seq<Hit>, log: seq<Hit>, clock: int, now: int, rules: Key -> Rule)
    requires Agree(hits, log, clock, rules) && clock <= now
    ensures Agree(hits, log, now, rules)
  {
    forall key ensures AgreeOn(hits, log, now, rules, key) {
      assert AgreeOn(hits, log, clock, rules, key);
      LaterAgrees(hits, key, clock - rules(key).window, now - rules(key).window);
      LaterAgrees(log, key, clock - rules(key).window, now - rules(key).window);
    }
  }

  lemma DeletingAgrees(hits: seq<Hit>, log: seq<Hit>, clock: int, rules: Key -> Rule, key: Key)
    requires Agree(hits, log, clock, rules)
    ensures Agree(Without(hits, key, clock - rules(key).window), log, clock, rules)
  {
    var left := Without(hits, key, clock - rules(key).window);
    forall other ensures AgreeOn(left, log, clock, rules, other) {
      assert AgreeOn(hits, log, clock, rules, other);
      DeletedUnseen(hits, key, clock - rules(key).window, other, clock - rules(other).window);
    }
  }

  lemma AddingAgrees(hits: seq<Hit>, log: seq<Hit>, clock: int, rules: Key -> Rule, h: Hit)
    requires Agree(hits, log, clock, rules)
    ensures Agree(hits + [h], log + [h], clock, rules)
  {
    forall key ensures AgreeOn(hits + [h], log + [h], clock, rules, key) {
      assert AgreeOn(hits, log, clock, rules, key);
      SinceAdded(hits, h, key, clock - rules(key).window);
      SinceAdded(log, h, key, clock - rules(key).window);
    }
  }

  lemma PruningAgrees(hits: seq<Hit>, log: seq<Hit>, clock: int, rules: Key -> Rule)
    requires Agree(hits, log, clock, rules) && forall key :: rules(key).window <= RATE_HITS_KEPT
    ensures Agree(Newer(hits, clock - RATE_HITS_KEPT), log, clock, rules)
  {
    var left := Newer(hits, clock - RATE_HITS_KEPT);
    forall key ensures AgreeOn(left, log, clock, rules, key) {
      assert AgreeOn(hits, log, clock, rules, key);
      PrunedUnseen(hits, clock - RATE_HITS_KEPT, key, clock - rules(key).window);
    }
  }

  class RateHits {
    const rules: Key -> Rule
    var clock: int
    var hits: seq<Hit>
    /** Every hit ever accepted. */
    ghost var log: seq<Hit>

    ghost predicate Valid()
      reads this
    {
      && (forall key :: rules(key).window <= RATE_HITS_KEPT)
      && (forall h :: h in log ==> h.at <= clock)
      && Agree(hits, log, clock, rules) && Allowed(log, rules)
    }

    constructor (rules: Key -> Rule, now: int)
      requires forall key :: rules(key).window <= RATE_HITS_KEPT
      ensures Valid() && log == [] && clock == now && this.rules == rules
    {
      this.rules, clock, hits, log := rules, now, [], [];
    }

    method Tick(now: int)
      requires Valid() && clock <= now
      modifies `clock
      ensures Valid() && clock == now
    {
      StillAgree(hits, log, clock, now, rules);
      clock := now;
    }

    /** `hit`: refuses exactly when a log that forgets nothing would. */
    method Count(key: Key) returns (refused: bool)
      requires Valid()
      modifies `hits, `log
      ensures Valid()
      ensures refused <==> |HitsIn(old(log), key, clock - rules(key).window, clock)| >= rules(key).limit
      ensures log == if refused then old(log) else old(log) + [Hit(key, clock)]
    {
      var since := clock - rules(key).window;
      DeletingAgrees(hits, log, clock, rules, key);
      hits := Without(hits, key, since);
      assert AgreeOn(hits, log, clock, rules, key);
      SinceCounts(log, key, since, clock);
      refused := |Since(hits, key, since)| >= rules(key).limit;
      if !refused {
        AddingAgrees(hits, log, clock, rules, Hit(key, clock));
        Accepted(log, Hit(key, clock), rules);
        hits, log := hits + [Hit(key, clock)], log + [Hit(key, clock)];
      }
    }

    /** `prune_guards`: hits older than two days go, for every key at once. */
    method Prune()
      requires Valid()
      modifies `hits
      ensures Valid() && hits == Newer(old(hits), clock - RATE_HITS_KEPT)
    {
      PruningAgrees(hits, log, clock, rules);
      hits := Newer(hits, clock - RATE_HITS_KEPT);
    }
  }

  lemma Accepted(log: seq<Hit>, h: Hit, rules: Key -> Rule)
    requires Allowed(log, rules) && forall x :: x in log ==> x.at <= h.at
    requires |Since(log, h.key, h.at - rules(h.key).window)| < rules(h.key).limit
    ensures Allowed(log + [h], rules)
  {
    var log' := log + [h];
    forall i | 0 <= i < |log'| ensures AllowedAt(log', i, rules) {
      if i < |log| {
        assert AllowedAt(log, i, rules) && log'[..i] == log[..i];
      } else {
        assert log'[..i] == log;
      }
    }
  }
}
