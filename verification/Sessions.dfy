/** Sessions ended before their tokens ran out (cappy_common/guard.py): the
    register of revocations each service keeps, the cache before it, and what
    they mean for a token. Milliseconds. */
module Sessions {
  import opened Wrappers

  type Person = nat

  const SECOND := 1000
  const HOUR := 3_600_000
  const REVOCATION_KEPT := 25 * HOUR
  const TOKEN_LIFE := 24 * HOUR
  const LEEWAY := 30 * SECOND
  const TTL := 30 * SECOND
  const CACHE_LIMIT := 50_000

  datatype Revocation = Revocation(person: Person, at: int)

  datatype Token = Token(person: Person, issued: int, expires: int)

  /** What a signed-in request must show: a token that is not past its expiry
      and its leeway, and was not issued before `notBefore`. */
  predicate Accepts(notBefore: Option<int>, t: Token, now: int) {
    now < t.expires + LEEWAY && (notBefore.Some? ==> t.issued >= notBefore.value)
  }

  /** The latest revocation of a person there has been. */
  function Latest(events: seq<Revocation>, person: Person): Option<int> {
    if events == [] then None
    else
      var e := events[|events| - 1];
      var before := Latest(events[..|events| - 1], person);
      if e.person != person || (before.Some? && before.value >= e.at) then before else Some(e.at)
  }

  lemma {:induction false} LatestIsMax(events: seq<Revocation>, person: Person)
    ensures forall e :: e in events && e.person == person ==> Latest(events, person).Some? && Latest(events, person).value >= e.at
    ensures Latest(events, person).Some? ==> Revocation(person, Latest(events, person).value) in events
  {
    if events != [] { LatestIsMax(events[..|events| - 1], person); }
  }

  /** Neither the order of the events nor how often each comes matters. */
  lemma OrderDoesNotMatter(a: seq<Revocation>, b: seq<Revocation>, person: Person)
    requires forall e :: e in a <==> e in b
    ensures Latest(a, person) == Latest(b, person)
  {
    LatestIsMax(a, person);
    LatestIsMax(b, person);
  }

  /** Who is let in: a token not half a minute past its end, issued no earlier than any
      revocation of its person there has been. */
  lemma WhoIsLetIn(events: seq<Revocation>, t: Token, now: int)
    ensures Accepts(Latest(events, t.person), t, now) <==>
      now < t.expires + 30_000 && forall e :: e in events && e.person == t.person ==> e.at <= t.issued
  {
    LatestIsMax(events, t.person);
  }

  function Get(register: map<Person, int>, person: Person): Option<int> {
    if person in register then Some(register[person]) else None
  }

  /** A row is the person's latest revocation, unless that one is too old to be
      kept; and only one that old may be missing. */
  ghost predicate Kept(events: seq<Revocation>, rows: map<Person, int>, clock: int, p: Person) {
    var latest, row := Latest(events, p), Get(rows, p);
    && (row.Some? ==> latest.Some? && row.value <= latest.value)
    && (latest.Some? && latest.value >= clock - REVOCATION_KEPT ==> row == latest)
  }

  // --- the two statements of `revoke` ------------------------------------------------------------------

  /** What the second writes, knowing what the first read: an insert, refused if a
      row has come; an update, which touches nothing if the row has gone; or nothing. */
  function Write(row: Option<int>, read: Option<int>, at: int): Result<Option<int>> {
    if read.None? then
      if row.None? then Ok(Some(at)) else Err(Conflict)
    else if read.value < at then Ok(if row.Some? then Some(at) else None)
    else Ok(row)
  }

  function Store(rows: map<Person, int>, p: Person, row: Option<int>): map<Person, int> {
    if row.Some? then rows[p := row.value] else rows - {p}
  }

  /** "Only ever moves later", exactly: a write leaves the row at the revocation or
      later, and no earlier than it was, if it found none and inserts; or if the row
      is still there, and is not later than what it overwrites nor earlier than what
      it leaves alone. */
  lemma WhenItOnlyMovesLater(row: Option<int>, read: Option<int>, at: int)
    requires Write(row, read, at).Ok?
    ensures var after := Write(row, read, at).value;
      (after.Some? && at <= after.value && (row.Some? ==> row.value <= after.value)) <==>
        read.None? || (row.Some? && if read.value < at then row.value <= at else at <= row.value)
    ensures read.Some? && (row.Some? ==> read.value <= row.value) ==>
      ((Write(row, read, at).value.Some? && at <= Write(row, read, at).value.value
        && (row.Some? ==> row.value <= Write(row, read, at).value.value)) <==>
       row.Some? && !(read.value < at < row.value))
  {}

  /** The two ways a revocation that still matters is lost: its row was pruned
      since it was read, or a later one was written over it since. */
  predicate Loses(row: Option<int>, read: Option<int>, at: int, clock: int) {
    && read.Some? && read.value < at
    && if row.None? then at >= clock - REVOCATION_KEPT else at < row.value && row.value >= clock - REVOCATION_KEPT
  }

  /** What was read was the latest there was, or an earlier one. */
  ghost predicate ReadOk(events: seq<Revocation>, p: Person, read: Option<int>) {
    read.Some? ==> Latest(events, p).Some? && read.value <= Latest(events, p).value
  }

  /** Those are the only ways: a write keeps the register in order exactly if it
      does not lose one. */
  lemma WhenARevocationIsLost(events: seq<Revocation>, rows: map<Person, int>, clock: int, p: Person, at: int, read: Option<int>)
    requires Kept(events, rows, clock, p) && ReadOk(events, p, read) && Write(Get(rows, p), read, at).Ok?
    ensures var rows' := Store(rows, p, Write(Get(rows, p), read, at).value);
      Kept(events + [Revocation(p, at)], rows', clock, p) <==> !Loses(Get(rows, p), read, at, clock)
  {
    assert (events + [Revocation(p, at)])[..|events|] == events;
  }

  lemma OthersKept(events: seq<Revocation>, rows: map<Person, int>, clock: int, p: Person, e: Revocation, row: Option<int>)
    requires Kept(events, rows, clock, p) && e.person != p
    ensures Kept(events + [e], Store(rows, e.person, row), clock, p)
  {
    assert (events + [e])[..|events|] == events;
  }

  class Register {
    var clock: int
    var notBefore: map<Person, int>
    /** Every revocation that was ever recorded. */
    ghost var events: seq<Revocation>

    ghost predicate Valid()
      reads this
    {
      forall p :: Kept(events, notBefore, clock, p)
    }

    constructor (now: int)
      ensures Valid() && events == [] && notBefore == map[] && clock == now
    {
      clock, notBefore, events := now, map[], [];
    }

    method Tick(now: int)
      requires Valid() && clock <= now
      modifies `clock
      ensures Valid() && clock == now
    {
      ghost var was := clock;
      clock := now;
      forall p ensures Kept(events, notBefore, clock, p) { assert Kept(events, notBefore, was, p); }
    }

    method Select(person: Person) returns (read: Option<int>)
      requires Valid()
      ensures read == Get(notBefore, person) && ReadOk(events, person, read)
    {
      assert Kept(events, notBefore, clock, person);
      read := if person in notBefore then Some(notBefore[person]) else None;
    }

    /** The second statement, whatever came between: the register stays in order
        exactly if it does not lose a revocation. */
    method Put(person: Person, at: int, read: Option<int>) returns (refused: Option<Error>)
      requires Valid() && ReadOk(events, person, read)
      modifies `notBefore, `events
      ensures refused == if read.None? && person in old(notBefore) then Some(Conflict) else None
      ensures refused.Some? ==> notBefore == old(notBefore) && events == old(events)
      ensures refused.None? ==>
        && events == old(events) + [Revocation(person, at)]
        && notBefore == Store(old(notBefore), person, Write(Get(old(notBefore), person), read, at).value)
      ensures Valid() <==> refused.Some? || !Loses(Get(old(notBefore), person), read, at, clock)
    {
      if read.None? {
        if person in notBefore { return Some(Conflict); }
        notBefore := notBefore[person := at];
      } else if read.value < at {
        if person in notBefore { notBefore := notBefore[person := at]; }
      }
      events := events + [Revocation(person, at)];
      ghost var row := Get(old(notBefore), person);
      assert notBefore == Store(old(notBefore), person, Write(row, read, at).value);
      WhenARevocationIsLost(old(events), old(notBefore), clock, person, at, read);
      forall p | p != person ensures Kept(events, notBefore, clock, p) {
        assert Kept(old(events), old(notBefore), clock, p);
        OthersKept(old(events), old(notBefore), clock, p, Revocation(person, at), Write(row, read, at).value);
      }
      return None;
    }

    /** `revoke`, undisturbed: the row becomes the later of itself and the event. */
    method Revoke(person: Person, at: int)
      requires Valid()
      modifies `notBefore, `events
      ensures Valid() && events == old(events) + [Revocation(person, at)]
      ensures Get(notBefore, person) ==
        if person in old(notBefore) && old(notBefore)[person] >= at then Some(old(notBefore)[person]) else Some(at)
      ensures forall p :: p != person ==> Get(notBefore, p) == Get(old(notBefore), p)
    {
      var read := Select(person);
      var _ := Put(person, at, read);
    }

    /** `prune_guards`, on revocations. */
    method Prune()
      requires Valid()
      modifies `notBefore
      ensures Valid()
      ensures notBefore == map p | p in old(notBefore) && old(notBefore)[p] >= clock - 90_000_000 :: old(notBefore)[p]
    {
      notBefore := map p | p in notBefore && notBefore[p] >= clock - REVOCATION_KEPT :: notBefore[p];
      forall p ensures Kept(events, notBefore, clock, p) { assert Kept(old(events), old(notBefore), clock, p); }
    }

    /** Pruning never revives a token: the register refuses exactly the tokens
        a register that forgets nothing would. */
    lemma PruningRevivesNobody(t: Token)
      requires Valid() && t.expires <= t.issued + TOKEN_LIFE
      ensures Accepts(Get(notBefore, t.person), t, clock) <==> Accepts(Latest(events, t.person), t, clock)
    {
      assert Kept(events, notBefore, clock, t.person);
    }
  }

  // --- any number of them at once -----------------------------------------------------------------------

  type TxId = nat

  datatype Revoking = Revoking(person: Person, at: int, read: Option<int>)

  datatype Sys = Sys(clock: int, rows: map<Person, int>, txs: map<TxId, Revoking>, events: seq<Revocation>)

  datatype Step = Read(t: TxId, person: Person, at: int) | Update(t: TxId) | Drop(t: TxId) | Housekeep | Tick(now: int)

  predicate CanStep(s: Sys, step: Step) {
    match step
    case Read(t, _, _) => t !in s.txs
    case Update(t) => t in s.txs
    case Drop(t) => t in s.txs
    case Housekeep => true
    case Tick(now) => s.clock <= now
  }

  function Young(rows: map<Person, int>, clock: int): map<Person, int> {
    map p | p in rows && rows[p] >= clock - REVOCATION_KEPT :: rows[p]
  }

  function Next(s: Sys, step: Step): Sys
    requires CanStep(s, step)
  {
    match step
    case Read(t, p, at) => s.(txs := s.txs[t := Revoking(p, at, Get(s.rows, p))])
    case Update(t) =>
      var x := s.txs[t];
      var done := s.(txs := s.txs - {t});
      (match Write(Get(s.rows, x.person), x.read, x.at)
       case Ok(row) => done.(rows := Store(s.rows, x.person, row), events := s.events + [Revocation(x.person, x.at)])
       case Err(_) => done)
    case Drop(t) => s.(txs := s.txs - {t})
    case Housekeep => s.(rows := Young(s.rows, s.clock))
    case Tick(now) => s.(clock := now)
  }

  /** No revocation is lost by this step. */
  predicate LosesNone(s: Sys, step: Step) {
    step.Update? && step.t in s.txs ==>
      !Loses(Get(s.rows, s.txs[step.t].person), s.txs[step.t].read, s.txs[step.t].at, s.clock)
  }

  ghost predicate InOrder(s: Sys) {
    && (forall p :: Kept(s.events, s.rows, s.clock, p))
    && forall t :: t in s.txs ==> ReadOk(s.events, s.txs[t].person, s.txs[t].read)
  }

  lemma StepInOrder(s: Sys, step: Step)
    requires InOrder(s) && CanStep(s, step) && LosesNone(s, step)
    ensures InOrder(Next(s, step))
  {
    var s' := Next(s, step);
    forall p ensures Kept(s'.events, s'.rows, s'.clock, p) {
      assert Kept(s.events, s.rows, s.clock, p);
      if step.Update? && Write(Get(s.rows, s.txs[step.t].person), s.txs[step.t].read, s.txs[step.t].at).Ok? {
        var x := s.txs[step.t];
        WhenARevocationIsLost(s.events, s.rows, s.clock, x.person, x.at, x.read);
        if p != x.person {
          OthersKept(s.events, s.rows, s.clock, p, Revocation(x.person, x.at), Write(Get(s.rows, x.person), x.read, x.at).value);
        }
      }
    }
    forall t | t in s'.txs ensures ReadOk(s'.events, s'.txs[t].person, s'.txs[t].read) {
      if t in s.txs && s'.txs[t] == s.txs[t] {
        assert s'.events == s.events || s'.events[..|s.events|] == s.events;
      } else {
        assert Kept(s.events, s.rows, s.clock, s'.txs[t].person);
      }
    }
  }

  ghost predicate Run(states: seq<Sys>, steps: seq<Step>) {
    && |states| == |steps| + 1 && states[0] == Sys(states[0].clock, map[], map[], [])
    && forall i :: 0 <= i < |steps| ==> OneStep(states[i], steps[i], states[i + 1])
  }

  predicate OneStep(s: Sys, step: Step, s': Sys) { CanStep(s, step) && s' == Next(s, step) }

  lemma {:induction false} RunInOrder(states: seq<Sys>, steps: seq<Step>, i: nat)
    requires Run(states, steps) && i < |states| && forall k :: 0 <= k < i ==> LosesNone(states[k], steps[k])
    ensures InOrder(states[i])
  {
    hide CanStep, Next;
    if i > 0 {
      hide InOrder, LosesNone;
      RunInOrder(states, steps, i - 1);
      assert OneStep(states[i - 1], steps[i - 1], states[i]);
      StepInOrder(states[i - 1], steps[i - 1]);
    }
  }

  /** In every run that loses none, with revocations overlapping and rows pruned at
      any point, the register refuses exactly the tokens that the revocations ever
      recorded refuse. */
  lemma NobodyIsRevived(states: seq<Sys>, steps: seq<Step>, i: nat, t: Token)
    requires Run(states, steps) && i < |states| && forall k :: 0 <= k < i ==> LosesNone(states[k], steps[k])
    requires t.expires <= t.issued + TOKEN_LIFE
    ensures var s := states[i];
      Accepts(Get(s.rows, t.person), t, s.clock) <==> Accepts(Latest(s.events, t.person), t, s.clock)
  {
    RunInOrder(states, steps, i);
    assert Kept(states[i].events, states[i].rows, states[i].clock, t.person);
  }

  /** A token the register takes though its person's sessions were ended after it was issued. */
  predicate Revived(s: Sys, t: Token) {
    && t.expires <= t.issued + TOKEN_LIFE
    && Accepts(Get(s.rows, t.person), t, s.clock) && !Accepts(Latest(s.events, t.person), t, s.clock)
  }

  function Overlap(p: Person, now: int): seq<Sys> {
    var first, a, b := Revocation(p, now - 3), Revocation(p, now - 2), Revocation(p, now - 1);
    var x, y := Revoking(p, now - 2, Some(now - 3)), Revoking(p, now - 1, Some(now - 3));
    [Sys(now, map[], map[], []),
     Sys(now, map[], map[0 := Revoking(p, now - 3, None)], []),
     Sys(now, map[p := now - 3], map[], [first]),
     Sys(now, map[p := now - 3], map[1 := x], [first]),
     Sys(now, map[p := now - 3], map[1 := x, 2 := y], [first]),
     Sys(now, map[p := now - 1], map[1 := x], [first, b]),
     Sys(now, map[p := now - 2], map[], [first, b, a])]
  }

  lemma OverlapBegins(p: Person, now: int)
    ensures OneStep(Overlap(p, now)[0], Read(0, p, now - 3), Overlap(p, now)[1])
    ensures OneStep(Overlap(p, now)[1], Update(0), Overlap(p, now)[2])
    ensures OneStep(Overlap(p, now)[2], Read(1, p, now - 2), Overlap(p, now)[3])
  {}

  lemma OverlapEnds(p: Person, now: int)
    ensures OneStep(Overlap(p, now)[3], Read(2, p, now - 1), Overlap(p, now)[4])
    ensures OneStep(Overlap(p, now)[4], Update(2), Overlap(p, now)[5])
    ensures OneStep(Overlap(p, now)[5], Update(1), Overlap(p, now)[6])
  {}

  /** Two revocations of one person at once: the earlier is written last. */
  lemma OverlappingRevocationsReviveOne(p: Person, now: int) returns (states: seq<Sys>, steps: seq<Step>)
    ensures Run(states, steps) && Revived(states[|steps|], Token(p, now - 2, now + HOUR))
  {
    states := Overlap(p, now);
    steps := [Read(0, p, now - 3), Update(0), Read(1, p, now - 2), Read(2, p, now - 1), Update(2), Update(1)];
    OverlapBegins(p, now);
    OverlapEnds(p, now);
    hide OneStep;
    LatestIsMax(states[6].events, p);
    assert Revocation(p, now - 1) in states[6].events;
  }

  function Pruned(p: Person, now: int): seq<Sys> {
    var was := now - REVOCATION_KEPT - 1;
    var first, e := Revocation(p, was), Revocation(p, now);
    var x := Revoking(p, now, Some(was));
    [Sys(was, map[], map[], []),
     Sys(was, map[], map[0 := Revoking(p, was, None)], []),
     Sys(was, map[p := was], map[], [first]),
     Sys(now, map[p := was], map[], [first]),
     Sys(now, map[p := was], map[1 := x], [first]),
     Sys(now, map[], map[1 := x], [first]),
     Sys(now, map[], map[], [first, e])]
  }

  lemma PrunedBegins(p: Person, now: int)
    ensures OneStep(Pruned(p, now)[0], Read(0, p, now - REVOCATION_KEPT - 1), Pruned(p, now)[1])
    ensures OneStep(Pruned(p, now)[1], Update(0), Pruned(p, now)[2])
    ensures OneStep(Pruned(p, now)[2], Tick(now), Pruned(p, now)[3])
  {}

  lemma PrunedEnds(p: Person, now: int)
    ensures OneStep(Pruned(p, now)[3], Read(1, p, now), Pruned(p, now)[4])
    ensures OneStep(Pruned(p, now)[4], Housekeep, Pruned(p, now)[5])
    ensures OneStep(Pruned(p, now)[5], Update(1), Pruned(p, now)[6])
  {}

  /** And housekeeping between the two statements of one: the row it read is gone,
      and its update touches nothing. */
  lemma PruningBetweenRevivesOne(p: Person, now: int) returns (states: seq<Sys>, steps: seq<Step>)
    ensures Run(states, steps) && Revived(states[|steps|], Token(p, now - 1, now + HOUR))
  {
    states := Pruned(p, now);
    steps := [Read(0, p, now - REVOCATION_KEPT - 1), Update(0), Tick(now), Read(1, p, now), Housekeep, Update(1)];
    PrunedBegins(p, now);
    PrunedEnds(p, now);
    hide OneStep;
    LatestIsMax(states[6].events, p);
    assert Revocation(p, now) in states[6].events;
  }

  // --- the cache before it --------------------------------------------------------------------------------

  datatype Cached = Cached(until: int, value: Option<int>)

  /** One replica's `Revocations`. What the register held at each moment is given. */
  class Revocations {
    var cache: map<Person, Cached>

    ghost predicate Valid(register: (int, Person) -> Option<int>)
      reads this
    {
      forall p :: p in cache ==> cache[p].value == register(cache[p].until - TTL, p)
    }

    constructor (ghost register: (int, Person) -> Option<int>)
      ensures Valid(register)
    {
      cache := map[];
    }

    /** The answer is what the register held less than half a minute ago. */
    method NotBefore(person: Person, now: int, current: Option<int>, ghost register: (int, Person) -> Option<int>)
      returns (value: Option<int>, ghost readAt: int)
      requires Valid(register) && current == register(now, person)
      requires person in cache ==> cache[person].until <= now + TTL
      modifies this
      ensures Valid(register) && now - 30_000 < readAt <= now && value == register(readAt, person)
    {
      if person in cache && cache[person].until > now {
        return cache[person].value, cache[person].until - TTL;
      }
      value, readAt := current, now;
      if |cache| > CACHE_LIMIT { cache := map[]; }
      cache := cache[person := Cached(now + TTL, value)];
    }

    method Forget(person: Person, ghost register: (int, Person) -> Option<int>)
      requires Valid(register)
      modifies this
      ensures Valid(register) && cache == old(cache) - {person}
    {
      cache := cache - {person};
    }
  }

  /** So half a minute after a revocation is recorded, no replica accepts a token
      issued before it, whatever its cache held. */
  lemma RefusedWithinTtl(register: (int, Person) -> Option<int>, t: Token, recorded: int, at: int, now: int, readAt: int)
    requires forall u :: recorded <= u <= now ==> register(u, t.person).Some? && register(u, t.person).value >= at
    requires now >= recorded + 30_000 && now - 30_000 < readAt <= now && t.issued < at
    ensures !Accepts(register(readAt, t.person), t, now)
  {
    assert register(readAt, t.person).value >= at;
  }
}
