/** `Idempotency-Key` on POSTs that create something
    (cappy_common/idempotency.py): the key table, and any number of requests in
    the middle of their transactions. Milliseconds; a fingerprint stands for
    the route and body it is the hash of. */
module Idempotency {
  import opened Wrappers

  type Person = nat
  type Answer = nat
  type TxId = nat

  const KEEP := 24 * 3_600_000

  datatype Name = Name(person: Person, key: nat)

  datatype Row = Row(hash: nat, answer: Answer, created: int)

  // --- the four statements on the table -------------------------------------------------------------

  /** `replayed`: the first answer, no answer yet, or a key used for another request. */
  function Replayed(table: map<Name, Row>, name: Name, hash: nat): Result<Option<Answer>> {
    if name !in table then Ok(None)
    else if table[name].hash != hash then Err(Invalid)
    else Ok(Some(table[name].answer))
  }

  function Expired(table: map<Name, Row>, now: int): map<Name, Row> {
    map n | n in table && table[n].created >= now - KEEP :: table[n]
  }

  function Forgotten(table: map<Name, Row>, person: Person): map<Name, Row> {
    map n | n in table && n.person != person :: table[n]
  }

  // --- requests -----------------------------------------------------------------------------------------

  /** Where a request is: just arrived; found no answer and at work on its own;
      written, key and effect together, but not committed; done. `effect`: which
      of the committed effects its answer is. */
  datatype Phase =
    | Arrived
    | Working
    | Written(answer: Answer, created: int)
    | Succeeded(reply: Answer, effect: nat)
    | Refused(error: Error)

  datatype Tx = Tx(name: Option<Name>, hash: nat, phase: Phase)

  /** What a transaction did: created something, under a name or none. */
  datatype Effect = Effect(name: Option<Name>, hash: nat, answer: Answer, created: int, committed: int)

  /** Why a name's row is gone, and when. */
  datatype Removal = ByAge(at: int) | ByAccount(at: int)

  datatype Sys = Sys(clock: int, table: map<Name, Row>, txs: map<TxId, Tx>, effects: seq<Effect>, removed: map<nat, Removal>)

  datatype Step =
    | Arrive(t: TxId, name: Option<Name>, hash: nat)
    | Look(t: TxId)
    | Fail(t: TxId, error: Error)
    | Remember(t: TxId, answer: Answer)
    | Commit(t: TxId)
    | Crash(t: TxId)
    | Expire
    | Forget(person: Person)
    | Tick(now: int)

  predicate Holds(x: Tx, name: Name) { x.phase.Written? && x.name == Some(name) }

  ghost predicate CanStep(s: Sys, step: Step) {
    match step
    case Arrive(t, _, _) => t !in s.txs
    case Look(t) => t in s.txs && s.txs[t].phase.Arrived?
    case Fail(t, _) => t in s.txs && s.txs[t].phase.Working?
    case Remember(t, _) =>
      // A copy that wrote the key first makes the insert wait for its outcome.
      && t in s.txs && s.txs[t].phase.Working?
      && forall u :: u in s.txs && s.txs[t].name.Some? ==> !Holds(s.txs[u], s.txs[t].name.value)
    case Commit(t) => t in s.txs && s.txs[t].phase.Written?
    case Crash(t) => t in s.txs
    case Expire => true
    case Forget(_) => true
    case Tick(now) => s.clock <= now
  }

  function To(s: Sys, t: TxId, p: Phase): Sys
    requires t in s.txs
  {
    s.(txs := s.txs[t := s.txs[t].(phase := p)])
  }

  /** The committed effect a row was written with: the last of its name. */
  function LastOf(effects: seq<Effect>, name: Name): nat {
    if effects == [] then 0
    else if effects[|effects| - 1].name == Some(name) then |effects| - 1
    else LastOf(effects[..|effects| - 1], name)
  }

  function Looked(s: Sys, x: Tx): Phase {
    if x.name.None? then Working
    else
      match Replayed(s.table, x.name.value, x.hash)
      case Err(e) => Refused(e)
      case Ok(None) => Working
      case Ok(Some(answer)) => Succeeded(answer, LastOf(s.effects, x.name.value))
  }

  /** `remember`: the key's primary key refuses a second row. */
  function Remembered(s: Sys, x: Tx, answer: Answer): Phase {
    if x.name.Some? && x.name.value in s.table then Refused(Conflict) else Written(answer, s.clock)
  }

  /** The effects whose rows a deletion takes. */
  function RemovedNow(s: Sys, table: map<Name, Row>, why: Removal): map<nat, Removal> {
    s.removed + map n | n in s.table.Keys - table.Keys :: LastOf(s.effects, n) := why
  }

  ghost function Next(s: Sys, step: Step): Sys
    requires CanStep(s, step)
  {
    match step
    case Arrive(t, name, hash) => s.(txs := s.txs[t := Tx(name, hash, Arrived)])
    case Look(t) => To(s, t, Looked(s, s.txs[t]))
    case Fail(t, error) => To(s, t, Refused(error))
    case Remember(t, answer) => To(s, t, Remembered(s, s.txs[t], answer))
    case Commit(t) =>
      var x := s.txs[t];
      var s1 := s.(effects := s.effects + [Effect(x.name, x.hash, x.phase.answer, x.phase.created, s.clock)]);
      var s2 := if x.name.Some? then s1.(table := s.table[x.name.value := Row(x.hash, x.phase.answer, x.phase.created)]) else s1;
      To(s2, t, Succeeded(x.phase.answer, |s.effects|))
    case Crash(t) => s.(txs := s.txs - {t})
    case Expire => s.(table := Expired(s.table, s.clock), removed := RemovedNow(s, Expired(s.table, s.clock), ByAge(s.clock)))
    case Forget(p) => s.(table := Forgotten(s.table, p), removed := RemovedNow(s, Forgotten(s.table, p), ByAccount(s.clock)))
    case Tick(now) => s.(clock := now)
  }

  // --- what every run keeps ------------------------------------------------------------------------------

  /** An effect is live while its row is in the table. */
  predicate Live(s: Sys, i: nat) {
    i < |s.effects| && s.effects[i].name.Some? && i !in s.removed
  }

  /** The row of a live effect is its own; a removed one's was old enough, or its person's account was closed. */
  ghost predicate EffectOk(s: Sys, i: nat)
    requires i < |s.effects|
  {
    var e := s.effects[i];
    && e.created <= e.committed <= s.clock
    && (Live(s, i) ==>
      && e.name.value in s.table && s.table[e.name.value] == Row(e.hash, e.answer, e.created)
      && LastOf(s.effects, e.name.value) == i)
    && (i in s.removed ==>
      && e.committed <= s.removed[i].at <= s.clock
      && (s.removed[i].ByAge? ==> s.removed[i].at > e.created + KEEP))
  }

  ghost predicate RowOk(s: Sys, n: Name) {
    n in s.table ==> Live(s, LastOf(s.effects, n)) && s.effects[LastOf(s.effects, n)].name == Some(n)
  }

  ghost predicate TxOk(s: Sys, x: Tx) {
    && (x.phase.Written? && x.name.Some? ==> x.name.value !in s.table)
    && (x.phase.Written? ==> x.phase.created <= s.clock)
    && (x.phase.Succeeded? ==>
      && x.phase.effect < |s.effects|
      && var e := s.effects[x.phase.effect]; e.name == x.name && e.hash == x.hash && e.answer == x.phase.reply)
  }

  /** Two effects of one name: the earlier one's row had gone before the later was committed. */
  ghost predicate InTurn(s: Sys, i: nat, j: nat)
    requires i < j < |s.effects|
  {
    s.effects[i].name.Some? && s.effects[i].name == s.effects[j].name ==>
      i in s.removed && s.removed[i].at <= s.effects[j].committed
  }

  ghost predicate SysOk(s: Sys) {
    && (forall i :: 0 <= i < |s.effects| ==> EffectOk(s, i))
    && (forall n :: RowOk(s, n))
    && (forall i :: i in s.removed ==> i < |s.effects|)
    && (forall t :: t in s.txs ==> TxOk(s, s.txs[t]))
    && (forall t, u, n :: t in s.txs && u in s.txs && t != u ==> !(Holds(s.txs[t], n) && Holds(s.txs[u], n)))
    && (forall i, j :: 0 <= i < j < |s.effects| ==> InTurn(s, i, j))
  }

  lemma {:induction false} LastOfIs(effects: seq<Effect>, name: Name)
    ensures effects != [] ==> LastOf(effects, name) < |effects|
    ensures forall i :: 0 <= i < |effects| && effects[i].name == Some(name) ==>
      i <= LastOf(effects, name) && effects[LastOf(effects, name)].name == Some(name)
  {
    if effects != [] { LastOfIs(effects[..|effects| - 1], name); }
  }

  lemma LastOfAdded(effects: seq<Effect>, e: Effect, name: Name)
    ensures LastOf(effects + [e], name) == if e.name == Some(name) then |effects| else LastOf(effects, name)
  {
    assert (effects + [e])[..|effects|] == effects;
  }

  /** A request going on to a phase that claims nothing new. */
  lemma PhaseKeeps(s: Sys, t: TxId, p: Phase)
    requires SysOk(s) && t in s.txs && TxOk(s, s.txs[t].(phase := p))
    requires forall u, n :: u in s.txs && u != t && Holds(s.txs[t].(phase := p), n) ==> !Holds(s.txs[u], n)
    ensures SysOk(To(s, t, p))
  {
    var s' := To(s, t, p);
    forall i | 0 <= i < |s'.effects| ensures EffectOk(s', i) { assert EffectOk(s, i); }
    forall n ensures RowOk(s', n) { assert RowOk(s, n); }
    forall i, j | 0 <= i < j < |s'.effects| ensures InTurn(s', i, j) { assert InTurn(s, i, j); }
    forall u | u in s'.txs ensures TxOk(s', s'.txs[u]) { assert u != t ==> TxOk(s, s.txs[u]); }
  }

  lemma LookKeeps(s: Sys, t: TxId)
    requires SysOk(s) && CanStep(s, Look(t))
    ensures SysOk(Next(s, Look(t)))
  {
    var x := s.txs[t];
    if x.name.Some? && x.name.value in s.table {
      var n := x.name.value;
      assert RowOk(s, n) && EffectOk(s, LastOf(s.effects, n));
    }
    PhaseKeeps(s, t, Looked(s, x));
  }

  lemma CommitKeeps(s: Sys, t: TxId)
    requires SysOk(s) && CanStep(s, Commit(t))
    ensures SysOk(Next(s, Commit(t)))
  {
    CommitKeepsEffects(s, t);
    CommitKeepsOthers(s, t);
    hide EffectOk, RowOk, InTurn, TxOk;
  }

  lemma CommitKeepsEffects(s: Sys, t: TxId)
    requires SysOk(s) && CanStep(s, Commit(t))
    ensures var s' := Next(s, Commit(t));
      && (forall i, j :: 0 <= i < j < |s'.effects| ==> InTurn(s', i, j)) && (forall i :: 0 <= i < |s'.effects| ==> EffectOk(s', i))
      && forall n :: RowOk(s', n)
  {
    var s' := Next(s, Commit(t));
    var x := s.txs[t];
    assert TxOk(s, x);
    hide LastOf;
    forall n ensures LastOf(s'.effects, n) == if x.name == Some(n) then |s.effects| else LastOf(s.effects, n) {
      LastOfAdded(s.effects, s'.effects[|s.effects|], n);
    }
    forall i, j | 0 <= i < j < |s'.effects| ensures InTurn(s', i, j) {
      if j < |s.effects| { assert InTurn(s, i, j); } else { assert EffectOk(s, i); }
    }
    forall i | 0 <= i < |s'.effects| ensures EffectOk(s', i) {
      if i < |s.effects| { assert EffectOk(s, i); }
    }
    forall n ensures RowOk(s', n) { assert RowOk(s, n); }
  }

  lemma CommitKeepsOthers(s: Sys, t: TxId)
    requires SysOk(s) && CanStep(s, Commit(t))
    ensures var s' := Next(s, Commit(t));
      && (forall u :: u in s'.txs ==> TxOk(s', s'.txs[u]))
      && (forall u, v, n :: u in s'.txs && v in s'.txs && u != v ==> !(Holds(s'.txs[u], n) && Holds(s'.txs[v], n)))
  {
    var s' := Next(s, Commit(t));
    var x := s.txs[t];
    hide EffectOk, RowOk, InTurn;
    forall u | u in s'.txs ensures TxOk(s', s'.txs[u]) {
      if u != t {
        assert TxOk(s, s.txs[u]);
        assert x.name.Some? ==> !(Holds(s.txs[t], x.name.value) && Holds(s.txs[u], x.name.value));
      }
    }
  }

  lemma RemovalKeeps(s: Sys, table: map<Name, Row>, why: Removal)
    requires SysOk(s) && why.at == s.clock && table.Keys <= s.table.Keys && forall n :: n in table ==> table[n] == s.table[n]
    requires why.ByAge? ==> forall n :: n in s.table && n !in table ==> s.table[n].created < s.clock - KEEP
    ensures SysOk(s.(table := table, removed := RemovedNow(s, table, why)))
  {
    var s' := s.(table := table, removed := RemovedNow(s, table, why));
    forall n | n in s.table ensures LastOf(s.effects, n) !in s.removed { assert RowOk(s, n); }
    assert forall i :: i in s.removed ==> i in s'.removed && s'.removed[i] == s.removed[i];
    forall n ensures RowOk(s', n) {
      assert RowOk(s, n);
      if n in table {
        forall m | m in s.table.Keys - table.Keys ensures LastOf(s.effects, m) != LastOf(s.effects, n) { assert RowOk(s, m); }
      }
    }
    forall i | i in s'.removed ensures i < |s'.effects| {
      if i !in s.removed {
        var n :| n in s.table.Keys - table.Keys && LastOf(s.effects, n) == i;
        assert RowOk(s, n);
      }
    }
    forall i | 0 <= i < |s'.effects| ensures EffectOk(s', i) {
      assert EffectOk(s, i);
      if i in s'.removed && i !in s.removed {
        var n :| n in s.table.Keys - table.Keys && LastOf(s.effects, n) == i;
        assert RowOk(s, n);
      }
    }
    forall i, j | 0 <= i < j < |s'.effects| ensures InTurn(s', i, j) { assert InTurn(s, i, j); }
    forall t | t in s'.txs ensures TxOk(s', s'.txs[t]) { assert TxOk(s, s.txs[t]); }
  }

  lemma StepKeeps(s: Sys, step: Step)
    requires SysOk(s) && CanStep(s, step)
    ensures SysOk(Next(s, step))
  {
    match step {
      case Arrive(_, _, _) => OthersKeep(s, step);
      case Look(t) => LookKeeps(s, t);
      case Fail(t, error) => PhaseKeeps(s, t, Refused(error));
      case Remember(t, answer) => PhaseKeeps(s, t, Remembered(s, s.txs[t], answer));
      case Commit(t) => CommitKeeps(s, t);
      case Crash(_) => OthersKeep(s, step);
      case Expire => RemovalKeeps(s, Expired(s.table, s.clock), ByAge(s.clock));
      case Forget(p) => RemovalKeeps(s, Forgotten(s.table, p), ByAccount(s.clock));
      case Tick(_) => OthersKeep(s, step);
    }
  }

  lemma OthersKeep(s: Sys, step: Step)
    requires SysOk(s) && CanStep(s, step) && (step.Arrive? || step.Crash? || step.Tick?)
    ensures SysOk(Next(s, step))
  {
    var s' := Next(s, step);
    forall i | 0 <= i < |s'.effects| ensures EffectOk(s', i) { assert EffectOk(s, i); }
    forall n ensures RowOk(s', n) { assert RowOk(s, n); }
    forall i, j | 0 <= i < j < |s'.effects| ensures InTurn(s', i, j) { assert InTurn(s, i, j); }
    forall u | u in s'.txs ensures TxOk(s', s'.txs[u]) { assert u in s.txs ==> TxOk(s, s.txs[u]); }
  }

  ghost predicate Run(states: seq<Sys>, steps: seq<Step>) {
    && |states| == |steps| + 1 && states[0] == Sys(states[0].clock, map[], map[], [], map[])
    && forall i :: 0 <= i < |steps| ==> OneStep(states[i], steps[i], states[i + 1])
  }

  ghost predicate OneStep(s: Sys, step: Step, s': Sys) { CanStep(s, step) && s' == Next(s, step) }

  lemma {:induction false} RunKeeps(states: seq<Sys>, steps: seq<Step>, i: nat)
    requires Run(states, steps) && i < |states|
    ensures SysOk(states[i])
  {
    hide CanStep, Next;
    if i > 0 {
      hide SysOk;
      RunKeeps(states, steps, i - 1);
      assert OneStep(states[i - 1], steps[i - 1], states[i]);
      StepKeeps(states[i - 1], steps[i - 1]);
    }
  }

  // --- what it is for ------------------------------------------------------------------------------------------

  /** However copies of a request race: between two effects of one key its row
      was deleted, a day or more after the first was written or because the
      account was closed. */
  lemma OncePerKey(states: seq<Sys>, steps: seq<Step>, k: nat, i: nat, j: nat)
    requires Run(states, steps) && k < |states| && i < j < |states[k].effects|
    requires states[k].effects[i].name.Some? && states[k].effects[i].name == states[k].effects[j].name
    ensures var s := states[k]; var a, b := s.effects[i], s.effects[j];
      i in s.removed && s.removed[i].at <= b.committed
      && (s.removed[i].ByAccount? || b.committed > a.created + KEEP)
  {
    RunKeeps(states, steps, k);
    assert InTurn(states[k], i, j) && EffectOk(states[k], i);
  }

  /** Every success of a key is the answer of an effect of that key and that
      very request, and all of them the same one, unless it was deleted between. */
  lemma SuccessesAgree(states: seq<Sys>, steps: seq<Step>, k: nat, t: TxId, u: TxId)
    requires Run(states, steps) && k < |states| && t in states[k].txs && u in states[k].txs
    requires states[k].txs[t].phase.Succeeded? && states[k].txs[u].phase.Succeeded?
    requires states[k].txs[t].name.Some? && states[k].txs[t].name == states[k].txs[u].name
    ensures var s, x, y := states[k], states[k].txs[t], states[k].txs[u];
      && x.phase.effect < |s.effects| && s.effects[x.phase.effect].name == x.name
      && (x.phase.effect == y.phase.effect ==> x.phase.reply == y.phase.reply && x.hash == y.hash)
      && (x.phase.effect < y.phase.effect ==> x.phase.effect in s.removed)
  {
    RunKeeps(states, steps, k);
    var s, x, y := states[k], states[k].txs[t], states[k].txs[u];
    assert TxOk(s, x) && TxOk(s, y);
    if x.phase.effect < y.phase.effect { assert InTurn(s, x.phase.effect, y.phase.effect); }
  }

  /** While the first effect of a key lives, a copy of it is answered with its
      answer or told to retry, and another request under the key is refused. */
  lemma WhileItLives(states: seq<Sys>, steps: seq<Step>, k: nat, i: nat, x: Tx, answer: Answer)
    requires Run(states, steps) && k < |states| && i < |states[k].effects| && Live(states[k], i)
    requires x.name == states[k].effects[i].name
    ensures var s := states[k]; var e := s.effects[i];
      && Looked(s, x) == (if x.hash == e.hash then Succeeded(e.answer, i) else Refused(Invalid))
      && Remembered(s, x, answer) == Refused(Conflict)
  {
    RunKeeps(states, steps, k);
    assert EffectOk(states[k], i);
  }

  // --- the table itself --------------------------------------------------------------------------------------------

  class KeyTable {
    var rows: map<Name, Row>

    constructor ()
      ensures rows == map[]
    {
      rows := map[];
    }

    method Remember(name: Option<Name>, hash: nat, answer: Answer, now: int) returns (refused: Option<Error>)
      modifies this
      ensures refused == if name.Some? && name.value in old(rows) then Some(Conflict) else None
      ensures rows == if refused == None && name.Some? then old(rows)[name.value := Row(hash, answer, now)] else old(rows)
      ensures refused == None && name.Some? ==> Replayed(rows, name.value, hash) == Ok(Some(answer))
    {
      if name.None? { return None; }
      if name.value in rows { return Some(Conflict); }
      rows := rows[name.value := Row(hash, answer, now)];
      return None;
    }

    method Expire(now: int) returns (gone: nat)
      modifies this
      ensures rows == Expired(old(rows), now) && gone + |rows| == |old(rows)|
      ensures forall n :: n in rows <==> n in old(rows) && now <= old(rows)[n].created + 86_400_000
      ensures forall n :: n in rows ==> rows[n] == old(rows)[n]
    {
      var all := rows;
      rows := Expired(rows, now);
      assert rows.Keys + (all.Keys - rows.Keys) == all.Keys;
      gone := |all.Keys - rows.Keys|;
    }

    method Forget(person: Person)
      modifies this
      ensures rows == Forgotten(old(rows), person)
      ensures forall n :: n in rows <==> n in old(rows) && n.person != person
      ensures forall n :: n in rows ==> rows[n] == old(rows)[n]
    {
      rows := Forgotten(rows, person);
    }
  }
}
