/** Creation end to end: the app's keys and the service's replay, over a network
    that may lose, repeat or delay requests and lose any answer. */
module IdempotentCreation {
  import opened Wrappers
  import opened Booking
  import opened BookingInvariants
  import opened BookingOps
  import opened BookingSystem
  import opened BookingState
  import A = AttemptKeys
  import H = BookingHistory

  ghost predicate WasAsked(steps: seq<Step>, n: nat, ask: Ask) {
    exists k :: 0 <= k < n <= |steps| && steps[k].Arrive? && steps[k].ask == ask
  }

  /** Every request and every row goes back to an ask that arrived. */
  ghost predicate Traced(steps: seq<Step>, n: nat, s: Sys) {
    && (forall t :: t in s.txs ==> WasAsked(steps, n, s.txs[t].ask))
    && forall id :: id in s.db.bookings ==> RowTraced(steps, n, s.db.bookings[id])
  }

  ghost predicate RowTraced(steps: seq<Step>, n: nat, row: Row) {
    WasAsked(steps, n, Ask(row.terms.requester, row.terms.key, row.terms.hash))
  }

  /** Rows come from commits; every other step leaves the ids as they are. */
  lemma NewRows(cfg: Settings, s: Sys, step: Step)
    requires SysOk(cfg, s) && CanStep(cfg, s, step) && AmountsOk(s.db)
    ensures forall id :: id in Next(cfg, s, step).db.bookings && id !in s.db.bookings ==>
      step.Commit? && Next(cfg, s, step).db.bookings[id] == s.txs[step.t].phase.row
  {
    match step {
      case Commit(t) => CommitRows(cfg, s, t);
      case Pay(t, start, read) => PayRows(cfg, s, t, start, read);
      case Other(op, read) => OtherRows(cfg, s, op, read);
      case Tick(now) => TickRows(cfg, s, now);
      case _ => TablesUntouched(cfg, s, step);
    }
    hide SysOk, CanStep, AmountsOk, Next;
  }

  lemma CommitRows(cfg: Settings, s: Sys, t: TxId)
    requires CanStep(cfg, s, Commit(t)) && AmountsOk(s.db)
    ensures forall id :: id in Next(cfg, s, Commit(t)).db.bookings && id !in s.db.bookings ==>
      Next(cfg, s, Commit(t)).db.bookings[id] == s.txs[t].phase.row
  {
    hide AmountsOk;
  }

  lemma TickRows(cfg: Settings, s: Sys, now: int)
    requires CanStep(cfg, s, Step.Tick(now)) && AmountsOk(s.db)
    ensures Next(cfg, s, Step.Tick(now)).db.bookings == s.db.bookings
  {
    hide AmountsOk;
  }

  lemma PayRows(cfg: Settings, s: Sys, t: TxId, start: PaymentStart, read: int)
    requires CanStep(cfg, s, Pay(t, start, read)) && AmountsOk(s.db)
    ensures Next(cfg, s, Pay(t, start, read)).db.bookings.Keys == s.db.bookings.Keys
  {
    RefusalRows(s.db, s.txs[t].phase.id, read);
    hide AmountsOk, PaymentRefused;
  }

  lemma RefusalRows(db: DB, id: Id, now: int)
    ensures PaymentRefused(db, id, now).bookings.Keys == db.bookings.Keys
  {}

  lemma OtherRows(cfg: Settings, s: Sys, op: Op, read: int)
    requires SysOk(cfg, s) && CanStep(cfg, s, Other(op, read)) && AmountsOk(s.db)
    ensures Next(cfg, s, Other(op, read)).db.bookings.Keys == s.db.bookings.Keys
  {
    TablesFine(cfg, s);
    OtherIs(cfg, s, op, read);
    hide SysOk, CanStep, Next, AmountsOk, Inv, Enabled, After;
    OpRows(cfg, s.db, op, read);
  }

  lemma OpRows(cfg: Settings, db: DB, op: Op, now: int)
    requires Inv(cfg, db) && Enabled(cfg, db, op, now) && AmountsOk(db)
    ensures After(cfg, db, op, now).bookings.Keys == db.bookings.Keys
  {
    hide Inv, After, Enabled, AmountsOk, RowLater;
    AfterKeeps(cfg, db, op, now);
  }

  lemma TablesFine(cfg: Settings, s: Sys)
    requires SysOk(cfg, s)
    ensures Inv(cfg, s.db)
  {}

  lemma SameAsk(cfg: Settings, s: Sys, step: Step, t: TxId)
    requires CanStep(cfg, s, step) && AmountsOk(s.db) && t in Next(cfg, s, step).txs
    ensures if t in s.txs then Next(cfg, s, step).txs[t].ask == s.txs[t].ask
            else step.Arrive? && Next(cfg, s, step).txs[t].ask == step.ask
  {
    hide Fresh, AskedFor, Enabled, HasKey, Taken, AfterCheck, AfterInsert, AfterRollback, Replay, PaymentRefused, Insert, After;
  }

  lemma {:induction false} RunTraced(cfg: Settings, states: seq<Sys>, steps: seq<Step>, i: nat)
    requires Run(cfg, states, steps) && i < |states|
    ensures Traced(steps, i, states[i])
  {
    hide CanStep, SysOk;
    if i > 0 {
      hide Next;
      RunTraced(cfg, states, steps, i - 1);
      RunKeeps(cfg, states, steps, i - 1);
      assert OneStep(cfg, states[i - 1], steps[i - 1], states[i]);
      StepTraced(cfg, states[i - 1], steps, i - 1);
    }
  }

  lemma StepTraced(cfg: Settings, s: Sys, steps: seq<Step>, n: nat)
    requires SysOk(cfg, s) && Traced(steps, n, s) && n < |steps| && CanStep(cfg, s, steps[n]) && AmountsOk(s.db)
    ensures Traced(steps, n + 1, Next(cfg, s, steps[n]))
  {
    var s' := Next(cfg, s, steps[n]);
    NewRows(cfg, s, steps[n]);
    StepGrows(cfg, s, steps[n]);
    if steps[n].Commit? { CommittedAsk(cfg, s, steps[n]); }
    hide SysOk, CanStep, Next, AmountsOk;
    forall t | t in s'.txs ensures WasAsked(steps, n + 1, s'.txs[t].ask) {
      SameAsk(cfg, s, steps[n], t);
      if t in s.txs { Later(steps, n, s.txs[t].ask); }
    }
    forall id | id in s'.db.bookings ensures RowTraced(steps, n + 1, s'.db.bookings[id]) {
      var row := s'.db.bookings[id];
      var ask := Ask(row.terms.requester, row.terms.key, row.terms.hash);
      if id in s.db.bookings {
        assert RowLater(s.db.bookings[id], row) && RowTraced(steps, n, s.db.bookings[id]);
      }
      Later(steps, n, ask);
    }
  }

  lemma CommittedAsk(cfg: Settings, s: Sys, step: Step)
    requires SysOk(cfg, s) && CanStep(cfg, s, step) && step.Commit?
    ensures var row := s.txs[step.t].phase.row; s.txs[step.t].ask == Ask(row.terms.requester, row.terms.key, row.terms.hash)
  {
    assert TxOk(s.db, s.txs[step.t]);
    hide Inv, Apart, Fresh, Taken, HasKey;
  }

  lemma Later(steps: seq<Step>, n: nat, ask: Ask)
    requires n < |steps| && WasAsked(steps, n, ask)
    ensures WasAsked(steps, n + 1, ask)
  {}

  // --- the two together ------------------------------------------------------------------------------

  /** A person's keyed requests are ones their app sent, from one screen or another
      (each has keys of its own), whatever the network did with them on the way; a
      body's fingerprint stands for the body. */
  ghost predicate FromApp(steps: seq<Step>, person: Person, logs: seq<seq<A.Event>>) {
    forall k :: 0 <= k < |steps| && steps[k].Arrive? && steps[k].ask.requester == person && steps[k].ask.key.Some? ==>
      Sent(logs, steps[k].ask)
  }

  ghost predicate SentFrom(log: seq<A.Event>, ask: Ask) {
    ask.key.Some? && exists i :: 0 <= i < |log| && log[i] == A.Asked(ask.key.value, ask.hash)
  }

  ghost predicate Sent(logs: seq<seq<A.Event>>, ask: Ask) {
    exists l :: 0 <= l < |logs| && SentFrom(logs[l], ask)
  }

  /** Every screen keeps its discipline, and no two ever make the same key. */
  ghost predicate Screens(logs: seq<seq<A.Event>>) {
    && (forall l :: 0 <= l < |logs| ==> A.Disciplined(logs[l]))
    && forall l, m, key :: 0 <= l < m < |logs| ==> !(A.Used(logs[l], key) && A.Used(logs[m], key))
  }

  lemma AskedIsSent(steps: seq<Step>, n: nat, person: Person, logs: seq<seq<A.Event>>, ask: Ask)
    requires FromApp(steps, person, logs) && WasAsked(steps, n, ask) && ask.requester == person && ask.key.Some?
    ensures Sent(logs, ask)
  {}

  lemma SentWithOneBody(logs: seq<seq<A.Event>>, x: Ask, y: Ask)
    requires Screens(logs) && Sent(logs, x) && Sent(logs, y) && x.key == y.key
    ensures x.hash == y.hash
  {
    var l :| 0 <= l < |logs| && SentFrom(logs[l], x);
    var m :| 0 <= m < |logs| && SentFrom(logs[m], y);
    assert A.Used(logs[l], x.key.value) && A.Used(logs[m], x.key.value);
    assert l == m;
    var i :| 0 <= i < |logs[l]| && logs[l][i] == A.Asked(x.key.value, x.hash);
    var j :| 0 <= j < |logs[l]| && logs[l][j] == A.Asked(y.key.value, y.hash);
    if i < j { A.OneBodyPerKey(logs[l], i, j); }
    if j < i { A.OneBodyPerKey(logs[l], j, i); }
  }

  /** No retry is ever refused as another request under a used key: whenever its
      booking exists, a copy is taken to it. */
  lemma NeverMistaken(
    cfg: Settings, states: seq<Sys>, steps: seq<Step>, n: nat, t: TxId, logs: seq<seq<A.Event>>)
    requires Run(cfg, states, steps) && n < |states| && t in states[n].txs
    requires Screens(logs) && FromApp(steps, states[n].txs[t].ask.requester, logs)
    requires HasKey(states[n].db, states[n].txs[t].ask)
    ensures Replay(states[n].db, states[n].txs[t].ask).Found?
  {
    var s := states[n];
    var ask := s.txs[t].ask;
    RunTraced(cfg, states, steps, n);
    forall id | Keyed(s.db, ask, id) ensures s.db.bookings[id].terms.hash == ask.hash {
      var terms := s.db.bookings[id].terms;
      var made := Ask(terms.requester, terms.key, terms.hash);
      assert RowTraced(steps, n, s.db.bookings[id]);
      AskedIsSent(steps, n, ask.requester, logs, made);
      AskedIsSent(steps, n, ask.requester, logs, ask);
      SentWithOneBody(logs, made, ask);
    }
  }

  /** Pressing again after an answer that was lost, or a 5xx: however many copies
      of the two calls arrive, they make one booking, and every success names it. */
  lemma RetryMakesOneBooking(
    cfg: Settings, states: seq<Sys>, steps: seq<Step>, n: nat, log: seq<A.Event>, i: nat, j: nat, t: TxId, u: TxId)
    requires Run(cfg, states, steps) && n < |states| && t in states[n].txs && u in states[n].txs
    requires A.Disciplined(log) && i < j < |log| && log[i].Asked? && log[j].Asked? && log[i].body == log[j].body
    requires forall k :: i < k < j ==> log[k].Settled? && !A.Concludes(log[k].outcome)
    requires states[n].txs[t].ask.requester == states[n].txs[u].ask.requester
    requires states[n].txs[t].ask.key == Some(log[i].key) && states[n].txs[u].ask.key == Some(log[j].key)
    ensures forall a, b :: Keyed(states[n].db, states[n].txs[t].ask, a) && Keyed(states[n].db, states[n].txs[u].ask, b) ==> a == b
    ensures var x, y := states[n].txs[t].phase, states[n].txs[u].phase;
      x.Answered? && x.reply.Created? && y.Answered? && y.reply.Created? ==> x.reply.id == y.reply.id
  {
    A.KeyStaysIff(log, i, j);
    RunKeeps(cfg, states, steps, n);
    var s := states[n];
    TablesFine(cfg, s);
    hide SysOk;
    forall a, b | Keyed(s.db, s.txs[t].ask, a) && Keyed(s.db, s.txs[u].ask, b) ensures a == b {
      H.OnlyOneKeyed(cfg, s.db, s.txs[t].ask, a);
      assert Keyed(s.db, s.txs[t].ask, b);
    }
    var x, y := s.txs[t].phase, s.txs[u].phase;
    if x.Answered? && x.reply.Created? && y.Answered? && y.reply.Created? {
      H.RepliesNameOneBooking(cfg, states, steps, n, t, u);
    }
  }
}
