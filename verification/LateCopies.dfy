/** A copy of a keyed request that comes late: its first booking was committed
    when it was already past its key lookup (`create` in booking/routes.py). */
module LateCopies {
  import opened Wrappers
  import opened BookingState
  import opened Booking
  import opened BookingInvariants
  import opened BookingOps
  import opened BookingSystem
  import H = BookingHistory
  import A = AttemptKeys

  /** Where such a copy can be: still on its way, refused, or led to the first booking. */
  predicate OnlyToFirst(p: Phase, first: Id) {
    || p.Priced? || p.Locked? || p.WindowFree? || p.RolledBack?
    || (p.Found? && p.id == first)
    || (p.Answered? && (p.reply.Refused? || p.reply.id == first))
  }

  ghost predicate Late(s: Sys, t: TxId, ask: Ask, first: Id) {
    && t in s.txs && s.txs[t].ask == ask && OnlyToFirst(s.txs[t].phase, first)
    && Keyed(s.db, ask, first)
  }

  lemma StillKeyed(cfg: Settings, s: Sys, step: Step, ask: Ask, first: Id)
    requires SysOk(cfg, s) && CanStep(cfg, s, step) && AmountsOk(s.db) && Keyed(s.db, ask, first)
    ensures Keyed(Next(cfg, s, step).db, ask, first)
  {
    StepGrows(cfg, s, step);
    hide SysOk, CanStep, Next, AmountsOk;
    assert RowLater(s.db.bookings[first], Next(cfg, s, step).db.bookings[first]);
  }

  /** Its own steps. */
  predicate IsOwn(step: Step, t: TxId) {
    (step.LockListing? || step.CheckWindow? || step.InsertRow? || step.Contend? || step.Recheck? || step.Pay?) && step.t == t
  }

  ghost predicate OwnMove(db: DB, ask: Ask, step: Step, p: Phase, q: Phase) {
    match step
    case LockListing(_) => q.Locked?
    case CheckWindow(_) => q.WindowFree? || (q.Answered? && q.reply.Refused?)
    case InsertRow(_) => p.WindowFree? && q == AfterInsert(db, ask, p)
    case Contend(_) => q.RolledBack?
    case Recheck(_) => q == AfterRollback(db, ask)
    case Pay(_, _, _) => p.Found? && q.Answered? && (q.reply.Refused? || q.reply.id == p.id)
    case _ => false
  }

  lemma OwnPhase(cfg: Settings, s: Sys, step: Step, t: TxId)
    requires CanStep(cfg, s, step) && AmountsOk(s.db) && IsOwn(step, t)
    ensures t in s.txs && t in Next(cfg, s, step).txs && Next(cfg, s, step).txs[t].ask == s.txs[t].ask
    ensures OwnMove(s.db, s.txs[t].ask, step, s.txs[t].phase, Next(cfg, s, step).txs[t].phase)
  {
    hide AmountsOk, Taken, PaymentRefused, AfterInsert, AfterRollback, Replay, HasKey, HoldsLock, SameKey;
  }

  lemma OwnStep(cfg: Settings, s: Sys, step: Step, t: TxId, ask: Ask, first: Id)
    requires SysOk(cfg, s) && CanStep(cfg, s, step) && AmountsOk(s.db) && Late(s, t, ask, first) && IsOwn(step, t)
    ensures t in Next(cfg, s, step).txs && Next(cfg, s, step).txs[t].ask == ask
    ensures OnlyToFirst(Next(cfg, s, step).txs[t].phase, first)
  {
    assert Inv(cfg, s.db) by { hide Inv, TxOk, Apart; }
    LateCopyFindsItsBooking(cfg, s.db, ask, s.txs[t].phase, first);
    OwnPhase(cfg, s, step, t);
    hide SysOk, CanStep, Next, AmountsOk, Inv, AfterInsert, AfterRollback, Keyed;
  }

  lemma OthersStep(cfg: Settings, s: Sys, step: Step, t: TxId)
    requires CanStep(cfg, s, step) && AmountsOk(s.db) && t in s.txs && step != Crash(t)
    requires step.Other? || step.Tick? || step.Arrive? || step.t != t
    ensures t in Next(cfg, s, step).txs && Next(cfg, s, step).txs[t] == s.txs[t]
  {
    hide Fresh, AskedFor, Enabled, HasKey, Taken, AfterCheck, AfterInsert, AfterRollback, Replay, PaymentRefused, Insert, After, AmountsOk;
  }

  /** It is past its lookup and its offer, and holds no insert to commit. */
  lemma NotEarly(cfg: Settings, s: Sys, step: Step, t: TxId, first: Id)
    requires CanStep(cfg, s, step) && t in s.txs && OnlyToFirst(s.txs[t].phase, first)
    requires !IsOwn(step, t) && step != Crash(t)
    ensures step.Other? || step.Tick? || step.Arrive? || step.t != t
  {
    hide Fresh, AskedFor, Enabled;
  }

  lemma StepStaysLate(cfg: Settings, s: Sys, step: Step, t: TxId, ask: Ask, first: Id)
    requires SysOk(cfg, s) && CanStep(cfg, s, step) && AmountsOk(s.db) && Late(s, t, ask, first) && step != Crash(t)
    ensures Late(Next(cfg, s, step), t, ask, first)
  {
    StillKeyed(cfg, s, step, ask, first);
    if IsOwn(step, t) {
      OwnStep(cfg, s, step, t, ask, first);
    } else {
      NotEarly(cfg, s, step, t, first);
      OthersStep(cfg, s, step, t);
    }
    hide SysOk, CanStep, Next, AmountsOk;
  }

  /** Whatever happens in between: a late copy never makes a booking of its own.
      It is refused, or ends at the first one. */
  lemma {:induction false} LateCopyEndsAtFirst(
    cfg: Settings, states: seq<Sys>, steps: seq<Step>, i: nat, j: nat, t: TxId, first: Id)
    requires Run(cfg, states, steps) && i <= j < |states| && t in states[i].txs
    requires Keyed(states[i].db, states[i].txs[t].ask, first) && OnlyToFirst(states[i].txs[t].phase, first)
    requires forall k :: i <= k < j ==> steps[k] != Crash(t)
    ensures Late(states[j], t, states[i].txs[t].ask, first)
    decreases j
  {
    hide SysOk, CanStep, Next, AmountsOk;
    if i < j {
      LateCopyEndsAtFirst(cfg, states, steps, i, j - 1, t, first);
      RunKeeps(cfg, states, steps, j - 1);
      assert OneStep(cfg, states[j - 1], steps[j - 1], states[j]);
      StepStaysLate(cfg, states[j - 1], steps[j - 1], t, states[i].txs[t].ask, first);
    }
  }

  /** What the check says of a row that asks for what the first booking asked for. */
  ghost predicate Verdict(db: DB, p: Phase, first: Id, next: Phase)
    requires p.Locked? && first in db.bookings
  {
    && (next == Answered(Refused(Conflict)) || next == WindowFree(p.id, p.row))
    && (Holding(db.bookings[first].status) ==>
      next == Answered(Refused(Conflict)) && forall b :: b in db.bookings && Clash(p.row, db.bookings[b]) ==> b == first)
    && (!Holding(db.bookings[first].status) ==>
      (next == Answered(Refused(Conflict)) <==> exists b :: b != first && b in db.bookings && Clash(p.row, db.bookings[b])))
  }

  /** What its window check says, when it asks for what the first copy asked for:
      while the first booking holds the window it is "just taken", by that booking
      and no other; once it let go, exactly if another holds some of it. */
  lemma LateCheck(cfg: Settings, states: seq<Sys>, steps: seq<Step>, i: nat, t: TxId, first: Id)
    requires Run(cfg, states, steps) && i < |states| && t in states[i].txs && states[i].txs[t].phase.Locked?
    requires Keyed(states[i].db, states[i].txs[t].ask, first)
    requires SameWindow(states[i].txs[t].phase.row, states[i].db.bookings[first])
    ensures AmountsOk(states[i].db) && CanStep(cfg, states[i], CheckWindow(t))
    ensures Verdict(states[i].db, states[i].txs[t].phase, first, Next(cfg, states[i], CheckWindow(t)).txs[t].phase)
  {
    RunKeeps(cfg, states, steps, i);
    SysAmounts(cfg, states[i]);
    ReadyRow(cfg, states[i], t);
    CheckIs(cfg, states[i], t);
    hide SysOk, AmountsOk, Clash, Next, CanStep, Verdict, OneStep;
    var db, p := states[i].db, states[i].txs[t].phase;
    forall b | b in db.bookings && Holding(db.bookings[first].status) && Clash(p.row, db.bookings[b]) ensures b == first {
      if b != first { Crosses(cfg, states, steps, i, p.row, b, first); }
    }
    SameWindowClashes(p.row, db.bookings[first]);
    hide Run, Keyed, AfterCheck;
    ItsVerdict(db, p, first);
  }

  lemma ItsVerdict(db: DB, p: Phase, first: Id)
    requires p.Locked? && first in db.bookings && (Holding(db.bookings[first].status) <==> Clash(p.row, db.bookings[first]))
    requires forall b :: b in db.bookings && Holding(db.bookings[first].status) && Clash(p.row, db.bookings[b]) ==> b == first
    ensures Verdict(db, p, first, AfterCheck(db, p))
  {
    hide Clash;
  }

  lemma CheckIs(cfg: Settings, s: Sys, t: TxId)
    requires t in s.txs && s.txs[t].phase.Locked? && AmountsOk(s.db)
    ensures CanStep(cfg, s, CheckWindow(t))
    ensures t in Next(cfg, s, CheckWindow(t)).txs && Next(cfg, s, CheckWindow(t)).txs[t].phase == AfterCheck(s.db, s.txs[t].phase)
  {
    hide Taken, AmountsOk;
  }

  lemma ReadyRow(cfg: Settings, s: Sys, t: TxId)
    requires SysOk(cfg, s) && t in s.txs && s.txs[t].phase.Locked?
    ensures s.txs[t].phase.row.status == AwaitingPayment && s.txs[t].phase.row.terms.start < s.txs[t].phase.row.terms.end
  {
    hide Inv, Apart, Taken, HasKey, AskedFor;
    assert TxOk(s.db, s.txs[t]);
  }

  lemma SameWindowClashes(r: Row, s: Row)
    requires SameWindow(r, s) && Holding(r.status) && r.terms.start < r.terms.end
    ensures Holding(s.status) <==> Clash(r, s)
  {}

  lemma Crosses(cfg: Settings, states: seq<Sys>, steps: seq<Step>, i: nat, r: Row, b: Id, first: Id)
    requires Run(cfg, states, steps) && i < |states| && b in states[i].db.bookings && first in states[i].db.bookings && b != first
    requires Holding(states[i].db.bookings[first].status) && SameWindow(r, states[i].db.bookings[first])
    ensures !Clash(r, states[i].db.bookings[b])
  {
    H.NeverDoubleBooked(cfg, states, steps, i, b, first);
    hide Run;
  }

  predicate SameWindow(r: Row, s: Row) {
    r.terms.listing == s.terms.listing && r.terms.start == s.terms.start && r.terms.end == s.terms.end
  }

  /** Past the check, and when it looks again after a failed insert: the booking its
      key made, or a different body's refusal. */
  lemma LateCopyFindsItsBooking(cfg: Settings, db: DB, ask: Ask, p: Phase, first: Id)
    requires Inv(cfg, db) && Keyed(db, ask, first)
    ensures p.WindowFree? ==> AfterInsert(db, ask, p) == RolledBack
    ensures AfterRollback(db, ask) ==
      if db.bookings[first].terms.hash == ask.hash then Found(first, db.bookings[first].status == AwaitingPayment)
      else Answered(Refused(Invalid))
  {
    H.OnlyOneKeyed(cfg, db, ask, first);
    hide Inv;
    assert HasKey(db, ask);
  }

  // --- what the app then does -------------------------------------------------------------------------

  /** The status an error is answered with. */
  function StatusOf(e: Error): int {
    match e
    case NotFound => 404
    case Forbidden => 403
    case Conflict => 409
    case Invalid => 422
    case RateLimited => 429
    case Unavailable => 503
  }

  /** The app takes the late copy's "just taken" for a definite answer: the next
      press goes out under a new key. That request never reaches the first booking,
      and while this holds the window it is turned away like the copy. */
  lemma TheNextPressMissesIt(
    cfg: Settings, states: seq<Sys>, steps: seq<Step>, n: nat, log: seq<A.Event>, i: nat, m: nat, j: nat, t: TxId, u: TxId, first: Id)
    requires Run(cfg, states, steps) && n < |states| && t in states[n].txs && u in states[n].txs
    requires A.Disciplined(log) && i < m < j < |log| && log[i].Asked? && log[j].Asked?
    requires forall k :: i < k < j ==> log[k].Settled?
    requires states[n].txs[t].ask.key == Some(log[i].key) && Keyed(states[n].db, states[n].txs[t].ask, first)
    requires states[n].txs[t].phase.Answered? && states[n].txs[t].phase.reply.Refused?
    requires states[n].txs[t].phase.reply.error != Unavailable
    requires log[m] == A.Settled(A.Status(StatusOf(states[n].txs[t].phase.reply.error)))
    requires states[n].txs[u].ask.key == Some(log[j].key) && states[n].txs[u].ask.requester == states[n].txs[t].ask.requester
    ensures log[j].key != log[i].key
    ensures var p := states[n].txs[u].phase;
      && (p.Found? ==> p.id != first) && (p.Answered? && p.reply.Created? ==> p.reply.id != first)
      && (p.Locked? && SameWindow(p.row, states[n].db.bookings[first]) && Holding(states[n].db.bookings[first].status) ==>
        AfterCheck(states[n].db, p) == Answered(Refused(Conflict)))
  {
    A.KeyStaysIff(log, i, j);
    assert A.Concludes(log[m].outcome);
    RunKeeps(cfg, states, steps, n);
    hide Run;
    AnothersKey(cfg, states[n], u, first);
    var p := states[n].txs[u].phase;
    if p.Locked? && SameWindow(p.row, states[n].db.bookings[first]) {
      ReadyRow(cfg, states[n], u);
      hide SysOk;
      SameWindowClashes(p.row, states[n].db.bookings[first]);
    }
  }

  lemma AnothersKey(cfg: Settings, s: Sys, u: TxId, first: Id)
    requires SysOk(cfg, s) && u in s.txs && first in s.db.bookings && s.db.bookings[first].terms.key != s.txs[u].ask.key
    ensures var p := s.txs[u].phase; (p.Found? ==> p.id != first) && (p.Answered? && p.reply.Created? ==> p.reply.id != first)
  {
    hide Inv, Apart, Fresh, Taken, HasKey;
    assert TxOk(s.db, s.txs[u]);
  }
}
