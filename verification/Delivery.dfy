/** How an event travels (cappy_common/events.py): the transactional outbox, the
    relays of every replica, one queue and one dead-letter queue per consumer,
    and the dispatcher's ledger of what it has handled. One small step at a
    time, so that a crash, a lost answer or another replica can come between
    any two of them. Times are milliseconds. */
module Delivery {
  import opened Wrappers

  type Id = nat
  type Kind = nat
  type Consumer = nat
  type RelayId = nat

  const MAX_ATTEMPTS := 20
  const BATCH := 100
  const CHUNK := 10
  const DAY := 86_400_000
  const SENT_RETENTION := 7 * DAY
  const PROCESSED_RETENTION := 21 * DAY
  const DEAD_RETENTION := 14 * DAY

  datatype OutRow = OutRow(kind: Kind, created: int, sent: Option<int>, attempts: nat)

  /** A relay at work on the rows it claimed. While Publishing or Failed it holds
      their row locks; Counting, it has rolled back and is about to count the
      attempt. `published`: how many of them the bus has taken so far. */
  datatype Progress = Publishing | Failed | Counting

  datatype Batch = Batch(ids: seq<Id>, published: nat, progress: Progress)

  /** One event on its way to one consumer. */
  datatype Copy = Copy(consumer: Consumer, event: Id)

  /** How it stands there: the messages on the consumer's queue and dead-letter
      queue, whether either dropped any, the marker of a handler at work,
      the marker kept in the processed table, the messages about to be deleted,
      how often a handler's writes committed, and when first. */
  datatype Passage = Passage(
    queued: nat, dead: nat, lost: bool, working: Option<int>, mark: Option<int>,
    acks: nat, effects: nat, first: Option<int>)

  const NOWHERE := Passage(0, 0, false, None, None, 0, 0, None)

  /** `kinds`: every event some transaction committed. */
  datatype Net = Net(clock: int, kinds: map<Id, Kind>, outbox: map<Id, OutRow>, relays: map<RelayId, Batch>, mail: map<Copy, Passage>)

  /** Which consumers the bus forwards a kind to: those with a handler for it. */
  type Subscriptions = map<Consumer, set<Kind>>

  /** What can happen to one message. Begin: a handler inserts its marker. Skip:
      the marker was there already. Finish: marker and writes commit together.
      Expire: nobody received it for as long as its queue keeps messages; Drop: the
      same of the dead-letter queue. */
  datatype Move = Begin | Skip | Finish | Fail | Delete | ConsumerDies | DeadLetter | Redrive | Expire | Drop | Duplicate

  datatype Step =
    | Commit(added: map<Id, Kind>)
    | Claim(relay: RelayId, ids: seq<Id>)
    | PublishChunk(relay: RelayId, copies: map<Copy, nat>, ok: bool)
    | MarkSent(relay: RelayId)
    | Rollback(relay: RelayId)
    | CountAttempt(relay: RelayId)
    | RelayDies(relay: RelayId)
    | Message(copy: Copy, move: Move)
    | PruneSent(gone: set<Id>)
    | PruneMarks(marked: set<Copy>)
    | Tick(now: int)

  function At(n: Net, m: Copy): Passage { if m in n.mail then n.mail[m] else NOWHERE }

  predicate Claimable(r: OutRow) { r.sent.None? && r.attempts < MAX_ATTEMPTS }

  predicate Locks(b: Batch, id: Id) { !b.progress.Counting? && id in b.ids }

  /** SKIP LOCKED: rows another relay is at work on are passed over. */
  predicate Locked(n: Net, id: Id) {
    exists r :: r in n.relays && Locks(n.relays[r], id)
  }

  function Min(a: int, b: int): int { if a <= b then a else b }

  /** The next ten or fewer entries of a batch. */
  function ChunkOf(b: Batch): seq<Id>
    requires b.published <= |b.ids|
  {
    b.ids[b.published..Min(b.published + CHUNK, |b.ids|)]
  }

  predicate SentLongAgo(r: OutRow, clock: int) {
    r.sent.Some? && r.sent.value < clock - SENT_RETENTION
  }

  predicate MarkedLongAgo(p: Passage, clock: int) {
    p.mark.Some? && p.mark.value < clock - PROCESSED_RETENTION
  }

  /** An event is due to a consumer that subscribes to its kind. */
  predicate Due(subs: Subscriptions, kinds: map<Id, Kind>, m: Copy) {
    m.event in kinds && m.consumer in subs && kinds[m.event] in subs[m.consumer]
  }

  predicate CanMove(p: Passage, move: Move) {
    match move
    case Begin => p.queued > 0 && p.mark.None? && p.working.None?
    case Skip => p.queued > 0 && p.mark.Some?
    case Finish => p.working.Some?
    case Fail => p.working.Some?
    case Delete => p.acks > 0
    case ConsumerDies => p.acks > 0
    case DeadLetter => p.queued > 0
    case Redrive => p.dead > 0
    case Expire => p.queued > 0
    case Drop => p.dead > 0
    case Duplicate => p.queued > 0
  }

  function OneLess(n: nat): nat { if n == 0 then 0 else n - 1 }

  function Moved(p: Passage, move: Move, now: int): Passage
    requires CanMove(p, move)
  {
    match move
    case Begin => p.(working := Some(now))
    case Skip => p.(acks := p.acks + 1)
    case Finish => p.(working := None, mark := p.working, acks := p.acks + 1, effects := p.effects + 1,
                      first := if p.first.Some? then p.first else p.working)
    case Fail => p.(working := None)
    case Delete => p.(acks := p.acks - 1, queued := OneLess(p.queued))
    case ConsumerDies => p.(acks := p.acks - 1)
    case DeadLetter => p.(queued := p.queued - 1, dead := p.dead + 1)
    case Redrive => p.(dead := p.dead - 1, queued := p.queued + 1)
    case Expire => p.(queued := p.queued - 1, lost := true)
    case Drop => p.(dead := p.dead - 1, lost := true)
    case Duplicate => p.(queued := p.queued + 1)
  }

  ghost predicate CanStep(subs: Subscriptions, n: Net, step: Step) {
    match step
    case Commit(added) => added.Keys !! n.kinds.Keys
    case Claim(r, ids) =>
      && r !in n.relays && 0 < |ids| <= BATCH && Distinct(ids)
      && forall id :: id in ids ==> id in n.outbox && Claimable(n.outbox[id]) && !Locked(n, id)
    case PublishChunk(r, copies, ok) =>
      && r in n.relays && n.relays[r].progress.Publishing? && n.relays[r].published < |n.relays[r].ids|
      && (forall m :: m in copies ==> m.event in ChunkOf(n.relays[r]) && Due(subs, n.kinds, m))
      // Success is every entry taken: at least one copy for each subscriber.
      && (ok ==> forall m: Copy :: m.event in ChunkOf(n.relays[r]) && Due(subs, n.kinds, m) ==> m in copies && copies[m] > 0)
    case MarkSent(r) => r in n.relays && n.relays[r].progress.Publishing? && n.relays[r].published == |n.relays[r].ids|
    case Rollback(r) => r in n.relays && n.relays[r].progress.Failed?
    case CountAttempt(r) =>
      // Its update waits for the row locks of others.
      r in n.relays && n.relays[r].progress.Counting? && forall id :: id in n.relays[r].ids ==> !Locked(n, id)
    case RelayDies(r) => r in n.relays
    case Message(m, move) => CanMove(At(n, m), move)
    case PruneSent(gone) => forall id :: id in gone ==> id in n.outbox && SentLongAgo(n.outbox[id], n.clock)
    case PruneMarks(marked) => forall m :: m in marked ==> m in n.mail && MarkedLongAgo(n.mail[m], n.clock)
    case Tick(now) => n.clock <= now
  }

  function Sent(outbox: map<Id, OutRow>, ids: seq<Id>, now: int): map<Id, OutRow> {
    map id | id in outbox :: if id in ids then outbox[id].(sent := Some(now)) else outbox[id]
  }

  function Counted(outbox: map<Id, OutRow>, ids: seq<Id>): map<Id, OutRow> {
    map id | id in outbox :: if id in ids then outbox[id].(attempts := outbox[id].attempts + 1) else outbox[id]
  }

  function Posted(n: Net, copies: map<Copy, nat>): map<Copy, Passage> {
    map m | m in n.mail.Keys + copies.Keys :: if m in copies then At(n, m).(queued := At(n, m).queued + copies[m]) else At(n, m)
  }

  function Added(outbox: map<Id, OutRow>, added: map<Id, Kind>, now: int): map<Id, OutRow> {
    outbox + map id | id in added :: OutRow(added[id], now, None, 0)
  }

  function Forgotten(mail: map<Copy, Passage>, marked: set<Copy>): map<Copy, Passage> {
    map m | m in mail :: if m in marked then mail[m].(mark := None) else mail[m]
  }

  ghost function Next(subs: Subscriptions, n: Net, step: Step): Net
    requires CanStep(subs, n, step)
  {
    match step
    case Commit(added) => n.(kinds := n.kinds + added, outbox := Added(n.outbox, added, n.clock))
    case Claim(r, ids) => n.(relays := n.relays[r := Batch(ids, 0, Publishing)])
    case PublishChunk(r, copies, ok) =>
      var b := n.relays[r];
      n.(mail := Posted(n, copies),
         relays := n.relays[r := if ok then b.(published := Min(b.published + CHUNK, |b.ids|)) else b.(progress := Failed)])
    case MarkSent(r) => n.(relays := n.relays - {r}, outbox := Sent(n.outbox, n.relays[r].ids, n.clock))
    case Rollback(r) => n.(relays := n.relays[r := n.relays[r].(progress := Counting)])
    case CountAttempt(r) => n.(relays := n.relays - {r}, outbox := Counted(n.outbox, n.relays[r].ids))
    case RelayDies(r) => n.(relays := n.relays - {r})
    case Message(m, move) => n.(mail := n.mail[m := Moved(At(n, m), move, n.clock)])
    case PruneSent(gone) => n.(outbox := n.outbox - gone)
    case PruneMarks(marked) => n.(mail := Forgotten(n.mail, marked))
    case Tick(now) => n.(clock := now)
  }

  // --- nothing is lost on the way, nothing appears from nowhere -------------------------------------

  predicate Unsent(n: Net, id: Id) { id in n.outbox && n.outbox[id].sent.None? }

  predicate Open(n: Net, id: Id) { id in n.outbox && Claimable(n.outbox[id]) }

  /** On the queue, dead-lettered, dropped by one of the two, or handled. */
  predicate Arrived(p: Passage) { p.queued > 0 || p.dead > 0 || p.lost || p.effects > 0 }

  /** An event due to a consumer is still to be sent or has arrived; one that is
      not due never does. A message is only deleted, and an event only marked
      as processed, once its handler has committed. */
  ghost predicate PassageOk(subs: Subscriptions, n: Net, m: Copy) {
    var p := At(n, m);
    && (Due(subs, n.kinds, m) ==> Unsent(n, m.event) || Arrived(p))
    && (p != NOWHERE ==> Due(subs, n.kinds, m))
    && (p.acks > 0 || p.mark.Some? ==> p.effects > 0)
    && (p.effects > 0 ==> p.first.Some?)
  }

  ghost predicate BatchOk(subs: Subscriptions, n: Net, b: Batch) {
    && Distinct(b.ids) && b.published <= |b.ids|
    && (!b.progress.Counting? ==>
      && (forall id :: id in b.ids ==> Open(n, id))
      && (forall m: Copy :: m.event in b.ids[..b.published] && Due(subs, n.kinds, m) ==> Arrived(At(n, m))))
  }

  ghost predicate BatchesOk(subs: Subscriptions, n: Net) {
    forall r :: r in n.relays ==> BatchOk(subs, n, n.relays[r])
  }

  /** No row is claimed by two relays. */
  ghost predicate LocksApart(n: Net) {
    forall r, s, id :: r in n.relays && s in n.relays && r != s ==> !(Locks(n.relays[r], id) && Locks(n.relays[s], id))
  }

  ghost predicate RowsOk(n: Net) {
    forall id :: id in n.outbox ==> id in n.kinds && n.outbox[id].kind == n.kinds[id]
  }

  ghost predicate Safe(subs: Subscriptions, n: Net) {
    && RowsOk(n) && BatchesOk(subs, n) && LocksApart(n)
    && forall m :: PassageOk(subs, n, m)
  }

  /** A batch stands while its rows stay open and what arrived has arrived. */
  lemma BatchStands(subs: Subscriptions, n: Net, n': Net, b: Batch)
    requires BatchOk(subs, n, b) && n.kinds == n'.kinds
    requires forall m :: Arrived(At(n, m)) ==> Arrived(At(n', m))
    requires forall id :: Locks(b, id) && Open(n, id) ==> Open(n', id)
    ensures BatchOk(subs, n', b)
  {
    hide Arrived, Open, Due, At;
  }

  /** Messages moving disturb nothing else, if none vanishes unhandled. */
  lemma MailMoves(subs: Subscriptions, n: Net, mail: map<Copy, Passage>)
    requires Safe(subs, n)
    requires forall m :: PassageOk(subs, n.(mail := mail), m)
    requires forall m :: Arrived(At(n, m)) ==> Arrived(At(n.(mail := mail), m))
    ensures Safe(subs, n.(mail := mail))
  {
    hide PassageOk, BatchOk, Arrived, At;
    forall r | r in n.relays ensures BatchOk(subs, n.(mail := mail), n.relays[r]) {
      BatchStands(subs, n, n.(mail := mail), n.relays[r]);
    }
  }

  lemma MoveKeeps(subs: Subscriptions, n: Net, m: Copy, move: Move)
    requires Safe(subs, n) && CanStep(subs, n, Message(m, move))
    ensures Safe(subs, Next(subs, n, Message(m, move)))
  {
    var n' := Next(subs, n, Message(m, move));
    forall c ensures PassageOk(subs, n', c) && (Arrived(At(n, c)) ==> Arrived(At(n', c))) {
      assert PassageOk(subs, n, c) && PassageOk(subs, n, m);
    }
    hide PassageOk, BatchesOk, At, Arrived, RowsOk, CanStep;
    MailMoves(subs, n, n'.mail);
  }

  lemma ForgetKeeps(subs: Subscriptions, n: Net, marked: set<Copy>)
    requires Safe(subs, n) && CanStep(subs, n, PruneMarks(marked))
    ensures Safe(subs, Next(subs, n, PruneMarks(marked)))
  {
    var n' := Next(subs, n, PruneMarks(marked));
    forall c ensures PassageOk(subs, n', c) && (Arrived(At(n, c)) ==> Arrived(At(n', c))) {
      assert PassageOk(subs, n, c);
    }
    hide PassageOk, BatchesOk, At, Arrived, RowsOk, CanStep;
    MailMoves(subs, n, n'.mail);
  }

  lemma TickKeeps(subs: Subscriptions, n: Net, now: int)
    requires Safe(subs, n) && n.clock <= now
    ensures Safe(subs, n.(clock := now))
  {
    var n' := n.(clock := now);
    forall c ensures PassageOk(subs, n', c) { assert PassageOk(subs, n, c); }
    hide PassageOk;
    forall r | r in n.relays ensures BatchOk(subs, n', n.relays[r]) { BatchStands(subs, n, n', n.relays[r]); }
  }

  lemma CommitKeeps(subs: Subscriptions, n: Net, added: map<Id, Kind>)
    requires Safe(subs, n) && CanStep(subs, n, Commit(added))
    ensures Safe(subs, Next(subs, n, Commit(added)))
  {
    var n' := Next(subs, n, Commit(added));
    forall c ensures PassageOk(subs, n', c) { assert PassageOk(subs, n, c); }
    forall r | r in n.relays ensures BatchOk(subs, n', n.relays[r]) {
      assert BatchOk(subs, n, n.relays[r]);
      BatchOutlivesCommit(subs, n, added, n.relays[r]);
    }
  }

  lemma BatchOutlivesCommit(subs: Subscriptions, n: Net, added: map<Id, Kind>, b: Batch)
    requires RowsOk(n) && BatchOk(subs, n, b) && CanStep(subs, n, Commit(added))
    ensures BatchOk(subs, Next(subs, n, Commit(added)), b)
  {
    var n' := Next(subs, n, Commit(added));
    forall id | Open(n, id) ensures Open(n', id) {}
    forall m: Copy | Open(n, m.event) && Due(subs, n'.kinds, m) ensures Due(subs, n.kinds, m) {}
    assert forall m :: At(n, m) == At(n', m);
    hide Open, Due, At, Arrived;
  }

  lemma ClaimKeeps(subs: Subscriptions, n: Net, r: RelayId, ids: seq<Id>)
    requires Safe(subs, n) && CanStep(subs, n, Claim(r, ids))
    ensures Safe(subs, Next(subs, n, Claim(r, ids)))
  {
    var n' := Next(subs, n, Claim(r, ids));
    forall c ensures PassageOk(subs, n', c) { assert PassageOk(subs, n, c); }
    hide PassageOk;
    forall s | s in n'.relays ensures BatchOk(subs, n', n'.relays[s]) {
      if s != r { BatchStands(subs, n, n', n.relays[s]); }
    }
    forall p, q, id | p in n'.relays && q in n'.relays && p != q ensures !(Locks(n'.relays[p], id) && Locks(n'.relays[q], id)) {
      if id in ids { assert !Locked(n, id); }
    }
  }

  lemma PostKeeps(subs: Subscriptions, n: Net, copies: map<Copy, nat>)
    requires Safe(subs, n) && forall m :: m in copies ==> Due(subs, n.kinds, m)
    ensures Safe(subs, n.(mail := Posted(n, copies)))
  {
    var n' := n.(mail := Posted(n, copies));
    forall c ensures PassageOk(subs, n', c) && (Arrived(At(n, c)) ==> Arrived(At(n', c))) {
      assert PassageOk(subs, n, c);
    }
    hide PassageOk, BatchesOk, At, Arrived, RowsOk;
    MailMoves(subs, n, n'.mail);
  }

  lemma PublishKeeps(subs: Subscriptions, n: Net, r: RelayId, copies: map<Copy, nat>, ok: bool)
    requires Safe(subs, n) && CanStep(subs, n, PublishChunk(r, copies, ok))
    ensures Safe(subs, Next(subs, n, PublishChunk(r, copies, ok)))
  {
    PostKeeps(subs, n, copies);
    var n1, n' := n.(mail := Posted(n, copies)), Next(subs, n, PublishChunk(r, copies, ok));
    var b, c := n.relays[r], n'.relays[r];
    forall m: Copy | m.event in c.ids[..c.published] && Due(subs, n'.kinds, m) ensures Arrived(At(n', m)) {
      assert BatchOk(subs, n1, b);
      if m.event !in b.ids[..b.published] { assert ok && m.event in ChunkOf(b); }
    }
    assert BatchOk(subs, n', c) by { assert BatchOk(subs, n1, b); }
    RelayMovesOn(subs, n1, r, c);
  }

  /** A relay going on with rows it already holds. */
  lemma RelayMovesOn(subs: Subscriptions, n: Net, r: RelayId, c: Batch)
    requires Safe(subs, n) && r in n.relays && c.ids == n.relays[r].ids
    requires n.relays[r].progress.Counting? ==> c.progress.Counting?
    requires BatchOk(subs, n.(relays := n.relays[r := c]), c)
    ensures Safe(subs, n.(relays := n.relays[r := c]))
  {
    var n' := n.(relays := n.relays[r := c]);
    forall m ensures PassageOk(subs, n', m) { assert PassageOk(subs, n, m); }
    hide PassageOk;
    forall s | s in n'.relays ensures BatchOk(subs, n', n'.relays[s]) {
      if s != r { BatchStands(subs, n, n', n.relays[s]); }
    }
    hide BatchOk;
    forall p, q, id | p in n'.relays && q in n'.relays && p != q ensures !(Locks(n'.relays[p], id) && Locks(n'.relays[q], id)) {
      assert !(Locks(n.relays[p], id) && Locks(n.relays[q], id));
    }
  }

  /** A relay done with its rows, and those rows changed. */
  lemma RelayLeaves(subs: Subscriptions, n: Net, r: RelayId, outbox: map<Id, OutRow>)
    requires Safe(subs, n) && r in n.relays && RowsOk(n.(outbox := outbox))
    requires forall id :: Open(n, id) && !Open(n.(outbox := outbox), id) ==> Locks(n.relays[r], id) || !Locked(n, id)
    requires forall m: Copy ::
      Unsent(n, m.event) && !Unsent(n.(outbox := outbox), m.event) && Due(subs, n.kinds, m) ==> Arrived(At(n, m))
    ensures Safe(subs, n.(relays := n.relays - {r}, outbox := outbox))
  {
    var n' := n.(relays := n.relays - {r}, outbox := outbox);
    assert forall id :: Unsent(n', id) == Unsent(n.(outbox := outbox), id) && Open(n', id) == Open(n.(outbox := outbox), id);
    forall m ensures PassageOk(subs, n', m) { assert PassageOk(subs, n, m); }
    hide PassageOk, Unsent, Open;
    forall s | s in n'.relays ensures BatchOk(subs, n', n'.relays[s]) {
      assert forall id :: !(Locks(n.relays[r], id) && Locks(n.relays[s], id));
      assert forall id :: Locks(n.relays[s], id) ==> Locked(n, id);
      BatchStands(subs, n, n', n.relays[s]);
    }
  }

  lemma MarkKeeps(subs: Subscriptions, n: Net, r: RelayId)
    requires Safe(subs, n) && CanStep(subs, n, MarkSent(r))
    ensures Safe(subs, Next(subs, n, MarkSent(r)))
  {
    var b := n.relays[r];
    assert BatchOk(subs, n, b) && b.ids[..b.published] == b.ids;
    RelayLeaves(subs, n, r, Sent(n.outbox, b.ids, n.clock));
  }

  lemma ReleaseKeeps(subs: Subscriptions, n: Net, step: Step)
    requires Safe(subs, n) && CanStep(subs, n, step) && (step.RelayDies? || step.CountAttempt?)
    ensures Safe(subs, Next(subs, n, step))
  {
    var r := step.relay;
    var outbox := Next(subs, n, step).outbox;
    assert forall id :: Unsent(n, id) == Unsent(n.(outbox := outbox), id);
    RelayLeaves(subs, n, r, outbox);
  }

  lemma PruneSentKeeps(subs: Subscriptions, n: Net, gone: set<Id>)
    requires Safe(subs, n) && CanStep(subs, n, PruneSent(gone))
    ensures Safe(subs, Next(subs, n, PruneSent(gone)))
    ensures forall id :: Unsent(n, id) <==> Unsent(Next(subs, n, PruneSent(gone)), id)
  {
    var n' := Next(subs, n, PruneSent(gone));
    assert forall id :: Unsent(n, id) == Unsent(n', id);
    forall m ensures PassageOk(subs, n', m) { assert PassageOk(subs, n, m); }
    assert forall id :: Open(n, id) == Open(n', id);
    hide PassageOk, Unsent, Open;
    forall s | s in n'.relays ensures BatchOk(subs, n', n'.relays[s]) { BatchStands(subs, n, n', n.relays[s]); }
  }

  /** Whatever happens next, no event is lost and none appears from nowhere. */
  lemma StepIsSafe(subs: Subscriptions, n: Net, step: Step)
    requires Safe(subs, n) && CanStep(subs, n, step)
    ensures Safe(subs, Next(subs, n, step))
  {
    hide Safe;
    match step {
      case Commit(added) => CommitKeeps(subs, n, added);
      case Claim(r, ids) => ClaimKeeps(subs, n, r, ids);
      case PublishChunk(r, copies, ok) => PublishKeeps(subs, n, r, copies, ok);
      case MarkSent(r) => MarkKeeps(subs, n, r);
      case Rollback(r) => RollbackKeeps(subs, n, r);
      case CountAttempt(_) => ReleaseKeeps(subs, n, step);
      case RelayDies(_) => ReleaseKeeps(subs, n, step);
      case Message(m, move) => MoveKeeps(subs, n, m, move);
      case PruneSent(gone) => PruneSentKeeps(subs, n, gone);
      case PruneMarks(marked) => ForgetKeeps(subs, n, marked);
      case Tick(now) => TickKeeps(subs, n, now);
    }
  }

  lemma RollbackKeeps(subs: Subscriptions, n: Net, r: RelayId)
    requires Safe(subs, n) && CanStep(subs, n, Rollback(r))
    ensures Safe(subs, Next(subs, n, Rollback(r)))
  {
    assert BatchOk(subs, n, n.relays[r]);
    RelayMovesOn(subs, n, r, n.relays[r].(progress := Counting));
  }

  // --- relays get on -----------------------------------------------------------------------------------

  /** The tries left to the rows not sent yet. */
  function Tries(outbox: map<Id, OutRow>): set<(Id, nat)> {
    set id, k: nat | id in outbox && outbox[id].sent.None? && outbox[id].attempts <= k < MAX_ATTEMPTS :: (id, k)
  }

  /** Ends a round that cannot be in vain: a batch sent, or an attempt counted
      on a row still open. */
  predicate Round(n: Net, step: Step) {
    && (step.MarkSent? || step.CountAttempt?) && step.relay in n.relays
    && exists id :: id in n.relays[step.relay].ids && (step.CountAttempt? ==> Open(n, id))
  }

  /** Each such round uses up a try, and only new events bring more. */
  lemma RoundsUseTries(subs: Subscriptions, n: Net, step: Step)
    requires Safe(subs, n) && CanStep(subs, n, step) && !step.Commit?
    ensures |Tries(Next(subs, n, step).outbox)| + (if Round(n, step) then 1 else 0) <= |Tries(n.outbox)|
  {
    var n' := Next(subs, n, step);
    assert Tries(n'.outbox) <= Tries(n.outbox);
    SubsetCount(Tries(n'.outbox), Tries(n.outbox));
    if Round(n, step) {
      var id :| id in n.relays[step.relay].ids && (step.CountAttempt? ==> Open(n, id));
      assert BatchOk(subs, n, n.relays[step.relay]);
      assert Open(n, id);
      assert (id, n.outbox[id].attempts) in Tries(n.outbox) && (id, n.outbox[id].attempts) !in Tries(n'.outbox);
    }
  }

  /** About to count an attempt on rows that others have closed meanwhile. */
  predicate Vain(n: Net, b: Batch) {
    b.progress.Counting? && b.ids != [] && forall id :: id in b.ids ==> !Open(n, id)
  }

  function VainOnes(n: Net): set<RelayId> {
    set r | r in n.relays && Vain(n, n.relays[r])
  }

  /** Ends a round of any kind. */
  predicate Ends(n: Net, step: Step) {
    (step.MarkSent? || step.CountAttempt?) && step.relay in n.relays && n.relays[step.relay].ids != []
  }

  lemma VainFew(n: Net)
    ensures |VainOnes(n)| <= |n.relays|
  {
    SubsetCount(VainOnes(n), n.relays.Keys);
  }

  lemma OpenStays(subs: Subscriptions, n: Net, step: Step, id: Id)
    requires Safe(subs, n) && CanStep(subs, n, step) && !Round(n, step) && Open(n, id)
    ensures Open(Next(subs, n, step), id)
  {
    hide LocksApart, PassageOk;
    if step.MarkSent? { assert BatchOk(subs, n, n.relays[step.relay]); }
  }

  /** A round in vain is one relay fewer in that case; and no relay comes into it
      but by a round that is not. */
  lemma VainRounds(subs: Subscriptions, n: Net, step: Step)
    requires Safe(subs, n) && CanStep(subs, n, step) && !Round(n, step)
    ensures |VainOnes(Next(subs, n, step))| + (if Ends(n, step) then 1 else 0) <= |VainOnes(n)|
  {
    var n' := Next(subs, n, step);
    forall r | r in VainOnes(n') ensures r in VainOnes(n) && (Ends(n, step) ==> r != step.relay) {
      StaysVain(subs, n, step, r);
    }
    if Ends(n, step) {
      EndsVainly(subs, n, step);
      SubsetCount(VainOnes(n'), VainOnes(n) - {step.relay});
    } else {
      SubsetCount(VainOnes(n'), VainOnes(n));
    }
  }

  lemma EndsVainly(subs: Subscriptions, n: Net, step: Step)
    requires Safe(subs, n) && CanStep(subs, n, step) && Ends(n, step) && !Round(n, step)
    ensures step.relay in VainOnes(n)
  {
    assert n.relays[step.relay].ids[0] in n.relays[step.relay].ids;
  }

  lemma StaysVain(subs: Subscriptions, n: Net, step: Step, r: RelayId)
    requires Safe(subs, n) && CanStep(subs, n, step) && !Round(n, step) && r in VainOnes(Next(subs, n, step))
    ensures r in VainOnes(n) && (Ends(n, step) ==> r != step.relay)
  {
    var n' := Next(subs, n, step);
    hide Safe, Round;
    forall id | Open(n, id) ensures Open(n', id) { OpenStays(subs, n, step, id); }
    assert r in n.relays && n.relays[r].ids == n'.relays[r].ids && (n.relays[r].progress.Counting? || step == Rollback(r));
    if step == Rollback(r) { HoldsOpen(subs, n, r); }
  }

  lemma HoldsOpen(subs: Subscriptions, n: Net, r: RelayId)
    requires Safe(subs, n) && r in n.relays && !n.relays[r].progress.Counting? && n.relays[r].ids != []
    ensures n.relays[r].ids[0] in n.relays[r].ids && Open(n, n.relays[r].ids[0])
  {
    assert BatchOk(subs, n, n.relays[r]);
  }

  /** Rounds of both kinds together: with so many relays at once, each try makes
      room for one round and, in vain, for one of each of the others. */
  lemma RoundsCost(subs: Subscriptions, n: Net, step: Step, most: nat)
    requires Safe(subs, n) && CanStep(subs, n, step) && !step.Commit? && |n.relays| <= most
    ensures (most + 1) * |Tries(Next(subs, n, step).outbox)| + |VainOnes(Next(subs, n, step))| + (if Ends(n, step) then 1 else 0)
      <= (most + 1) * |Tries(n.outbox)| + |VainOnes(n)|
  {
    hide Safe, CanStep, Tries, VainOnes, Ends, Round, Next;
    RoundsUseTries(subs, n, step);
    var n' := Next(subs, n, step);
    if Round(n, step) {
      VainFew(n');
      LeavesOneLess(subs, n, step);
      PaidFor(most + 1, |Tries(n'.outbox)|, |Tries(n.outbox)|, |VainOnes(n')|, |VainOnes(n)|);
    } else {
      VainRounds(subs, n, step);
      StillPaidFor(most + 1, |Tries(n'.outbox)|, |Tries(n.outbox)|, |VainOnes(n')| + if Ends(n, step) then 1 else 0, |VainOnes(n)|);
    }
  }

  lemma PaidFor(k: nat, tries': nat, tries: nat, vain': nat, vain: nat)
    requires tries' + 1 <= tries && vain' + 1 <= k
    ensures k * tries' + vain' + 1 <= k * tries + vain
  {
    Product(k, tries' + 1, tries);
    assert k * (tries' + 1) == k * tries' + k;
  }

  lemma StillPaidFor(k: nat, tries': nat, tries: nat, vain': nat, vain: nat)
    requires tries' <= tries && vain' <= vain
    ensures k * tries' + vain' <= k * tries + vain
  {
    Product(k, tries', tries);
  }

  lemma LeavesOneLess(subs: Subscriptions, n: Net, step: Step)
    requires CanStep(subs, n, step) && Round(n, step)
    ensures |Next(subs, n, step).relays| == |n.relays| - 1
  {
    assert Next(subs, n, step).relays == n.relays - {step.relay};
    OneOut(n.relays, step.relay);
  }

  lemma OneOut(relays: map<RelayId, Batch>, r: RelayId)
    requires r in relays
    ensures |relays - {r}| == |relays| - 1
  {
    assert relays.Keys == (relays - {r}).Keys + {r};
  }

  lemma Product(k: nat, a: nat, b: nat)
    requires a <= b
    ensures k * a <= k * b
  {}

  // --- no handler's writes commit twice ---------------------------------------------------------------

  /** The environment's promise: a message is not received more than `window`
      after its event was first handled there. */
  predicate InTime(n: Net, step: Step, window: int) {
    step.Message? && step.move.Begin? && At(n, step.copy).first.Some? ==> n.clock <= At(n, step.copy).first.value + window
  }

  /** What was handled was handled once, and its marker outlives the window. */
  ghost predicate OnceOnly(n: Net, m: Copy) {
    var p := At(n, m);
    && p.effects <= 1 && (p.effects == 0 <==> p.first.None?)
    && (p.working.Some? ==> p.effects == 0)
    && (p.mark.Some? ==> p.mark == p.first)
    && (p.effects == 1 && p.mark.None? ==> p.first.value < n.clock - PROCESSED_RETENTION)
  }

  ghost predicate OnceEach(n: Net) {
    forall m :: OnceOnly(n, m)
  }

  lemma StepHandlesOnce(subs: Subscriptions, n: Net, step: Step)
    requires OnceEach(n) && CanStep(subs, n, step) && InTime(n, step, PROCESSED_RETENTION)
    ensures OnceEach(Next(subs, n, step))
  {
    var n' := Next(subs, n, step);
    forall m ensures OnceOnly(n', m) {
      assert OnceOnly(n, m);
    }
  }

  // --- runs ------------------------------------------------------------------------------------------------

  ghost predicate Start(n: Net) { n == Net(n.clock, map[], map[], map[], map[]) }

  ghost predicate OneStep(subs: Subscriptions, n: Net, step: Step, n': Net) {
    CanStep(subs, n, step) && n' == Next(subs, n, step)
  }

  ghost predicate Run(subs: Subscriptions, states: seq<Net>, steps: seq<Step>) {
    Leads(subs, states, steps) && Start(states[0])
  }

  ghost predicate Leads(subs: Subscriptions, states: seq<Net>, steps: seq<Step>) {
    && |states| == |steps| + 1
    && forall i :: 0 <= i < |steps| ==> OneStep(subs, states[i], steps[i], states[i + 1])
  }

  /** In every run, with crashes, partial publishes, replicas and redeliveries
      at any point: every event committed is, for each consumer due it, still
      unsent, queued, dead-lettered, dropped by a queue that kept it for as long as
      it keeps messages, or handled; and nothing is handled that was not committed. */
  lemma {:induction false} Delivered(subs: Subscriptions, states: seq<Net>, steps: seq<Step>, i: nat)
    requires Run(subs, states, steps) && i < |states|
    ensures Safe(subs, states[i])
  {
    hide CanStep, Next;
    if i > 0 {
      hide Safe;
      Delivered(subs, states, steps, i - 1);
      assert OneStep(subs, states[i - 1], steps[i - 1], states[i]);
      StepIsSafe(subs, states[i - 1], steps[i - 1]);
    }
  }

  /** And while no message is received later than its marker is kept, no
      handler's writes commit twice. */
  lemma {:induction false} HandledOnce(subs: Subscriptions, states: seq<Net>, steps: seq<Step>, window: int, i: nat)
    requires Run(subs, states, steps) && i < |states| && window <= PROCESSED_RETENTION
    requires forall k :: 0 <= k < i ==> InTime(states[k], steps[k], window)
    ensures OnceEach(states[i])
  {
    hide CanStep, Next;
    if i > 0 {
      hide OnceEach;
      HandledOnce(subs, states, steps, window, i - 1);
      assert OneStep(subs, states[i - 1], steps[i - 1], states[i]);
      StepHandlesOnce(subs, states[i - 1], steps[i - 1]);
    }
  }

  /** Markers are kept longer than a dead-letter queue keeps messages: while
      nothing is received later than that, deleting old ones never shows. */
  lemma PruningIsInvisible(subs: Subscriptions, states: seq<Net>, steps: seq<Step>, i: nat, m: Copy)
    requires Run(subs, states, steps) && i < |states|
    requires forall k :: 0 <= k < i ==> InTime(states[k], steps[k], DEAD_RETENTION)
    ensures At(states[i], m).effects <= 1
  {
    HandledOnce(subs, states, steps, DEAD_RETENTION, i);
    hide Run;
    assert OnceOnly(states[i], m);
  }

  /** Only the promise makes it so: any message still queued after its event was
      handled is handled again once its marker is gone. */
  lemma LateReceiptDoubles(subs: Subscriptions, n: Net, m: Copy) returns (n1: Net, n2: Net, n3: Net, n4: Net)
    requires OnceEach(n)
    requires At(n, m).queued > 0 && At(n, m).effects == 1 && At(n, m).working.None?
    ensures OneStep(subs, n, Tick(n1.clock), n1)
    ensures OneStep(subs, n1, PruneMarks(if At(n, m).mark.Some? then {m} else {}), n2)
    ensures OneStep(subs, n2, Message(m, Begin), n3) && !InTime(n2, Message(m, Begin), PROCESSED_RETENTION)
    ensures OneStep(subs, n3, Message(m, Finish), n4)
    ensures At(n4, m).effects == 2
  {
    n1, n2 := MarkerGoes(subs, n, m);
    hide OnceEach, OnceOnly;
    n3 := n2.(mail := n2.mail[m := Moved(At(n2, m), Begin, n2.clock)]);
    n4 := n3.(mail := n3.mail[m := Moved(At(n3, m), Finish, n3.clock)]);
  }

  lemma MarkerGoes(subs: Subscriptions, n: Net, m: Copy) returns (n1: Net, n2: Net)
    requires OnceEach(n) && At(n, m).effects == 1
    ensures OneStep(subs, n, Tick(n1.clock), n1)
    ensures OneStep(subs, n1, PruneMarks(if At(n, m).mark.Some? then {m} else {}), n2)
    ensures At(n2, m) == At(n, m).(mark := None)
    ensures At(n, m).first.Some? && n2.clock > At(n, m).first.value + PROCESSED_RETENTION
  {
    assert OnceOnly(n, m);
    hide OnceEach;
    var late := At(n, m).first.value + PROCESSED_RETENTION + 1;
    n1 := n.(clock := if n.clock < late then late else n.clock);
    n2 := n1.(mail := Forgotten(n1.mail, if At(n, m).mark.Some? then {m} else {}));
  }

  function Rounds(states: seq<Net>, steps: seq<Step>): nat
    requires |states| == |steps| + 1
  {
    if steps == [] then 0
    else Rounds(states[..|steps|], steps[..|steps| - 1]) + if Ends(states[|steps| - 1], steps[|steps| - 1]) then 1 else 0
  }

  /** Between two commits the relays of all replicas together end no more rounds,
      in vain or not, than the tries left and the relays at once allow: each row is
      sent or set aside in the end. */
  lemma {:induction false} RoundsAreBounded(subs: Subscriptions, states: seq<Net>, steps: seq<Step>, most: nat)
    requires Leads(subs, states, steps) && Safe(subs, states[0])
    requires forall i :: 0 <= i < |steps| ==> !steps[i].Commit? && |states[i].relays| <= most
    ensures Safe(subs, states[|steps|])
    ensures Rounds(states, steps) + (most + 1) * |Tries(states[|steps|].outbox)| + |VainOnes(states[|steps|])|
      <= (most + 1) * |Tries(states[0].outbox)| + |VainOnes(states[0])|
  {
    hide Safe, CanStep, Next, Ends, Tries, VainOnes;
    if steps != [] {
      var k := |steps| - 1;
      RoundsAreBounded(subs, states[..|steps|], steps[..k], most);
      assert OneStep(subs, states[k], steps[k], states[k + 1]);
      StepIsSafe(subs, states[k], steps[k]);
      RoundsCost(subs, states[k], steps[k], most);
    }
  }

  /** Nothing left to do anywhere. */
  ghost predicate Quiet(n: Net) {
    && (forall id :: id in n.outbox ==> n.outbox[id].sent.Some?)
    && forall m :: m in n.mail ==> n.mail[m].queued == 0 && n.mail[m].dead == 0 && !n.mail[m].lost
  }

  /** Then each event due to a consumer was handled there, exactly once, and nothing else was. */
  lemma QuietMeansExactlyOnce(subs: Subscriptions, states: seq<Net>, steps: seq<Step>, window: int, i: nat, m: Copy)
    requires Run(subs, states, steps) && i < |states| && Quiet(states[i]) && window <= PROCESSED_RETENTION
    requires forall k :: 0 <= k < i ==> InTime(states[k], steps[k], window)
    ensures At(states[i], m).effects == if Due(subs, states[i].kinds, m) then 1 else 0
  {
    Delivered(subs, states, steps, i);
    HandledOnce(subs, states, steps, window, i);
    hide Run, RowsOk, BatchesOk;
    assert OnceOnly(states[i], m) && PassageOk(subs, states[i], m);
  }
}
