/** The code that moves events (cappy_common/events.py), statement by statement,
    on the shared tables and queues. Each object carries the run of `Delivery`
    it has made, so every theorem about runs holds of what it has done. */
module EventBus {
  import opened Wrappers
  import opened Delivery

  const PRUNE_BATCH := 5000

  /** What `order_by(created_at).limit(batch_size)` with SKIP LOCKED reads. */
  predicate Oldest(ids: seq<Id>, outbox: map<Id, OutRow>, locked: set<Id>) {
    && Distinct(ids) && |ids| <= BATCH
    && (forall id :: id in ids ==> id in outbox && Claimable(outbox[id]) && id !in locked)
    && (forall id, other :: id in ids && other in outbox && Claimable(outbox[other]) && other !in locked && other !in ids ==>
      |ids| == BATCH && outbox[id].created <= outbox[other].created)
    && (ids == [] ==> forall id :: id in outbox && Claimable(outbox[id]) ==> id in locked)
  }

  lemma SomeEarliest(outbox: map<Id, OutRow>, ids: set<Id>) returns (id: Id)
    requires ids != {} && ids <= outbox.Keys
    ensures id in ids && forall other :: other in ids ==> outbox[id].created <= outbox[other].created
  {
    id :| id in ids;
    if other :| other in ids && outbox[other].created < outbox[id].created {
      assert other in ids - {id};
      id := SomeEarliest(outbox, ids - {id});
    }
  }

  /** A batch that is not full left nothing claimable behind. */
  lemma LastRound(ids: seq<Id>, outbox: map<Id, OutRow>, locked: set<Id>, id: Id)
    requires Oldest(ids, outbox, locked) && |ids| < BATCH
    ensures id in outbox && Claimable(outbox[id]) && id !in locked ==> id in ids
  {
    if ids != [] { assert ids[0] in ids; }
  }

  lemma SomeOf<T>(s: set<T>, k: nat) returns (part: set<T>)
    ensures part <= s && |part| == if |s| < k then |s| else k
  {
    if |s| <= k {
      part := s;
    } else {
      var x :| x in s;
      part := SomeOf(s - {x}, k);
    }
  }

  /** Rows past their retention. */
  function OldRows(outbox: map<Id, OutRow>, now: int): set<Id> {
    set id | id in outbox && SentLongAgo(outbox[id], now)
  }

  function OldMarks(mail: map<Copy, Passage>, consumer: Consumer, now: int): set<Copy> {
    set m | m in mail && m.consumer == consumer && MarkedLongAgo(mail[m], now)
  }

  function SentAt(r: OutRow, now: int): OutRow { r.(sent := Some(now)) }

  function OnceMore(r: OutRow): OutRow { r.(attempts := r.attempts + 1) }

  /** A message seen through: skipped if its event is marked, else handled. */
  function Taken(p: Passage, now: int): Passage {
    if p.mark.Some? then p.(acks := p.acks + 1)
    else p.(mark := Some(now), acks := p.acks + 1, effects := p.effects + 1, first := if p.first.Some? then p.first else Some(now))
  }

  class Replica {
    const subs: Subscriptions
    const relay: RelayId
    const consumer: Consumer
    var clock: int
    var kinds: map<Id, Kind>
    var outbox: map<Id, OutRow>
    var relays: map<RelayId, Batch>
    var mail: map<Copy, Passage>
    ghost var states: seq<Net>
    ghost var steps: seq<Step>

    function View(): Net
      reads this
    {
      Net(clock, kinds, outbox, relays, mail)
    }

    /** The state is one the protocol reaches, by the steps recorded. */
    ghost predicate Valid()
      reads this
    {
      Run(subs, states, steps) && states[|steps|] == View()
    }

    constructor (subs: Subscriptions, relay: RelayId, consumer: Consumer, now: int)
      ensures Valid() && this.subs == subs && this.relay == relay && this.consumer == consumer
      ensures View() == Net(now, map[], map[], map[], map[])
    {
      this.subs, this.relay, this.consumer := subs, relay, consumer;
      clock, kinds, outbox, relays, mail := now, map[], map[], map[], map[];
      states, steps := [Net(now, map[], map[], map[], map[])], [];
    }

    ghost method Record(step: Step)
      requires Run(subs, states, steps) && OneStep(subs, states[|steps|], step, View())
      modifies `states, `steps
      ensures Valid() && steps == old(steps) + [step]
    {
      states, steps := states + [View()], steps + [step];
    }

    /** `Outbox.add`, at the commit of the caller's transaction. */
    method Add(id: Id, kind: Kind)
      requires Valid() && id !in kinds
      modifies this
      ensures Valid() && View() == old(View()).(kinds := old(kinds)[id := kind], outbox := old(outbox)[id := OutRow(kind, clock, None, 0)])
    {
      kinds, outbox := kinds[id := kind], outbox[id := OutRow(kind, clock, None, 0)];
      ghost var added := map[id := kind];
      assert old(kinds) + added == kinds && Added(old(outbox), added, clock) == outbox;
      Record(Commit(added));
    }

    function Held(): set<Id>
      reads this
    {
      set r, id | r in relays && id in relays[r].ids && Locks(relays[r], id) :: id
    }

    lemma HeldIsLocked()
      ensures forall id :: id in Held() <==> Locked(View(), id)
    {
      forall id | Locked(View(), id) ensures id in Held() {
        var r :| r in relays && Locks(relays[r], id);
      }
    }

    /** Rows this relay rolled back are free unless another holds them. */
    lemma StillHeld(ids: seq<Id>)
      requires relay in relays && relays[relay].progress.Counting?
      requires forall id :: id in ids ==> forall r :: r in relays && r != relay ==> !Locks(relays[r], id)
      ensures forall id :: id in ids ==> !Locked(View(), id)
    {}

    /** The select that claims a batch. */
    method Select() returns (ids: seq<Id>)
      ensures Oldest(ids, outbox, Held()) && |ids| <= 100
      ensures forall id :: id in ids ==> id in outbox && outbox[id].sent.None? && outbox[id].attempts < 20 && id !in Held()
      ensures |ids| < 100 ==> forall id :: id in outbox && outbox[id].sent.None? && outbox[id].attempts < 20 ==> id in ids || id in Held()
    {
      var left := set id | id in outbox && Claimable(outbox[id]) && id !in Held();
      ids := [];
      while left != {} && |ids| < BATCH
        invariant Distinct(ids) && |ids| <= BATCH
        invariant forall id :: id in left || id in ids <==> id in outbox && Claimable(outbox[id]) && id !in Held()
        invariant forall id :: id in ids ==> id !in left
        invariant forall id, other :: id in ids && other in left ==> outbox[id].created <= outbox[other].created
        decreases left
      {
        ghost var first := SomeEarliest(outbox, left);
        var id :| id in left && forall other :: other in left ==> outbox[id].created <= outbox[other].created;
        left, ids := left - {id}, ids + [id];
      }
    }

    /** What SNS makes of one chunk: it may take only some entries, or lose the answer. */
    method PublishBatch(chunk: seq<Id>) returns (rejected: nat, copies: map<Copy, nat>)
      ensures forall m :: m in copies ==> m.event in chunk && Due(subs, kinds, m)
      ensures rejected == 0 ==> forall m: Copy :: m.event in chunk && Due(subs, kinds, m) ==> m in copies && copies[m] > 0
    {
      rejected := *;
      copies := map c, id | c in subs && id in chunk && id in kinds && kinds[id] in subs[c] :: Copy(c, id) := 1;
      if rejected > 0 {
        var taken: set<Copy> := *;
        copies := map m | m in copies && m in taken :: copies[m];
      }
    }

    /** One chunk: on to the next, or stopped where it was not taken whole. */
    method PublishNext(ids: seq<Id>, i: nat) returns (ok: bool)
      requires Valid() && relay in relays && i < |ids| && relays[relay] == Batch(ids, i, Publishing)
      modifies `relays, `mail, `states, `steps
      ensures Valid() && relay in relays && relays == old(relays)[relay := relays[relay]] && |steps| == |old(steps)| + 1
      ensures relays[relay] == if ok then Batch(ids, Min(i + CHUNK, |ids|), Publishing) else Batch(ids, i, Failed)
    {
      hide Run;
      var b := relays[relay];
      var rejected, copies := PublishBatch(ChunkOf(b));
      mail := Posted(View(), copies);
      ok := rejected == 0;
      relays := relays[relay := if ok then b.(published := Min(i + CHUNK, |ids|)) else b.(progress := Failed)];
      Record(PublishChunk(relay, copies, ok));
    }

    /** `SnsPublisher.publish`: chunk by chunk, up to the first that is not taken whole. */
    method Publish(ids: seq<Id>) returns (ok: bool)
      requires Valid() && relay in relays && relays[relay] == Batch(ids, 0, Publishing)
      modifies `relays, `mail, `states, `steps
      ensures Valid() && relay in relays && relays == old(relays)[relay := relays[relay]]
      ensures relays[relay] == Batch(ids, relays[relay].published, if ok then Publishing else Failed)
      ensures ok ==> relays[relay].published == |ids| && |steps| == |old(steps)| + (|ids| + 9) / 10
      ensures !ok ==> relays[relay].published < |ids|
    {
      hide Run;
      var i := 0;
      while i < |ids|
        invariant 0 <= i && Valid() && relay in relays && relays == old(relays)[relay := relays[relay]]
        invariant relays[relay] == Batch(ids, Min(i, |ids|), Publishing)
        invariant i % 10 == 0 && i < |ids| + 10 && |steps| == |old(steps)| + i / 10
      {
        ok := PublishNext(ids, i);
        if !ok { return; }
        i := i + CHUNK;
      }
      return true;
    }

    method Claim() returns (ids: seq<Id>)
      requires Valid() && relay !in relays
      modifies `relays, `states, `steps
      ensures Valid() && Oldest(ids, outbox, old(Held()))
      ensures forall r, id :: r in old(relays) && id in ids ==> !Locks(old(relays)[r], id)
      ensures relays == if ids == [] then old(relays) else old(relays)[relay := Batch(ids, 0, Publishing)]
    {
      ids := Select();
      if ids != [] {
        HeldIsLocked();
        relays := relays[relay := Batch(ids, 0, Publishing)];
        Record(Step.Claim(relay, ids));
      }
    }

    method Mark(ids: seq<Id>)
      requires Valid() && relay in relays && relays[relay] == Batch(ids, |ids|, Publishing)
      modifies `outbox, `relays, `states, `steps
      ensures Valid() && relays == old(relays) - {relay} && outbox == Sent(old(outbox), ids, clock)
    {
      outbox, relays := Sent(outbox, ids, clock), relays - {relay};
      Record(MarkSent(relay));
    }

    method CountUp(ids: seq<Id>)
      requires Valid() && relay in relays && relays[relay].ids == ids && relays[relay].progress.Failed?
      requires forall r, id :: r in relays && r != relay && id in ids ==> !Locks(relays[r], id)
      modifies `outbox, `relays, `states, `steps
      ensures Valid() && relays == old(relays) - {relay} && outbox == Counted(old(outbox), ids)
    {
      relays := relays[relay := relays[relay].(progress := Counting)];
      Record(Rollback(relay));
      StillHeld(ids);
      outbox, relays := Counted(outbox, ids), relays - {relay};
      Record(CountAttempt(relay));
    }

    /** `_once`: claim, publish, mark; or roll back, count the attempt, raise. */
    method Once() returns (n: nat, ok: bool, ghost ids: seq<Id>)
      requires Valid() && relay !in relays
      modifies this
      ensures Valid() && relays == old(relays) && clock == old(clock) && kinds == old(kinds)
      ensures Oldest(ids, old(outbox), old(Held())) && (ok ==> n == |ids|)
      ensures outbox == if ok then Sent(old(outbox), ids, clock) else Counted(old(outbox), ids)
      ensures outbox.Keys == old(outbox).Keys && forall id :: id in outbox ==>
        outbox[id] == if id !in ids then old(outbox)[id]
                      else if ok then old(outbox)[id].(sent := Some(clock)) else old(outbox)[id].(attempts := old(outbox)[id].attempts + 1)
      ensures ids == [] ==> ok
      ensures ids != [] ==> |Tries(outbox)| < |Tries(old(outbox))|
    {
      hide Run, Tries;
      var rows := Claim();
      ids := rows;
      if rows == [] {
        assert Sent(outbox, ids, clock) == outbox;
        return 0, true, ids;
      }
      ghost var was := outbox;
      ok := Publish(rows);
      if ok {
        Mark(rows);
      } else {
        CountUp(rows);
      }
      assert relays == old(relays);
      UsesTries(was, outbox, ids, clock);
      n := |rows|;
    }

    /** `flush`: rounds until one is not full. It ends, and then every row it
        could claim is sent; a round that raised counted one attempt instead. */
    method Flush() returns (total: nat, ok: bool)
      requires Valid() && relay !in relays
      modifies this
      ensures Valid() && relays == old(relays) && clock == old(clock) && kinds == old(kinds)
      ensures outbox.Keys == old(outbox).Keys
      ensures forall id :: id in outbox ==>
        || outbox[id] == old(outbox)[id]
        || (old(outbox)[id].sent.None? && old(outbox)[id].attempts < 20 && id !in old(Held()) &&
            (outbox[id] == old(outbox)[id].(sent := Some(clock))
             || (!ok && outbox[id] == old(outbox)[id].(attempts := old(outbox)[id].attempts + 1))))
      ensures ok ==> forall id :: id in old(outbox) && old(outbox)[id].sent.None? && old(outbox)[id].attempts < 20 && id !in old(Held()) ==>
        outbox[id] == old(outbox)[id].(sent := Some(clock))
    {
      hide Run, Tries;
      total := 0;
      while true
        invariant Valid() && relay !in relays && relays == old(relays) && clock == old(clock) && kinds == old(kinds)
        invariant outbox.Keys == old(outbox).Keys
        invariant forall id :: id in outbox ==>
          || outbox[id] == old(outbox)[id]
          || (Claimable(old(outbox)[id]) && id !in old(Held()) && outbox[id] == SentAt(old(outbox)[id], clock))
        decreases |Tries(outbox)|
      {
        assert Held() == old(Held());
        ghost var was := outbox;
        var n, fine, ids := Once();
        if !fine { return total, false; }
        total := total + n;
        if n < BATCH {
          forall id | id in old(outbox) && Claimable(old(outbox)[id]) && id !in old(Held())
            ensures outbox[id] == SentAt(old(outbox)[id], clock)
          {
            assert was[id] == old(outbox)[id] ==> id in ids by { LastRound(ids, was, old(Held()), id); }
          }
          return total, true;
        }
      }
    }

    /** `prune`: batch after batch, until one is not full. Exactly what is past
        retention goes; a row still unsent never does. */
    method Prune() returns (total: nat)
      requires Valid()
      modifies this
      ensures Valid() && relays == old(relays) && clock == old(clock) && kinds == old(kinds)
      ensures forall id :: id in outbox <==>
        id in old(outbox) && (old(outbox)[id].sent.Some? ==> clock <= old(outbox)[id].sent.value + 604_800_000)
      ensures forall id :: id in outbox ==> outbox[id] == old(outbox)[id]
      ensures mail.Keys == old(mail).Keys
      ensures forall m :: m in mail ==>
        var p := old(mail)[m];
        mail[m] == if m.consumer == consumer && p.mark.Some? && p.mark.value + 1_814_400_000 < clock then p.(mark := None) else p
    {
      total := PruneOutbox();
      var marks := PruneProcessed();
      total := total + marks;
    }

    method DeleteRows(ids: set<Id>)
      requires Valid() && ids <= OldRows(outbox, clock)
      modifies `outbox, `states, `steps
      ensures Valid() && outbox == old(outbox) - ids
    {
      outbox := outbox - ids;
      Record(PruneSent(ids));
    }

    method DeleteMarks(ids: set<Copy>)
      requires Valid() && ids <= OldMarks(mail, consumer, clock)
      modifies `mail, `states, `steps
      ensures Valid() && mail == Forgotten(old(mail), ids)
    {
      mail := Forgotten(mail, ids);
      Record(PruneMarks(ids));
    }

    method PruneOutbox() returns (total: nat)
      requires Valid()
      modifies `outbox, `states, `steps
      ensures Valid() && outbox == old(outbox) - OldRows(old(outbox), clock)
      ensures total == |OldRows(old(outbox), clock)|
    {
      hide Run;
      total := 0;
      ghost var all := OldRows(outbox, clock);
      while true
        invariant Valid() && OldRows(outbox, clock) <= all && outbox == old(outbox) - (all - OldRows(outbox, clock))
        invariant total == |all| - |OldRows(outbox, clock)|
        decreases OldRows(outbox, clock)
      {
        var due := OldRows(outbox, clock);
        ghost var part := SomeOf(due, PRUNE_BATCH);
        var size := if |due| < PRUNE_BATCH then |due| else PRUNE_BATCH;
        var ids :| ids <= due && |ids| == size;
        DeleteRows(ids);
        assert OldRows(outbox, clock) == due - ids;
        assert outbox == old(outbox) - (all - (due - ids));
        total := total + |ids|;
        SubsetCount(ids, due);
        if |ids| < PRUNE_BATCH { break; }
      }
    }

    method PruneProcessed() returns (total: nat)
      requires Valid()
      modifies `mail, `states, `steps
      ensures Valid() && mail == Forgotten(old(mail), OldMarks(old(mail), consumer, clock))
      ensures total == |OldMarks(old(mail), consumer, clock)|
    {
      hide Run;
      total := 0;
      ghost var all := OldMarks(mail, consumer, clock);
      assert mail == Forgotten(mail, {});
      while true
        invariant Valid() && OldMarks(mail, consumer, clock) <= all
        invariant mail == Forgotten(old(mail), all - OldMarks(mail, consumer, clock))
        invariant total == |all| - |OldMarks(mail, consumer, clock)|
        decreases OldMarks(mail, consumer, clock)
      {
        var due := OldMarks(mail, consumer, clock);
        ghost var part := SomeOf(due, PRUNE_BATCH);
        var size := if |due| < PRUNE_BATCH then |due| else PRUNE_BATCH;
        var ids :| ids <= due && |ids| == size;
        DeleteMarks(ids);
        assert OldMarks(mail, consumer, clock) == due - ids;
        assert mail == Forgotten(old(mail), all - (due - ids));
        total := total + |ids|;
        SubsetCount(ids, due);
        if |ids| < PRUNE_BATCH { break; }
      }
    }

    /** `Dispatcher.handle`: the marker and the handler's writes commit together,
        or neither does. `fails`: the handler raises. */
    method Handle(m: Copy, fails: bool) returns (handled: bool, raised: bool)
      requires Valid() && At(View(), m).queued > 0 && At(View(), m).working.None?
      modifies `mail, `states, `steps
      ensures Valid() && handled == (old(At(View(), m)).mark.None? && !fails) && raised == (old(At(View(), m)).mark.None? && fails)
      ensures mail == if raised then old(mail) else old(mail)[m := Taken(old(At(View(), m)), clock)]
    {
      hide Run;
      var p := At(View(), m);
      if p.mark.Some? {
        mail := mail[m := p.(acks := p.acks + 1)];
        Record(Message(m, Skip));
        return false, false;
      }
      var q := p.(working := Some(clock));
      mail := mail[m := q];
      Record(Message(m, Begin));
      if fails {
        mail := mail[m := q.(working := None)];
        Record(Message(m, Fail));
        assert mail == old(mail);
        return false, true;
      }
      mail := mail[m := Taken(p, clock)];
      Record(Message(m, Finish));
      return true, false;
    }

    /** `_one`: deleted only once handled, or found to be; else left where it is. */
    method Receive(m: Copy, fails: bool)
      requires Valid() && At(View(), m).queued > 0 && At(View(), m).working.None?
      modifies `mail, `states, `steps
      ensures Valid()
      ensures var p := old(At(View(), m));
        && (p.mark.Some? ==> mail == old(mail)[m := p.(queued := p.queued - 1)])
        && (p.mark.None? && fails ==> mail == old(mail))
        && (p.mark.None? && !fails ==>
          mail == old(mail)[m := p.(queued := p.queued - 1, effects := p.effects + 1, mark := Some(clock),
                                    first := if p.first.Some? then p.first else Some(clock))])
    {
      hide Run;
      var _, raised := Handle(m, fails);
      if !raised {
        var p := At(View(), m);
        mail := mail[m := p.(acks := p.acks - 1, queued := p.queued - 1)];
        Record(Message(m, Delete));
      }
    }
  }

  lemma UsesTries(was: map<Id, OutRow>, outbox: map<Id, OutRow>, ids: seq<Id>, now: int)
    requires ids != [] && forall id :: id in ids ==> id in was && Claimable(was[id])
    requires outbox == Sent(was, ids, now) || outbox == Counted(was, ids)
    ensures |Tries(outbox)| < |Tries(was)|
  {
    var id := ids[0];
    assert Tries(outbox) <= Tries(was);
    assert (id, was[id].attempts) in Tries(was) && (id, was[id].attempts) !in Tries(outbox);
    SubsetCount(Tries(outbox), Tries(was));
  }
}
