/** What each step of `create` answers, exactly, in terms of the bookings alone;
    and that the busy windows the app shows are the ones it may not ask for. */
module CreationAnswers {
  import opened Wrappers
  import opened BookingState
  import opened Booking
  import opened BookingInvariants
  import opened BookingOps
  import opened BookingSystem
  import H = BookingHistory

  /** A booking that is on, or waits to be, or was, takes its window of the listing. */
  predicate Takes(s: Row, listing: Id, start: int, end: int) {
    && s.status in {AwaitingPayment, Requested, Accepted, Active, Completed, Disputed}
    && s.terms.listing == listing && s.terms.start < end && start < s.terms.end
  }

  predicate TakenFor(db: DB, t: Terms) {
    exists b :: b in db.bookings && Takes(db.bookings[b], t.listing, t.start, t.end)
  }

  /** "Just taken": exactly if such a booking overlaps. Windows that only touch do not. */
  lemma WhatTheCheckAnswers(cfg: Settings, s: Sys, t: TxId)
    requires SysOk(cfg, s) && t in s.txs && s.txs[t].phase.Locked?
    ensures CanStep(cfg, s, CheckWindow(t)) && AmountsOk(s.db)
    ensures var p, w := s.txs[t].phase, s.txs[t].phase.row.terms;
      Next(cfg, s, CheckWindow(t)) == To(s, t,
        if TakenFor(s.db, w) then Answered(Refused(Conflict)) else WindowFree(p.id, p.row))
  {
    hide SysOk, AmountsOk, Taken, TakenFor;
    SysAmounts(cfg, s);
    AwaitsPayment(cfg, s, t);
    TakenWhen(s.db, s.txs[t].phase.row);
  }

  lemma AwaitsPayment(cfg: Settings, s: Sys, t: TxId)
    requires SysOk(cfg, s) && t in s.txs && s.txs[t].phase.Locked?
    ensures s.txs[t].phase.row.status == AwaitingPayment
  {
    assert TxOk(s.db, s.txs[t]);
    hide Inv, Apart, Taken, HasKey, AskedFor;
  }

  lemma TakenWhen(db: DB, row: Row)
    requires row.status == AwaitingPayment
    ensures Taken(db, row) <==> TakenFor(db, row.terms)
  {
    assert forall b :: b in db.bookings ==>
      (Clash(row, db.bookings[b]) <==> Takes(db.bookings[b], row.terms.listing, row.terms.start, row.terms.end));
    hide Clash, Takes;
  }

  predicate MadeUnder(db: DB, ask: Ask, id: Id) {
    && ask.key.Some? && id in db.bookings
    && db.bookings[id].terms.requester == ask.requester && db.bookings[id].terms.key == ask.key
  }

  /** The key lookup, first and after a failed insert: the booking made under the key
      if the body is the same, "invalid" if it is another; without one it goes on, and
      after a failed insert the window was just taken. */
  lemma WhatAKeyAnswers(cfg: Settings, db: DB, ask: Ask, id: Id)
    requires Inv(cfg, db)
    ensures MadeUnder(db, ask, id) ==>
      var r := db.bookings[id];
      HasKey(db, ask)
      && Replay(db, ask) == (if r.terms.hash == ask.hash then Found(id, r.status == AwaitingPayment) else Answered(Refused(Invalid)))
      && AfterRollback(db, ask) == Replay(db, ask)
    ensures (forall b :: !MadeUnder(db, ask, b)) ==> !HasKey(db, ask) && AfterRollback(db, ask) == Answered(Refused(Conflict))
  {
    if MadeUnder(db, ask, id) {
      assert Keyed(db, ask, id);
      H.OnlyOneKeyed(cfg, db, ask, id);
    }
    hide Inv;
    assert forall b :: MadeUnder(db, ask, b) <==> Keyed(db, ask, b);
  }

  predicate NoneUnder(db: DB, ask: Ask) { forall b :: b in db.bookings ==> !MadeUnder(db, ask, b) }

  function Shown(r: Row, ask: Ask, id: Id): Phase {
    if r.terms.hash == ask.hash then Found(id, r.status == AwaitingPayment) else Answered(Refused(Invalid))
  }

  lemma WhatAKeyMeans(cfg: Settings, db: DB, ask: Ask, id: Id)
    requires Inv(cfg, db)
    ensures MadeUnder(db, ask, id) ==> HasKey(db, ask) && Replay(db, ask) == Shown(db.bookings[id], ask, id)
    ensures NoneUnder(db, ask) ==> !HasKey(db, ask)
  {
    WhatAKeyAnswers(cfg, db, ask, id);
    hide Inv;
  }

  lemma WhatAFirstLookupAnswers(cfg: Settings, s: Sys, t: TxId, id: Id)
    requires Inv(cfg, s.db) && t in s.txs && AmountsOk(s.db) && s.txs[t].phase.Arrived?
    ensures CanStep(cfg, s, Lookup(t))
    ensures MadeUnder(s.db, s.txs[t].ask, id) ==> Next(cfg, s, Lookup(t)) == To(s, t, Shown(s.db.bookings[id], s.txs[t].ask, id))
    ensures NoneUnder(s.db, s.txs[t].ask) ==> Next(cfg, s, Lookup(t)) == To(s, t, Looked)
  {
    hide Inv, AmountsOk, HasKey, Replay, MadeUnder, NoneUnder, Shown;
    WhatAKeyMeans(cfg, s.db, s.txs[t].ask, id);
  }

  lemma WhatALaterLookupAnswers(cfg: Settings, s: Sys, t: TxId, id: Id)
    requires Inv(cfg, s.db) && t in s.txs && AmountsOk(s.db) && s.txs[t].phase.RolledBack?
    ensures CanStep(cfg, s, Recheck(t))
    ensures MadeUnder(s.db, s.txs[t].ask, id) ==> Next(cfg, s, Recheck(t)) == To(s, t, Shown(s.db.bookings[id], s.txs[t].ask, id))
    ensures NoneUnder(s.db, s.txs[t].ask) ==> Next(cfg, s, Recheck(t)) == To(s, t, Answered(Refused(Conflict)))
  {
    hide Inv, AmountsOk, HasKey, Replay, MadeUnder, NoneUnder, Shown;
    WhatAKeyMeans(cfg, s.db, s.txs[t].ask, id);
  }

  /** The row of a booking after its payment was definitely refused. */
  function LetGo(r: Row): Row {
    if r.status == AwaitingPayment then r.(status := PaymentFailed, expires := None) else r
  }

  lemma RefusalLetsGo(db: DB, id: Id, now: int)
    requires id in db.bookings
    ensures PaymentRefused(db, id, now).bookings == db.bookings[id := LetGo(db.bookings[id])]
  {}

  /** What comes of a booking's first payment: one that is past it is simply shown; no
      answer keeps it for a retry; a definite refusal lets it go, and is passed on. */
  lemma WhatPaymentsAnswer(cfg: Settings, s: Sys, t: TxId, start: PaymentStart, read: int)
    requires CanStep(cfg, s, Pay(t, start, read)) && AmountsOk(s.db) && s.txs[t].phase.id in s.db.bookings
    ensures var s', p := Next(cfg, s, Pay(t, start, read)), s.txs[t].phase;
      if p.unpaid && start.Outage? then s' == To(s, t, Answered(Refused(Unavailable)))
      else if p.unpaid && start.Refusal? then
        s'.txs == To(s, t, Answered(Refused(start.error))).txs && s'.db.bookings == s.db.bookings[p.id := LetGo(s.db.bookings[p.id])]
      else s' == To(s, t, Answered(Created(p.id)))
  {
    RefusalLetsGo(s.db, s.txs[t].phase.id, read);
    hide AmountsOk, InTurn, PaymentRefused, LetGo;
  }

  /** What is committed: the row that was offered, unpaid, its first line and event. */
  lemma WhatACommitWrites(cfg: Settings, s: Sys, t: TxId)
    requires SysOk(cfg, s) && CanStep(cfg, s, Commit(t)) && AmountsOk(s.db)
    ensures var p := s.txs[t].phase; p.id !in s.db.bookings && OfferedTo(s.txs[t].ask, p.row)
    ensures var s', p := Next(cfg, s, Commit(t)), s.txs[t].phase;
      Starts(s.db, s'.db, p.id, p.row) && s'.txs == s.txs[t := s.txs[t].(phase := Found(p.id, true))]
  {
    hide SysOk, AmountsOk, Starts, Insert;
    ItsRow(cfg, s, t);
    InsertStarts(s.db, s.txs[t].phase.id, s.txs[t].phase.row);
  }

  predicate OfferedTo(ask: Ask, row: Row) {
    && row.status == AwaitingPayment && row.refund == None && row.noShow == None
    && row.terms.requester == ask.requester && row.terms.key == ask.key && row.terms.hash == ask.hash
  }

  predicate Starts(db: DB, db': DB, id: Id, row: Row) {
    var change := Change(id, None, AwaitingPayment, Of(row.terms.requester));
    && db'.bookings == db.bookings[id := row] && db'.disputes == db.disputes && db'.resolutions == db.resolutions
    && db'.trail == db.trail + [Edge(change, row.terms.createdAt)] && db'.outbox == db.outbox + [StatusChanged(change, None, None)]
  }

  lemma InsertStarts(db: DB, id: Id, row: Row)
    requires row.status == AwaitingPayment && row.refund == None && row.noShow == None
    ensures Starts(db, Insert(db, id, row), id, row)
  {}

  lemma ItsRow(cfg: Settings, s: Sys, t: TxId)
    requires SysOk(cfg, s) && t in s.txs && s.txs[t].phase.Inserted?
    ensures s.txs[t].phase.id !in s.db.bookings && OfferedTo(s.txs[t].ask, s.txs[t].phase.row)
  {
    assert TxOk(s.db, s.txs[t]);
    hide Inv, Apart, Taken, HasKey, TermsOk;
  }

  /** The busy windows shown for a stretch of time are exactly what a request within it
      is refused for. */
  lemma BusyIsWhatIsTaken(cfg: Settings, db: DB, row: Row, start: int, until: int, order: seq<Id>)
    requires Inv(cfg, db) && row.status == AwaitingPayment && H.BusyAnswer(db, row.terms.listing, start, until, order)
    requires start <= row.terms.start < row.terms.end <= until
    ensures Taken(db, row) <==>
      exists k :: 0 <= k < |order| && order[k] in db.bookings
        && db.bookings[order[k]].terms.start < row.terms.end && row.terms.start < db.bookings[order[k]].terms.end
  {
    hide Inv;
    if Taken(db, row) {
      var b :| b in db.bookings && Clash(row, db.bookings[b]);
      assert H.InRange(db.bookings[b], row.terms.listing, start, until) && b in order;
      var k :| 0 <= k < |order| && order[k] == b;
    }
    forall k | 0 <= k < |order| && order[k] in db.bookings
      && db.bookings[order[k]].terms.start < row.terms.end && row.terms.start < db.bookings[order[k]].terms.end
      ensures Taken(db, row)
    {
      assert order[k] in order && Clash(row, db.bookings[order[k]]);
    }
  }
}
