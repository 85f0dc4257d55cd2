/** The whole booking service at run time: any number of `create` requests in
    the middle of what they do (booking/routes.py), and every other request,
    event and sweep as one transaction between their steps. */
module BookingSystem {
  import opened Wrappers
  import opened BookingState
  import opened Booking
  import opened BookingInvariants
  import opened BookingOps

  type TxId = nat

  /** What a client sent: who asks, under which key, and the body's fingerprint. */
  datatype Ask = Ask(requester: Person, key: Option<nat>, hash: nat)

  datatype Reply = Created(id: Id) | Refused(error: Error)

  /** Where a `create` is. `unpaid`: as the row read when the booking was found or made. */
  datatype Phase =
    | Arrived
    | Looked
    | Priced(id: Id, row: Row)
    | Locked(id: Id, row: Row)
    | WindowFree(id: Id, row: Row)
    | Inserted(id: Id, row: Row)
    | RolledBack
    | Found(id: Id, unpaid: bool)
    | Answered(reply: Reply)

  datatype Tx = Tx(ask: Ask, phase: Phase)

  datatype Sys = Sys(db: DB, txs: map<TxId, Tx>)

  /** What payments answers: done, no answer, or a definite refusal. */
  datatype PaymentStart = Started | Outage | Refusal(error: Error)

  /** `read`: when the transaction that commits had read the clock. */
  datatype Step =
    | Arrive(t: TxId, ask: Ask)
    | Lookup(t: TxId)
    | Refuse(t: TxId, error: Error)
    | Price(t: TxId, id: Id, row: Row)
    | LockListing(t: TxId)
    | CheckWindow(t: TxId)
    | InsertRow(t: TxId)
    | Commit(t: TxId)
    | Contend(t: TxId)
    | Recheck(t: TxId)
    | Pay(t: TxId, start: PaymentStart, read: int)
    | Crash(t: TxId)
    | Tick(now: int)
    | Other(op: Op, read: int)

  /** A `create` that has its row ready and has not ended. */
  predicate Pending(p: Phase) { p.Priced? || p.Locked? || p.WindowFree? || p.Inserted? }

  /** The advisory lock lasts until the transaction ends. */
  predicate HoldsLock(p: Phase, listing: Id) {
    (p.Locked? || p.WindowFree? || p.Inserted?) && p.row.terms.listing == listing
  }

  ghost predicate Keyed(db: DB, ask: Ask, id: Id) {
    id in db.bookings && ask.key.Some? && db.bookings[id].terms.key == ask.key
    && db.bookings[id].terms.requester == ask.requester
  }

  ghost predicate HasKey(db: DB, ask: Ask) { exists id :: Keyed(db, ask, id) }

  /** `_replay`: the booking this key made, unless the body differs. */
  ghost function Replay(db: DB, ask: Ask): Phase
    requires HasKey(db, ask)
  {
    var id :| Keyed(db, ask, id);
    if db.bookings[id].terms.hash != ask.hash then Answered(Refused(Invalid))
    else Found(id, db.bookings[id].status == AwaitingPayment)
  }

  /** `window_taken`, on what is committed. */
  ghost predicate Taken(db: DB, row: Row) {
    exists b :: b in db.bookings && Clash(row, db.bookings[b])
  }

  /** What the database and the other services allow next. */
  ghost predicate CanStep(cfg: Settings, s: Sys, step: Step) {
    match step
    case Arrive(t, _) => t !in s.txs
    case Tick(now) => s.db.clock <= now
    case Other(op, read) => Enabled(cfg, s.db, op, read)
    case Lookup(t) => t in s.txs && s.txs[t].phase.Arrived?
    case Refuse(t, _) => t in s.txs && s.txs[t].phase.Looked?
    case Price(t, id, row) =>
      && t in s.txs && s.txs[t].phase.Looked?
      && Fresh(row, s.db.clock) && PaymentDue(cfg, row) && AskedFor(s.txs[t].ask, row)
      && id !in s.db.bookings
      && forall u :: u in s.txs && Pending(s.txs[u].phase) ==> s.txs[u].phase.id != id
    case LockListing(t) =>
      && t in s.txs && s.txs[t].phase.Priced?
      && forall u :: u in s.txs ==> !HoldsLock(s.txs[u].phase, s.txs[t].phase.row.terms.listing)
    case CheckWindow(t) => t in s.txs && s.txs[t].phase.Locked?
    case InsertRow(t) =>
      // A concurrent insert of the same key makes the unique index wait for its outcome.
      && t in s.txs && s.txs[t].phase.WindowFree?
      && forall u :: u in s.txs && s.txs[u].phase.Inserted? ==> !SameKey(s.txs[t].phase.row, s.txs[u].phase.row)
    case Commit(t) => t in s.txs && s.txs[t].phase.Inserted?
    case Contend(t) => t in s.txs && Pending(s.txs[t].phase)
    case Recheck(t) => t in s.txs && s.txs[t].phase.RolledBack?
    case Pay(t, _, read) =>
      t in s.txs && s.txs[t].phase.Found? && InTurn(s.db, PaymentIsRefused(s.txs[t].phase.id), read)
    case Crash(t) => t in s.txs
  }

  /** How long a new booking holds its window unpaid. */
  predicate PaymentDue(cfg: Settings, row: Row) {
    row.expires == Some(row.terms.createdAt + cfg.paymentTimeout)
  }

  ghost predicate AskedFor(ask: Ask, row: Row) {
    row.terms.requester == ask.requester && row.terms.key == ask.key && row.terms.hash == ask.hash
  }

  function To(s: Sys, t: TxId, p: Phase): Sys
    requires t in s.txs
  {
    s.(txs := s.txs[t := s.txs[t].(phase := p)])
  }

  /** `window_taken`, then on or refused; under the lock. */
  ghost function AfterCheck(db: DB, p: Phase): Phase
    requires p.Locked?
  {
    if Taken(db, p.row) then Answered(Refused(Conflict)) else WindowFree(p.id, p.row)
  }

  /** The insert, or the unique index's refusal of a key that is already there. */
  ghost function AfterInsert(db: DB, ask: Ask, p: Phase): Phase
    requires p.WindowFree?
  {
    if HasKey(db, ask) then RolledBack else Inserted(p.id, p.row)
  }

  /** After a failed insert: the booking the key made, or "just taken". */
  ghost function AfterRollback(db: DB, ask: Ask): Phase {
    if HasKey(db, ask) then Replay(db, ask) else Answered(Refused(Conflict))
  }

  ghost function Next(cfg: Settings, s: Sys, step: Step): Sys
    requires CanStep(cfg, s, step) && AmountsOk(s.db)
  {
    match step
    case Arrive(t, ask) => s.(txs := s.txs[t := Tx(ask, Arrived)])
    case Lookup(t) => To(s, t, if HasKey(s.db, s.txs[t].ask) then Replay(s.db, s.txs[t].ask) else Looked)
    case Refuse(t, error) => To(s, t, Answered(Refused(error)))
    case Price(t, id, row) => To(s, t, Priced(id, row))
    case LockListing(t) => To(s, t, Locked(s.txs[t].phase.id, s.txs[t].phase.row))
    case CheckWindow(t) =>
      To(s, t, AfterCheck(s.db, s.txs[t].phase))
    case InsertRow(t) =>
      To(s, t, AfterInsert(s.db, s.txs[t].ask, s.txs[t].phase))
    case Commit(t) =>
      var p := s.txs[t].phase;
      To(s.(db := Insert(s.db, p.id, p.row)), t, Found(p.id, true))
    case Contend(t) => To(s, t, RolledBack)
    case Recheck(t) =>
      To(s, t, AfterRollback(s.db, s.txs[t].ask))
    case Pay(t, start, read) =>
      var p := s.txs[t].phase;
      if !p.unpaid || start.Started? then To(s, t, Answered(Created(p.id)))
      else if start.Outage? then To(s, t, Answered(Refused(Unavailable)))
      else To(s.(db := PaymentRefused(s.db, p.id, read)), t, Answered(Refused(start.error)))
    case Crash(t) => s.(txs := map u | u in s.txs && u != t :: s.txs[u])
    case Tick(now) => s.(db := s.db.(clock := now))
    case Other(op, read) => s.(db := After(cfg, s.db, op, read))
  }

  // --- what every run keeps --------------------------------------------------------------------

  /** A reply that names a booking names the one made under its key and body. */
  ghost predicate Names(db: DB, ask: Ask, id: Id) {
    id in db.bookings && AskedFor(ask, db.bookings[id])
  }

  ghost predicate TxOk(db: DB, x: Tx) {
    var p := x.phase;
    && (Pending(p) ==> Fresh(p.row, db.clock) && AskedFor(x.ask, p.row) && p.id !in db.bookings)
    && (p.WindowFree? || p.Inserted? ==> !Taken(db, p.row))
    && (p.Inserted? ==> !HasKey(db, x.ask))
    && (p.Found? ==> Names(db, x.ask, p.id))
    && (p.Answered? && p.reply.Created? ==> Names(db, x.ask, p.reply.id))
  }

  /** Two requests never hold one listing's lock, one fresh id, or one key's index entry. */
  ghost predicate Apart(x: Tx, y: Tx) {
    && (Pending(x.phase) && Pending(y.phase) ==> x.phase.id != y.phase.id)
    && (forall l :: !(HoldsLock(x.phase, l) && HoldsLock(y.phase, l)))
    && (x.phase.Inserted? && y.phase.Inserted? ==> !SameKey(x.phase.row, y.phase.row))
  }

  ghost predicate SysOk(cfg: Settings, s: Sys) {
    && Inv(cfg, s.db)
    && (forall t :: t in s.txs ==> TxOk(s.db, s.txs[t]))
    && (forall t, u :: t in s.txs && u in s.txs && t != u ==> Apart(s.txs[t], s.txs[u]))
  }

  // --- each step keeps it ---------------------------------------------------------------------------

  lemma PhaseMoves(cfg: Settings, s: Sys, t: TxId, p: Phase)
    requires SysOk(cfg, s) && t in s.txs
    requires TxOk(s.db, s.txs[t].(phase := p))
    requires forall u :: u in s.txs && u != t ==> Apart(s.txs[t].(phase := p), s.txs[u])
    ensures SysOk(cfg, To(s, t, p))
  {
    hide Inv, TxOk;
    var s' := To(s, t, p);
    forall u, v | u in s'.txs && v in s'.txs && u != v ensures Apart(s'.txs[u], s'.txs[v]) {
      assert u != t && v != t ==> Apart(s.txs[u], s.txs[v]);
    }
  }

  /** A phase that keeps no more than the one before leaves the others alone. */
  lemma NoNewClaim(x: Tx, p: Phase, y: Tx)
    requires Apart(x, y)
    requires Pending(p) ==> Pending(x.phase) && p.id == x.phase.id && p.row == x.phase.row
    requires forall l :: HoldsLock(p, l) ==> HoldsLock(x.phase, l)
    requires p.Inserted? && y.phase.Inserted? ==> !SameKey(p.row, y.phase.row)
    ensures Apart(x.(phase := p), y)
  {}

  lemma Released(cfg: Settings, s: Sys, t: TxId, p: Phase)
    requires SysOk(cfg, s) && t in s.txs
    requires TxOk(s.db, s.txs[t].(phase := p)) && !Pending(p)
    ensures SysOk(cfg, To(s, t, p))
  {
    hide Inv, TxOk;
    forall u | u in s.txs && u != t ensures Apart(s.txs[t].(phase := p), s.txs[u]) {
      assert Apart(s.txs[t], s.txs[u]);
    }
    PhaseMoves(cfg, s, t, p);
  }

  lemma ReplayNames(db: DB, ask: Ask)
    requires HasKey(db, ask)
    ensures TxOk(db, Tx(ask, Replay(db, ask)))
  {}

  /** The tables moving on disturbs no request in flight. */
  lemma TablesMove(cfg: Settings, s: Sys, db': DB)
    requires SysOk(cfg, s) && Inv(cfg, db') && Onward(s.db, db') && s.db.clock <= db'.clock
    ensures SysOk(cfg, s.(db := db'))
  {
    hide Inv, Apart;
    forall t | t in s.txs ensures TxOk(db', s.txs[t]) {
      TxStands(s.db, db', s.txs[t]);
    }
  }

  lemma TxStands(db: DB, db': DB, x: Tx)
    requires TxOk(db, x) && Onward(db, db') && db.clock <= db'.clock
    ensures TxOk(db', x)
  {
    SameKeys(db, db', x.ask);
    if x.phase.WindowFree? || x.phase.Inserted? { StillFree(db, db', x.phase.row); }
    if x.phase.Found? { StillNames(db, db', x.ask, x.phase.id); }
    if x.phase.Answered? && x.phase.reply.Created? { StillNames(db, db', x.ask, x.phase.reply.id); }
    hide Onward, Taken, HasKey, Names;
  }

  lemma StillFree(db: DB, db': DB, row: Row)
    requires Onward(db, db') && !Taken(db, row)
    ensures !Taken(db', row)
  {
    forall b | b in db'.bookings ensures !Clash(row, db'.bookings[b]) {
      assert RowLater(db.bookings[b], db'.bookings[b]) && !Clash(row, db.bookings[b]);
    }
  }

  lemma SameKeys(db: DB, db': DB, ask: Ask)
    requires Onward(db, db')
    ensures HasKey(db, ask) <==> HasKey(db', ask)
  {
    forall id ensures Keyed(db, ask, id) <==> Keyed(db', ask, id) {
      if id in db.bookings { assert RowLater(db.bookings[id], db'.bookings[id]); }
    }
  }

  lemma StillNames(db: DB, db': DB, ask: Ask, id: Id)
    requires Onward(db, db') && Names(db, ask, id)
    ensures Names(db', ask, id)
  {
    assert RowLater(db.bookings[id], db'.bookings[id]);
  }

  lemma CommitKeeps(cfg: Settings, s: Sys, t: TxId)
    requires SysOk(cfg, s) && t in s.txs && s.txs[t].phase.Inserted?
    ensures var p := s.txs[t].phase;
      SysOk(cfg, To(s.(db := Insert(s.db, p.id, p.row)), t, Found(p.id, true)))
  {
    var x := s.txs[t];
    var id, row := x.phase.id, x.phase.row;
    var db' := Insert(s.db, id, row);
    hide Inv, Fresh, Insert, TxOk, Apart;
    assert TxOk(s.db, x);
    RoomForIt(cfg, s.db, x);
    var s' := To(s.(db := db'), t, Found(id, true));
    forall u | u in s'.txs ensures TxOk(db', s'.txs[u]) {
      if u != t {
        assert TxOk(s.db, s.txs[u]) && Apart(s.txs[t], s.txs[u]);
        OthersStand(s.db, id, row, x, s.txs[u]);
      } else {
        InsertNames(s.db, id, row, x);
      }
    }
    forall u, v | u in s'.txs && v in s'.txs && u != v ensures Apart(s'.txs[u], s'.txs[v]) {
      assert Apart(s.txs[u], s.txs[v]);
      FoundClaimsNothing(s.txs[u], s.txs[v], id);
    }
  }

  lemma FoundClaimsNothing(x: Tx, y: Tx, id: Id)
    requires Apart(x, y)
    ensures Apart(x.(phase := Found(id, true)), y) && Apart(x, y.(phase := Found(id, true)))
  {}

  lemma RoomForIt(cfg: Settings, db: DB, x: Tx)
    requires Inv(cfg, db) && TxOk(db, x) && x.phase.Inserted?
    ensures Inv(cfg, Insert(db, x.phase.id, x.phase.row))
  {
    hide Inv, Insert;
    forall b | b in db.bookings ensures !Clash(x.phase.row, db.bookings[b]) && !SameKey(x.phase.row, db.bookings[b]) {
      assert !Keyed(db, x.ask, b);
    }
    InsertKeeps(cfg, db, x.phase.id, x.phase.row);
  }

  lemma InsertNames(db: DB, id: Id, row: Row, x: Tx)
    requires TxOk(db, x) && x.phase == Inserted(id, row)
    ensures TxOk(Insert(db, id, row), x.(phase := Found(id, true)))
  {}

  lemma OthersStand(db: DB, id: Id, row: Row, x: Tx, y: Tx)
    requires TxOk(db, x) && TxOk(db, y) && Apart(x, y)
    requires x.phase == Inserted(id, row)
    ensures TxOk(Insert(db, id, row), y)
  {
    var db' := Insert(db, id, row);
    hide Fresh;
    assert db'.bookings == db.bookings[id := row] && db'.clock == db.clock;
    if y.phase.WindowFree? || y.phase.Inserted? {
      assert HoldsLock(x.phase, row.terms.listing) && HoldsLock(y.phase, y.phase.row.terms.listing);
      forall b | b in db'.bookings ensures !Clash(y.phase.row, db'.bookings[b]) {
        if b != id { assert !Clash(y.phase.row, db.bookings[b]); }
      }
    }
    if y.phase.Inserted? {
      forall b ensures !Keyed(db', y.ask, b) { assert !Keyed(db, y.ask, b); }
    }
  }

  lemma Claims(cfg: Settings, s: Sys, t: TxId, p: Phase)
    requires SysOk(cfg, s) && t in s.txs && Pending(s.txs[t].phase) && Pending(p)
    requires p.id == s.txs[t].phase.id && p.row == s.txs[t].phase.row
    requires TxOk(s.db, s.txs[t].(phase := p))
    requires forall l :: HoldsLock(p, l) ==> HoldsLock(s.txs[t].phase, l)
    requires p.Inserted? ==>
      forall u :: u in s.txs && s.txs[u].phase.Inserted? ==> !SameKey(p.row, s.txs[u].phase.row)
    ensures SysOk(cfg, To(s, t, p))
  {
    hide Inv, TxOk;
    forall u | u in s.txs && u != t ensures Apart(s.txs[t].(phase := p), s.txs[u]) {
      assert Apart(s.txs[t], s.txs[u]);
      NoNewClaim(s.txs[t], p, s.txs[u]);
    }
    hide Apart;
    PhaseMoves(cfg, s, t, p);
  }

  lemma PriceKeeps(cfg: Settings, s: Sys, t: TxId, id: Id, row: Row)
    requires SysOk(cfg, s) && CanStep(cfg, s, Price(t, id, row))
    ensures SysOk(cfg, To(s, t, Priced(id, row)))
  {
    hide Inv;
    forall u | u in s.txs && u != t ensures Apart(s.txs[t].(phase := Priced(id, row)), s.txs[u]) {
      assert Apart(s.txs[t], s.txs[u]);
    }
    PhaseMoves(cfg, s, t, Priced(id, row));
  }

  lemma LockKeeps(cfg: Settings, s: Sys, t: TxId)
    requires SysOk(cfg, s) && CanStep(cfg, s, LockListing(t))
    ensures SysOk(cfg, To(s, t, Locked(s.txs[t].phase.id, s.txs[t].phase.row)))
  {
    hide Inv;
    var p := Locked(s.txs[t].phase.id, s.txs[t].phase.row);
    assert TxOk(s.db, s.txs[t]);
    forall u | u in s.txs && u != t ensures Apart(s.txs[t].(phase := p), s.txs[u]) {
      assert Apart(s.txs[t], s.txs[u]);
      assert !HoldsLock(s.txs[u].phase, p.row.terms.listing);
    }
    PhaseMoves(cfg, s, t, p);
  }

  lemma CheckKeeps(cfg: Settings, s: Sys, t: TxId)
    requires SysOk(cfg, s) && CanStep(cfg, s, CheckWindow(t)) && AmountsOk(s.db)
    ensures SysOk(cfg, Next(cfg, s, CheckWindow(t)))
  {
    hide Inv, Apart, Fresh;
    assert TxOk(s.db, s.txs[t]);
    if Taken(s.db, s.txs[t].phase.row) {
      Released(cfg, s, t, Answered(Refused(Conflict)));
    } else {
      Claims(cfg, s, t, WindowFree(s.txs[t].phase.id, s.txs[t].phase.row));
    }
  }

  lemma InsertRowKeeps(cfg: Settings, s: Sys, t: TxId)
    requires SysOk(cfg, s) && CanStep(cfg, s, InsertRow(t)) && AmountsOk(s.db)
    ensures SysOk(cfg, Next(cfg, s, InsertRow(t)))
  {
    hide Inv, Apart, Fresh;
    assert TxOk(s.db, s.txs[t]);
    if HasKey(s.db, s.txs[t].ask) {
      Released(cfg, s, t, RolledBack);
    } else {
      Claims(cfg, s, t, Inserted(s.txs[t].phase.id, s.txs[t].phase.row));
    }
  }

  lemma PayKeeps(cfg: Settings, s: Sys, t: TxId, start: PaymentStart, read: int)
    requires SysOk(cfg, s) && CanStep(cfg, s, Pay(t, start, read)) && AmountsOk(s.db)
    ensures SysOk(cfg, Next(cfg, s, Pay(t, start, read)))
  {
    hide SysOk, PaymentRefused;
    if s.txs[t].phase.unpaid && start.Refusal? {
      RefusalKeeps(cfg, s, t, start.error, read);
    } else if start.Outage? && s.txs[t].phase.unpaid {
      ReleasedTo(cfg, s, t, Answered(Refused(Unavailable)));
    } else {
      FoundIsNamed(cfg, s, t);
    }
  }

  lemma FoundIsNamed(cfg: Settings, s: Sys, t: TxId)
    requires SysOk(cfg, s) && t in s.txs && s.txs[t].phase.Found?
    ensures SysOk(cfg, To(s, t, Answered(Created(s.txs[t].phase.id))))
  {
    hide Inv, Apart, Fresh, HasKey, Taken, Names;
    assert TxOk(s.db, s.txs[t]);
    Released(cfg, s, t, Answered(Created(s.txs[t].phase.id)));
  }

  lemma RefusalKeeps(cfg: Settings, s: Sys, t: TxId, error: Error, read: int)
    requires read <= s.db.clock && SysOk(cfg, s) && t in s.txs && s.txs[t].phase.Found?
    ensures var db' := PaymentRefused(s.db, s.txs[t].phase.id, read);
      SysOk(cfg, To(s.(db := db'), t, Answered(Refused(error))))
  {
    hide Inv, Onward, PaymentRefused, TxOk, Apart;
    var db' := PaymentRefused(s.db, s.txs[t].phase.id, read);
    PaymentRefusedKeeps(cfg, s.db, s.txs[t].phase.id, read);
    TablesMove(cfg, s, db');
    hide SysOk;
    ReleasedTo(cfg, s.(db := db'), t, Answered(Refused(error)));
  }

  lemma AlwaysOk(db: DB, ask: Ask, p: Phase)
    requires p.Looked? || p.RolledBack? || p.Arrived? || (p.Answered? && p.reply.Refused?)
    ensures TxOk(db, Tx(ask, p))
  {}

  lemma TickKeeps(cfg: Settings, s: Sys, now: int)
    requires SysOk(cfg, s) && s.db.clock <= now
    ensures SysOk(cfg, s.(db := s.db.(clock := now)))
    ensures Onward(s.db, s.db.(clock := now))
  {
    ClockAdvances(s.db, now);
    ClockOnly(cfg, s.db, now);
    hide Inv, Onward, TxOk, Apart;
    TablesMove(cfg, s, s.db.(clock := now));
  }

  lemma ClockOnly(cfg: Settings, db: DB, now: int)
    requires Inv(cfg, db) && Core(db.(clock := now))
    ensures Inv(cfg, db.(clock := now))
  {
    hide Core, NoDoubleBooking, KeysUnique, DisputeOk, ResolutionOk, Rivals;
  }

  lemma ArriveKeeps(cfg: Settings, s: Sys, t: TxId, ask: Ask)
    requires SysOk(cfg, s) && t !in s.txs
    ensures SysOk(cfg, s.(txs := s.txs[t := Tx(ask, Arrived)]))
  {
    hide Inv;
    var s' := s.(txs := s.txs[t := Tx(ask, Arrived)]);
    forall u, v | u in s'.txs && v in s'.txs && u != v ensures Apart(s'.txs[u], s'.txs[v]) {
      if u != t && v != t { assert Apart(s.txs[u], s.txs[v]); }
    }
  }

  lemma CrashKeeps(cfg: Settings, s: Sys, t: TxId)
    requires SysOk(cfg, s) && t in s.txs
    ensures SysOk(cfg, s.(txs := map u | u in s.txs && u != t :: s.txs[u]))
  {
    hide Inv, Apart, TxOk;
  }

  lemma ReleasedTo(cfg: Settings, s: Sys, t: TxId, p: Phase)
    requires SysOk(cfg, s) && t in s.txs
    requires p.Looked? || p.RolledBack? || p.Arrived? || (p.Answered? && p.reply.Refused?)
    ensures SysOk(cfg, To(s, t, p))
  {
    hide SysOk, TxOk;
    AlwaysOk(s.db, s.txs[t].ask, p);
    Released(cfg, s, t, p);
  }

  lemma ReplayKeeps(cfg: Settings, s: Sys, t: TxId)
    requires SysOk(cfg, s) && t in s.txs && HasKey(s.db, s.txs[t].ask)
    ensures SysOk(cfg, To(s, t, Replay(s.db, s.txs[t].ask)))
  {
    hide SysOk, TxOk;
    ReplayNames(s.db, s.txs[t].ask);
    Released(cfg, s, t, Replay(s.db, s.txs[t].ask));
  }

  // --- runs ----------------------------------------------------------------------------------------------

  /** Rows may be added; those there stay and move only onward. */
  ghost predicate Grows(db: DB, db': DB) {
    forall id :: id in db.bookings ==> id in db'.bookings && RowLater(db.bookings[id], db'.bookings[id])
  }

  lemma GrowsTrans(a: DB, b: DB, c: DB)
    requires Grows(a, b) && Grows(b, c)
    ensures Grows(a, c)
  {
    forall id | id in a.bookings ensures id in c.bookings && RowLater(a.bookings[id], c.bookings[id]) {
      assert RowLater(a.bookings[id], b.bookings[id]) && RowLater(b.bookings[id], c.bookings[id]);
    }
  }

  lemma Stands(db: DB)
    ensures Grows(db, db)
  {}

  lemma CommitGrows(db: DB, id: Id, row: Row)
    requires id !in db.bookings
    ensures Grows(db, Insert(db, id, row))
  {}

  lemma OnwardGrows(db: DB, db': DB)
    requires Onward(db, db')
    ensures Grows(db, db')
  {}

  lemma FreshId(cfg: Settings, s: Sys, t: TxId)
    requires SysOk(cfg, s) && t in s.txs && Pending(s.txs[t].phase)
    ensures s.txs[t].phase.id !in s.db.bookings
  {
    assert TxOk(s.db, s.txs[t]);
  }

  /** The steps of a `create` up to the row being ready. */
  lemma EarlyStepKeeps(cfg: Settings, s: Sys, step: Step)
    requires SysOk(cfg, s) && CanStep(cfg, s, step) && AmountsOk(s.db)
    requires step.Arrive? || step.Lookup? || step.Refuse? || step.Price? || step.LockListing?
    ensures SysOk(cfg, Next(cfg, s, step))
  {
    hide SysOk, AmountsOk, Fresh, AskedFor, HasKey, Replay;
    match step {
      case Arrive(t, ask) => ArriveKeeps(cfg, s, t, ask);
      case Refuse(t, error) => ReleasedTo(cfg, s, t, Answered(Refused(error)));
      case Price(t, id, row) => PriceKeeps(cfg, s, t, id, row);
      case LockListing(t) => LockKeeps(cfg, s, t);
      case Lookup(t) =>
        if HasKey(s.db, s.txs[t].ask) { ReplayKeeps(cfg, s, t); } else { ReleasedTo(cfg, s, t, Looked); }
    }
  }

  /** Its steps from the lock to the answer. */
  lemma LateStepKeeps(cfg: Settings, s: Sys, step: Step)
    requires SysOk(cfg, s) && CanStep(cfg, s, step) && AmountsOk(s.db)
    requires step.CheckWindow? || step.InsertRow? || step.Commit? || step.Contend? || step.Recheck? || step.Pay? || step.Crash?
    ensures SysOk(cfg, Next(cfg, s, step))
  {
    hide SysOk, AmountsOk, Fresh, HasKey, Replay, SameKey;
    match step {
      case CheckWindow(t) => CheckKeeps(cfg, s, t);
      case InsertRow(t) => InsertRowKeeps(cfg, s, t);
      case Commit(t) => CommitKeeps(cfg, s, t);
      case Contend(t) => ReleasedTo(cfg, s, t, RolledBack);
      case Pay(t, start, read) => PayKeeps(cfg, s, t, start, read);
      case Crash(t) => CrashKeeps(cfg, s, t);
      case Recheck(t) =>
        if HasKey(s.db, s.txs[t].ask) { ReplayKeeps(cfg, s, t); } else { ReleasedTo(cfg, s, t, Answered(Refused(Conflict))); }
    }
  }

  lemma OtherKeeps(cfg: Settings, s: Sys, op: Op, read: int)
    requires SysOk(cfg, s) && Enabled(cfg, s.db, op, read) && AmountsOk(s.db)
    ensures SysOk(cfg, s.(db := After(cfg, s.db, op, read)))
  {
    hide Inv, Onward, After, TxOk, Apart, Enabled;
    AfterKeeps(cfg, s.db, op, read);
    TablesMove(cfg, s, After(cfg, s.db, op, read));
  }

  lemma OtherIs(cfg: Settings, s: Sys, op: Op, read: int)
    requires CanStep(cfg, s, Other(op, read)) && AmountsOk(s.db)
    ensures Enabled(cfg, s.db, op, read) && Next(cfg, s, Other(op, read)).db == After(cfg, s.db, op, read)
  {
    hide Enabled, After, AmountsOk;
  }

  lemma SysAmounts(cfg: Settings, s: Sys)
    requires SysOk(cfg, s)
    ensures AmountsOk(s.db)
  {
    hide Inv, TxOk, Apart, AmountsOk;
    Amounts(cfg, s.db);
  }

  /** Every step of every interleaving keeps the invariant. */
  lemma StepKeeps(cfg: Settings, s: Sys, step: Step)
    requires SysOk(cfg, s) && CanStep(cfg, s, step)
    ensures AmountsOk(s.db) && SysOk(cfg, Next(cfg, s, step))
  {
    hide SysOk, AmountsOk;
    SysAmounts(cfg, s);
    if step.Other? {
      OtherKeeps(cfg, s, step.op, step.read);
    } else if step.Tick? {
      TickKeeps(cfg, s, step.now);
    } else if step.Arrive? || step.Lookup? || step.Refuse? || step.Price? || step.LockListing? {
      hide CanStep, Next;
      EarlyStepKeeps(cfg, s, step);
    } else {
      hide CanStep, Next;
      LateStepKeeps(cfg, s, step);
    }
  }

  lemma StepGrows(cfg: Settings, s: Sys, step: Step)
    requires SysOk(cfg, s) && CanStep(cfg, s, step) && AmountsOk(s.db)
    ensures Grows(s.db, Next(cfg, s, step).db)
  {
    hide SysOk, Grows, AmountsOk;
    if step.Commit? {
      CommitStepGrows(cfg, s, step.t);
    } else if step.Tick? {
      TickKeeps(cfg, s, step.now);
      OnwardGrows(s.db, s.db.(clock := step.now));
    } else if step.Pay? {
      PayGrows(cfg, s, step.t, step.start, step.read);
    } else if step.Other? {
      OtherGrows(cfg, s, step.op, step.read);
    } else {
      Stands(s.db);
      TablesUntouched(cfg, s, step);
    }
  }

  lemma TablesUntouched(cfg: Settings, s: Sys, step: Step)
    requires CanStep(cfg, s, step) && AmountsOk(s.db)
    requires !step.Commit? && !step.Tick? && !step.Pay? && !step.Other?
    ensures Next(cfg, s, step).db == s.db
  {
    hide Fresh, AskedFor, Enabled, HasKey, Taken;
  }

  lemma CommitStepGrows(cfg: Settings, s: Sys, t: TxId)
    requires SysOk(cfg, s) && CanStep(cfg, s, Commit(t)) && AmountsOk(s.db)
    ensures Grows(s.db, Next(cfg, s, Commit(t)).db)
  {
    hide SysOk, Grows, AmountsOk, Insert;
    FreshId(cfg, s, t);
    CommitGrows(s.db, s.txs[t].phase.id, s.txs[t].phase.row);
  }

  lemma PayGrows(cfg: Settings, s: Sys, t: TxId, start: PaymentStart, read: int)
    requires SysOk(cfg, s) && CanStep(cfg, s, Pay(t, start, read)) && AmountsOk(s.db)
    ensures Grows(s.db, Next(cfg, s, Pay(t, start, read)).db)
  {
    hide SysOk, Grows, AmountsOk, PaymentRefused;
    Stands(s.db);
    RefusalGrows(cfg, s, s.txs[t].phase.id, read);
  }

  lemma RefusalGrows(cfg: Settings, s: Sys, id: Id, read: int)
    requires read <= s.db.clock && SysOk(cfg, s)
    ensures Grows(s.db, PaymentRefused(s.db, id, read))
  {
    hide Grows, Inv, Onward, PaymentRefused, TxOk, Apart;
    PaymentRefusedKeeps(cfg, s.db, id, read);
    OnwardGrows(s.db, PaymentRefused(s.db, id, read));
  }

  lemma OtherGrows(cfg: Settings, s: Sys, op: Op, read: int)
    requires SysOk(cfg, s) && Enabled(cfg, s.db, op, read) && AmountsOk(s.db)
    ensures Grows(s.db, After(cfg, s.db, op, read))
  {
    hide Grows, Inv, Onward, After, TxOk, Apart, Enabled;
    AfterKeeps(cfg, s.db, op, read);
    OnwardGrows(s.db, After(cfg, s.db, op, read));
  }

  /** A run from empty tables: any interleaving whatsoever. */
  ghost predicate Run(cfg: Settings, states: seq<Sys>, steps: seq<Step>) {
    && |states| == |steps| + 1
    && Start(states[0])
    && forall i :: 0 <= i < |steps| ==> OneStep(cfg, states[i], steps[i], states[i + 1])
  }

  ghost predicate Start(s: Sys) {
    s == Sys(DB(s.db.clock, map[], [], map[], map[], []), map[])
  }

  ghost predicate OneStep(cfg: Settings, s: Sys, step: Step, s': Sys) {
    CanStep(cfg, s, step) && AmountsOk(s.db) && s' == Next(cfg, s, step)
  }

  lemma StartOk(cfg: Settings, s: Sys)
    requires Start(s)
    ensures SysOk(cfg, s)
  {}

  lemma {:induction false} RunKeeps(cfg: Settings, states: seq<Sys>, steps: seq<Step>, i: nat)
    requires Run(cfg, states, steps) && i < |states|
    ensures SysOk(cfg, states[i])
  {
    hide SysOk, CanStep;
    if i == 0 {
      StartOk(cfg, states[0]);
    } else {
      RunKeeps(cfg, states, steps, i - 1);
      assert OneStep(cfg, states[i - 1], steps[i - 1], states[i]);
      StepKeeps(cfg, states[i - 1], steps[i - 1]);
    }
  }

  lemma {:induction false} RunGrows(cfg: Settings, states: seq<Sys>, steps: seq<Step>, i: nat, j: nat)
    requires Run(cfg, states, steps) && i <= j < |states|
    ensures Grows(states[i].db, states[j].db)
    decreases j - i
  {
    hide SysOk, CanStep, Grows;
    if i == j {
      Stands(states[i].db);
    } else {
      RunGrows(cfg, states, steps, i, j - 1);
      RunKeeps(cfg, states, steps, j - 1);
      assert OneStep(cfg, states[j - 1], steps[j - 1], states[j]);
      StepGrows(cfg, states[j - 1], steps[j - 1]);
      GrowsTrans(states[i].db, states[j - 1].db, states[j].db);
    }
  }
}
