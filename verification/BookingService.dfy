/** The booking service as it runs: one object over the tables, each request,
    event handler and sweep a method that changes them statement by statement
    (booking/repository.py, routes.py, handlers.py, support.py, jobs.py). Each
    is proved to leave exactly the tables its function in `Booking` says. */
module BookingService {
  import opened Wrappers
  import opened BookingState
  import opened Cancellation
  import opened Booking
  import opened BookingInvariants
  import opened BookingOps
  import S = BookingSystem

  const BATCH := 100

  /** A request commits what `answer` says, or is refused and rolls back. */
  ghost predicate Commits(answer: Result<DB>, before: DB, refused: Option<Error>, after: DB) {
    match answer
    case Ok(db) => refused == None && after == db
    case Err(e) => refused == Some(e) && after == before
  }

  lemma {:induction false} CloseInTurn(db: DB, k: Closing, a: seq<Id>, b: seq<Id>, now: int)
    ensures CloseEach(db, k, a + b, now) == CloseEach(CloseEach(db, k, a, now), k, b, now)
  {
    if b == [] {
      assert a + b == a;
    } else {
      var c := b[..|b| - 1];
      assert (a + b)[..|a + b| - 1] == a + c;
      CloseInTurn(db, k, a, c, now);
    }
  }

  lemma {:induction false} PublishInTurn(db: DB, a: seq<Id>, b: seq<Id>, now: int)
    ensures PublishEach(db, a + b, now) == PublishEach(PublishEach(db, a, now), b, now)
  {
    if b == [] {
      assert a + b == a;
    } else {
      var c := b[..|b| - 1];
      assert (a + b)[..|a + b| - 1] == a + c;
      PublishInTurn(db, a, c, now);
    }
  }

  lemma NoRows(db: DB, k: Closing, now: int)
    ensures CloseEach(db, k, [], now) == db && PublishEach(db, [], now) == db
  {}

  lemma JoinDistinct(a: seq<Id>, b: seq<Id>)
    requires Distinct(a) && Distinct(b) && forall id :: id in a ==> id !in b
    ensures Distinct(a + b)
  {
    forall i, j | 0 <= i < j < |a + b| ensures (a + b)[i] != (a + b)[j] {
      assert i < |a| ==> a[i] in a;
      assert j >= |a| ==> b[j - |a|] in b;
    }
  }

  /** What a query with a limit reads, in some order: all of it, or a full batch. */
  ghost predicate Reads(rows: seq<Id>, ids: set<Id>, limit: nat) {
    && Distinct(rows) && |rows| <= limit && (forall id :: id in rows ==> id in ids)
    && (|rows| < limit ==> Enumerates(rows, ids))
  }

  method Query(ids: set<Id>, limit: nat) returns (rows: seq<Id>)
    ensures Reads(rows, ids, limit)
  {
    var left := ids;
    rows := [];
    while left != {} && |rows| < limit
      invariant Distinct(rows) && |rows| <= limit
      invariant forall id :: id in ids <==> id in left || id in rows
      invariant forall id :: id in rows ==> id !in left
      decreases left
    {
      var id :| id in left;
      left, rows := left - {id}, rows + [id];
    }
  }

  method All(ids: set<Id>) returns (rows: seq<Id>)
    ensures Enumerates(rows, ids)
  {
    rows := Query(ids, |ids| + 1);
    if |rows| > |ids| {
      Few(rows, ids);
    }
  }

  lemma {:induction false} Few(rows: seq<Id>, ids: set<Id>)
    requires Distinct(rows) && forall id :: id in rows ==> id in ids
    ensures |rows| <= |ids|
  {
    if rows != [] {
      var last := rows[|rows| - 1];
      assert last in rows;
      assert forall id :: id in rows[..|rows| - 1] ==> id in ids - {last};
      Few(rows[..|rows| - 1], ids - {last});
    }
  }

  // What each pass of a sweep may take: due, and not held by another transaction.

  function LapsedRows(db: DB, locked: set<Id>): set<Id> {
    set id | id in db.bookings && id !in locked && LapseDue(db.bookings[id], db.clock)
  }

  function FinishedRows(cfg: Settings, db: DB, locked: set<Id>): set<Id> {
    set id | id in db.bookings && id !in locked && FinishDue(cfg, db.bookings[id], db.clock)
  }

  function UnpublishedRows(db: DB, locked: set<Id>): set<Id> {
    set id | id in db.bookings && id !in locked && ReviewDue(db.bookings[id], db.clock)
  }

  function EscalatedRows(db: DB, locked: set<Id>): set<Id> {
    set id | id in db.disputes && id !in locked && EscalationDue(db, id, db.clock)
  }

  /** Not paid or answered in time; or over, and its grace with it. */
  predicate Overtime(cfg: Settings, k: Closing, r: Row, now: int)
    requires k in {Lapsing, Finishing}
  {
    if k == Lapsing then r.status in {AwaitingPayment, Requested} && r.expires.Some? && r.expires.value <= now
    else r.status in {Accepted, Active} && r.terms.end + cfg.autoCompleteAfter <= now
  }

  /** Some review waits for one that can no longer come. */
  predicate Stuck(r: Row, now: int) {
    && r.status == Completed && r.reviews.published.None? && (r.reviews.outcome.Some? || r.reviews.renterRating.Some?)
    && r.terms.end + 1_209_600_000 < now
  }

  /** A row after a sweep: lapsed if it was not paid or answered in time, completed once
      the grace after its end is over, its one review published once 14 days are. */
  function AfterSweep(cfg: Settings, r: Row, now: int): Row {
    var moved :=
      if Overtime(cfg, Lapsing, r, now) then r.(status := Expired, expires := None)
      else if Overtime(cfg, Finishing, r, now) then r.(status := Completed, expires := None)
      else r;
    if Stuck(moved, now) then moved.(reviews := moved.reviews.(published := Some(now))) else moved
  }

  /** Its answer is overdue, and staff do not have it yet. */
  predicate Overdue(db: DB, id: Id, now: int) {
    && id in db.disputes && id in db.bookings && db.bookings[id].status == Disputed
    && db.disputes[id].escalated == None && db.disputes[id].respondBy <= now
  }

  /** Nothing is left to sweep among rows nobody holds. */
  predicate NothingLeft(cfg: Settings, db: DB, locked: set<Id>) {
    forall id :: id in db.bookings && id !in locked ==> CaughtUp(cfg, db.bookings[id], db.clock)
  }

  predicate CaughtUp(cfg: Settings, r: Row, now: int) {
    && (r.status in {AwaitingPayment, Requested} ==> r.expires.Some? && r.expires.value > now)
    && !Overtime(cfg, Lapsing, r, now) && !Overtime(cfg, Finishing, r, now) && !Stuck(r, now)
  }

  /** What payments made of a booking's first payment. */
  ghost predicate Paid(db: DB, id: Id, start: S.PaymentStart, reply: S.Reply, after: DB)
    requires id in db.bookings
  {
    if db.bookings[id].status != AwaitingPayment || start.Started? then reply == S.Created(id) && after == db
    else if start.Outage? then reply == S.Refused(Unavailable) && after == db
    else reply == S.Refused(start.error) && after == PaymentRefused(db, id, db.clock)
  }

  ghost predicate Creates(
    db: DB, ask: S.Ask, offered: Result<Row>, id: Id, start: S.PaymentStart, found: Option<Id>, reply: S.Reply, after: DB)
    requires found.Some? ==> found.value in db.bookings
  {
    if found.Some? then
      if db.bookings[found.value].terms.hash != ask.hash then reply == S.Refused(Invalid) && after == db
      else Paid(db, found.value, start, reply, after)
    else if offered.Err? then reply == S.Refused(offered.error) && after == db
    else if S.Taken(db, offered.value) then reply == S.Refused(Conflict) && after == db
    else Paid(Booking.Insert(db, id, offered.value), id, start, reply, after)
  }

  /** It joins the rest, and the rest stands if its payment is refused at once. */
  lemma NewOneKeeps(cfg: Settings, db: DB, ask: S.Ask, id: Id, row: Row)
    requires Inv(cfg, db) && id !in db.bookings && Fresh(row, db.clock) && S.AskedFor(ask, row) && !S.HasKey(db, ask)
    requires forall b :: b in db.bookings ==> !Clash(row, db.bookings[b])
    ensures var db1 := Booking.Insert(db, id, row); Inv(cfg, db1) && id in db1.bookings && Inv(cfg, PaymentRefused(db1, id, db.clock))
  {
    hide Inv, Fresh, PaymentRefused, Keeps;
    NobodyHasIt(db, ask, row);
    InsertKeeps(cfg, db, id, row);
    PaidKeeps(cfg, Booking.Insert(db, id, row), id, db.clock);
  }

  lemma PaidKeeps(cfg: Settings, db: DB, id: Id, now: int)
    requires Inv(cfg, db) && now <= db.clock
    ensures Inv(cfg, PaymentRefused(db, id, now))
  {
    PaymentRefusedKeeps(cfg, db, id, now);
    hide Inv, PaymentRefused, Onward;
  }

  lemma KeyedIsThere(db: DB, ask: S.Ask, id: Id)
    requires S.Keyed(db, ask, id)
    ensures id in db.bookings
  {}

  lemma NobodyHasIt(db: DB, ask: S.Ask, row: Row)
    requires !S.HasKey(db, ask) && S.AskedFor(ask, row)
    ensures forall b :: b in db.bookings ==> !SameKey(row, db.bookings[b])
  {
    forall b | b in db.bookings ensures !SameKey(row, db.bookings[b]) {
      assert !S.Keyed(db, ask, b);
    }
  }

  class Service {
    const cfg: Settings
    var clock: int
    var bookings: map<Id, Row>
    var trail: seq<Edge>
    var disputes: map<Id, DisputeRow>
    var resolutions: map<Id, Resolution>
    var outbox: seq<Event>
    /** Rows another transaction holds: SKIP LOCKED passes over them. */
    var locked: set<Id>

    function View(): DB
      reads this
    {
      DB(clock, bookings, trail, disputes, resolutions, outbox)
    }

    ghost predicate Valid()
      reads this
    {
      Inv(cfg, View())
    }

    constructor (cfg: Settings, now: int)
      ensures Valid() && this.cfg == cfg && View() == DB(now, map[], [], map[], map[], []) && locked == {}
    {
      this.cfg, clock, bookings, trail, disputes, resolutions, outbox, locked := cfg, now, map[], [], map[], map[], [], {};
    }

    // --- the repository ------------------------------------------------------------------------

    method Insert(id: Id, row: Row)
      modifies `bookings, `trail, `outbox
      ensures View() == Booking.Insert(old(View()), id, row)
    {
      bookings := bookings[id := row];
      var c := Change(id, None, row.status, Of(row.terms.requester));
      trail := trail + [Edge(c, row.terms.createdAt)];
      outbox := outbox + [StatusEvent(c, row)];
    }

    method Move(id: Id, row: Row, actor: Actor)
      requires id in bookings
      modifies `bookings, `trail, `outbox
      ensures View() == Booking.Move(old(View()), id, row, actor, clock)
    {
      var before := bookings[id].status;
      bookings := bookings[id := row];
      var c := Change(id, Some(before), row.status, actor);
      trail := trail + [Edge(c, clock)];
      outbox := outbox + [StatusEvent(c, row)];
    }

    method PublishReviews(id: Id)
      requires id in bookings
      modifies `bookings, `outbox
      ensures View() == Booking.PublishReviews(old(View()), id, clock)
    {
      var row := bookings[id];
      if row.reviews.published.Some? { return; }
      bookings := bookings[id := row.(reviews := row.reviews.(published := Some(clock)))];
      if row.reviews.outcome.Some? { outbox := outbox + [BookingRated(id, row.reviews.outcome.value)]; }
      if row.reviews.renterRating.Some? { outbox := outbox + [RenterRated(id, row.reviews.renterRating.value)]; }
    }

    // --- creating one ---------------------------------------------------------------------------

    method ByKey(ask: S.Ask) returns (found: Option<Id>)
      ensures found.Some? ==> S.Keyed(View(), ask, found.value)
      ensures found.None? ==> !S.HasKey(View(), ask)
    {
      if ask.key.None? { return None; }
      var ids := set id | id in bookings && bookings[id].terms.key == ask.key && bookings[id].terms.requester == ask.requester;
      if ids != {} {
        var id :| id in ids;
        return Some(id);
      }
      assert forall id :: S.Keyed(View(), ask, id) ==> id in ids;
      return None;
    }

    /** `_with_payment`: only an unpaid booking is started a payment for. */
    method WithPayment(id: Id, start: S.PaymentStart) returns (reply: S.Reply)
      requires id in bookings
      modifies `bookings, `trail, `outbox
      ensures Paid(old(View()), id, start, reply, View())
    {
      if bookings[id].status != AwaitingPayment { return S.Created(id); }
      match start {
        case Started => return S.Created(id);
        case Outage => return S.Refused(Unavailable);
        case Refusal(error) =>
          Move(id, bookings[id].(status := PaymentFailed, expires := None), System);
          return S.Refused(error);
      }
    }

    /** `create`, with nobody else in between (`BookingSystem` has them): the
        booking its key made, or a refusal, or a new booking in a free window. */
    method Create(ask: S.Ask, offered: Result<Row>, id: Id, start: S.PaymentStart) returns (reply: S.Reply, ghost found: Option<Id>)
      requires Valid() && id !in bookings
      requires offered.Ok? ==>
        Fresh(offered.value, clock) && S.PaymentDue(cfg, offered.value) && S.AskedFor(ask, offered.value)
      modifies `bookings, `trail, `outbox
      ensures Valid()
      ensures if found.None? then !S.HasKey(old(View()), ask) else S.Keyed(old(View()), ask, found.value)
      ensures Creates(old(View()), ask, offered, id, start, found, reply, View())
    {
      hide Inv, Keeps, PaymentRefused, Fresh, S.AskedFor, S.PaymentDue, S.HasKey, S.Keyed, Clash, Booking.Insert;
      ghost var was := View();
      var existing := ByKey(ask);
      found := existing;
      if existing.Some? {
        var e := existing.value;
        if bookings[e].terms.hash != ask.hash { return S.Refused(Invalid), found; }
        assert e in bookings by { KeyedIsThere(was, ask, e); }
        PaidKeeps(cfg, was, e, clock);
        reply := WithPayment(e, start);
        return;
      }
      if offered.Err? { return S.Refused(offered.error), found; }
      var row := offered.value;
      if exists b :: b in bookings && Clash(row, bookings[b]) { return S.Refused(Conflict), found; }
      NewOneKeeps(cfg, was, ask, id, row);
      Insert(id, row);
      reply := WithPayment(id, start);
    }

    // --- payments and listings tell it something --------------------------------------------------

    method Apply(id: Id, a: SystemAction)
      modifies `bookings, `trail, `outbox
      ensures View() == ApplyEvent(cfg, old(View()), id, a, clock)
    {
      if id !in bookings { return; }
      var row := bookings[id];
      var to := SystemStatus(a, row.status);
      if to.None? { return; }
      row := row.(status := to.value, expires := None);
      if to.value == Requested { row := row.(expires := Some(AnswerDeadline(cfg, clock, row.terms))); }
      Move(id, row, Payments);
    }

    method OnAuthorised(id: Id)
      requires Valid()
      modifies `bookings, `trail, `outbox
      ensures View() == Booking.OnAuthorised(cfg, old(View()), id, clock) && Keeps(cfg, old(View()), View())
    {
      hide Inv, ApplyEvent, Keeps;
      ApplyEventKeeps(cfg, View(), id, if id in bookings && bookings[id].terms.instant then AuthorisedInstant else Authorised, clock);
      Apply(id, if id in bookings && bookings[id].terms.instant then AuthorisedInstant else Authorised);
    }

    method OnPaymentFailed(id: Id)
      requires Valid()
      modifies `bookings, `trail, `outbox
      ensures View() == Booking.OnPaymentFailed(cfg, old(View()), id, clock) && Keeps(cfg, old(View()), View())
    {
      hide Inv, ApplyEvent, Keeps;
      ApplyEventKeeps(cfg, View(), id, PaymentDeclined, clock);
      Apply(id, PaymentDeclined);
    }

    method DeclineEach(rows: seq<Id>)
      requires forall id :: id in rows ==> id in bookings && Closable(Declining, bookings[id])
      requires Distinct(rows)
      modifies `bookings, `trail, `outbox
      ensures View() == CloseEach(old(View()), Declining, rows, clock)
    {
      for i := 0 to |rows|
        invariant View() == CloseEach(old(View()), Declining, rows[..i], clock)
      {
        CloseEachEffect(old(View()), Declining, rows[..i], clock);
        var id := rows[i];
        assert id in rows && id !in rows[..i] && rows[..i + 1][..i] == rows[..i];
        var to := SystemStatus(ListingRemoved, bookings[id].status);
        if to.Some? {
          Move(id, bookings[id].(status := to.value, expires := None), System);
        }
      }
      assert rows[..|rows|] == rows;
    }

    method OnListingRemoved(listing: Id) returns (ghost order: seq<Id>)
      requires Valid()
      modifies `bookings, `trail, `outbox
      ensures Enumerates(order, PendingOf(old(View()), listing))
      ensures View() == CloseEach(old(View()), Declining, order, clock) && Keeps(cfg, old(View()), View())
    {
      var rows := All(set id | id in bookings && bookings[id].terms.listing == listing && Closable(Declining, bookings[id]));
      order := rows;
      assert Enumerates(order, PendingOf(View(), listing));
      DecliningKeeps(cfg, View(), order, PendingOf(View(), listing));
      hide Inv, Keeps, CloseEach;
      DeclineEach(rows);
    }

    method OnSuspended(person: Person) returns (ghost order: seq<Id>)
      requires Valid()
      modifies `bookings, `trail, `outbox
      ensures Enumerates(order, PendingBy(old(View()), person))
      ensures View() == CloseEach(old(View()), Declining, order, clock) && Keeps(cfg, old(View()), View())
    {
      var rows := All(set id | id in bookings && bookings[id].terms.requester == person && Closable(Declining, bookings[id]));
      order := rows;
      assert Enumerates(order, PendingBy(View(), person));
      DecliningKeeps(cfg, View(), order, PendingBy(View(), person));
      hide Inv, Keeps, CloseEach;
      DeclineEach(rows);
    }

    // --- people moving a booking along ----------------------------------------------------------------

    /** `visible`: to anyone but its two parties a booking does not exist. */
    method Look(id: Id, viewer: Person) returns (seen: bool)
      ensures seen == Visible(View(), id, viewer) && (seen ==> id in bookings)
    {
      if id !in bookings { return false; }
      var row := bookings[id];
      if viewer != row.terms.requester && viewer != row.terms.owner { return false; }
      if viewer == row.terms.owner && viewer != row.terms.requester { return OwnerSees(View(), id); }
      return true;
    }

    /** `_transition`'s checks in turn, and the row as the move is to leave it. */
    method Check(row: Row, a: Action, user: Person) returns (r: Result<Row>)
      requires row.terms.amount >= 0
      ensures r == Checked(cfg, row, a, user, clock)
    {
      if row.expires.Some? && row.expires.value <= clock { return Err(Conflict); }
      var to := NextStatus(a, row.status, user, row.terms.requester, row.terms.owner);
      if to.Err? { return Err(to.error); }
      var started := clock >= row.terms.start;
      if a == Cancel && started { return Err(Conflict); }
      if a == Dispute && !started && row.status != Active { return Err(Conflict); }
      if a == Start && clock < row.terms.start - cfg.startEarly { return Err(Conflict); }
      var next := row;
      if a == NoShow {
        var missing := if user == row.terms.requester then TheOwner else TheRenter;
        var opens := row.terms.start + if missing == TheRenter then NO_SHOW_GRACE else 0;
        if !(opens <= clock <= row.terms.start + NO_SHOW_REPORTABLE) { return Err(Conflict); }
        next := next.(noShow := Some(missing), refund := Some(if missing == TheOwner then row.terms.amount else 0));
      }
      if to.value !in {AwaitingPayment, Requested} { next := next.(expires := None); }
      if to.value == Cancelled && a != NoShow && Charged(row) {
        next := next.(refund := Some(Refund(cfg, row, user, clock)));
      }
      return Ok(next.(status := to.value));
    }

    method EndExtensions(parent: Id) returns (ghost order: seq<Id>)
      modifies `bookings, `trail, `outbox
      ensures Enumerates(order, Extensions(old(View()), parent))
      ensures View() == CloseEach(old(View()), WithParent, order, clock)
    {
      var rows := All(Extensions(View(), parent));
      order := rows;
      for i := 0 to |rows|
        invariant View() == CloseEach(old(View()), WithParent, rows[..i], clock)
      {
        CloseEachEffect(old(View()), WithParent, rows[..i], clock);
        var id := rows[i];
        assert id in rows && id !in rows[..i] && rows[..i + 1][..i] == rows[..i];
        var ext := bookings[id];
        if ext.status == Accepted {
          Move(id, ext.(status := Cancelled, refund := Some(ext.terms.amount), expires := None), System);
        } else {
          Move(id, ext.(status := Declined, expires := None), System);
        }
      }
      assert rows[..|rows|] == rows;
    }

    /** `_transition`. `order`: the extensions, in the order they were read. */
    method Transition(id: Id, a: Action, user: Person) returns (refused: Option<Error>, ghost order: seq<Id>)
      requires Valid()
      modifies `bookings, `trail, `outbox, `disputes
      ensures AmountsOk(old(View())) && Enumerates(order, Extensions(old(View()), id))
      ensures Commits(Act(cfg, old(View()), id, a, user, order, clock), old(View()), refused, View())
      ensures Valid()
    {
      Amounts(cfg, View());
      ghost var was := View();
      refused, order := TryTransition(id, a, user);
      hide Inv, Act, Enumerates, AmountsOk;
      Amounts(cfg, was);
      assert id in was.bookings ==> was.bookings[id].terms.amount >= 0 by { AmountIs(was, id); }
      ActKeeps(cfg, was, id, a, user, order, clock);
    }

    method TryTransition(id: Id, a: Action, user: Person) returns (refused: Option<Error>, ghost order: seq<Id>)
      requires AmountsOk(View())
      modifies `bookings, `trail, `outbox, `disputes
      ensures Enumerates(order, Extensions(old(View()), id))
      ensures Commits(Act(cfg, old(View()), id, a, user, order, clock), old(View()), refused, View())
    {
      hide Checked, Visible, CloseEach, Extensions, Booking.Move, Enumerates;
      ghost var was := View();
      AmountIs(was, id);
      order := SomeOrder(Extensions(View(), id));
      var seen := Look(id, user);
      if !seen { return Some(NotFound), order; }
      var r := Check(bookings[id], a, user);
      if r.Err? { return Some(r.error), order; }
      var saved := View();
      Move(id, r.value, Of(user));
      if r.value.status == Cancelled {
        SameExtensions(was, id, r.value, Of(user), clock);
        order := EndExtensions(id);
      }
      if r.value.status == Disputed {
        if id in disputes {
          bookings, trail, outbox := saved.bookings, saved.trail, saved.outbox;
          return Some(Conflict), order;
        }
        disputes := disputes[id := DisputeRow(user, clock, clock + cfg.offerWindow, None, None, None)];
      }
      return None, order;
    }

    // --- reviews ------------------------------------------------------------------------------------

    method Rate(id: Id, user: Person, outcome: nat) returns (refused: Option<Error>)
      requires Valid()
      modifies `bookings, `outbox
      ensures Commits(Booking.Rate(old(View()), id, user, outcome, clock), old(View()), refused, View()) && Valid()
    {
      ghost var was := View();
      refused := TryRate(id, user, outcome);
      hide Inv, Onward, Booking.Rate;
      NowIsInTurn(cfg, was, id);
      RateKeeps(cfg, was, id, user, outcome, clock);
    }

    method TryRate(id: Id, user: Person, outcome: nat) returns (refused: Option<Error>)
      modifies `bookings, `outbox
      ensures Commits(Booking.Rate(old(View()), id, user, outcome, clock), old(View()), refused, View())
    {
      hide Visible;
      var seen := Look(id, user);
      if !seen { return Some(NotFound); }
      var row := bookings[id];
      var may := CheckCanRate(row.status, row.reviews.outcome.Some?, user, row.terms.requester);
      if may.Err? { return Some(may.error); }
      if clock > row.terms.end + REVIEW_WINDOW { return Some(Conflict); }
      bookings := bookings[id := row.(reviews := row.reviews.(outcome := Some(outcome), ratedAt := Some(clock)))];
      if row.reviews.renterRating.Some? { PublishReviews(id); }
      return None;
    }

    method RateRenter(id: Id, user: Person, quality: nat) returns (refused: Option<Error>)
      requires Valid()
      modifies `bookings, `outbox
      ensures Commits(Booking.RateRenter(old(View()), id, user, quality, clock), old(View()), refused, View()) && Valid()
    {
      ghost var was := View();
      refused := TryRateRenter(id, user, quality);
      hide Inv, Onward, Booking.RateRenter;
      NowIsInTurn(cfg, was, id);
      RateRenterKeeps(cfg, was, id, user, quality, clock);
    }

    method TryRateRenter(id: Id, user: Person, quality: nat) returns (refused: Option<Error>)
      modifies `bookings, `outbox
      ensures Commits(Booking.RateRenter(old(View()), id, user, quality, clock), old(View()), refused, View())
    {
      hide Visible;
      var seen := Look(id, user);
      if !seen { return Some(NotFound); }
      var row := bookings[id];
      if user != row.terms.owner { return Some(Forbidden); }
      if row.status != Completed { return Some(Conflict); }
      if row.reviews.renterRating.Some? { return Some(Conflict); }
      if clock > row.terms.end + REVIEW_WINDOW { return Some(Conflict); }
      bookings := bookings[id := row.(reviews := row.reviews.(renterRating := Some(quality)))];
      if row.reviews.outcome.Some? { PublishReviews(id); }
      return None;
    }

    // --- disputes ----------------------------------------------------------------------------------------

    method Settle(id: Id, refund: int, actor: Actor) returns (refused: Option<Error>)
      requires id in bookings
      modifies `bookings, `trail, `outbox
      ensures Commits(Booking.Settle(old(View()), id, refund, actor, clock), old(View()), refused, View())
    {
      var row := bookings[id];
      if row.status != Disputed { return Some(Conflict); }
      var to := if refund == row.terms.amount then Cancelled else Completed;
      var moved := row.(status := to);
      if refund != 0 { moved := moved.(refund := Some(refund)); }
      Move(id, moved, actor);
      outbox := outbox + [Notice(id, NoticeOf(OutcomeOf(refund, row.terms.amount)), refund)];
      return None;
    }

    method MakeOffer(id: Id, user: Person, amount: nat) returns (refused: Option<Error>)
      requires Valid()
      modifies `disputes, `outbox
      ensures Commits(Booking.MakeOffer(cfg, old(View()), id, user, amount, clock), old(View()), refused, View()) && Valid()
    {
      ghost var was := View();
      refused := TryMakeOffer(id, user, amount);
      hide Inv, Onward, Booking.MakeOffer;
      MakeOfferKeeps(cfg, was, id, user, amount, clock);
    }

    method TryMakeOffer(id: Id, user: Person, amount: nat) returns (refused: Option<Error>)
      modifies `disputes, `outbox
      ensures Commits(Booking.MakeOffer(cfg, old(View()), id, user, amount, clock), old(View()), refused, View())
    {
      hide Visible;
      var seen := Look(id, user);
      if !seen { return Some(NotFound); }
      var row := bookings[id];
      if row.status != Disputed { return Some(Conflict); }
      if amount > row.terms.amount { return Some(Invalid); }
      var d := DisputeRow(row.terms.requester, clock, clock + cfg.offerWindow, None, None, None);
      if id in disputes { d := disputes[id]; }
      disputes := disputes[id := d.(offer := Some(Offer(amount, user)), offeredAt := Some(clock), respondBy := clock + cfg.offerWindow)];
      var other := row.terms.requester;
      if user == row.terms.requester { other := row.terms.owner; }
      outbox := outbox + [DisputeOffer(id, other, Offer(amount, user))];
      return None;
    }

    method AcceptOffer(id: Id, user: Person, amount: nat, rid: Id) returns (refused: Option<Error>)
      requires Valid() && rid !in resolutions
      modifies `bookings, `trail, `resolutions, `outbox
      ensures Commits(Booking.AcceptOffer(old(View()), id, user, amount, rid, clock), old(View()), refused, View()) && Valid()
    {
      ghost var was := View();
      refused := TryAcceptOffer(id, user, amount, rid);
      hide Inv, Onward, Booking.AcceptOffer;
      AcceptOfferKeeps(cfg, was, id, user, amount, rid, clock);
    }

    method TryAcceptOffer(id: Id, user: Person, amount: nat, rid: Id) returns (refused: Option<Error>)
      modifies `bookings, `trail, `resolutions, `outbox
      ensures Commits(Booking.AcceptOffer(old(View()), id, user, amount, rid, clock), old(View()), refused, View())
    {
      hide Visible, Booking.Settle;
      var seen := Look(id, user);
      if !seen { return Some(NotFound); }
      if id !in disputes || disputes[id].offer.None? { return Some(Conflict); }
      var offer := disputes[id].offer.value;
      if offer.offeredBy == user { return Some(Forbidden); }
      if offer.amount != amount { return Some(Conflict); }
      var row, saved := bookings[id], resolutions;
      resolutions := resolutions[rid := Resolution(id, OutcomeOf(offer.amount, row.terms.amount), offer.amount, user, Parties, Done, None)];
      refused := Settle(id, offer.amount, Of(user));
      if refused.Some? { resolutions := saved; }
    }

    method Resolve(id: Id, o: Outcome, part: Option<int>, staff: Person, role: StaffRole, rid: Id) returns (refused: Option<Error>)
      requires Valid() && rid !in resolutions && role != Parties
      modifies `bookings, `trail, `resolutions, `outbox
      ensures Commits(Booking.Resolve(cfg, old(View()), id, o, part, staff, role, rid, clock), old(View()), refused, View()) && Valid()
    {
      ghost var was := View();
      refused := TryResolve(id, o, part, staff, role, rid);
      hide Inv, Onward, Booking.Resolve;
      ResolveKeeps(cfg, was, id, o, part, staff, role, rid, clock);
    }

    method TryResolve(id: Id, o: Outcome, part: Option<int>, staff: Person, role: StaffRole, rid: Id) returns (refused: Option<Error>)
      modifies `bookings, `trail, `resolutions, `outbox
      ensures Commits(Booking.Resolve(cfg, old(View()), id, o, part, staff, role, rid, clock), old(View()), refused, View())
    {
      hide AwaitsApproval, Booking.Settle;
      if id !in bookings { return Some(NotFound); }
      var row, saved := bookings[id], View();
      if row.status != Disputed { return Some(Conflict); }
      if AwaitsApproval(View(), id) { return Some(Conflict); }
      var refund := RefundFor(o, part, row.terms.amount);
      if refund.Err? { return Some(refund.error); }
      var limit := cfg.limit(row.terms.currency, role);
      var res := Resolution(id, o, refund.value, staff, role, if refund.value <= limit then Done else PendingApproval, None);
      resolutions := resolutions[rid := res];
      if res.status == Done {
        refused := Settle(id, refund.value, Support(staff));
        if refused.Some? {
          resolutions := saved.resolutions;
          return;
        }
      }
      outbox := outbox + [StaffAction(staff, rid)];
      return None;
    }

    method Approve(rid: Id, staff: Person, role: StaffRole) returns (refused: Option<Error>)
      requires Valid() && role != Parties
      modifies `bookings, `trail, `resolutions, `outbox
      ensures Commits(Booking.Approve(cfg, old(View()), rid, staff, role, clock), old(View()), refused, View()) && Valid()
    {
      ghost var was := View();
      refused := TryApprove(rid, staff, role);
      hide Inv, Onward, Booking.Approve;
      ApproveKeeps(cfg, was, rid, staff, role, clock);
    }

    method TryApprove(rid: Id, staff: Person, role: StaffRole) returns (refused: Option<Error>)
      modifies `bookings, `trail, `resolutions, `outbox
      ensures Commits(Booking.Approve(cfg, old(View()), rid, staff, role, clock), old(View()), refused, View())
    {
      hide Booking.Settle;
      var got := Pending(View(), rid);
      if got.Err? { return Some(got.error); }
      var res, saved := got.value, resolutions;
      if res.author == staff { return Some(Forbidden); }
      if role != LeadRole && res.refund > cfg.limit(bookings[res.booking].terms.currency, role) { return Some(Forbidden); }
      resolutions := resolutions[rid := res.(status := Done, approver := Some((staff, role)))];
      refused := Settle(res.booking, res.refund, Support(staff));
      if refused.Some? {
        resolutions := saved;
        return;
      }
      outbox := outbox + [StaffAction(staff, rid)];
    }

    method Reject(rid: Id, staff: Person) returns (refused: Option<Error>)
      requires Valid()
      modifies `resolutions, `outbox
      ensures Commits(Booking.Reject(old(View()), rid, staff), old(View()), refused, View()) && Valid()
    {
      hide Inv, Onward;
      var got := Pending(View(), rid);
      if got.Ok? { DroppedKeeps(cfg, View(), rid, staff, Rejected); }
      if got.Err? { return Some(got.error); }
      if got.value.author == staff { return Some(Forbidden); }
      resolutions := resolutions[rid := got.value.(status := Rejected)];
      outbox := outbox + [StaffAction(staff, rid)];
      return None;
    }

    method Withdraw(rid: Id, staff: Person) returns (refused: Option<Error>)
      requires Valid()
      modifies `resolutions, `outbox
      ensures Commits(Booking.Withdraw(old(View()), rid, staff), old(View()), refused, View()) && Valid()
    {
      hide Inv, Onward;
      var got := Pending(View(), rid);
      if got.Ok? { DroppedKeeps(cfg, View(), rid, staff, Withdrawn); }
      if got.Err? { return Some(got.error); }
      if got.value.author != staff { return Some(Forbidden); }
      resolutions := resolutions[rid := got.value.(status := Withdrawn)];
      outbox := outbox + [StaffAction(staff, rid)];
      return None;
    }

    // --- the sweeps ------------------------------------------------------------------------------------------

    /** What a sweep of the kind may move now. */
    function DueRows(k: Closing): set<Id>
      requires k in {Lapsing, Finishing}
      reads this
    {
      if k == Lapsing then LapsedRows(View(), locked) else FinishedRows(cfg, View(), locked)
    }

    function DueReviews(): set<Id>
      reads this
    {
      UnpublishedRows(View(), locked)
    }

    function DueDisputes(): set<Id>
      reads this
    {
      EscalatedRows(View(), locked)
    }

    method MoveRows(k: Closing, rows: seq<Id>)
      requires k in {Lapsing, Finishing} && Distinct(rows) && forall id :: id in rows ==> id in bookings
      modifies `bookings, `trail, `outbox
      ensures View() == CloseEach(old(View()), k, rows, clock)
    {
      for i := 0 to |rows|
        invariant View() == CloseEach(old(View()), k, rows[..i], clock)
      {
        CloseEachEffect(old(View()), k, rows[..i], clock);
        var id := rows[i];
        assert id in rows && id !in rows[..i] && rows[..i + 1][..i] == rows[..i];
        Move(id, bookings[id].(status := if k == Lapsing then Expired else Completed, expires := None), System);
      }
      assert rows[..|rows|] == rows;
    }

    /** One of the two loops over rows: batch after batch until one is not full.
        It ends, and everything due has moved, each row once. */
    method SweepRows(k: Closing) returns (moved: nat, ghost order: seq<Id>)
      requires k in {Lapsing, Finishing}
      modifies `bookings, `trail, `outbox
      ensures Enumerates(order, old(DueRows(k))) && DueRows(k) == {} && moved == |order|
      ensures View() == CloseEach(old(View()), k, order, clock)
      ensures forall id :: id in order ==> id in old(bookings) && id !in locked && Overtime(cfg, k, old(bookings)[id], clock)
      ensures forall id :: id in bookings && id !in locked ==> !Overtime(cfg, k, bookings[id], clock)
    {
      NoRows(View(), k, clock);
      hide CloseEach, LapseDue, FinishDue, Overtime;
      WhatIsDue(cfg, View(), locked, k);
      moved, order := 0, [];
      while true
        invariant Distinct(order) && moved == |order|
        invariant forall id :: id in old(DueRows(k)) <==> id in DueRows(k) || id in order
        invariant forall id :: id in order ==> id !in DueRows(k)
        invariant View() == CloseEach(old(View()), k, order, clock)
        decreases DueRows(k)
      {
        ghost var was, due := View(), DueRows(k);
        var rows := Query(DueRows(k), BATCH);
        MoveRows(k, rows);
        SweptAre(was, k, rows);
        CloseInTurn(old(View()), k, order, rows, clock);
        JoinDistinct(order, rows);
        order, moved := order + rows, moved + |rows|;
        assert |rows| == BATCH ==> rows[0] in due;
        if |rows| < BATCH { break; }
      }
      WhatIsDue(cfg, View(), locked, k);
    }

    lemma SweptAre(was: DB, k: Closing, rows: seq<Id>)
      requires k in {Lapsing, Finishing} && Distinct(rows) && View() == CloseEach(was, k, rows, clock)
      requires forall id :: id in rows ==> id in was.bookings
      ensures View().bookings.Keys == was.bookings.Keys
      ensures forall id :: id in bookings && id !in rows ==> bookings[id] == was.bookings[id]
      ensures forall id :: id in rows ==> id !in DueRows(k)
    {
      CloseEachEffect(was, k, rows, clock);
    }

    method SweepReviews() returns (moved: nat, ghost order: seq<Id>)
      modifies `bookings, `outbox
      ensures Enumerates(order, old(DueReviews())) && DueReviews() == {} && moved == |order|
      ensures View() == PublishEach(old(View()), order, clock)
      ensures forall id :: id in order ==> id in old(bookings) && id !in locked && Stuck(old(bookings)[id], clock)
      ensures forall id :: id in bookings && id !in locked ==> !Stuck(bookings[id], clock)
    {
      NoRows(View(), Lapsing, clock);
      hide PublishEach;
      moved, order := 0, [];
      while true
        invariant Distinct(order) && moved == |order|
        invariant forall id :: id in old(DueReviews()) <==> id in DueReviews() || id in order
        invariant forall id :: id in order ==> id !in DueReviews()
        invariant View() == PublishEach(old(View()), order, clock)
        decreases DueReviews()
      {
        ghost var was, due := View(), DueReviews();
        var rows := Query(DueReviews(), BATCH);
        PublishRows(rows);
        PublishInTurn(old(View()), order, rows, clock);
        JoinDistinct(order, rows);
        order, moved := order + rows, moved + |rows|;
        assert |rows| == BATCH ==> rows[0] in due;
        if |rows| < BATCH { break; }
      }
    }

    method PublishRows(rows: seq<Id>)
      requires Distinct(rows) && forall id :: id in rows ==> id in bookings && bookings[id].reviews.published.None?
      modifies `bookings, `outbox
      ensures View() == PublishEach(old(View()), rows, clock)
      ensures bookings.Keys == old(bookings).Keys
      ensures forall id :: id in bookings && id !in rows ==> bookings[id] == old(bookings)[id]
      ensures forall id :: id in rows ==> bookings[id].reviews.published.Some?
    {
      for i := 0 to |rows|
        invariant View() == PublishEach(old(View()), rows[..i], clock)
        invariant bookings.Keys == old(bookings).Keys
      {
        var id := rows[i];
        assert id in rows && rows[..i + 1][..i] == rows[..i];
        PublishReviews(id);
      }
      assert rows[..|rows|] == rows;
      PublishEachEffect(old(View()), rows, clock);
    }

    /** `escalate_due`: one batch. */
    method EscalateDue(limit: nat) returns (n: nat, ghost order: seq<Id>)
      modifies `disputes, `outbox
      ensures Reads(order, old(DueDisputes()), limit) && n == |order|
      ensures View() == EscalateEach(old(View()), order, clock)
      ensures forall id :: id in order ==> id !in locked && Overdue(old(View()), id, clock) && id in disputes && disputes[id].escalated == Some(clock)
      ensures n < limit ==> forall id :: id !in locked ==> !Overdue(View(), id, clock)
    {
      var rows := Query(DueDisputes(), limit);
      order, n := rows, |rows|;
      for i := 0 to |rows|
        invariant View() == EscalateEach(old(View()), rows[..i], clock)
      {
        EscalateEachEffect(old(View()), rows[..i], clock);
        var id := rows[i];
        assert id in rows && rows[..i + 1][..i] == rows[..i];
        disputes := disputes[id := disputes[id].(escalated := Some(clock))];
        outbox := outbox + [Notice(id, Escalated, 0)];
      }
      assert rows[..|rows|] == rows;
      EscalateEachEffect(old(View()), rows, clock);
      assert forall id :: EscalationDue(old(View()), id, clock) <==> Overdue(old(View()), id, clock);
    }

    /** `sweep_once`, at one reading of the clock: the four passes one after the
        other, and what each of them moved. */
    method SweepOnce() returns (moved: nat, ghost pass: Pass)
      requires Valid()
      modifies `bookings, `trail, `disputes, `outbox
      ensures Sweeps(cfg, old(View()), locked, pass)
      ensures View() == Swept(old(View()), pass) && Keeps(cfg, old(View()), View())
      ensures moved == |pass.lapsed| + |pass.finished| + |pass.reviewed| + |pass.escalated|
      ensures bookings.Keys == old(bookings).Keys && NothingLeft(cfg, View(), locked)
      ensures forall id :: id in bookings ==>
        bookings[id] == if id in locked then old(bookings)[id] else AfterSweep(cfg, old(bookings)[id], clock)
      ensures disputes.Keys == old(disputes).Keys
      ensures forall id :: id in disputes ==> DisputeSwept(old(View()), View(), locked, id in pass.escalated, id)
      ensures |pass.escalated| < 100 ==> forall id :: id !in locked ==> !Overdue(View(), id, clock)
    {
      ghost var db0 := View();
      hide Inv, Keeps, CloseEach, PublishEach, EscalateEach, LapsedRows, FinishedRows, UnpublishedRows, EscalatedRows, Enumerates, Reads;
      var n1, lapsed := SweepRows(Lapsing);
      ghost var db1 := View();
      LapsingLeavesTheRest(cfg, db0, locked, lapsed);
      KeepsInv(cfg, db0, db1);
      var n2, finished := SweepRows(Finishing);
      ghost var db2 := View();
      FinishingLeavesTheRest(cfg, db1, locked, finished);
      KeepsInv(cfg, db1, db2);
      KeepsTrans(cfg, db0, db1, db2);
      var n3, reviewed := SweepReviews();
      ghost var db3 := View();
      ReviewsLeaveTheRest(cfg, db2, locked, reviewed);
      KeepsInv(cfg, db2, db3);
      KeepsTrans(cfg, db0, db2, db3);
      var n4, escalated := EscalateDue(BATCH);
      moved := n1 + n2 + n3 + n4;
      pass := Pass(lapsed, finished, reviewed, escalated);
      EscalatingLeavesTheRest(cfg, db3, locked, escalated, BATCH);
      KeepsTrans(cfg, db0, db3, View());
      SweptRows(cfg, db0, locked, pass);
      SweptDisputes(cfg, db0, locked, pass);
    }
  }

  /** The rows a sweep's four passes moved, in order. */
  datatype Pass = Pass(lapsed: seq<Id>, finished: seq<Id>, reviewed: seq<Id>, escalated: seq<Id>)

  function Swept(db: DB, pass: Pass): DB {
    var now := db.clock;
    var db1 := CloseEach(db, Lapsing, pass.lapsed, now);
    var db2 := CloseEach(db1, Finishing, pass.finished, now);
    EscalateEach(PublishEach(db2, pass.reviewed, now), pass.escalated, now)
  }

  /** Each pass takes exactly what was due when the sweep began, and not locked;
      the disputes, one batch of it. */
  ghost predicate Sweeps(cfg: Settings, db: DB, locked: set<Id>, pass: Pass) {
    && Enumerates(pass.lapsed, LapsedRows(db, locked))
    && Enumerates(pass.finished, FinishedRows(cfg, db, locked))
    && Enumerates(pass.reviewed, UnpublishedRows(db, locked))
    && Reads(pass.escalated, EscalatedRows(db, locked), BATCH)
  }

  lemma KeepsInv(cfg: Settings, db: DB, db': DB)
    requires Keeps(cfg, db, db')
    ensures Inv(cfg, db') && db'.clock == db.clock
  {}

  /** What the four passes make of each row, and of each dispute. */
  lemma SweptRows(cfg: Settings, db: DB, locked: set<Id>, pass: Pass)
    requires Inv(cfg, db) && Sweeps(cfg, db, locked, pass)
    ensures var db' := Swept(db, pass);
      && db'.bookings.Keys == db.bookings.Keys && NothingLeft(cfg, db', locked) && db'.clock == db.clock
      && forall id :: id in db.bookings ==>
        db'.bookings[id] == if id in locked then db.bookings[id] else AfterSweep(cfg, db.bookings[id], db.clock)
  {
    var now := db.clock;
    hide Inv, CloseEach, PublishEach, EscalateEach, AfterSweep, CaughtUp;
    var db1 := CloseEach(db, Lapsing, pass.lapsed, now);
    CloseEachEffect(db, Lapsing, pass.lapsed, now);
    var db2 := CloseEach(db1, Finishing, pass.finished, now);
    CloseEachEffect(db1, Finishing, pass.finished, now);
    PublishEachEffect(db2, pass.reviewed, now);
    EscalateEachEffect(PublishEach(db2, pass.reviewed, now), pass.escalated, now);
    forall id | id in db.bookings
      ensures Swept(db, pass).bookings[id] == if id in locked then db.bookings[id] else AfterSweep(cfg, db.bookings[id], now)
      ensures id !in locked ==> CaughtUp(cfg, Swept(db, pass).bookings[id], now)
    {
      OneRow(cfg, db, locked, pass, id);
    }
  }

  function PassedOver(r: Row, lapsed: bool, finished: bool, reviewed: bool, now: int): Row {
    var r1 := if lapsed then Close(Lapsing, r) else r;
    var r2 := if finished then Close(Finishing, r1) else r1;
    if reviewed then r2.(reviews := r2.reviews.(published := Some(now))) else r2
  }

  lemma OneRow(cfg: Settings, db: DB, locked: set<Id>, pass: Pass, id: Id)
    requires Inv(cfg, db) && Sweeps(cfg, db, locked, pass) && id in db.bookings
    ensures var r := PassedOver(db.bookings[id], id in pass.lapsed, id in pass.finished, id in pass.reviewed, db.clock);
      if id in locked then r == db.bookings[id] else r == AfterSweep(cfg, db.bookings[id], db.clock) && CaughtUp(cfg, r, db.clock)
  {
    hide Inv, RowOk, PassedOver, AfterSweep, CaughtUp, LapseDue, FinishDue, ReviewDue, ReviewLogOk, TrailOf;
    TheRow(cfg, db, id);
    TakenWhenDue(cfg, db, locked, pass, id);
    var r := db.bookings[id];
    if id in locked {
      assert PassedOver(r, false, false, false, db.clock) == r by { NotPassed(r, db.clock); }
    } else {
      RowSwept(cfg, r, TrailOf(db.trail, id), db.clock);
    }
  }

  lemma WhatIsDue(cfg: Settings, db: DB, locked: set<Id>, k: Closing)
    requires k in {Lapsing, Finishing}
    ensures forall id :: id in (if k == Lapsing then LapsedRows(db, locked) else FinishedRows(cfg, db, locked)) <==>
                         id in db.bookings && id !in locked && Overtime(cfg, k, db.bookings[id], db.clock)
  {}

  lemma NotPassed(r: Row, now: int)
    ensures PassedOver(r, false, false, false, now) == r
  {}

  lemma TakenWhenDue(cfg: Settings, db: DB, locked: set<Id>, pass: Pass, id: Id)
    requires Sweeps(cfg, db, locked, pass) && id in db.bookings
    ensures id in pass.lapsed <==> id !in locked && LapseDue(db.bookings[id], db.clock)
    ensures id in pass.finished <==> id !in locked && FinishDue(cfg, db.bookings[id], db.clock)
    ensures id in pass.reviewed <==> id !in locked && ReviewDue(db.bookings[id], db.clock)
  {
    hide LapseDue, FinishDue, ReviewDue;
  }

  lemma RowSwept(cfg: Settings, r: Row, tr: seq<Edge>, now: int)
    requires RowOk(r, tr, now)
    ensures var s := PassedOver(r, LapseDue(r, now), FinishDue(cfg, r, now), ReviewDue(r, now), now);
      s == AfterSweep(cfg, r, now) && CaughtUp(cfg, s, now)
  {
    hide Path, MoneyOk, TermsOk, WasAccepted;
  }

  ghost predicate DisputeSwept(db: DB, db': DB, locked: set<Id>, taken: bool, id: Id)
    requires id in db.disputes && id in db'.disputes
  {
    if taken then Overdue(db, id, db.clock) && id !in locked && db'.disputes[id] == db.disputes[id].(escalated := Some(db.clock))
    else db'.disputes[id] == db.disputes[id]
  }

  lemma SweptDisputes(cfg: Settings, db: DB, locked: set<Id>, pass: Pass)
    requires Inv(cfg, db) && Sweeps(cfg, db, locked, pass)
    ensures var db' := Swept(db, pass);
      && db'.disputes.Keys == db.disputes.Keys
      && (forall id :: id in db.disputes ==> DisputeSwept(db, db', locked, id in pass.escalated, id))
      && (|pass.escalated| < 100 ==> forall id :: id !in locked ==> !Overdue(db', id, db.clock))
  {
    hide Inv, Sweeps, Swept, NothingLeft, AfterSweep, Overdue;
    SweptRows(cfg, db, locked, pass);
    DisputesAre(cfg, db, locked, pass);
    EscalatedWhenDue(cfg, db, locked, pass);
    forall id | id !in locked && |pass.escalated| < 100 ensures !Overdue(Swept(db, pass), id, db.clock) {
      StillOverdue(cfg, db, locked, pass, id);
    }
  }

  lemma DisputesAre(cfg: Settings, db: DB, locked: set<Id>, pass: Pass)
    requires Inv(cfg, db) && Sweeps(cfg, db, locked, pass)
    ensures var db' := Swept(db, pass);
      && db'.disputes.Keys == db.disputes.Keys
      && (forall id :: id in db.disputes ==>
          db'.disputes[id] == if id in pass.escalated then db.disputes[id].(escalated := Some(db.clock)) else db.disputes[id])
  {
    var now := db.clock;
    hide Inv, CloseEach, PublishEach, EscalateEach, LapseDue, FinishDue;
    var db1 := CloseEach(db, Lapsing, pass.lapsed, now);
    CloseEachEffect(db, Lapsing, pass.lapsed, now);
    var db2 := CloseEach(db1, Finishing, pass.finished, now);
    CloseEachEffect(db1, Finishing, pass.finished, now);
    PublishEachEffect(db2, pass.reviewed, now);
    EscalateEachEffect(PublishEach(db2, pass.reviewed, now), pass.escalated, now);
  }

  lemma StillOverdue(cfg: Settings, db: DB, locked: set<Id>, pass: Pass, id: Id)
    requires Inv(cfg, db) && Sweeps(cfg, db, locked, pass) && id !in locked && |pass.escalated| < 100
    ensures !Overdue(Swept(db, pass), id, db.clock)
  {
    hide Inv, Sweeps, Swept, NothingLeft, AfterSweep;
    SweptRows(cfg, db, locked, pass);
    DisputesAre(cfg, db, locked, pass);
    EscalatedWhenDue(cfg, db, locked, pass);
    if id in db.bookings { DisputesStay(cfg, db.bookings[id], db.clock); }
  }

  lemma EscalatedWhenDue(cfg: Settings, db: DB, locked: set<Id>, pass: Pass)
    requires Sweeps(cfg, db, locked, pass)
    ensures forall id :: id in pass.escalated ==> id !in locked && Overdue(db, id, db.clock)
    ensures |pass.escalated| < 100 ==> forall id :: id !in locked && Overdue(db, id, db.clock) ==> id in pass.escalated
  {
    hide LapsedRows, FinishedRows, UnpublishedRows;
    assert forall id :: EscalationDue(db, id, db.clock) <==> Overdue(db, id, db.clock);
  }

  lemma DisputesStay(cfg: Settings, r: Row, now: int)
    ensures AfterSweep(cfg, r, now).status == Disputed <==> r.status == Disputed
  {}

  // No pass makes or undoes work for another.

  lemma LapsingLeavesTheRest(cfg: Settings, db: DB, locked: set<Id>, order: seq<Id>)
    requires Inv(cfg, db) && Enumerates(order, LapsedRows(db, locked))
    ensures var db' := CloseEach(db, Lapsing, order, db.clock);
      && Keeps(cfg, db, db')
      && FinishedRows(cfg, db', locked) == FinishedRows(cfg, db, locked)
      && UnpublishedRows(db', locked) == UnpublishedRows(db, locked)
      && EscalatedRows(db', locked) == EscalatedRows(db, locked)
  {
    hide Inv, CloseEach, Keeps;
    CloseEachEffect(db, Lapsing, order, db.clock);
    CloseEachKeeps(cfg, db, Lapsing, order, db.clock);
  }

  lemma NoReviewBefore(cfg: Settings, db: DB, id: Id)
    requires Inv(cfg, db) && id in db.bookings && db.bookings[id].status != Completed
    ensures db.bookings[id].reviews.outcome.None? && db.bookings[id].reviews.renterRating.None?
  {
    TheRow(cfg, db, id);
    hide Inv, Path, MoneyOk, DeadlineOk;
  }

  lemma FinishingLeavesTheRest(cfg: Settings, db: DB, locked: set<Id>, order: seq<Id>)
    requires Inv(cfg, db) && Enumerates(order, FinishedRows(cfg, db, locked))
    ensures var db' := CloseEach(db, Finishing, order, db.clock);
      && Keeps(cfg, db, db')
      && LapsedRows(db', locked) == LapsedRows(db, locked)
      && UnpublishedRows(db', locked) == UnpublishedRows(db, locked)
      && EscalatedRows(db', locked) == EscalatedRows(db, locked)
  {
    hide Inv, CloseEach, Keeps;
    CloseEachEffect(db, Finishing, order, db.clock);
    CloseEachKeeps(cfg, db, Finishing, order, db.clock);
    forall id | id in db.bookings && db.bookings[id].status != Completed
      ensures db.bookings[id].reviews.outcome.None? && db.bookings[id].reviews.renterRating.None?
    {
      NoReviewBefore(cfg, db, id);
    }
  }

  lemma ReviewsLeaveTheRest(cfg: Settings, db: DB, locked: set<Id>, order: seq<Id>)
    requires Inv(cfg, db) && Enumerates(order, UnpublishedRows(db, locked))
    ensures var db' := PublishEach(db, order, db.clock);
      && Keeps(cfg, db, db')
      && LapsedRows(db', locked) == LapsedRows(db, locked)
      && FinishedRows(cfg, db', locked) == FinishedRows(cfg, db, locked)
      && EscalatedRows(db', locked) == EscalatedRows(db, locked)
  {
    hide Inv, PublishEach, Keeps;
    PublishEachEffect(db, order, db.clock);
    PublishEachKeeps(cfg, db, order, db.clock);
  }

  lemma EscalatingLeavesTheRest(cfg: Settings, db: DB, locked: set<Id>, order: seq<Id>, limit: nat)
    requires Inv(cfg, db) && Reads(order, EscalatedRows(db, locked), limit)
    ensures var db' := EscalateEach(db, order, db.clock);
      && Keeps(cfg, db, db') && db'.bookings == db.bookings
  {
    hide Inv, EscalateEach, Keeps;
    EscalateEachEffect(db, order, db.clock);
    EscalateEachKeeps(cfg, db, order, db.clock);
  }

  lemma DecliningKeeps(cfg: Settings, db: DB, order: seq<Id>, ids: set<Id>)
    requires Inv(cfg, db) && Enumerates(order, ids)
    requires forall id :: id in ids ==> id in db.bookings && Closable(Declining, db.bookings[id])
    ensures Keeps(cfg, db, CloseEach(db, Declining, order, db.clock)) && Distinct(order)
    ensures forall id :: id in order ==> id in db.bookings && Closable(Declining, db.bookings[id])
  {
    hide Inv, Keeps, CloseEach;
    CloseEachKeeps(cfg, db, Declining, order, db.clock);
  }

  lemma AmountIs(db: DB, id: Id)
    requires AmountsOk(db)
    ensures id in db.bookings ==> db.bookings[id].terms.amount >= 0
  {}

  /** Moving the parent does not change which extensions it has. */
  lemma SameExtensions(db: DB, id: Id, row: Row, actor: Actor, now: int)
    requires id in db.bookings
    ensures Extensions(Booking.Move(db, id, row, actor, now), id) == Extensions(db, id)
  {}

  lemma SomeOrder(ids: set<Id>) returns (order: seq<Id>)
    ensures Enumerates(order, ids)
  {
    order := [];
    var left := ids;
    while left != {}
      invariant Distinct(order)
      invariant forall id :: id in ids <==> id in left || id in order
      invariant forall id :: id in order ==> id !in left
      decreases left
    {
      var id :| id in left;
      left, order := left - {id}, order + [id];
    }
  }
}
