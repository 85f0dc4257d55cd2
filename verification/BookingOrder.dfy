/** How far a booking's trail is in time order. A transaction about one booking
    reads the clock once it has its row; one that ends many reads it first and
    then waits for their rows, so what it writes may bear an earlier time than
    the line before it. */
module BookingOrder {
  import opened Wrappers
  import opened BookingState
  import opened Booking
  import opened BookingInvariants
  import opened BookingOps
  import opened BookingSystem
  import T = BookingTiming

  /** Where a booking's j-th line is in the whole trail. */
  lemma {:induction false} LineAt(trail: seq<Edge>, id: Id, j: nat) returns (k: nat)
    requires j < |TrailOf(trail, id)|
    ensures k < |trail| && trail[k] == TrailOf(trail, id)[j] && trail[k].change.booking == id
    ensures TrailOf(trail[..k], id) == TrailOf(trail, id)[..j]
  {
    var n := |trail| - 1;
    if j < |TrailOf(trail[..n], id)| {
      k := LineAt(trail[..n], id, j);
      assert trail[..n][..k] == trail[..k];
    } else {
      k := n;
    }
  }

  /** In every run every line of a booking is no earlier than the one before it,
      but for the last, when the system ended the booking along with others. */
  lemma HistoryIsInOrder(cfg: Settings, states: seq<Sys>, steps: seq<Step>, i: nat, id: Id, j: nat)
    requires Run(cfg, states, steps) && i < |states| && id in states[i].db.bookings
    requires 1 <= j < |TrailOf(states[i].db.trail, id)|
    ensures var tr := TrailOf(states[i].db.trail, id);
      tr[j].at < tr[j - 1].at ==> j == |tr| - 1 && T.Closes(tr[j].change)
  {
    hide SysOk, T.AllTimely, TrailOf, Path, CanStep, Next, T.Closes;
    T.RunTimely(cfg, states, steps, i);
    RunKeeps(cfg, states, steps, i);
    hide Run;
    ThePath(cfg, states[i], id);
    InOrderAt(cfg, states[i].db, id, j);
  }

  lemma InOrderAt(cfg: Settings, db: DB, id: Id, j: nat)
    requires T.AllTimely(cfg, db) && Path(TrailOf(db.trail, id)) && 1 <= j < |TrailOf(db.trail, id)|
    ensures var tr := TrailOf(db.trail, id);
      tr[j].at < tr[j - 1].at ==> j == |tr| - 1 && T.Closes(tr[j].change)
  {
    hide TrailOf, Path, T.AllTimely, T.Closes;
    var k := LineAt(db.trail, id, j);
    LineInOrder(cfg, db, k);
    var tr := TrailOf(db.trail, id);
    if T.Closes(tr[j].change) { EndsThere(tr, j); }
  }

  lemma LineInOrder(cfg: Settings, db: DB, k: nat)
    requires T.AllTimely(cfg, db) && k < |db.trail|
    ensures T.InOrder(db.trail, k)
  {
    hide T.InOrder, T.Timely;
    assert T.TimelyAt(cfg, db, k);
  }

  lemma ThePath(cfg: Settings, s: Sys, id: Id)
    requires SysOk(cfg, s) && id in s.db.bookings
    ensures Path(TrailOf(s.db.trail, id))
  {
    assert Inv(cfg, s.db) by { hide Inv, TxOk, Apart; }
    hide SysOk;
    TheRow(cfg, s.db, id);
    hide Inv, TermsOk, DeadlineOk, MoneyOk, ReviewsOk, ReviewLogOk, TrailOf, WasAccepted;
  }

  lemma EndsThere(tr: seq<Edge>, j: nat)
    requires Path(tr) && 1 <= j < |tr| && T.Closes(tr[j].change)
    ensures j == |tr| - 1
  {
    var after := j + 1;
    assert after < |tr| ==> Joined(tr, after);
  }

  // --- which line it is ---------------------------------------------------------------------------

  /** The transaction ends the booking along with others, or with its parent. */
  ghost predicate EndsIt(cfg: Settings, db: DB, op: Op, now: int, id: Id)
    requires AmountsOk(db)
  {
    match op
    case RemoveListing(_, order) => id in order
    case SuspendRequester(_, order) => id in order
    case SweepLapsed(order) => id in order
    case SweepFinished(order) => id in order
    case Acts(parent, a, user, order) =>
      && id in order && Visible(db, parent, user)
      && var row := Checked(cfg, db.bookings[parent], a, user, now); row.Ok? && row.value.status == Cancelled
    case _ => false
  }

  /** What was added to a booking's trail is earlier than what was there. */
  predicate AddsEarly(tr: seq<Edge>, tr': seq<Edge>) {
    exists k :: 1 <= k < |tr'| && k >= |tr| && tr'[k].at < tr'[k - 1].at
  }

  lemma {:induction false} ClosedTrail(db: DB, k: Closing, order: seq<Id>, now: int, id: Id)
    requires Distinct(order) && id in db.bookings
    ensures TrailOf(CloseEach(db, k, order, now).trail, id) == TrailOf(db.trail, id) +
      if id in order then [Edge(Change(id, Some(db.bookings[id].status), Close(k, db.bookings[id]).status, System), now)] else []
  {
    hide TrailOf, Close, Move;
    if order == [] {
      assert TrailOf(db.trail, id) + [] == TrailOf(db.trail, id);
    } else {
      var init, last := order[..|order| - 1], order[|order| - 1];
      ClosedTrail(db, k, init, now, id);
      CloseEachEffect(db, k, init, now);
      var db1 := CloseEach(db, k, init, now);
      var db2 := CloseEach(db, k, order, now);
      assert last !in init && order == init + [last];
      assert db2 == if last in db1.bookings then Move(db1, last, Close(k, db1.bookings[last]), System, now) else db1;
      hide CloseEach;
      if last in db1.bookings { MovedTrail(db1, last, Close(k, db1.bookings[last]), System, now, id); }
    }
  }

  lemma MovedTrail(db: DB, moved: Id, row: Row, actor: Actor, now: int, id: Id)
    requires moved in db.bookings
    ensures TrailOf(Move(db, moved, row, actor, now).trail, id) == TrailOf(db.trail, id) +
      if moved == id then [Edge(Change(id, Some(db.bookings[id].status), row.status, actor), now)] else []
  {
    TrailGrows(db.trail, Edge(Change(moved, Some(db.bookings[moved].status), row.status, actor), now), id);
  }

  lemma OneMore(tr: seq<Edge>, e: Edge)
    requires tr != []
    ensures AddsEarly(tr, tr + [e]) <==> e.at < tr[|tr| - 1].at
    ensures !AddsEarly(tr, tr)
  {
    var t := tr + [e];
    assert t[|tr|] == e && t[|tr| - 1] == tr[|tr| - 1];
    if e.at < tr[|tr| - 1].at { assert t[|tr|].at < t[|tr| - 1].at; }
  }

  lemma ClosingIsEarly(db: DB, k: Closing, order: seq<Id>, now: int, id: Id)
    requires Distinct(order) && id in db.bookings && TrailOf(db.trail, id) != []
    ensures var tr := TrailOf(db.trail, id);
      AddsEarly(tr, TrailOf(CloseEach(db, k, order, now).trail, id)) <==> id in order && now < tr[|tr| - 1].at
  {
    ClosedTrail(db, k, order, now, id);
    hide TrailOf, CloseEach, Close;
    OneMore(TrailOf(db.trail, id), Edge(Change(id, Some(db.bookings[id].status), Close(k, db.bookings[id]).status, System), now));
  }

  lemma ActIsEarly(cfg: Settings, db: DB, parent: Id, a: Action, user: Person, order: seq<Id>, now: int, id: Id)
    requires AmountsOk(db) && Among(order, Extensions(db, parent)) && NotBefore(TrailOf(db.trail, parent), now)
    requires id in db.bookings && TrailOf(db.trail, id) != [] && Act(cfg, db, parent, a, user, order, now).Ok?
    ensures var tr := TrailOf(db.trail, id);
      AddsEarly(tr, TrailOf(Act(cfg, db, parent, a, user, order, now).value.trail, id)) <==>
        EndsIt(cfg, db, Acts(parent, a, user, order), now, id) && now < tr[|tr| - 1].at
  {
    T.ActParts(cfg, db, parent, a, user, order, now);
    assert Distinct(order) && parent !in order && Visible(db, parent, user);
    var row := Checked(cfg, db.bookings[parent], a, user, now).value;
    hide Act, Checked, AmountsOk, Extensions, Among, TrailOf, Move, CloseEach, AddsEarly, Visible;
    MoveIsNotEarly(db, parent, row, Of(user), now, id);
    MoveThenClose(db, parent, row, Of(user), order, now, id);
  }

  lemma MoveIsNotEarly(db: DB, own: Id, row: Row, actor: Actor, now: int, id: Id)
    requires own in db.bookings && NotBefore(TrailOf(db.trail, own), now) && TrailOf(db.trail, id) != []
    ensures !AddsEarly(TrailOf(db.trail, id), TrailOf(Move(db, own, row, actor, now).trail, id))
  {
    hide TrailOf, AddsEarly;
    assert AtMostItsOwn(db, Move(db, own, row, actor, now), own, now);
    OwnIsNotEarly(db, Move(db, own, row, actor, now), own, now, id);
  }

  lemma MoveThenClose(db: DB, own: Id, row: Row, actor: Actor, order: seq<Id>, now: int, id: Id)
    requires own in db.bookings && own !in order && Distinct(order) && id in db.bookings && TrailOf(db.trail, id) != []
    requires !AddsEarly(TrailOf(db.trail, id), TrailOf(Move(db, own, row, actor, now).trail, id))
    ensures var tr := TrailOf(db.trail, id);
      AddsEarly(tr, TrailOf(CloseEach(Move(db, own, row, actor, now), WithParent, order, now).trail, id)) <==>
        id in order && now < tr[|tr| - 1].at
  {
    var db1, tr := Move(db, own, row, actor, now), TrailOf(db.trail, id);
    hide TrailOf, AddsEarly, CloseEach;
    MovedTrail(db, own, row, actor, now, id);
    ClosedTrail(db1, WithParent, order, now, id);
    hide Move;
    assert TrailOf(db1.trail, id) + [] == TrailOf(db1.trail, id) && tr + [] == tr;
    if id in order {
      OneMore(tr, Edge(Change(id, Some(db1.bookings[id].status), Close(WithParent, db1.bookings[id]).status, System), now));
    }
  }

  /** A transaction about one booking adds one line, of that booking, at its reading. */
  ghost predicate AtMostItsOwn(db: DB, db': DB, id: Id, now: int) {
    || db'.trail == db.trail
    || exists e :: db'.trail == db.trail + [e] && e.change.booking == id && e.at == now
  }

  lemma OwnIsNotEarly(db: DB, db': DB, own: Id, now: int, id: Id)
    requires AtMostItsOwn(db, db', own, now) && NotBefore(TrailOf(db.trail, own), now) && TrailOf(db.trail, id) != []
    ensures !AddsEarly(TrailOf(db.trail, id), TrailOf(db'.trail, id))
  {
    hide AddsEarly, TrailOf;
    OneMore(TrailOf(db.trail, id), TrailOf(db.trail, id)[0]);
    if db'.trail != db.trail {
      var e :| db'.trail == db.trail + [e] && e.change.booking == own && e.at == now;
      hide TrailOf, AddsEarly;
      TrailGrows(db.trail, e, id);
      OneMore(TrailOf(db.trail, id), e);
    }
  }

  lemma ActsToo(cfg: Settings, db: DB, op: Op, now: int, id: Id)
    requires AmountsOk(db) && Enabled(cfg, db, op, now) && id in db.bookings && TrailOf(db.trail, id) != [] && op.Acts?
    ensures var tr := TrailOf(db.trail, id);
      AddsEarly(tr, TrailOf(After(cfg, db, op, now).trail, id)) <==> EndsIt(cfg, db, op, now, id) && now < tr[|tr| - 1].at
  {
    var tr := TrailOf(db.trail, id);
    hide AmountsOk, TrailOf, AddsEarly, Among, Extensions, Checked, CloseEach, Move, OwnerSees;
    OneMore(tr, tr[0]);
    if Answer(cfg, db, op, now).Ok? { ActIsEarly(cfg, db, op.id, op.action, op.user, op.order, now, id); }
  }

  lemma PaymentsOwn(cfg: Settings, db: DB, id: Id, a: SystemAction, now: int)
    ensures AtMostItsOwn(db, ApplyEvent(cfg, db, id, a, now), id, now) && AtMostItsOwn(db, PaymentRefused(db, id, now), id, now)
  {
    hide AnswerDeadline;
  }

  lemma SettleOwn(db: DB, id: Id, refund: int, actor: Actor, now: int)
    requires id in db.bookings && Settle(db, id, refund, actor, now).Ok?
    ensures AtMostItsOwn(db, Settle(db, id, refund, actor, now).value, id, now)
  {
    hide OutcomeOf, SettledRow;
  }

  lemma SettlesOwn(cfg: Settings, db: DB, op: Op, now: int)
    requires AmountsOk(db) && (op.Accepts? || op.Resolves? || op.Approves?) && Answer(cfg, db, op, now).Ok?
    ensures Locks(db, op).Some? && AtMostItsOwn(db, Answer(cfg, db, op, now).value, Locks(db, op).value, now)
  {
    hide AmountsOk, OwnerSees, AwaitsApproval, RefundFor, OutcomeOf, SettledRow;
  }

  /** The transactions that write no line. */
  lemma WritesNone(cfg: Settings, db: DB, op: Op, now: int)
    requires AmountsOk(db) && Answer(cfg, db, op, now).Ok?
    requires op.Rates? || op.RatesRenter? || op.Offers? || op.Rejects? || op.Withdraws? || op.SweepReviews? || op.SweepDisputes?
    ensures Answer(cfg, db, op, now).value.trail == db.trail
  {
    hide AmountsOk, OwnerSees, PublishEach, EscalateEach;
    match op {
      case SweepReviews(order) => T.PublishingIsQuiet(db, order, now);
      case SweepDisputes(order) => T.EscalatingIsQuiet(db, order, now);
      case _ =>
    }
  }

  lemma OwnOps(cfg: Settings, db: DB, op: Op, now: int, id: Id)
    requires AmountsOk(db) && InTurn(db, op, now) && TrailOf(db.trail, id) != [] && Answer(cfg, db, op, now).Ok?
    requires op.PaymentAuthorised? || op.PaymentFails? || op.PaymentIsRefused? || op.Accepts? || op.Resolves? || op.Approves?
    ensures !AddsEarly(TrailOf(db.trail, id), TrailOf(Answer(cfg, db, op, now).value.trail, id))
  {
    hide AmountsOk, TrailOf, AddsEarly, ApplyEvent, PaymentRefused, AtMostItsOwn;
    if op.Accepts? || op.Resolves? || op.Approves? {
      hide Answer;
      SettlesOwn(cfg, db, op, now);
    } else {
      PaymentsOwn(cfg, db, op.id, PaymentDeclined, now);
      PaymentsOwn(cfg, db, op.id, Authorised, now);
      PaymentsOwn(cfg, db, op.id, AuthorisedInstant, now);
    }
    OwnIsNotEarly(db, Answer(cfg, db, op, now).value, Locks(db, op).value, now, id);
  }

  lemma BatchOps(cfg: Settings, db: DB, op: Op, now: int, id: Id)
    requires AmountsOk(db) && Enabled(cfg, db, op, now) && id in db.bookings && TrailOf(db.trail, id) != []
    requires op.RemoveListing? || op.SuspendRequester? || op.SweepLapsed? || op.SweepFinished?
    ensures var tr := TrailOf(db.trail, id);
      && Answer(cfg, db, op, now).Ok?
      && (AddsEarly(tr, TrailOf(Answer(cfg, db, op, now).value.trail, id)) <==>
        EndsIt(cfg, db, op, now, id) && now < tr[|tr| - 1].at)
  {
    BatchesAreClosable(cfg, db, op, now);
    hide AmountsOk, TrailOf, AddsEarly, CloseEach, Enabled;
    ClosingIsEarly(db,
      if op.SweepLapsed? then Lapsing else if op.SweepFinished? then Finishing else Declining, op.order, now, id);
  }

  /** One transaction puts an earlier line on a booking exactly if it ends it with
      others, and read the clock before the booking last moved. */
  lemma WhenALineIsEarly(cfg: Settings, db: DB, op: Op, now: int, id: Id)
    requires AmountsOk(db) && Enabled(cfg, db, op, now) && id in db.bookings && TrailOf(db.trail, id) != []
    ensures var tr := TrailOf(db.trail, id);
      AddsEarly(tr, TrailOf(After(cfg, db, op, now).trail, id)) <==> EndsIt(cfg, db, op, now, id) && now < tr[|tr| - 1].at
  {
    hide AmountsOk, TrailOf, AddsEarly, Finds;
    var tr := TrailOf(db.trail, id);
    OneMore(tr, tr[0]);
    if op.RemoveListing? || op.SuspendRequester? || op.SweepLapsed? || op.SweepFinished? {
      hide Answer, Enabled;
      BatchOps(cfg, db, op, now, id);
    } else if op.Acts? {
      ActsToo(cfg, db, op, now, id);
    } else if Answer(cfg, db, op, now).Ok? {
      hide Answer;
      if op.Rates? || op.RatesRenter? || op.Offers? || op.Rejects? || op.Withdraws? || op.SweepReviews? || op.SweepDisputes? {
        WritesNone(cfg, db, op, now);
      } else {
        OwnOps(cfg, db, op, now, id);
      }
    }
  }
}
