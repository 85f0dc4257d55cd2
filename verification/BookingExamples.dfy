/** Runs of the service that show what its theorems leave possible. */
module BookingExamples {
  import opened Wrappers
  import opened BookingState
  import opened Booking
  import opened BookingInvariants
  import opened BookingOps
  import opened BookingSystem
  import H = BookingHistory

  /** What somebody may ask for: a window still ahead, with time to pay. */
  ghost predicate Askable(cfg: Settings, ask: Ask, row: Row) {
    && Fresh(row, row.terms.createdAt) && PaymentDue(cfg, row) && AskedFor(ask, row) && ask.key.Some?
    && cfg.paymentTimeout > 0 && row.terms.createdAt < row.terms.start && row.terms.parent != Some(0)
  }

  function Empty(now: int): DB { DB(now, map[], [], map[], map[], []) }

  /** Two copies of one ask, each where its phase says. */
  function Both(db: DB, ask: Ask, p: Phase, q: Phase): Sys {
    Sys(db, map[0 := Tx(ask, p), 1 := Tx(ask, q)])
  }

  function Made(row: Row): DB { Insert(Empty(row.terms.createdAt), 0, row) }

  /** Both arrive and look before either is there; the first is made. */
  function States(ask: Ask, row: Row): seq<Sys> {
    var db := Empty(row.terms.createdAt);
    [Sys(db, map[]),
     Sys(db, map[0 := Tx(ask, Arrived)]),
     Both(db, ask, Arrived, Arrived),
     Both(db, ask, Looked, Arrived),
     Both(db, ask, Looked, Looked),
     Both(db, ask, Priced(0, row), Looked),
     Both(db, ask, Priced(0, row), Priced(1, row)),
     Both(db, ask, Locked(0, row), Priced(1, row)),
     Both(db, ask, WindowFree(0, row), Priced(1, row)),
     Both(db, ask, Inserted(0, row), Priced(1, row)),
     Both(Made(row), ask, Found(0, true), Priced(1, row))]
  }

  function Steps(ask: Ask, row: Row): seq<Step> {
    [Arrive(0, ask), Arrive(1, ask), Lookup(0), Lookup(1), Price(0, 0, row), Price(1, 1, row),
     LockListing(0), CheckWindow(0), InsertRow(0), Commit(0)]
  }

  lemma Arriving(cfg: Settings, ask: Ask, row: Row)
    ensures OneStep(cfg, States(ask, row)[0], Arrive(0, ask), States(ask, row)[1])
    ensures OneStep(cfg, States(ask, row)[1], Arrive(1, ask), States(ask, row)[2])
  {}

  lemma Looking(cfg: Settings, ask: Ask, row: Row)
    ensures OneStep(cfg, States(ask, row)[2], Lookup(0), States(ask, row)[3])
    ensures OneStep(cfg, States(ask, row)[3], Lookup(1), States(ask, row)[4])
  {
    var db := Empty(row.terms.createdAt);
    assert !HasKey(db, ask);
    hide Replay;
    assert Next(cfg, Both(db, ask, Arrived, Arrived), Lookup(0)).txs == Both(db, ask, Looked, Arrived).txs;
    assert Next(cfg, Both(db, ask, Looked, Arrived), Lookup(1)).txs == Both(db, ask, Looked, Looked).txs;
  }

  lemma Offering(cfg: Settings, ask: Ask, row: Row)
    requires Askable(cfg, ask, row)
    ensures OneStep(cfg, States(ask, row)[4], Price(0, 0, row), States(ask, row)[5])
    ensures OneStep(cfg, States(ask, row)[5], Price(1, 1, row), States(ask, row)[6])
  {
    var db := Empty(row.terms.createdAt);
    hide Fresh, AskedFor, PaymentDue;
    assert Next(cfg, Both(db, ask, Looked, Looked), Price(0, 0, row)).txs == Both(db, ask, Priced(0, row), Looked).txs;
    assert Next(cfg, Both(db, ask, Priced(0, row), Looked), Price(1, 1, row)).txs == Both(db, ask, Priced(0, row), Priced(1, row)).txs;
  }

  lemma Locking(cfg: Settings, ask: Ask, row: Row)
    ensures OneStep(cfg, States(ask, row)[6], LockListing(0), States(ask, row)[7])
  {
    var db := Empty(row.terms.createdAt);
    assert Next(cfg, Both(db, ask, Priced(0, row), Priced(1, row)), LockListing(0)).txs
      == Both(db, ask, Locked(0, row), Priced(1, row)).txs;
  }

  lemma Checking(cfg: Settings, ask: Ask, row: Row)
    ensures OneStep(cfg, States(ask, row)[7], CheckWindow(0), States(ask, row)[8])
  {
    var db := Empty(row.terms.createdAt);
    assert !Taken(db, row);
    assert Next(cfg, Both(db, ask, Locked(0, row), Priced(1, row)), CheckWindow(0)).txs
      == Both(db, ask, WindowFree(0, row), Priced(1, row)).txs;
  }

  lemma Inserting(cfg: Settings, ask: Ask, row: Row)
    ensures OneStep(cfg, States(ask, row)[8], InsertRow(0), States(ask, row)[9])
    ensures OneStep(cfg, States(ask, row)[9], Commit(0), States(ask, row)[10])
  {
    var db := Empty(row.terms.createdAt);
    assert !HasKey(db, ask);
    assert Next(cfg, Both(db, ask, WindowFree(0, row), Priced(1, row)), InsertRow(0)).txs
      == Both(db, ask, Inserted(0, row), Priced(1, row)).txs;
    assert Next(cfg, Both(db, ask, Inserted(0, row), Priced(1, row)), Commit(0)).txs
      == Both(Made(row), ask, Found(0, true), Priced(1, row)).txs;
  }

  lemma FirstIsMade(cfg: Settings, ask: Ask, row: Row)
    requires Askable(cfg, ask, row)
    ensures Run(cfg, States(ask, row), Steps(ask, row))
  {
    Arriving(cfg, ask, row);
    Looking(cfg, ask, row);
    Offering(cfg, ask, row);
    Locking(cfg, ask, row);
    Checking(cfg, ask, row);
    Inserting(cfg, ask, row);
    hide OneStep, Askable;
    var states, steps := States(ask, row), Steps(ask, row);
    forall i | 0 <= i < |steps| ensures OneStep(cfg, states[i], steps[i], states[i + 1]) {}
  }

  lemma RunGoesOn(cfg: Settings, states: seq<Sys>, steps: seq<Step>, step: Step, s: Sys)
    requires Run(cfg, states, steps) && OneStep(cfg, states[|steps|], step, s)
    ensures Run(cfg, states + [s], steps + [step])
  {
    hide OneStep;
    var states', steps' := states + [s], steps + [step];
    forall i | 0 <= i < |steps'| ensures OneStep(cfg, states'[i], steps'[i], states'[i + 1]) {
      assert i < |steps| ==> OneStep(cfg, states[i], steps[i], states[i + 1]);
    }
  }

  /** Any ask of any kind, sent twice: the copy that was past its lookup when the
      first was committed is told its window was just taken, by its own booking. */
  lemma LateCopyIsTurnedAway(cfg: Settings, ask: Ask, row: Row) returns (states: seq<Sys>, steps: seq<Step>)
    requires Askable(cfg, ask, row)
    ensures Run(cfg, states, steps)
    ensures var s := states[|steps|];
      && s.txs.Keys == {0, 1} && s.txs[0] == Tx(ask, Found(0, true)) && s.txs[1] == Tx(ask, Answered(Refused(Conflict)))
      && Keyed(s.db, ask, 0) && s.db.bookings.Keys == {0}
  {
    FirstIsMade(cfg, ask, row);
    SecondIsRefused(cfg, ask, row);
    SecondLocks(cfg, ask, row);
    hide Run, OneStep, Askable;
    var db := Made(row);
    var locked := Both(db, ask, Found(0, true), Locked(1, row));
    var refused := Both(db, ask, Found(0, true), Answered(Refused(Conflict)));
    RunGoesOn(cfg, States(ask, row), Steps(ask, row), LockListing(1), locked);
    RunGoesOn(cfg, States(ask, row) + [locked], Steps(ask, row) + [LockListing(1)], CheckWindow(1), refused);
    states, steps := States(ask, row) + [locked] + [refused], Steps(ask, row) + [LockListing(1)] + [CheckWindow(1)];
  }

  lemma SecondLocks(cfg: Settings, ask: Ask, row: Row)
    requires row.terms.amount >= 0
    ensures OneStep(cfg, States(ask, row)[10], LockListing(1), Both(Made(row), ask, Found(0, true), Locked(1, row)))
  {
    assert Next(cfg, Both(Made(row), ask, Found(0, true), Priced(1, row)), LockListing(1)).txs
      == Both(Made(row), ask, Found(0, true), Locked(1, row)).txs;
  }

  lemma SecondIsRefused(cfg: Settings, ask: Ask, row: Row)
    requires Askable(cfg, ask, row)
    ensures OneStep(cfg, Both(Made(row), ask, Found(0, true), Locked(1, row)), CheckWindow(1),
                    Both(Made(row), ask, Found(0, true), Answered(Refused(Conflict))))
    ensures row.terms.amount >= 0 && Keyed(Made(row), ask, 0)
  {
    var db := Made(row);
    assert Clash(row, db.bookings[0]) && Taken(db, row);
    assert Next(cfg, Both(db, ask, Found(0, true), Locked(1, row)), CheckWindow(1)).txs
      == Both(db, ask, Found(0, true), Answered(Refused(Conflict))).txs;
  }

  /** And somebody may cancel before paying: the owner sees that booking, though
      no card was ever held for it. */
  lemma AnUnpaidBookingIsSeen(cfg: Settings, ask: Ask, row: Row) returns (states: seq<Sys>, steps: seq<Step>)
    requires Askable(cfg, ask, row)
    ensures Run(cfg, states, steps)
    ensures var db := states[|steps|].db;
      0 in db.bookings && OwnerSees(db, 0) && !H.CardHeld(TrailOf(db.trail, 0))
  {
    FirstIsMade(cfg, ask, row);
    var op := Acts(0, Cancel, row.terms.requester, []);
    var s := Both(Cancelled0(row), ask, Found(0, true), Priced(1, row));
    CancelsUnpaid(cfg, ask, row);
    UnpaidTrail(row);
    hide Run, OneStep, Askable, Cancelled0, TrailOf, H.CardHeld;
    RunGoesOn(cfg, States(ask, row), Steps(ask, row), Other(op, row.terms.createdAt), s);
    states, steps := States(ask, row) + [s], Steps(ask, row) + [Other(op, row.terms.createdAt)];
    H.NeverHeld(s.db.trail, 0);
  }

  function Cancelled0(row: Row): DB {
    Move(Made(row), 0, row.(status := Cancelled, expires := None), Of(row.terms.requester), row.terms.createdAt)
  }

  lemma UnpaidTrail(row: Row)
    requires row.status == AwaitingPayment
    ensures 0 in Cancelled0(row).bookings && Cancelled0(row).bookings[0].status == Cancelled
    ensures forall e :: e in Cancelled0(row).trail ==> e.change.to in {AwaitingPayment, Cancelled}
  {
    var trail := Cancelled0(row).trail;
    assert trail == [trail[0], trail[1]];
  }

  lemma MadeTrail(row: Row)
    ensures TrailOf(Made(row).trail, 0) == Made(row).trail == [Edge(Change(0, None, row.status, Of(row.terms.requester)), row.terms.createdAt)]
  {
    TrailGrows([], Made(row).trail[0], 0);
    assert TrailOf([], 0) == [];
  }

  lemma MadeIsInTurn(row: Row, op: Op, now: int)
    requires row.terms.createdAt <= now && row.reviews.published.None? && Locks(Made(row), op) in {None, Some(0)}
    ensures InTurn(Made(row).(clock := now), op, now)
  {
    MadeTrail(row);
    hide TrailOf;
  }

  lemma Happens(cfg: Settings, db: DB, ask: Ask, row: Row, op: Op)
    requires AmountsOk(db) && Enabled(cfg, db, op, db.clock)
    ensures var s := Both(db, ask, Found(0, true), Priced(1, row));
      OneStep(cfg, s, Other(op, db.clock), s.(db := After(cfg, db, op, db.clock)))
  {
    hide After, AmountsOk, Enabled;
  }

  lemma CancelIs(cfg: Settings, ask: Ask, row: Row)
    requires Askable(cfg, ask, row)
    ensures var db, op := Made(row), Acts(0, Cancel, row.terms.requester, []);
      AmountsOk(db) && Finds(cfg, db, op, row.terms.createdAt) && After(cfg, db, op, row.terms.createdAt) == Cancelled0(row)
  {
    var db := Made(row);
    hide TrailOf;
    assert Checked(cfg, row, Cancel, row.terms.requester, db.clock) == Ok(row.(status := Cancelled, expires := None));
    assert Act(cfg, db, 0, Cancel, row.terms.requester, [], db.clock) == Ok(Cancelled0(row));
  }

  lemma CancelsUnpaid(cfg: Settings, ask: Ask, row: Row)
    requires Askable(cfg, ask, row)
    ensures row.status == AwaitingPayment
    ensures OneStep(cfg, States(ask, row)[10], Other(Acts(0, Cancel, row.terms.requester, []), row.terms.createdAt),
                    Both(Cancelled0(row), ask, Found(0, true), Priced(1, row)))
  {
    assert row.reviews.published.None? && Made(row).(clock := row.terms.createdAt) == Made(row);
    hide TrailOf, InTurn, Finds, After, AmountsOk, Cancelled0;
    MadeIsInTurn(row, Acts(0, Cancel, row.terms.requester, []), row.terms.createdAt);
    CancelIs(cfg, ask, row);
    Happens(cfg, Made(row), ask, row, Acts(0, Cancel, row.terms.requester, []));
  }

  // --- a line earlier than the one before it -------------------------------------------------------------

  /** A millisecond later the card is held. */
  function Held0(cfg: Settings, row: Row): DB {
    var now := row.terms.createdAt + 1;
    Move(Made(row).(clock := now), 0,
      row.(status := Requested, expires := Some(AnswerDeadline(cfg, now, row.terms))), Payments, now)
  }

  /** And the listing's removal, which read the clock before that, declines it. */
  function Declined0(cfg: Settings, row: Row): DB {
    Move(Held0(cfg, row), 0, row.(status := Declined, expires := None), System, row.terms.createdAt)
  }

  lemma Ticking(cfg: Settings, ask: Ask, row: Row)
    requires row.terms.amount >= 0
    ensures var s := Both(Made(row), ask, Found(0, true), Priced(1, row));
      OneStep(cfg, s, Step.Tick(row.terms.createdAt + 1), s.(db := s.db.(clock := row.terms.createdAt + 1)))
  {}

  lemma CardIsHeld(cfg: Settings, row: Row)
    requires row.status == AwaitingPayment && row.terms.amount >= 0 && !row.terms.instant
    ensures var db := Made(row).(clock := row.terms.createdAt + 1);
      AmountsOk(db) && After(cfg, db, PaymentAuthorised(0), row.terms.createdAt + 1) == Held0(cfg, row)
  {
    hide AnswerDeadline, Move;
    assert Insert(Empty(row.terms.createdAt), 0, row).bookings == map[0 := row];
  }

  lemma HoldingIt(cfg: Settings, ask: Ask, row: Row)
    requires Askable(cfg, ask, row) && !row.terms.instant
    ensures var s := Both(Made(row).(clock := row.terms.createdAt + 1), ask, Found(0, true), Priced(1, row));
      OneStep(cfg, s, Other(PaymentAuthorised(0), row.terms.createdAt + 1), s.(db := Held0(cfg, row)))
  {
    assert row.status == AwaitingPayment && row.terms.amount >= 0 && row.reviews.published.None?;
    hide Askable, InTurn, After, AmountsOk, Made, Held0;
    MadeIsInTurn(row, PaymentAuthorised(0), row.terms.createdAt + 1);
    CardIsHeld(cfg, row);
    Happens(cfg, Made(row).(clock := row.terms.createdAt + 1), ask, row, PaymentAuthorised(0));
  }

  lemma DecliningIt(cfg: Settings, ask: Ask, row: Row)
    requires Askable(cfg, ask, row)
    ensures var s := Both(Held0(cfg, row), ask, Found(0, true), Priced(1, row));
      OneStep(cfg, s, Other(RemoveListing(row.terms.listing, [0]), row.terms.createdAt), s.(db := Declined0(cfg, row)))
  {
    var db := Held0(cfg, row);
    hide TrailOf, AnswerDeadline;
    assert CloseEach(db, Declining, [], row.terms.createdAt) == db;
    assert CloseEach(db, Declining, [0], row.terms.createdAt) == Declined0(cfg, row);
  }

  lemma DeclinedTrail(cfg: Settings, row: Row)
    ensures var tr := TrailOf(Declined0(cfg, row).trail, 0); |tr| == 3 && tr[2].at < tr[1].at
  {
    MadeTrail(row);
    hide TrailOf, AnswerDeadline;
    TrailGrows(Made(row).trail, Held0(cfg, row).trail[1], 0);
    TrailGrows(Held0(cfg, row).trail, Declined0(cfg, row).trail[2], 0);
  }

  /** A removal that read the clock and then waited for a booking dates its decline
      before the line that it waited for. */
  lemma ADeclineBearsAnEarlierTime(cfg: Settings, ask: Ask, row: Row) returns (states: seq<Sys>, steps: seq<Step>)
    requires Askable(cfg, ask, row) && !row.terms.instant
    ensures Run(cfg, states, steps)
    ensures var tr := TrailOf(states[|steps|].db.trail, 0); |tr| == 3 && tr[2].at < tr[1].at
  {
    FirstIsMade(cfg, ask, row);
    assert row.terms.amount >= 0;
    Ticking(cfg, ask, row);
    HoldingIt(cfg, ask, row);
    DecliningIt(cfg, ask, row);
    DeclinedTrail(cfg, row);
    hide Run, OneStep, Askable, TrailOf, Held0, Declined0, Made;
    var now := row.terms.createdAt + 1;
    var s := Both(Made(row), ask, Found(0, true), Priced(1, row));
    var s1, s2, s3 := s.(db := s.db.(clock := now)), s.(db := Held0(cfg, row)), s.(db := Declined0(cfg, row));
    states, steps := States(ask, row), Steps(ask, row);
    RunGoesOn(cfg, states, steps, Step.Tick(now), s1);
    states, steps := states + [s1], steps + [Step.Tick(now)];
    RunGoesOn(cfg, states, steps, Other(PaymentAuthorised(0), now), s2);
    states, steps := states + [s2], steps + [Other(PaymentAuthorised(0), now)];
    RunGoesOn(cfg, states, steps, Other(RemoveListing(row.terms.listing, [0]), row.terms.createdAt), s3);
    states, steps := states + [s3], steps + [Other(RemoveListing(row.terms.listing, [0]), row.terms.createdAt)];
  }
}
