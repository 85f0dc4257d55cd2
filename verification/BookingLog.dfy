/** The trail and the outbox are only ever added to: no request, event or sweep
    takes back a line or an event that was committed. */
module BookingLog {
  import opened Wrappers
  import opened BookingState
  import opened Booking
  import opened BookingInvariants
  import opened BookingSystem

  ghost predicate Appends(db: DB, db': DB) {
    db.trail <= db'.trail && db.outbox <= db'.outbox
  }

  lemma {:induction false} CloseEachAppends(db: DB, k: Closing, order: seq<Id>, now: int)
    ensures Appends(db, CloseEach(db, k, order, now))
  {
    if order != [] { CloseEachAppends(db, k, order[..|order| - 1], now); }
  }

  lemma {:induction false} PublishEachAppends(db: DB, order: seq<Id>, now: int)
    ensures Appends(db, PublishEach(db, order, now))
  {
    if order != [] { PublishEachAppends(db, order[..|order| - 1], now); }
  }

  lemma {:induction false} EscalateEachAppends(db: DB, order: seq<Id>, now: int)
    ensures Appends(db, EscalateEach(db, order, now))
  {
    if order != [] { EscalateEachAppends(db, order[..|order| - 1], now); }
  }

  lemma ActAppends(cfg: Settings, db: DB, id: Id, a: Action, user: Person, order: seq<Id>, now: int)
    requires AmountsOk(db) && Act(cfg, db, id, a, user, order, now).Ok?
    ensures Appends(db, Act(cfg, db, id, a, user, order, now).value)
  {
    hide Checked, OwnerSees, CloseEach;
    var row := Checked(cfg, db.bookings[id], a, user, now).value;
    CloseEachAppends(Move(db, id, row, Of(user), now), WithParent, order, now);
  }

  lemma DisputeAppends(cfg: Settings, db: DB, op: Op, now: int)
    requires AmountsOk(db) && (op.Offers? || op.Accepts? || op.Resolves? || op.Approves? || op.Rejects? || op.Withdraws?)
    requires Answer(cfg, db, op, now).Ok?
    ensures Appends(db, Answer(cfg, db, op, now).value)
  {
    hide OwnerSees, AwaitsApproval;
  }

  lemma ReviewAppends(cfg: Settings, db: DB, op: Op, now: int)
    requires AmountsOk(db) && (op.Rates? || op.RatesRenter?)
    requires Answer(cfg, db, op, now).Ok?
    ensures Appends(db, Answer(cfg, db, op, now).value)
  {
    hide OwnerSees, CheckCanRate;
  }

  lemma AfterAppends(cfg: Settings, db: DB, op: Op, now: int)
    requires AmountsOk(db)
    ensures Appends(db, After(cfg, db, op, now))
  {
    if Answer(cfg, db, op, now).Ok? {
      match op {
        case Acts(id, a, user, order) => ActAppends(cfg, db, id, a, user, order, now);
        case RemoveListing(_, order) => CloseEachAppends(db, Declining, order, now);
        case SuspendRequester(_, order) => CloseEachAppends(db, Declining, order, now);
        case SweepLapsed(order) => CloseEachAppends(db, Lapsing, order, now);
        case SweepFinished(order) => CloseEachAppends(db, Finishing, order, now);
        case SweepReviews(order) => PublishEachAppends(db, order, now);
        case SweepDisputes(order) => EscalateEachAppends(db, order, now);
        case Rates(_, _, _) => ReviewAppends(cfg, db, op, now);
        case RatesRenter(_, _, _) => ReviewAppends(cfg, db, op, now);
        case PaymentAuthorised(_) => PaymentAppends(cfg, db, op, now);
        case PaymentFails(_) => PaymentAppends(cfg, db, op, now);
        case PaymentIsRefused(_) => PaymentAppends(cfg, db, op, now);
        case _ => DisputeAppends(cfg, db, op, now);
      }
      hide Answer;
    }
  }

  lemma PaymentAppends(cfg: Settings, db: DB, op: Op, now: int)
    requires AmountsOk(db) && (op.PaymentAuthorised? || op.PaymentFails? || op.PaymentIsRefused?)
    ensures Answer(cfg, db, op, now).Ok? && Appends(db, Answer(cfg, db, op, now).value)
  {
    hide AnswerDeadline;
  }

  lemma StepAppends(cfg: Settings, s: Sys, step: Step)
    requires CanStep(cfg, s, step) && AmountsOk(s.db)
    ensures Appends(s.db, Next(cfg, s, step).db)
  {
    hide AmountsOk;
    if step.Other? {
      hide After;
      AfterAppends(cfg, s.db, step.op, step.read);
    } else {
      hide Fresh, AskedFor, Enabled, HasKey, Taken, AfterCheck, AfterInsert, AfterRollback, Replay;
    }
  }

  /** Over any run. */
  lemma {:induction false} LogsOnlyGrow(cfg: Settings, states: seq<Sys>, steps: seq<Step>, i: nat, j: nat)
    requires Run(cfg, states, steps) && i <= j < |states|
    ensures Appends(states[i].db, states[j].db)
    decreases j - i
  {
    hide CanStep, Next, AmountsOk;
    if i < j {
      LogsOnlyGrow(cfg, states, steps, i, j - 1);
      assert OneStep(cfg, states[j - 1], steps[j - 1], states[j]);
      StepAppends(cfg, states[j - 1], steps[j - 1]);
    }
  }
}
