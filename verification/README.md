# Cappy in Dafny

Cappy rents out machines by the hour: somebody asks for a window of a listing,
pays, the owner answers, the two hand over, review, and now and then dispute.
This project models the parts of it where something can go wrong between two
steps, and proves what the code is meant to guarantee there, for every input,
every interleaving and every run. Check it with `dafny verify dfyconfig.toml`.

## The files

| file | what it models |
|---|---|
| `Wrappers.dfy` | options, results and the API's errors |
| `BookingState.dfy`, `Cancellation.dfy` | the status machine as tables; what a cancellation gives back |
| `Booking.dfy` | the tables (bookings, trail, disputes, resolutions, outbox) and what each request, event handler and sweep does to them in its one transaction, as functions |
| `BookingInvariants.dfy`, `BookingOps.dfy` | the invariant that ties a row to its trail, and its preservation by every transaction |
| `BookingSystem.dfy` | the service at run time: any number of `create` requests between their steps (look up, price, lock, check, insert, commit, pay), crashes, and every other transaction in between |
| `BookingHistory.dfy`, `BookingLog.dfy`, `BookingTiming.dfy`, `BookingOrder.dfy`, `BookingDeadlines.dfy`, `BookingOffers.dfy`, `BookingNotices.dfy`, `BookingEscalation.dfy` | what follows for every run: windows, money, disputes, staff, reviews, keys, who sees what, who moved what and when, the order of the trail, the time people had, the offers they made, what they and the audit log were told |
| `BookingAnswers.dfy`, `DisputeAnswers.dfy`, `CreationAnswers.dfy` | what every request, payment event and decision is answered, and what it does, exactly, in terms of rows and trail alone |
| `LateCopies.dfy`, `BookingExamples.dfy` | keyed copies that come late; runs that show what the theorems leave possible |
| `Pricing.dfy` | the money of a row as the server and as the app reckon it |
| `BookingService.dfy` | the same service as a class whose methods change the tables statement by statement, each proved against its function |
| `Delivery.dfy`, `EventBus.dfy` | transactional outbox, relays, queues, dead letters and the idempotent dispatcher, as a protocol of small steps and as the code that takes them |
| `EndToEnd.dfy` | bookings and bus together |
| `AttemptKeys.dfy`, `IdempotentCreation.dfy` | the app's keys, and creation over a network that loses and repeats |
| `Idempotency.dfy` | the generic keyed POST, with copies racing |
| `Pagination.dfy`, `BookingListing.dfy`, `Cursor.dfy` | keyset pages over a changing table; a person's bookings page by page while the service runs; the text of a cursor |
| `RateLimit.dfy`, `RateLimitRuns.dfy`, `Sessions.dfy` | the pruned limiter, one request at a time and overlapping; the register of revocations |
| `ConvexHull.dfy` | the silhouette of a drawn object |

## What is taken as given

- Times are whole milliseconds on one clock that never goes back, money is whole
  minor units, ids and keys are numbers, coordinates whole hundredths. A half
  share is half of an integer, rounded half to even as Python does.
- A price is positive, the owner's share lies within it, a window starts before
  it ends, and nobody books their own listing
  (`backend/services/booking/booking/routes.py:192`,
  `backend/services/booking/booking/tables.py:83-86`).
- The database's unique index on requester and key makes a second insert wait for
  the first (`backend/services/booking/booking/tables.py:84`); a row lock makes a
  request on one booking one step, taken when it commits; it read the clock at some
  moment before that, after it had its row. A transaction that ends many bookings
  reads the clock first, and they are those it finds as it commits: not always all
  there are. A transaction commits whole or not at all. Any
  other database error in `create` is the step `Contend`. Each statement reads what is
  committed as it starts (READ COMMITTED), so the window check, made after the lock
  is held, sees every booking made under it before. The exclusion constraint on
  windows is not needed by any proof: that lock, that check and the status machine
  suffice.
- A row read again with a lock is as committed, also when the session read it
  before without one, as `on_authorised` does
  (`backend/services/booking/booking/handlers.py:84-98`).
- When SNS takes every entry of a chunk, a copy of each reaches the queue of every
  subscriber; of a chunk it rejects or does not answer for, some copies may. A queue
  drops what it kept for as long as it keeps messages, the main one too: those set
  no time of their own (`infra/modules/messaging/main.tf:36-47`).
- Each screen of the app has keys of its own, and no key is ever made twice.
- Matching and payments are oracles: a valid offer or a refusal; a payment
  started, no answer, or a definite refusal.
- A fingerprint stands for what it is the hash of.
- Row invariants speak of staff and the system as distinct kinds of actor; the
  row keeps them as text (`support:...`, `system`, `payments`). Which role a
  resolution's approver acted in is kept by the model only, to state the rule.

## Where the code and its words differ

- `_owner_sees` says an owner hears of a booking once the card is held. They also
  see those cancelled, declined or lapsed before anybody paid
  (`BookingHistory.WhatOwnersSee` gives the exact set,
  `BookingExamples.AnUnpaidBookingIsSeen` a run).
- `create` says a key that raced itself returns what it made. A copy that is past
  its key lookup when the first commits meets the window check first and answers
  "just taken", because that refusal is not a database error: always while the
  first booking holds the window (`LateCopies.LateCheck`), as in the run of
  `BookingExamples.LateCopyIsTurnedAway`. No second booking comes of it
  (`LateCopies.LateCopyEndsAtFirst`).
- `window_taken` says only the exclusion constraint holds under concurrency. Under
  the advisory lock the check does too (`BookingHistory.NeverDoubleBooked`).
- `revoke` says a revocation only ever moves later, and the register is meant to
  keep every one that matters. Its two statements do so exactly when
  `Sessions.WhenItOnlyMovesLater` and `WhenARevocationIsLost` say: not when a later
  one is committed between them, nor when housekeeping takes the row between them
  (`OverlappingRevocationsReviveOne`, `PruningBetweenRevivesOne`).
- `hit` deletes, counts and inserts in three statements, so requests of one key that
  overlap can pass its limit: one hit exactly when `RateLimitRuns.WhenAHitFits` says,
  a whole run by the others in flight (`NoMoreThanInFlight`), and by more when a
  delete reaches into the window of a request that started before it
  (`DeletesLetMoreIn`, `NeverFarBeyond`).
- The handlers of a removed listing and of a suspension, the sweeps and the cascade
  of a cancellation read the clock before they have the rows they end, so the last
  line of a trail may bear an earlier time than the one before it
  (`BookingOrder.WhenALineIsEarly`, `BookingExamples.ADeclineBearsAnEarlierTime`).
- Processed markers are kept 21 days because a message can come back within 14. A
  message that came back after its marker went would be handled again
  (`Delivery.LateReceiptDoubles`); the promise that makes it once is an
  assumption on the queues, stated in `Delivery.InTime`.

## Model

| member | source | states |
|---|---|---|
| BookingState.EdgesOfTheTables | backend/services/booking/booking/state.py:68-92 | the edges of the status machine are exactly those of the people's table, the system's table, and a dispute's settlement |
| BookingState.EdgesDescend | backend/services/booking/booking/state.py:45-92 | every edge leads strictly down a rank and never out of a final status, so a booking moves at most five times |
| BookingState.NeverHoldsAgain | backend/services/booking/booking/state.py:45-49 | a booking that let its window go never holds it again |
| BookingState.FinalIsStuck | backend/services/booking/booking/state.py:45-53 | the final statuses are exactly the ones with no way out |
| BookingState.WhoMayMove | backend/services/booking/booking/state.py:95-113 | a person's move follows an edge when it is allowed, and is a conflict exactly when they are the right side and the status is not one it starts from |
| Cancellation.RefundSchedule | backend/services/booking/booking/cancellation.py:1-37 | the published schedule for every amount: all, nothing, or half with a tie going to the even unit; and of two units or more, what came back tells which |
| Cancellation.RefundShrinks | backend/services/booking/booking/cancellation.py:18-37 | cancelling later, or under a stricter policy, never gives more back |
| BookingInvariants.MoveKeepsCore | backend/services/booking/booking/repository.py:257-267 | any legal move keeps every row's status, deadline, money and reviews those of its trail, every trail line announced in order, and moves no booking back |
| BookingInvariants.InsertKeepsCore | backend/services/booking/booking/repository.py:247-255 | a new booking starts its trail and its announcements together |
| BookingOps.ApplyEventKeeps | backend/services/booking/booking/handlers.py:82-123 | a payment event, late or repeated, keeps the invariant and moves its booking only onward |
| BookingOps.PaymentRefusedKeeps | backend/services/booking/booking/routes.py:328-340 | a definite refusal by payments lets the window go and keeps the invariant |
| BookingOps.ActKeeps | backend/services/booking/booking/routes.py:353-436 | whatever a party does, with the extensions a cancellation ends, keeps the invariant |
| BookingOps.RateKeeps | backend/services/booking/booking/routes.py:504-530 | the renter's review, and the publication it may cause, keep the invariant |
| BookingOps.RateRenterKeeps | backend/services/booking/booking/routes.py:562-593 | the owner's review, and the publication it may cause, keep the invariant |
| BookingOps.CloseEachEffect | backend/services/booking/booking/jobs.py:19-36 | moving rows one after the other changes exactly those rows, each by its own rule, whatever the order |
| BookingOps.PublishEachKeeps | backend/services/booking/booking/jobs.py:37-47 | publishing the reviews whose window closed keeps the invariant, each review announced exactly once included |
| BookingOps.MakeOfferKeeps | backend/services/booking/booking/support.py:364-402 | an offer, replacing the one on the table, keeps the invariant |
| BookingOps.AcceptOfferKeeps | backend/services/booking/booking/support.py:405-445 | an agreement keeps the invariant: at most one settlement, for the other side's latest offer |
| BookingOps.OutcomesAreRefunds | backend/services/booking/booking/support.py:306-317 | `outcome_of` and `refund_for` undo each other on 0..amount |
| BookingOps.ResolveKeeps | backend/services/booking/booking/support.py:483-529 | a resolution, settled at once or left waiting, keeps the invariant: at most one done and one waiting per booking, four eyes above the limit |
| BookingOps.ApproveKeeps | backend/services/booking/booking/support.py:599-637 | an approval keeps the invariant, four eyes and one settlement included |
| BookingOps.DroppedKeeps | backend/services/booking/booking/support.py:640-690 | rejecting or withdrawing what waits keeps the invariant and moves no booking |
| BookingOps.EscalateEachEffect | backend/services/booking/booking/support.py:448-463 | escalation marks exactly the disputes it took and changes no booking |
| BookingOps.AfterKeeps | backend/services/booking/booking/routes.py:353-436 | every transaction of every kind keeps the whole invariant and moves every booking only onward |
| BookingSystem.StepKeeps | backend/services/booking/booking/routes.py:152-270 | each single step of any number of `create` requests, and any other transaction between their steps, keeps the invariant of tables and requests |
| BookingSystem.RunKeeps | backend/services/booking/booking/routes.py:152-270 | so does every run from empty tables |
| BookingSystem.RunGrows | backend/services/booking/booking/repository.py:257-267 | between any two moments of a run no booking disappears, and each one is further on |
| BookingLog.LogsOnlyGrow | backend/services/booking/booking/repository.py:247-267 | the trail and the outbox are only ever appended to |
| BookingHistory.NeverDoubleBooked | backend/services/booking/booking/routes.py:251-256 | in every interleaving no two bookings that hold their window of one listing overlap; the advisory lock, the check and the machine suffice |
| BookingHistory.BusyIsDisjoint | backend/services/booking/booking/repository.py:365-379 | the busy windows of a listing come one after the other and never overlap |
| BookingHistory.StatusIsHistory | backend/services/booking/booking/repository.py:247-267 | each trail is a connected walk of at most six lines along allowed edges, ending at the row's status |
| BookingOrder.HistoryIsInOrder | backend/services/booking/booking/handlers.py:125-148 | in every run each line of a booking is no earlier than the one before, but for its last, when the system ended it along with others |
| BookingOrder.WhenALineIsEarly | backend/services/booking/booking/handlers.py:125-148 | a transaction dates a line before the booking's last exactly if it ends that booking along with others (a removed listing, a suspension, a sweep, a cancelled parent) and read the clock before the booking last moved |
| BookingExamples.ADeclineBearsAnEarlierTime | backend/services/booking/booking/handlers.py:129-135 | it happens: a run in which a removal reads the clock, waits for a booking whose card is being held, and dates its decline before that |
| BookingHistory.MoneyIsHistory | backend/services/booking/booking/repository.py:74-90 | charged is the price exactly when the trail has an acceptance and the payment did not fail; what went back is the row's refund and fits in it |
| BookingHistory.HistoryOnlyGrows | backend/services/booking/booking/routes.py:380-398 | a refund is written once, with the final status, and stands; so do terms, final statuses, reviews and their publication |
| BookingHistory.AcceptedInTime | backend/services/booking/booking/handlers.py:34-36 | an owner only ever accepts before the booked time starts |
| BookingTiming.CheckedIsTimely | backend/services/booking/booking/routes.py:353-394 | each of a party's seven actions passes the checks only for the right side and inside its time |
| BookingTiming.EveryMoveIsTimely | backend/services/booking/booking/routes.py:353-394 | in every run every trail line was written by someone who may make that move, inside its time as the booked window sets it: people, payments, sweeps, cascades and staff alike |
| BookingDeadlines.WaitingShowsItsDeadline | backend/services/booking/booking/handlers.py:34-36 | in every run a booking that waits shows the deadline it was given: the payment timeout after it was made, then the answering time after the card was held, at the booked time at the latest |
| BookingDeadlines.OwnersHaveTheirTime | backend/services/booking/booking/routes.py:356-360 | and whatever moved it on kept to it: the sweep lapsed it no sooner, a party acted on it only before, whether the sweep had come or not |
| BookingDeadlines.CloseEachKeepsDue | backend/services/booking/booking/repository.py:494-504 | the sweep lapses only what is past its deadline, so it takes nobody's time away |
| BookingHistory.DisputeSettledOnce | backend/services/booking/booking/support.py:320-328 | at most one resolution is done and at most one waits per booking, and the done one is the booking's status, refund and outcome |
| BookingHistory.AgreedOnTheLatestOffer | backend/services/booking/booking/support.py:405-436 | an agreement is for what the other side last offered |
| BookingHistory.TwoPairsOfEyes | backend/services/booking/booking/support.py:499-516 | a refund above its author's limit was approved by someone else, a lead or one whose limit covers it |
| BookingOffers.OfferKeeps | backend/services/booking/booking/support.py:364-402 | making an offer puts the event and the standing offer in step, and addresses the other side |
| BookingOffers.OffersReachTheOtherSide | backend/services/booking/booking/support.py:364-402 | in every run every offer announced is one party's, of at most the price, told to the other; and the offer on the table is the last announced |
| BookingOffers.AgreementsAreAnnounced | backend/services/booking/booking/support.py:405-436 | what two parties agreed on is the offer last announced, made by the other one |
| BookingNotices.SettlementsAreToldOnce | backend/services/booking/booking/support.py:320-347 | in every run a booking whose dispute was settled has exactly one notice of it, with the ending and the amount its row shows, and no other booking has one |
| BookingNotices.EveryDecisionIsAudited | backend/services/booking/booking/support.py:483-690 | in every run the audit log has of each staff resolution exactly its author's line and that of whoever approved, rejected or withdrew it; of an agreement none |
| BookingHistory.ReviewsAreBlind | backend/services/booking/booking/repository.py:38-42 | until publication each side's view is independent of the other's review and shows their own |
| BookingHistory.ReviewsPublishedOnce | backend/services/booking/booking/repository.py:445-477 | each written review is announced once, exactly when the reviews are published, and that is when both are in or the window closed |
| BookingHistory.RatingEndsWhereSweepBegins | backend/services/booking/booking/routes.py:519-594 | the last review, whichever side's, can be written exactly until the sweep may publish without it, and writing it publishes both |
| BookingHistory.RepliesNameOneBooking | backend/services/booking/booking/routes.py:251-270 | one booking per requester and key, and every successful reply to the key names it |
| LateCopies.LateCopyEndsAtFirst | backend/services/booking/booking/routes.py:251-270 | in every run a copy whose key's booking was made while it was past its lookup never makes one of its own: it is refused or ends at the first |
| LateCopies.LateCheck | backend/services/booking/booking/routes.py:252-256 | its window check says "just taken" while the first booking holds the window, and by no other; once that let go, exactly if another holds some of it |
| LateCopies.TheNextPressMissesIt | web/src/domain/attempt.ts:1-31 | and the app takes that refusal for a definite one: the next press has a new key, never reaches the first booking under it, and is turned away while that holds the window |
| LateCopies.LateCopyFindsItsBooking | backend/services/booking/booking/routes.py:257-268 | past the check it is led to the booking its key made, or refused for its body |
| BookingExamples.LateCopyIsTurnedAway | backend/services/booking/booking/routes.py:251-268 | it happens: a run in which one ask is sent twice and the second copy is told its window was just taken |
| BookingHistory.WhatOwnersSee | backend/services/booking/booking/repository.py:162-174 | an owner sees exactly the bookings whose card was held, and those cancelled, declined or lapsed before anybody paid |
| BookingExamples.AnUnpaidBookingIsSeen | backend/services/booking/booking/repository.py:162-174 | the latter exist: a run in which a booking is cancelled while it awaits payment, and its owner sees it |
| BookingListing.OnceSeenAlwaysSeen | backend/services/booking/booking/repository.py:162-174 | in every run what an owner has once seen they never lose sight of |
| BookingListing.EveryBookingOnce | backend/services/booking/booking/repository.py:381-403 | following the cursors to the end while the service runs shows every booking listed at the first page exactly once, and none twice |
| BookingHistory.ExtensionsEndWithTheirParent | backend/services/booking/booking/routes.py:413-436 | a cancelled or missed booking ends the direct extensions it finds, the confirmed ones refunded in full, and changes no other booking; none is left if it finds them all |
| BookingHistory.RemovedListingDeclines | backend/services/booking/booking/handlers.py:125-135 | a removed listing declines exactly the unanswered requests for it that it finds, and none is left if it finds them all |
| BookingAnswers.WhoSeesIt | backend/services/booking/booking/repository.py:188-197 | a booking can be seen by exactly its renter, and its owner once the card was held or it ended unpaid |
| BookingAnswers.WhoMayAct | backend/services/booking/booking/routes.py:353-394 | each of the seven moves succeeds exactly from its statuses, for its side, in its time and before the deadline; else "not found" to those who cannot see it, "forbidden" to the wrong side, a conflict |
| BookingAnswers.WhatActsDo | backend/services/booking/booking/routes.py:395-412 | the row where the move leads, no deadline, one line and one event that say so, a dispute's row with its time; and no other booking touched but by a cancellation |
| BookingAnswers.WhatACancellationPaysBack | backend/services/booking/booking/routes.py:286-297 | a confirmed booking pays back all when the owner cancels or paid policies are off, else by its policy and how far ahead: all, nothing, or half; an unconfirmed one shows no refund |
| BookingAnswers.WhatAMissedMeetingPaysBack | backend/services/booking/booking/routes.py:383-394 | whoever did not come is recorded, and the renter has all back if that was the owner, nothing otherwise |
| BookingAnswers.WhatAHeldCardDoes | backend/services/booking/booking/handlers.py:82-100 | a held card confirms a booking of an instant listing at once, and makes any other a request to be answered in time, never past its start; bookings past payment stay |
| BookingAnswers.WhatAFailedPaymentDoes | backend/services/booking/booking/handlers.py:122-123 | a failed payment ends a booking that awaits it or was just confirmed, a refusal to start one only the former |
| BookingAnswers.SweepsFollowTheTable | backend/services/booking/booking/state.py:80-92 | the sweeps and handlers end rows from where and to what the system's part of the status table says |
| BookingAnswers.SuspensionDeclines | backend/services/booking/booking/handlers.py:137-148 | a suspension declines exactly the person's own unanswered requests that it finds, and none is left if it finds them all |
| BookingAnswers.WhoMayRate | backend/services/booking/booking/routes.py:504-521 | the renter's review is accepted exactly from the renter, once, of a completed booking, for 14 days |
| BookingAnswers.WhoMayRateTheRenter | backend/services/booking/booking/routes.py:562-586 | and the owner's exactly from the owner |
| BookingAnswers.WhatReviewsDo | backend/services/booking/booking/routes.py:522-530 | a review is kept as written, and the second of the two publishes both with their events |
| DisputeAnswers.WhoMayOffer | backend/services/booking/booking/support.py:364-383 | either side may offer at most the price while the dispute is open |
| DisputeAnswers.WhatAnOfferDoes | backend/services/booking/booking/support.py:384-402 | the offer replaces the one on the table, is put to the other side, and renews the time to answer |
| DisputeAnswers.WhoMayAgree | backend/services/booking/booking/support.py:405-426 | only the side that did not make the offer on the table may agree, and to that amount |
| DisputeAnswers.WhatAnAgreementDoes | backend/services/booking/booking/support.py:427-445 | the agreement is done, and the dispute ends for it: cancelled if all goes back, else completed, with that refund, one notice |
| DisputeAnswers.WhoMayResolve | backend/services/booking/booking/support.py:483-498 | staff may decide any open dispute that waits for no approval, a partial refund being more than nothing and less than all |
| DisputeAnswers.WhatAResolutionDoes | backend/services/booking/booking/support.py:499-529 | within its author's limit, and only then, it settles at once for what the outcome stands for; above it it waits and the booking stays |
| DisputeAnswers.WhoMayApprove | backend/services/booking/booking/support.py:588-619 | what waits is approved exactly by somebody else, a lead or one whose limit covers it, while the dispute is open |
| DisputeAnswers.WhatAnApprovalDoes | backend/services/booking/booking/support.py:618-637 | then it is done in their name too, and the dispute ends as proposed |
| DisputeAnswers.WhoMayDrop | backend/services/booking/booking/support.py:640-690 | what waits is rejected exactly by somebody else and withdrawn exactly by its author, and nothing but its row and the audit log changes |
| BookingEscalation.EscalatedNoSooner | backend/services/booking/booking/support.py:448-463 | in every run a dispute goes to staff once, still open, and no sooner than its time after the last offer, or the opening if there was none |
| CreationAnswers.WhatTheCheckAnswers | backend/services/booking/booking/repository.py:229-245 | a window is "just taken" exactly if a booking that holds it overlaps; windows that only touch do not |
| CreationAnswers.WhatAFirstLookupAnswers | backend/services/booking/booking/routes.py:181-186 | a key that made a booking finds it, or is refused for another body; a key that did not goes on |
| CreationAnswers.WhatALaterLookupAnswers | backend/services/booking/booking/routes.py:257-268 | after a failed insert the same, except that a key that made none was too late |
| CreationAnswers.WhatPaymentsAnswer | backend/services/booking/booking/routes.py:317-346 | no answer keeps the booking, a definite refusal lets go one that awaits payment and is passed on, else the booking is shown |
| CreationAnswers.WhatACommitWrites | backend/services/booking/booking/repository.py:247-255 | the row offered, unpaid, with its first line and event |
| CreationAnswers.BusyIsWhatIsTaken | backend/services/booking/booking/repository.py:365-379 | a window within a stretch of time is taken exactly if it overlaps one of the busy windows shown for it |
| BookingListing.WhoIsListed | backend/services/booking/booking/repository.py:381-394 | a person's list is exactly what they may see, and each side of it their side |
| BookingHistory.BothSeeBoth | backend/services/booking/booking/repository.py:38-42 | once published both sides see both reviews, and before it nothing of the other's |
| BookingService.Service.Move | backend/services/booking/booking/repository.py:257-263 | the row, one trail line and one event, together |
| BookingService.Service.PublishReviews | backend/services/booking/booking/repository.py:445-477 | once: the time, and the event of each review there is |
| BookingService.Service.ByKey | backend/services/booking/booking/repository.py:199-201 | the booking a requester made under a key, or that there is none |
| BookingService.Service.WithPayment | backend/services/booking/booking/routes.py:317-341 | an unpaid booking's payment started, not answered, or refused and its window let go |
| BookingService.Service.Create | backend/services/booking/booking/routes.py:152-270 | undisturbed, a request ends in exactly one of: the booking its key made, a refusal that changes nothing, or a new booking in a free window; and the invariant holds |
| BookingService.Service.OnAuthorised | backend/services/booking/booking/handlers.py:97-99 | a held card moves its booking to requested or straight to accepted, and keeps the invariant |
| BookingService.Service.OnPaymentFailed | backend/services/booking/booking/handlers.py:122-123 | a failed payment ends its booking, and keeps the invariant |
| BookingService.Service.OnListingRemoved | backend/services/booking/booking/handlers.py:125-135 | the loop declines every pending row of the listing, each once in the order read, and keeps the invariant |
| BookingService.Service.OnSuspended | backend/services/booking/booking/handlers.py:137-147 | the loop declines every pending row of the person, each once, and keeps the invariant |
| BookingService.Service.Look | backend/services/booking/booking/repository.py:188-197 | a booking is there for its two parties only, for the owner only once they may see it |
| BookingService.Service.Check | backend/services/booking/booking/routes.py:356-394 | the checks in the code's order and the row they lead to |
| BookingService.Service.EndExtensions | backend/services/booking/booking/routes.py:413-436 | the loop ends every direct extension still in flight |
| BookingService.Service.Transition | backend/services/booking/booking/routes.py:353-406 | a party's action commits exactly its effect or leaves the tables as they were, and keeps the invariant |
| BookingService.Service.Rate | backend/services/booking/booking/routes.py:517-530 | the renter's review, or why not, all or nothing |
| BookingService.Service.RateRenter | backend/services/booking/booking/routes.py:575-593 | the owner's review, or why not, all or nothing |
| BookingService.Service.Settle | backend/services/booking/booking/support.py:320-347 | the one place a dispute moves money: status, refund, event and notice |
| BookingService.Service.MakeOffer | backend/services/booking/booking/support.py:364-402 | an offer and its event, or why not |
| BookingService.Service.AcceptOffer | backend/services/booking/booking/support.py:405-445 | the resolution and the settlement, or neither |
| BookingService.Service.Resolve | backend/services/booking/booking/support.py:483-529 | the resolution, its settlement if within the limit, and the audit line, or nothing |
| BookingService.Service.Approve | backend/services/booking/booking/support.py:589-637 | the approval, the settlement and the audit line; rolled back together when the parties settled first |
| BookingService.Service.Reject | backend/services/booking/booking/support.py:640-665 | only someone else rejects, only what waits |
| BookingService.Service.Withdraw | backend/services/booking/booking/support.py:669-690 | only the author withdraws, only what waits |
| BookingService.Service.EscalateDue | backend/services/booking/booking/support.py:448-463 | one batch of the overdue disputes, each marked and announced |
| BookingService.Service.SweepRows | backend/services/booking/booking/jobs.py:23-36 | the batched loop ends, and everything that was due and not locked has moved, each row once |
| BookingService.Service.SweepReviews | backend/services/booking/booking/jobs.py:37-47 | the batched loop ends, and every review set that was due and not locked is out |
| BookingService.Service.SweepOnce | backend/services/booking/booking/jobs.py:19-53 | the four passes leave exactly the tables their orders say, keep the invariant, and leave nothing due that is not locked |
| BookingService.SweptRows | backend/services/booking/booking/jobs.py:23-50 | what a sweep makes of every row nobody holds, in full; and nothing overdue, ended or stuck is left |
| BookingService.LapsingLeavesTheRest | backend/services/booking/booking/jobs.py:23-36 | the lapsing pass neither makes nor undoes work of the later ones |
| BookingService.FinishingLeavesTheRest | backend/services/booking/booking/jobs.py:23-47 | nor does the completing pass; a booking it completes has no review yet |
| Pricing.MoneyIsConserved | backend/services/booking/booking/repository.py:74-90 | charged is refunded plus the owner's share plus a fee that is never negative; a full refund leaves no share, none leaves the quoted one |
| Pricing.AppAgreesWithServer | web/src/domain/pricing.ts:9-32 | on every reachable row the app reckons the same charged and refunded, and a share within one unit when the fee is 15% rounded half up |
| Pricing.WithinOne | web/src/domain/pricing.ts:30-31 | rounding the fee of the part kept, and taking the part kept of the quoted share, never differ by more than one |
| Delivery.StepIsSafe | backend/libs/cappy_common/cappy_common/events.py:250-316 | whatever relay, queue, consumer or crash comes next, no event is lost, none appears that was not committed, and no row is claimed twice |
| Delivery.Delivered | backend/libs/cappy_common/cappy_common/events.py:197-223 | in every run each committed event is, for each consumer due it, unsent, queued, dead-lettered, dropped by one of the two queues, or handled, and nothing else is handled |
| Delivery.StepHandlesOnce | backend/libs/cappy_common/cappy_common/events.py:393-409 | while nothing is received later than its marker is kept, no step commits a handler's writes twice |
| Delivery.HandledOnce | backend/libs/cappy_common/cappy_common/events.py:364-409 | the same over whole runs, crashes and redeliveries included |
| Delivery.PruningIsInvisible | backend/libs/cappy_common/cappy_common/events.py:338-342 | while nothing is received more than the dead-letter retention after its first handling, deleting old markers never allows a second effect |
| Delivery.LateReceiptDoubles | backend/libs/cappy_common/cappy_common/events.py:338-361 | without that promise it does: a message still queued when its marker is gone is handled again |
| Delivery.RoundsUseTries | backend/libs/cappy_common/cappy_common/events.py:268-307 | a round that sends rows or counts an attempt on an open one uses up a try, and only new events bring more |
| Delivery.RoundsAreBounded | backend/libs/cappy_common/cappy_common/events.py:268-316 | so between commits all replicas together end no more rounds, of whatever outcome, than the tries left times one more than the relays at once, and one for each of those |
| Delivery.PruneSentKeeps | backend/libs/cappy_common/cappy_common/events.py:345-361 | pruning the outbox never deletes a row still to be sent |
| Delivery.QuietMeansExactlyOnce | backend/libs/cappy_common/cappy_common/events.py:364-409 | once nothing is unsent, queued or dead-lettered, each event due to a consumer was handled there exactly once |
| EventBus.Replica.Add | backend/libs/cappy_common/cappy_common/events.py:202-223 | the event joins the outbox unsent, with its transaction |
| EventBus.Replica.Select | backend/libs/cappy_common/cappy_common/events.py:272-280 | the oldest rows with tries left that nobody holds, at most a hundred |
| EventBus.Replica.Publish | backend/libs/cappy_common/cappy_common/events.py:474-489 | chunks of ten in turn, up to the first the bus does not take whole |
| EventBus.Replica.Once | backend/libs/cappy_common/cappy_common/events.py:268-307 | a round marks what it claimed as sent, or counts one attempt on it; if it claimed anything it used up a try |
| EventBus.Replica.Flush | backend/libs/cappy_common/cappy_common/events.py:309-316 | rounds end; then every row it could claim is sent, or the one that raised counted an attempt |
| EventBus.Replica.Prune | backend/libs/cappy_common/cappy_common/events.py:345-361 | the batched loops delete exactly what is past retention; unsent rows stay |
| EventBus.Replica.PruneOutbox | backend/libs/cappy_common/cappy_common/events.py:355-361 | how many rows it deleted, batch by batch |
| EventBus.Replica.PruneProcessed | backend/libs/cappy_common/cappy_common/events.py:355-361 | how many markers it deleted, batch by batch |
| EventBus.Replica.Handle | backend/libs/cappy_common/cappy_common/events.py:377-409 | marker and writes together, or neither; a marked event is skipped |
| EventBus.Replica.Receive | backend/libs/cappy_common/cappy_common/events.py:515-533 | a message is deleted once handled or found to be, else left where it is |
| EndToEnd.StepKeeps | backend/libs/cappy_common/cappy_common/events.py:202-223 | whichever of the two moves next, the outbox the relays see is the one the transactions committed, nothing is lost and nothing handled twice |
| EndToEnd.NothingInvented | backend/libs/cappy_common/cappy_common/events.py:393-409 | at any moment a consumer has applied only changes the trail holds, none more often than there |
| EndToEnd.ExactlyTheTrail | backend/services/booking/booking/repository.py:257-264 | once the bus is quiet a consumer of status changes has applied exactly the trail, each line once |
| EndToEnd.EveryEventOnce | backend/libs/cappy_common/cappy_common/events.py:202-223 | once the bus is quiet a consumer has handled each event of a kind it hears of exactly as often as it was committed, and no other |
| EndToEnd.ReviewsArriveOnce | backend/services/booking/booking/repository.py:445-477 | so each published review was applied once, with what it says, and none that is not published |
| EndToEnd.SettlementsArriveOnce | backend/services/booking/booking/support.py:320-347 | each settled dispute was told once, as its row shows it, and nothing else was told |
| EndToEnd.AuditArrivesOnce | backend/services/catalog/catalog/moderation.py:624-647 | the audit log received exactly the lines of each resolution's author and decider |
| EndToEnd.FurthestHeardIsCurrent | backend/services/booking/booking/state.py:68-92 | and whatever order they came in, the status furthest along that it heard is the booking's own |
| AttemptKeys.Keys.KeyFor | web/src/domain/attempt.ts:13-18 | the history of keys goes on as it should: the open attempt's key for the same body, else a new one |
| AttemptKeys.Keys.Settle | web/src/domain/attempt.ts:20-22 | a success or a definite 4xx ends the attempt, anything else keeps it |
| AttemptKeys.OneBodyPerKey | web/src/domain/attempt.ts:1-9 | the app never sends one key with two bodies |
| AttemptKeys.KeyStaysIff | web/src/domain/attempt.ts:1-9 | of two keys in a row the second is the first exactly if the body is the same and nothing conclusive came between |
| IdempotentCreation.NeverMistaken | backend/services/booking/booking/routes.py:300-303 | however the network repeats or delays requests, no retry is refused as another request under a used key |
| IdempotentCreation.RetryMakesOneBooking | backend/services/booking/booking/routes.py:152-270 | copies of a call and of its retry after a lost answer or a 5xx make one booking, and every success names it |
| Idempotency.StepKeeps | backend/libs/cappy_common/cappy_common/idempotency.py:52-94 | each step of racing requests, and each deletion, keeps every row the answer of the last effect of its key |
| Idempotency.OncePerKey | backend/libs/cappy_common/cappy_common/idempotency.py:68-89 | between two effects of one key its row was deleted: over 24 hours after it was written, or with the account |
| Idempotency.SuccessesAgree | backend/libs/cappy_common/cappy_common/idempotency.py:52-65 | all successes of a key are the answer of one effect of that key and that very request, unless its row was deleted between |
| Idempotency.WhileItLives | backend/libs/cappy_common/cappy_common/idempotency.py:52-82 | while the first effect's row lives a copy gets its answer or a conflict, and another request under the key is refused |
| Idempotency.KeyTable.Remember | backend/libs/cappy_common/cappy_common/idempotency.py:68-82 | a second row for a key is a conflict; otherwise the answer is what a replay then gets |
| Idempotency.KeyTable.Expire | backend/libs/cappy_common/cappy_common/idempotency.py:85-89 | exactly the rows over a day old go, and how many |
| Idempotency.KeyTable.Forget | backend/libs/cappy_common/cappy_common/idempotency.py:92-94 | exactly a person's rows go |
| Pagination.NearestLimit | backend/libs/cappy_common/cappy_common/pagination.py:54-57 | a usable limit always, the nearest to the one asked for |
| Pagination.Page | backend/services/booking/booking/repository.py:394-403 | the newest rows past the cursor, newest first, and a cursor exactly when there are more |
| Pagination.NeverTwice | backend/services/booking/booking/repository.py:381-403 | all pages together run strictly downward |
| Pagination.EveryRowOnce | backend/services/booking/booking/repository.py:381-403 | a walk to the end shows every row that was there throughout exactly once and any other at most once, whatever changes between pages |
| Pagination.WalkIsBounded | backend/services/booking/booking/repository.py:381-403 | whatever happens to the table, a walk has no more pages than the rows there were at any of them can fill, and one |
| Pagination.WalkEnds | backend/services/booking/booking/repository.py:381-403 | while new rows come in above the cursor, no more than the rows at the start can fill, and one |
| Cursor.DecodeUndoesEncode | backend/libs/cappy_common/cappy_common/pagination.py:31-41 | decoding base64 gives back any bytes |
| Cursor.EncodesAsStandard | backend/libs/cappy_common/cappy_common/pagination.py:31-35 | the encoding is base64url: three bytes as four letters of its alphabet, bits in order, shorter ends padded |
| Cursor.StripThenPad | backend/libs/cappy_common/cappy_common/pagination.py:31-39 | the padding stripped from a cursor is exactly the padding put back |
| Cursor.CursorsComeBack | backend/libs/cappy_common/cappy_common/pagination.py:31-51 | a cursor we issued is read back as the place it stands for |
| RateLimit.RateHits.Count | backend/libs/cappy_common/cappy_common/guard.py:127-135 | refuses exactly when a log that forgets nothing would |
| RateLimit.RateHits.Prune | backend/libs/cappy_common/cappy_common/guard.py:56-64 | pruning hits older than two days leaves every key's window as the full log has it |
| RateLimit.NeverMoreThanTheLimit | backend/libs/cappy_common/cappy_common/guard.py:127-135 | no interval as long as the window ever holds more hits of a key than the limit |
| RateLimitRuns.WhenAHitFits | backend/libs/cappy_common/cappy_common/guard.py:127-135 | in every run the window of a hit keeps to the limit exactly if what it counted, what landed between its count and its insert, and what had been deleted before it could count it leave room for it |
| RateLimitRuns.WhatATallyAnswers | backend/libs/cappy_common/cappy_common/guard.py:127-135 | a request is let through exactly if the table has room for one more of its key since its window began |
| RateLimitRuns.NothingGone | backend/libs/cappy_common/cappy_common/guard.py:127-135 | nothing had been deleted so while no delete reaches into the window of a request in flight |
| RateLimitRuns.OverlapPassesTheLimit | backend/libs/cappy_common/cappy_common/guard.py:127-135 | and it need not: two at once with one hit left |
| RateLimitRuns.NoMoreThanInFlight | backend/libs/cappy_common/cappy_common/guard.py:127-135 | in every run in which no delete reaches into the window of a request in flight, no interval as long as the window holds more than the limit and the requests of its key in flight together, less one |
| RateLimitRuns.DeletesLetMoreIn | backend/libs/cappy_common/cappy_common/guard.py:127-135 | a run in which one does, and that bound fails: a limit of two, two in flight, four hits |
| RateLimitRuns.NeverFarBeyond | backend/libs/cappy_common/cappy_common/guard.py:56-64 | in every run whatsoever the limit is passed by less than twice those in flight together |
| Sessions.Register.Put | backend/libs/cappy_common/cappy_common/guard.py:67-73 | the second statement, whatever came since the first: what it writes, and that the register stays in order exactly if it loses no revocation |
| Sessions.Register.Revoke | backend/libs/cappy_common/cappy_common/guard.py:67-73 | undisturbed, the row becomes the later of itself and the event |
| Sessions.Register.Prune | backend/libs/cappy_common/cappy_common/guard.py:56-62 | exactly the revocations over 25 hours old go |
| Sessions.WhoIsLetIn | backend/libs/cappy_common/cappy_common/auth.py:165-178 | a token is accepted exactly if it is not half a minute past its end and no revocation of its person is later than its issue |
| Sessions.OrderDoesNotMatter | backend/libs/cappy_common/cappy_common/guard.py:67-73 | neither the order of events nor their repetition changes the latest revocation |
| Sessions.Register.PruningRevivesNobody | backend/libs/cappy_common/cappy_common/guard.py:48-52 | while the register is in order it accepts exactly the tokens of at most 24 hours, 30 seconds of leeway included, that a full one would |
| Sessions.WhenItOnlyMovesLater | backend/libs/cappy_common/cappy_common/guard.py:67-73 | a write leaves the row at the revocation or later and no earlier than it was, exactly if the row it read is still there and no later one was written since |
| Sessions.WhenARevocationIsLost | backend/libs/cappy_common/cappy_common/guard.py:56-73 | the register stays in order exactly if the write does not lose one: to housekeeping that took the row since it was read, or to a later one it overwrites |
| Sessions.NobodyIsRevived | backend/libs/cappy_common/cappy_common/guard.py:48-73 | in every run that loses none, with revocations and housekeeping overlapping, the register refuses exactly the tokens that all revocations ever recorded refuse |
| Sessions.OverlappingRevocationsReviveOne | backend/libs/cappy_common/cappy_common/guard.py:67-73 | a run in which one is overwritten by an earlier one, and an ended session lives on |
| Sessions.PruningBetweenRevivesOne | backend/libs/cappy_common/cappy_common/guard.py:56-73 | a run in which housekeeping takes the row between the two statements, and the session just ended lives on |
| Sessions.Revocations.NotBefore | backend/libs/cappy_common/cappy_common/guard.py:107-120 | the cached answer is what the register held less than half a minute ago |
| Sessions.RefusedWithinTtl | backend/libs/cappy_common/cappy_common/auth.py:170-178 | so half a minute after a revocation no replica accepts an older token |
| ConvexHull.PopBeyond | web/scripts/make-objects.py:112-113 | popping a point keeps what lies beyond it left of the new edge |
| ConvexHull.PopBetween | web/scripts/make-objects.py:112-113 | and what lies between its neighbours |
| ConvexHull.PushBehind | web/scripts/make-objects.py:111-114 | pushing after a left turn keeps what lies behind left of the new edge |
| ConvexHull.Half | web/scripts/make-objects.py:111-114 | one loop ends with a chain from first to last point, turning strictly left, with every point left of every edge |
| ConvexHull.Closed | web/scripts/make-objects.py:107-119 | the two halves join to a simple polygon, strictly left at every corner, round every point |
| ConvexHull.Hull | web/scripts/make-objects.py:107-119 | for points not on one line the convex polygon round them on points of the set; else their two ends, or nothing; it starts at the leftmost, lowest point |

## Left out

- Owner responsiveness and reliability: the figures and the events that carry
  them; `move` here writes the row, the trail line and the status event.
- What a row carries besides status, deadline, money and reviews: reasons, notes,
  hand-over addresses, snapshots, card fingerprints, and their redaction.
- The refusals of `create` that come before its transaction (paused, unpaid or
  daily limits, blocks, suspension, identity): one step that refuses.
- Late-return claims, evidence, messages and their masking, exports, staff lists.
- Postgres, SNS, SQS, Stripe and Cognito, except as tables, locks, queues and
  oracles; HTTP, tracing, settings, migrations, logging; the in-memory broker.
- Screens, drawing apart from `convex_hull`, the matching engine and its quotes.
- The clocks of replicas and of a browser drifting apart; the 0.5 to 1 jitter and
  the back-off of relays and consumers.
- EventBus.Replica.Flush: stated for one replica between whose rounds no other
  acts; other replicas acting at any point are the subject of `Delivery`.
- EventBus.Replica.Receive: a concurrent duplicate waits on the marker, so the
  method starts when no other handler of the event is at work.
- BookingService.Service.SweepOnce: takes one reading of the clock for the pass,
  where the code reads it for every batch, and other transactions only by the rows
  they hold.
- BookingService.Service.OnListingRemoved: takes one moment for its reading of the clock
  and its rows; apart they are the `read` of a step of `BookingSystem`.
- BookingService.Service.EscalateDue: one batch a sweep, as in the code, so more
  overdue disputes than a batch holds wait for the next sweep.
- Sessions.Register.Revoke: its two statements one after the other; apart they are
  `Select` and `Put`, and the runs of `NobodyIsRevived`.
- Sessions.Register.PruningRevivesNobody: of a register in order; which overlaps put
  it out of order is what `WhenARevocationIsLost` says.
- RateLimit.RateHits.Count: its statements one after the other; apart they are the
  runs of `RateLimitRuns`. The window of a key is the same at every call and at most
  two days.
- Cursor.CursorsComeBack: the JSON inside a cursor is a rendering and a parser that
  undoes it; which other texts that parser takes is not stated.
- ConvexHull.Hull: on whole hundredths, so not how rounding or floating point may
  bend a corner.
- Pricing.AppAgreesWithServer: for quotes whose fee is 15% of the total rounded half
  up, as matching makes them; other fees were never quoted.
- A resolution left waiting after the parties settled stays so: approving it fails
  and rolls back, and nothing here says it is ever closed.
- A cancelled parent may still have live extensions of its extensions, or live ones
  when it was cancelled by a settlement: the cascade reaches direct ones of a
  cancellation or no-show only, and no more is stated.
