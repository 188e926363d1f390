# Skylock: verified model of seats, bookings, payments and sessions

This project models the seat-inventory and booking service under `app/` and proves what its
design promises: no seat is sold twice, no charge is silently kept, a retry never books twice,
the sweep is invisible to anybody who succeeds, and the small protocols around the core
(idempotency keys, refresh-token families, sliding windows, login lockout) do what their
comments say over every run. Where the code does less than promised, the exact condition is
proved together with the states in which it fails.

`dafny verify dfyconfig.toml` checks everything.

## How it is built

- **Rows and statements** (`Domain`, `Inventory`, `Money`, `Store`, `Gateway`): the tables, what
  each SQL statement or ORM loop writes, and what each committed transaction does to them.
- **The machine** (`Machine`): every transaction and every gateway call is one step of `Next`.
  Any number of users, sagas and cancels interleave in any order, the clock ticks between steps,
  and a saga that takes no further step has crashed. `acquire_hold` is two steps (the count and
  the conditional UPDATE), a saga is up to nine, a cancel is two (gateway, then commit).
- **The joint invariant** (`Safety`, `Shapes`, `Steps`, `Runs`): one invariant over seats,
  bookings, sagas, tickets and cancels. Each of the eighteen steps has one of six effects
  (idle, move, shuffle, close, sell, open) and each effect keeps the invariant.
- **What follows from it**: `Oversell`, `StepOne`, `Isolation`, `Settlement`, `Failures`,
  `Witnesses`, `Stranded`, `Journal`, `Trail`, `Paths`, `Revenue`, `Amounts`, `PaymentRows`, `Expiry`,
  `SweepTwin`, `SweepAnswers`, `Holds`, `Racers`, `SeatRows`, `Seating`.
- **The code as objects** (`Service`, `Coroutine`, and the classes in `Gateway`, `Idempotency`,
  `Tokens`, `Windows`, `Outcomes`, `Lockout`): the methods with their loops, early returns and
  rollbacks, each proved to leave exactly the state that its specification names. `Coroutine.Run`
  is the saga from step 1 to the answer over the table object and the gateway object; it is
  proved to take a schedule of the machine's own steps.
- **The claim table joined to it** (`Joint`, `Admission`): calls, claims, sagas and both clocks in one
  machine.
- **Protocols of their own**: `LockOrder`, `Idempotency`, `Recorders`, `Tokens`, `Windows`,
  `Outcomes`, `Lockout`.

A row's id is its index in its table, so scanning upwards is `ORDER BY id`. Hold ids come from a
counter, which stands for fresh UUIDs. Prices are whole cents.

## What is assumed

- A locked re-read sees the current committed row. `app/services/booking_saga.py:456-473` means
  to; the session in `app/db.py:34` keeps loaded objects after a commit and the select does not
  ask to refresh them, so this rests on the driver and is not proved here.
- There is one clock, and each step reads it once. (`record_outcome` reads it for the member and
  again for the score.)
- The unlocked select-and-write of `_fail_payment` is atomic; cancels of one booking follow one
  another (the booking row is not locked); `login` and `rotate_refresh_token` are atomic per row.
- `cancel` calls the gateway while it holds row locks. The model holds no locks between a cancel's two
  steps, so more interleavings are covered than the code allows.
- UUIDs are fresh and request digests are injective.
- The fraud verdict, the gateway's answer, the ticketing system's answer and the outcome of a void
  or refund are free choices of the environment.

## Where the code and its documentation differ

- The comment at `app/services/booking_saga.py:213-215` says that the sweep recovers the seats of a
  crashed saga. The sweep skips every seat that carries a `booking_id` (`app/jobs/sweep.py:39`). Such a
  seat leaves its booking in exactly three ways: somebody acquires it after its hold ran out, that very
  hold is released, or its holder opens another booking on it while the hold lives (`Stranded`).
- Cancelling is admitted from TICKETED (`app/api/bookings.py:277`) but the transition table has no
  such arrow. The refund is sent and the transaction then aborts (`Failures`, `Coroutine.CancelBooking`).
- A refused cancel refund moves CONFIRMED to NEEDS_MANUAL_REVIEW without a check, outside the
  transition table, with the seats still sold (`Journal` names this edge). Its saga may confirm over it.
- `TERMINAL_BOOKING_STATES` (`app/domain/enums.py:31-39`) lists CONFIRMED and NEEDS_MANUAL_REVIEW, which are
  left; four arrows of the table are taken by nobody (`Paths`).
- The burst detector reads back outcomes whose order is lost within a millisecond: `Outcomes` says
  exactly when its count is still the run of declines (`app/security/carding.py:359-369`).
- Compensation has a branch that refunds a captured payment (`app/services/booking_saga.py:618-625`); no run takes
  it (`PaymentRows`).
- The retention of an idempotency key counts from the start of the request, not from its end.

## Model

| member | source | states |
|---|---|---|
| Runs.StepIsSafe | app/services/booking_saga.py:157-772 | every transaction and gateway call, in any interleaving and with crashes anywhere, keeps the joint invariant over seats, tickets, bookings and sagas |
| Runs.RunIsSafe | app/services/booking_saga.py:157-772 | so does every run, from any state where the invariant holds |
| Runs.ReachableIsSafe | app/domain/models.py:199-266 | every state reachable from a freshly seeded inventory satisfies it |
| Oversell.NoOversell | app/services/booking_saga.py:475-552 | in every reachable state a seat is BOOKED iff a live ticket names it; then exactly one does, its booking is the seat's `booking_id`, and that booking is TICKETED, CONFIRMED or NEEDS_MANUAL_REVIEW |
| Oversell.NeverAboveCapacity | app/domain/models.py:394-405 | per flight, live tickets and sold seats are equally many and never exceed its seats |
| Oversell.AllOrNothing | app/services/booking_saga.py:494-541 | a booking has either every seat and exactly one live ticket per passenger, each for that passenger's own seat, or none at all; which of the two is decided by whether its saga issued and it is not cancelled |
| Oversell.NothingHitsTheSchema | app/domain/models.py:254-303 | in no reachable state is a seat held without holder or expiry, sold without booking, a booking's total negative, or a seat or passenger ticketed twice; and no saga ever dies of an illegal transition or an unanswered retry |
| Oversell.RecheckIsSufficient | app/services/booking_saga.py:475-492 | the re-check passes iff the row is, column for column, the one step 1 left: same hold, same version, still HELD, although none of these is looked at |
| StepOne.LengthDecidesOwnership | app/services/booking_saga.py:171-175 | comparing the two lengths decides exactly whether every requested hold is the caller's |
| StepOne.StepOneDecides | app/services/booking_saga.py:171-196 | which requests open a booking, which get 404 and which get 409 for an expired hold, each as an iff over the holds' ownership, liveness and flight |
| SeatRows.OpensIffAccepted | app/schemas/bookings.py:48-58 | from every safe state a request opens a booking iff it names one to six holds, none twice, as many as passengers, each the caller's own and live, all on one flight |
| StepOne.FailedPaymentKeepsTheHolds | app/services/booking_saga.py:555-580 | after a block or decline every hold is intact and unpinned, so step 1 accepts exactly the retries it would have accepted before |
| Steps.StepOneSeats | app/services/booking_saga.py:199-235 | the seats given to passengers are distinct, are the caller's own live holds on the booking's flight, are ordered by row and letter, and their prices sum to the total |
| Steps.StepEffect | app/services/booking_saga.py:157-772 | each step has one of six effects on the tables, whatever branch it takes |
| Inventory.MatchedIsExact | app/services/booking_saga.py:82-102 | the locked rows are exactly the caller's rows among the holds, each once, in ascending id |
| Inventory.SortByPlaceKeeps | app/services/booking_saga.py:216 | seating by place loses and doubles nobody |
| Inventory.SortByPlaceSorts | app/services/booking_saga.py:216 | passengers are seated in row and letter order |
| Seating.EverybodySitsInOrder | app/services/booking_saga.py:216-235 | in every reachable state each booking has one to six seats, every one strictly before the next in the cabin, and no continuation changes its seats, user, flight, total or key |
| Isolation.SagasAreIsolated | app/services/booking_saga.py:555-686 | charging, failing, compensating, confirming or cancelling a booking changes no seat, ticket, payment or state of any other booking, even one of the same user on the same hold |
| Isolation.LostStaysLost | app/services/booking_saga.py:475-503 | a seat that stopped pointing at an unticketed booking never points at it again |
| Isolation.LostNeverIssues | app/services/booking_saga.py:400-421 | such a booking issues no ticket in any continuation |
| Isolation.OneSagaPerHold | app/services/booking_saga.py:171-235 | of all sagas that ever pinned one hold, at most one issues tickets |
| Failures.SoundIffCareful | app/services/booking_saga.py:293-308 | from a balanced state a step is careful iff the money rule holds after it and in every careful continuation; careful means: a key is reused only if its charge was declined or every booking under it has given up, and a refund goes through only for a booking that is not TICKETED |
| Failures.RunSoundIffCareful | app/services/booking_saga.py:157-772 | over every run: each step was careful iff the money rule holds at every moment and in every careful continuation of it |
| Failures.ReuseBreaks | app/services/booking_saga.py:295 | whoever opens a booking under any other key, wherever the older booking stands, can end with one charge both captured and voided |
| Failures.EarlyRefundBreaks | app/services/booking_saga.py:726-752 | a refund accepted while the booking is TICKETED, before or after its capture, can end with a confirmed booking and the money back |
| Failures.RetryAfterFailureIsSound | app/services/booking_saga.py:346-377 | a retry under a key whose bookings all failed their payment puts no money at risk |
| Witnesses.ReachReuse | app/services/booking_saga.py:293-308 | a careful run reaches a state in which such a key can be used again, after which the money rule can be broken |
| Settlement.CarefulRunSettles | app/services/booking_saga.py:310-436 | over every careful run the tuple of control point, booking state, payment state and gateway record stays in one fixed table, and of two bookings under one key at most one can still act on the charge |
| Settlement.NoMoneyKept | app/services/booking_saga.py:583-686 | after every careful run, key reuse included: every approved charge is voided or refunded or belongs to a booking whose state still owes an outcome; nothing is both captured and voided; no confirmed booking has its captured charge refunded with no cancel under way; and one charge pays for one ticketed booking |
| Settlement.NeverBookedTwice | app/services/idempotency.py:1-19 | after every careful run, of two bookings under one key at most one has issued tickets |
| Settlement.OutcomesAreHonest | app/services/booking_saga.py:726-765 | what each final booking state says about the money is what its payment row and the gateway hold |
| Settlement.OwnKeyOutcomesAreHonest | app/services/booking_saga.py:555-580 | if nobody else used the key, a failed payment was never charged and a charge given up for review is neither captured nor reversed |
| Failures.EarlyCancelKeepsSeatAndMoney | app/services/booking_saga.py:726-752 | from every balanced state with a TICKETED booking, a cancel whose refund goes through leads on to every seat and ticket kept, the charge captured, and the money back |
| Witnesses.ReachTicketed | app/services/booking_saga.py:530-552 | such a state is reached by a careful run |
| Admission.NeverBooksTwice | app/api/bookings.py:113-181 | claims, sagas, holds, cancels and crashes in one machine, any users and any releases: if a claim is granted only over a harmless key under which nobody waits to open, then under one key at most one booking ever issues tickets, every opening is under a harmless key, and the money rule holds throughout |
| Admission.BeginIsHarmlessIff | app/services/idempotency.py:55-96 | after a begin every call that may open has a harmless key iff the claim, if granted, was granted over one |
| Admission.BeginIsAloneIff | app/services/idempotency.py:55-96 | and no two of them share a key iff nobody waited under the key just granted |
| Admission.TwoWaitingClash | app/services/idempotency.py:75-96 | of two calls that wait under one key, the first to open leaves the other with a key that is not harmless |
| Admission.DisciplinedRunIsAdmitted | app/services/idempotency.py:75-96 | one user per key and claims that stand while a charge may move are enough for every grant to be so |
| Joint.ClaimsKeepTheMoneyRule | app/api/bookings.py:113-181 | under that discipline every call that may open a booking does so under a harmless key and the money rule holds |
| Joint.MoveKeepsSound | app/services/idempotency.py:55-151 | every disciplined move keeps the claims guarding exactly the keys whose charges may still move |
| Journal.RecordTells | app/services/audit.py:34-52 | one `record` extends exactly one booking's log, by one row with the next number |
| Trail.NextSpeaks | app/services/audit.py:23-52 | which events every step writes to its booking's log, in which order, one HOLD_LOST for each seat still ours past its hold, and none to any other booking's |
| Paths.LogsFollowThePath | app/services/booking_saga.py:157-772 | in every reachable state the events of a booking's log spell a path of one fixed automaton that ends where its saga and its state stand |
| Paths.StatesMoveAlong | app/domain/enums.py:43-55 | from every safe state every step moves a booking along one of eight arrows of the transition table or along three moves that the table does not have: a refused cancel refund, and a saga that confirms over one |
| Paths.TableOfArrows | app/domain/enums.py:43-55 | the table is those eight and four more, which no step takes |
| Paths.FinalIsFinal | app/domain/enums.py:31-39 | PAYMENT_FAILED, VOIDED and CANCELLED are never left, over any run |
| Journal.StepKeepsJournal | app/services/booking_saga.py:603-686 | every step keeps every log replayable, and keeps it on the transition table's arrows iff it does not flag an early cancel |
| Journal.LegalIffNoEarlyFlag | app/services/booking_saga.py:736-746 | over whole runs, every log follows the table at every moment iff no cancel that began in TICKETED is flagged |
| Witnesses.ReachLeavingPath | app/services/booking_saga.py:736-746 | a careful run, every log legal so far, reaches a state in which flagging writes an illegal row |
| Journal.LogIsAJournal | app/services/audit.py:23-52 | in every reachable state each booking's numbers are 1 to n and folding its rows gives its committed state |
| Journal.PathsAreLegal | app/domain/enums.py:43-55 | along runs without that step every log follows the table, save the one edge from CONFIRMED to NEEDS_MANUAL_REVIEW |
| Recorders.CommittedNumbersAreGapless | app/services/audit.py:34-52 | with any number of concurrent recorders, some aborting, the committed numbers are 1 to n without gap or repeat |
| Recorders.StepKeeps | app/domain/models.py:461-465 | at most one transaction has uncommitted numbers, and they continue the committed ones |
| Recorders.BlockerIsFree | app/domain/models.py:461-465 | a recorder waits for one transaction that itself waits for nobody |
| Recorders.StaleNumbersAbort | app/services/audit.py:34-52 | a recorder whose number was committed meanwhile aborts at once and changes no committed row |
| Recorders.NothingRecordedIsLost | app/services/audit.py:34-52 | over every run the committed rows are as many as the committed transactions recorded: a commit loses none and an abort leaves none |
| Recorders.UndisturbedRecords | app/services/audit.py:34-52 | a recorder whom nobody disturbs commits its rows and the next number |
| Revenue.RevenueIsConserved | app/services/booking_saga.py:199 | per flight, the prices of sold seats sum to the totals of the bookings that own live tickets |
| Amounts.ChargedWhatTheSeatsCost | app/services/booking_saga.py:293-308 | in every reachable state a payment asks for its booking's total, which is what its seats cost, under the booking's key plus `:auth`; and in every continuation the row still does |
| Amounts.StepKeepsCharges | app/services/booking_saga.py:293-436 | no step of any kind changes the amount or the key of a payment, or lets one in that is not so |
| Amounts.SoldForWhatWasTaken | app/services/booking_saga.py:310-436 | after every careful run, per flight, the prices of the sold seats are the amounts of the captured payments plus those of approved payments whose tickets are out |
| PaymentRows.PaymentRowFollowsSaga | app/services/booking_saga.py:310-436 | in every reachable state, key reuse and early refunds included, a payment row's state is the one its saga's control point and its booking's state call for; a compensation never finds a captured payment |
| Money.CentsIsNearest | app/domain/money.py:8-10 | rounding gives a nearest cent, ties away from zero, symmetric in sign |
| Money.TotalIsExact | app/domain/money.py:13-14 | on prices of whole cents the rounded sum is the exact sum |
| Store.TotalIsSum | app/services/booking_saga.py:199 | a booking's total is the sum of its seats' prices |
| SweepTwin.SweepsAreUnobservable | app/jobs/sweep.py:29-54 | deleting every sweep from any run leaves a state equal in everything but expired unpinned holds and row versions |
| SweepTwin.SweepsAnywhere | app/jobs/sweep.py:31-50 | two runs that differ only in their sweeps agree on bookings, payments, tickets, log, gateway, takeable seats, live holds, the cap and the next successes |
| Expiry.SweepFreesTheOverdue | app/jobs/sweep.py:29-54 | from every safe state a sweep puts on sale exactly the rows held past their expiry that no booking has pinned, and changes no other; no such row is left |
| SweepTwin.StepTwins | app/services/holds.py:34-46 | any other step taken in two such states leads to two such states |
| SweepTwin.TwinsAnswerAlike | app/services/holds.py:34-69 | two such states agree on every successful answer |
| SweepAnswers.SweepTurnsExpiredIntoNotFound | app/services/booking_saga.py:173-190 | step 1 answers differently after a sweep iff every hold is the caller's own and the sweep took one of them; then 409 has become 404 |
| SweepAnswers.SweepTurnsReleasedIntoNotFound | app/services/holds.py:132-156 | releasing a hold answers differently after a sweep iff the sweep took that very hold; then it is no longer found |
| Stranded.PinnedLeavesOnlySo | app/jobs/sweep.py:31-50 | for every state and every step not of its own saga or cancel, a held pinned seat changes iff an acquire wins it after expiry, its own hold is released, or its holder books it again; a sweep never changes it |
| Stranded.StrandedUntilTaken | app/services/booking_saga.py:213-215 | over every run without its saga, however many sweeps, the seat stays as it is at every moment iff nobody takes it in one of those ways |
| Stranded.SweepsNeverRecover | app/jobs/sweep.py:31-50 | sweeps and time alone leave it pinned for ever |
| Witnesses.ReachStranded | app/services/booking_saga.py:213-215 | a careful run reaches such a seat, its hold expired, that the sweep passes by and anybody may take |
| Holds.EveryWrite | app/services/holds.py:92-192 | the complete list of what any step may do to a seat row, and when it takes the row over |
| SeatRows.NextRow | app/services/holds.py:92-192 | what every step of every kind leaves in every row of the contended table, as one table of columns: which rows it changes and to what, and that it changes no other |
| SeatRows.VersionCountsWrites | app/domain/models.py:239-241 | over every run a row's version grows by the number of changes to the row, so that an unchanged version means an unchanged row |
| Holds.HoldsStartOnFreeSeats | app/services/holds.py:92-110 | a hold starts only on a free or expired seat, never on a sold one, under a fresh id, and its holder and expiry then stand still |
| Holds.GoneForGood | app/services/holds.py:132-156 | a hold id taken off a seat never returns |
| Holds.HoldIntervalsNeverOverlap | app/services/holds.py:92-129 | the moments at which a hold is live form one unbroken interval, so those of two holds on a seat are disjoint |
| Holds.ExactlyOneWins | app/services/holds.py:92-110 | of any number of acquires that race for a free seat within one hold's time, exactly one gets it unless somebody hands it back |
| Holds.AtMostOneWins | app/services/holds.py:92-110 | from every state of the seat, an expired hold still pinned by a booking included, at most one of them gets it unless somebody hands it back; and if it could be taken, one does, or it is sold first, or nobody tries |
| Holds.HoldCap | app/services/holds.py:83-110 | with at most k acquires of a user between count and UPDATE, live holds plus those in flight never exceed the cap plus k - 1 |
| Holds.HoldCapFromStart | app/services/holds.py:57-69 | hence, from a seeded inventory, the cap itself when calls are serial |
| Racers.RacersReachTheBound | app/services/holds.py:83-110 | for every cap and every k a run with at most k acquires in flight reaches cap + k - 1 live holds |
| Racers.CapHoldsIffSerial | app/services/holds.py:83-110 | the cap is kept in all runs iff a user's acquires are serial |
| Gateway.AnsweredOnce | app/services/payments/fake.py:55-84 | over any history of calls an answered key keeps its answer and reference without a second charge, and a key that timed out is answered next time |
| Gateway.HistoryMintsOnce | app/services/payments/fake.py:55-84 | over any history no two keys share a reference |
| Gateway.HistoryTellsLedger | app/services/payments/fake.py:44-99 | after every history of calls, a key is charged iff a call under it was answered, with the verdict of the card of the first such call and a reference of its own; and exactly the references named in capture, void and refund calls are captured, voided and refunded |
| Gateway.FakePaymentGateway.Authorize | app/services/payments/fake.py:44-84 | the new gateway state and reply, including the dedupe and the timeout that happens once per key |
| Gateway.FakePaymentGateway.Refund | app/services/payments/fake.py:95-99 | refunds unless the reference is armed to fail; a refused refund changes nothing |
| Service.Database.Record | app/services/audit.py:23-52 | the loop for max plus one appends the row that the log's specification names |
| Service.Database.CountActiveHolds | app/services/holds.py:57-69 | returns how many rows the user holds that have not run out |
| Service.Database.TakeSeat | app/services/holds.py:92-110 | writes the takeable row at that place and no other, and returns how many matched |
| Service.Database.AcquireHold | app/services/holds.py:72-129 | refused iff the user's live holds are at the cap; otherwise acquired iff the seat is on sale or held past its expiry, 404 iff no such seat exists; a refusal leaves every row as it was |
| Service.Database.ReleaseHold | app/services/holds.py:132-156 | lets go exactly the matching row and reports whether there was one |
| Service.Database.ReleaseSeatsForBooking | app/services/holds.py:159-192 | voids the booking's tickets and returns its seats together, and returns the number of seats |
| Service.Database.SweepExpiredHolds | app/jobs/sweep.py:29-54 | puts exactly the overdue unpinned rows back on sale, column by column, and returns how many they are |
| Service.Database.LockSeatsForHolds | app/services/booking_saga.py:82-102 | returns the matching rows in ascending id |
| Service.Database.CreateBooking | app/services/booking_saga.py:171-259 | step 1 with its loops: the new tables, or the error and no change |
| Service.Database.FailPayment | app/services/booking_saga.py:555-580 | moves to PAYMENT_FAILED and unpins every seat of the booking, or changes nothing |
| Service.Database.RecordApproval | app/services/booking_saga.py:379-395 | records the charge and the state together or not at all |
| Service.Database.RecordDecline | app/services/booking_saga.py:347-377 | records the decline and the failure together or not at all |
| Service.Database.Reverify | app/services/booking_saga.py:475-500 | the loop finds nothing lost iff every row is still ours, and logs each reclaimed hold |
| Service.Database.IssueTickets | app/services/booking_saga.py:447-552 | sells and tickets every seat, or refuses with the log rows that go into compensation, or rolls everything back |
| Service.Database.CompensationDone | app/services/booking_saga.py:615-686 | payment, tickets, seats, log and state change together or not at all |
| Service.Database.CompensationFailed | app/services/booking_saga.py:636-658 | flags the booking and still returns its seats |
| Service.Database.Confirm | app/services/booking_saga.py:423-436 | captures the payment row and confirms, or rolls back |
| Service.Database.Cancel | app/services/booking_saga.py:726-765 | cancels, flags, or rolls back with every row as it was |
| Coroutine.AuthorizeCharge | app/services/booking_saga.py:293-337 | payment row, authorize and the one retry take a schedule of machine steps that always ends answered, with the answer the key or the card dictates |
| Coroutine.Compensate | app/services/booking_saga.py:583-686 | reversal and its aftermath take machine steps and end VOIDED or NEEDS_MANUAL_REVIEW |
| Coroutine.TicketAndConfirm | app/services/booking_saga.py:397-439 | compensates iff ticketing refuses or a seat was lost, otherwise confirms |
| Coroutine.Run | app/services/booking_saga.py:157-439 | the whole saga over the objects takes a run of the machine, gives exactly the answer that the request, the gateway and the ticketing system determine however long payment takes, leaves the booking in the state it reports, and has no effect at all if step 1 refuses |
| Coroutine.CancelBooking | app/services/booking_saga.py:694-772 | which cancels are refused, done, flagged or aborted; an aborted one has refunded and changed no row |
| LockOrder.NeverDeadlocked | app/services/booking_saga.py:93-102 | transactions that lock in ascending id never wait in a cycle of any length |
| LockOrder.SomebodyCanStep | app/services/booking_saga.py:462-472 | while one is unfinished, one can go on |
| LockOrder.EveryScheduleTerminates | app/services/booking_saga.py:93-102 | every schedule is bounded by the locks and commits left, keeps locks exclusive, and has finished everyone when nobody can go on |
| LockOrder.SomeScheduleFinishes | app/services/booking_saga.py:93-102 | from anywhere a schedule finishes everyone |
| LockOrder.LocksWhatItCovers | app/services/booking_saga.py:82-102 | each lock statement locks exactly the rows it is about, each once, in ascending id |
| LockOrder.SagasNeverDeadlock | app/services/booking_saga.py:719-724 | all of this for any mixture of step 1, step 4 and cancel lock statements |
| LockOrder.UnorderedLocksDeadlock | app/services/booking_saga.py:85-92 | without the order two transactions reach a state where neither can go on |
| Idempotency.AtMostOneInFlight | app/services/idempotency.py:55-117 | if the runs under a key end while their claims last, no two calls ever run under it at once |
| Idempotency.OneInFlightIffNoOverrun | app/services/idempotency.py:75-96 | over every run, at most one call runs under a key at every moment iff no retry begins while a run has outlived its claim |
| Idempotency.SingleIffNoOverrun | app/services/idempotency.py:75-96 | the same for one step, which also keeps the runner the owner of the row |
| Idempotency.OverrunIsReachable | app/services/idempotency.py:89 | for any TTL such a retry can happen |
| Idempotency.CompleteRecords | app/services/idempotency.py:120-138 | completing leaves the response on the key with nobody running |
| Idempotency.ReplaysExactly | app/services/idempotency.py:98-117 | until expiry every later call under the key runs nothing and gets that status and body, or 422 for another body |
| Idempotency.LookAnswers | app/services/idempotency.py:98-117 | and it gets it at its next step |
| Idempotency.LookWhileRunning | app/services/idempotency.py:98-117 | a call that meets one still running is told 409 for the running call's own body and 422 for any other, and disturbs nothing |
| Idempotency.RetriesAreToldToWait | app/services/idempotency.py:98-117 | so it is at every moment of every run without an overrun |
| Idempotency.AnswersAreEarned | app/services/idempotency.py:98-117 | over every run, overruns included: 422 is told only if a call with another body ran under the key; a replay only if one with this body ran under it, and only of a response that a call under it recorded |
| Idempotency.RunsOncePerLifetime | app/api/bookings.py:113-181 | within one TTL of a free key the saga runs once, plus once per release after an unknown failure |
| Idempotency.KeyTable.Begin | app/services/idempotency.py:55-117 | owns the claim iff no row stands or the one that stands has expired; otherwise 422 for another digest, the recorded response if it has a status, and else 409, and changes nothing |
| Idempotency.KeyTable.Complete | app/services/idempotency.py:120-138 | sets the response of an existing row only |
| Idempotency.KeyTable.CreateBooking | app/api/bookings.py:113-181 | the saga runs iff the key is free; who does not run is told one of those three by the row's columns; a known outcome is recorded, an unknown one frees the key |
| Tokens.StepKeepsFamilies | app/security/tokens.py:111-193 | login, rotation, replay and logout keep every family one parent chain whose tokens but the last are used, revoked as a whole or not at all |
| Tokens.OneUsableToken | app/security/tokens.py:79-108 | over every run a family has at most one unused token, one owner and one revocation |
| Tokens.FamilyIsAChain | app/security/tokens.py:179-182 | from any token the parents lead to every earlier token of its family |
| Tokens.RotatesAtMostOnce | app/security/tokens.py:111-193 | over every run each token is exchanged at most once, and never once used |
| Tokens.NoneRotatesAfterwards | app/api/auth.py:174-187 | after a replay of a used token or a logout, no token of the family, old or new, rotates in any continuation |
| Tokens.ReplayIsDetected | app/security/tokens.py:138-166 | replaying a used token is detected iff its family was still alive, and leaves it dead |
| Tokens.AnswersFollowHistory | app/security/tokens.py:111-193 | over every run from an empty table the answer to every call is a function of the earlier calls and answers: a token is exchanged iff it was given out, its login was not ended, it was not exchanged before, less than its life has passed since the call that gave it, and the user is active; otherwise the first of these that fails is the reason |
| Tokens.RunTold | app/domain/models.py:72-97 | and the parent, user, expiry, use and revocation of every row are what those calls and answers say, the reason included |
| Tokens.TokenTable.IssueRefreshToken | app/security/tokens.py:79-99 | appends one row, in the given family or a new one |
| Tokens.TokenTable.RevokeFamily | app/security/tokens.py:102-108 | revokes exactly the family's live rows and counts whether there were any |
| Tokens.TokenTable.RotateRefreshToken | app/security/tokens.py:111-193 | the table's calls and answers so far decide the outcome; the rows it leaves are those of the step |
| Tokens.TokenTable.Logout | app/api/auth.py:174-187 | revokes the family of a known token, otherwise nothing |
| Windows.WindowRefinesHistory | app/security/carding.py:116-149 | for every nondecreasing history, trimming and key expiry leave exactly the members whose latest touch is in the window of the whole history |
| Windows.StoredIsRecent | app/security/carding.py:116-132 | right after a touch the stored set is that window, so its size is the distinct count |
| Windows.KeyGoesWhenQuiet | app/security/carding.py:116-132 | nothing is stored once the last touch is more than a window and a second old, and something is until then |
| Windows.NeverMoreThanTheLimit | app/security/ratelimit.py:56-96 | any half-open interval of the window's length, wherever it starts, has at most `max_requests` admitted requests |
| Windows.TheLimitIsReached | app/security/ratelimit.py:65-78 | for every window and limit a closed interval of that length can hold one more |
| Windows.RefusedOnlyOverTheLimit | app/security/ratelimit.py:65-78 | a request is admitted iff the window that ends with it, refused requests included, holds at most the limit |
| Windows.Window.Touch | app/security/carding.py:116-132 | trim, add and expire, and the size that is returned |
| Windows.Window.Count | app/security/carding.py:134-141 | trims only, and returns the size |
| Windows.RateLimiter.CheckLimit | app/security/ratelimit.py:56-96 | its answer is a function of the full request history, which it extends by this request |
| Outcomes.TrailingIsLongest | app/security/carding.py:359-369 | the specified count is the longest run of declines that ends the history inside the window |
| Outcomes.ListCountsCode | app/security/carding.py:359-369 | for every history of a clock that never runs backwards, what the loop counts in the stored list is a function of the full history |
| Outcomes.TrueIffTiesCancel | app/security/carding.py:359-369 | that count is the run of declines iff the ties in the history cancel: as many declines collapsed as were regained, or, in the approval's own millisecond, an approval came last and nothing is counted again |
| Outcomes.CodeCountsCorrectedRun | app/security/carding.py:359-369 | for every such history the count is the run of declines less those collapsed plus those regained, or nothing when a decline shares the approval's millisecond |
| Outcomes.FlagIsRightAtThresholdIff | app/security/carding.py:369-370 | at the threshold in use the flag is right iff the threshold does not separate the run from that correction |
| Outcomes.FlagIsRightIffTiesCancel | app/security/carding.py:369-370 | and it is right at every threshold iff the ties cancel |
| Outcomes.TieHidesTheRun | app/security/carding.py:359-369 | a decline in the approval's millisecond hides a run of any length |
| Outcomes.SecondApprovalCountsAgain | app/security/carding.py:359-369 | a second approval in one millisecond counts the first one's declines again |
| Outcomes.CountTrailing | app/security/carding.py:362-367 | the reverse loop with its break counts the trailing declines of the list without its last entry |
| Outcomes.OutcomeLog.RecordOutcome | app/security/carding.py:335-391 | for every history of a clock that never runs backwards the account is flagged iff the approval's count reaches the threshold; without ties that is: iff at least that many declines in a row preceded it within the window |
| Lockout.CounterStaysBelow | app/api/auth.py:104-110 | the failure counter never reaches the maximum |
| Lockout.OneWindow | app/api/auth.py:83-110 | an interval no longer than a lockout without a success holds at most the maximum of evaluated wrong passwords |
| Lockout.GuessesAreBounded | app/api/auth.py:83-140 | and a span of k lockouts at most k times that |
| Lockout.TheBoundIsReached | app/api/auth.py:83-110 | for every policy the bound is reached, and the closing moment of the lockout admits one guess more |
| Lockout.CounterTellsHistory | app/api/auth.py:104-140 | the counter is the number of evaluated wrong passwords since the last success or lock, and the deadline one lockout after the lock that no success has cleared |
| Lockout.AnswersFollowTheLocks | app/api/auth.py:83-140 | for every history, in order or not, an attempt is refused unseen iff that lock still lasts, and judged by its password otherwise |
| Lockout.LockedIffWithinALockout | app/api/auth.py:83-140 | for attempts in the order of time: refused unseen iff less than one lockout earlier some wrong password was the last of a full count since the last success |
| Lockout.User.Login | app/api/auth.py:71-140 | the verdict follows from the account's attempts and answers so far, and the counter it leaves is the wrong passwords since the last success or lock |

## Left out

- HTTP routing, request field patterns, problem documents, dashboard, templates, seeding, load and demonstration scripts: input, output and plumbing.
- The database, the driver and Redis themselves: a transaction is one step, a conditional UPDATE a test-and-set, a sorted set a map from member to score. A Redis failure (the limiter and the fraud windows fail open) is not part of this model.
- JWT, Argon2, HMAC, hashing, PNR and ticket-number generation: ids are fresh and digests injective.
- The fraud score: in the saga its verdict is a free choice; of the fraud windows the distinct counts and the decline run are modelled, the seven-rule sum is not.
- Card-token suffixes that make the demonstration gateway decline, time out or refuse: free choices of the environment.
- Object-level authorization, admin scope and the security event log: single conditions or appends.
- Passenger details and their amendment: no property of theirs spans operations, and their log rows are not replayed.
- Lock order of the multi-row UPDATE statements without ORDER BY (sweep, release of seats): the code gives them none.
- Recovery after a crash between a gateway call and its commit: the repository has no reconciliation job, so the money stays with a booking in a state that still owes an outcome.
- The branch that refuses a passenger without a seat at ticketing, and a cancel of a payment without a reference: no reachable state takes them.
- Joint.ClaimsKeepTheMoneyRule: asks for one user per key and bans releases over a key that is not harmless; Admission.NeverBooksTwice asks for neither.
- Coroutine.Run: runs undisturbed on the two objects; interleaving with others is the machine's, where the same steps are proved safe one by one.
- Coroutine.TicketAndConfirm: the objects are not shared with another caller while it runs.
- Lockout.User.Login: the account exists; an attempt on an unknown account changes no row.
- Windows.WindowRefinesHistory: asks for a positive window, which every configured limit has.
- Tokens.TokenTable.RotateRefreshToken: the concurrent use of one token by two requests is outside it, as the row is read without a lock.
