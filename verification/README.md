# PromptCode: a verified model

This project models the parts of PromptCode whose correctness rests on an argument rather than on a
single line of code, and proves that argument in Dafny 4.11. `dafny verify dfyconfig.toml` checks it.

What is modelled, by module:

- `SsaProgram`, `ExpressionCost`: the expression-cost engine. Parsing, dead-row elimination, constant
  folding, alias-aware storage, time and peak.
- `WordSelection`: the subset search over letter masks.
- `WarehouseGrid`, `WarehouseRoute`: breadth-first search over (cell, badges).
- `DriverActivity`, `PaymentLedger`, `Sorting`: the courier ledger and its sweep-line peak.
- `RoomScheduler`: earliest gap and reservation.
- `GradingTables`, `GradingLeases`, `GradingWorker`: the leased interview-grading queue.
- `AiGrading`: the claim and publish protocol of automatic AI grading.
- `EvaluationQueue`: the token-less evaluation queue and its timing.
- `RelayJob`: the rendezvous relay of the execution broker.
- `CapacityQueue`: bounded admission, and the release of a slot by `execute`.
- `ReadCache`: the generation-fenced read cache of the interview client.
- `WeightProfile`: correlations and weights over exact reals.
- `RateLimit`: the fixed-window limiter.
- `Outcomes`, `Basics`: shared shapes and facts.

## How the model is built

- **Loops and objects.** A loop of the source is a method with a loop, proved against a specification
  function or predicate; an object with changing fields is a class whose methods state their whole new
  state. Five engine functions begin with a placeholder `raise NotImplementedError`; what is modelled
  is the algorithm written below it
  (`challenges/expression-cost-analysis/engine.py:4`, `challenges/unique-word-selection/engine.py:13`,
  `challenges/warehouse-route-planner/engine.py:12`, `challenges/room-reservation-scheduler/engine.py:12`,
  `challenges/courier-payment-ledger/engine.py:19`).
- **Interleavings.** Each concurrent component is a step function `Step(world, event)` on values, and a
  run is any list of events: the scheduler, crashes, clock, timeouts and clients are chosen freely. An
  event that is not enabled changes nothing. Results about runs hold for every list. The class methods
  beside it are proved to take exactly those steps.
- **Environment.** Clock readings, fresh tokens, call identities, settings and what a remote worker
  returns are parameters. A reading may be older than the step that uses it.
- **Contracts taken from libraries.** A guarded SQL `UPDATE` is atomic, and so is a transaction under its
  row locks. A write under no lock that falls inside a transaction is overwritten by it and counts as not
  made; the read before such a write is a step of its own. The asyncio semaphore of Python 3.12 is as
  described at the head of `CapacityQueue.dfy`.
  Python's `ast` yields the syntax of a line. `sessionStorage` does not throw. `** 0.5` is the positive
  root. Digests and hashes are injective, and a signature is valid or not.
- **Numbers.** Python integers are unbounded. Times are whole seconds except in `EvaluationQueue` and
  `RateLimit`, where they are reals. A 26-bit letter mask is the set of its letters; a badge mask is a `bv4`.

## Results that need a reading

- Optimizing preserves meaning on every input on which all rows evaluate. The converse fails where a
  removed row divides by zero and the kept ones do not, and only there:
  `ExpressionCost.MeaningsAgreeIff` is the exact condition, `SafeDivisorsAgree` a check beforehand, and
  `DeadDivisionGainsValue` a program that fails it.
- The grading lease is between twice and four times the timeout. Publishing within twice the timeout is
  accepted at every instant strictly before its end. At exactly twice the timeout the lease has expired,
  unless the timeout is below two minutes: `GradingLeases.PublishWindow` gives the exact condition, and
  `GradingLeases.DefaultBoundaryIsRefused` the default timeout of 600 seconds.
- The evaluation queue has no fencing token. `EvaluationQueue.RecoveryIsSafeIff` shows that its timing
  assumption is exactly what is needed: a live job can be recovered if and only if a run may outlast the
  recovery time.
- The limiter lets twice its limit through in one window's length, and no more. That bound is reached
  for every limit and every window (`RateLimit.DoubleLimitIsReached`).
- The feedback route reads the evaluation row a last time and writes it back under no lock
  (`backend/app/api/routes/interview_grading.py:153-160`), although its comment speaks of one. What others
  wrote in between is lost, grading state included. `AiGrading.SavesInvisibleIffClean` says exactly when
  nothing is. The fencing of AI grading holds under the conditions its rows name and fails without them:
  two workers may hold one lease (`SaveLetsTwoClaim`), and a fenced-out worker may publish
  (`SaveRevivesToken`). The result of the grading job itself survives such a write
  (`GradingLeases.SaveGood`).
- A verdict of the AI grader is fenced by the packet digest at the claim and at the publication, and not
  by the packet that was read in between. `AiGrading.StaleIffReturned` says exactly when a verdict on
  another packet gets through: the packet leaves its digest after the claim and is back at the publication,
  with the token still on the row. Answers given with automatic grading off do it
  (`ReturnedAnswerShowsStale`), and so does the write above; the feedback route's first write alone does
  not, since reassembling a packet twice changes nothing (`GradingTables.ReassembledTwice`).
- A slot outlives its caller because the task is shielded. Only the task's own cancellation gives it back
  early (`CapacityQueue.SlotHeldUntilThreadStops`, `CancelledTaskReleasesEarly`); nothing in the
  repository cancels it short of the event loop's shutdown.
- A grading job left failed can be asked for again by an operator
  (`backend/app/api/routes/interview_grading.py:164-208`), which restarts its attempts. What holds forever
  of a completed job holds of a failed one up to that request, and the bounds count such requests.
- While an AI-grading worker holds the row no verdict is on it, so the branch at
  `backend/app/workers/interview_ai_grading.py:167-168` never appends to the history
  (`AiGrading.PublishIsFenced`).
- The route planner's README promises U, R, D, L ties. The search meets it: the route returned is the
  first in that order among the shortest, and it is the only such route.

## Model

| member | source | states |
|---|---|---|
| SsaProgram.Parse | challenges/expression-cost-analysis/contracts.py:10-32 | a program is accepted exactly when every line is a simple assignment, no name is assigned twice, `res` is assigned and no row refers to a name assigned at or after it; the rows are those of its lines in order |
| SsaProgram.ReadRows | challenges/expression-cost-analysis/contracts.py:11-26 | the growing pass accepts exactly the programs of simple assignments without a duplicate name |
| SsaProgram.RefersBackward | challenges/expression-cost-analysis/contracts.py:28-31 | the second pass accepts exactly the programs without a forward reference |
| SsaProgram.ForwardReferences | challenges/expression-cost-analysis/contracts.py:28-31 | where no name is assigned twice, a forward reference is exactly a row that reads the name of a row at or after it |
| SsaProgram.SimpleOperands | challenges/expression-cost-analysis/contracts.py:5-9 | operands are exactly the integers, the negated integers and the names |
| SsaProgram.LineReadsAs | challenges/expression-cost-analysis/contracts.py:15-26 | a line reads as a given row exactly if it is one assignment to that one name, of a simple operand, or of one of the four operators on two of them without a division by the literal 0 |
| SsaProgram.EachLineReads | challenges/expression-cost-analysis/contracts.py:12-26 | a program reads exactly if every line that is neither blank nor a comment does, and a blank line adds no row |
| SsaProgram.ProgramRoundTrip | challenges/expression-cost-analysis/contracts.py:10-27 | rows written as lines and read back are the same rows, and are rejected exactly when some row divides by the literal 0 |
| SsaProgram.DivisionTruncates | challenges/expression-cost-analysis/contracts.py:42-47 | the quotient is the only one whose remainder is smaller than the divisor and carries the sign of the dividend |
| SsaProgram.AdditionCounts | challenges/expression-cost-analysis/contracts.py:42-43 | adding 0 on the right changes nothing, and adding one more adds one: this determines addition |
| SsaProgram.SubtractionUndoes | challenges/expression-cost-analysis/contracts.py:43-44 | c - b is a exactly if a + b is c |
| SsaProgram.MultiplicationAdds | challenges/expression-cost-analysis/contracts.py:45 | multiplying by 0 gives 0, and by one more adds the left operand once more: this determines multiplication |
| ExpressionCost.EliminateDead | challenges/expression-cost-analysis/engine.py:6-12 | the reversed pass keeps exactly the rows that `res` depends on through later rows |
| ExpressionCost.FoldConstants | challenges/expression-cost-analysis/engine.py:13-20 | the folding loop computes the recursive folding, and raises where it does |
| ExpressionCost.LiveRuns | challenges/expression-cost-analysis/engine.py:7-12 | from any environments that agree on the needed names, the kept rows run whenever all rows do and give the same `res` |
| ExpressionCost.FoldRuns | challenges/expression-cost-analysis/engine.py:13-20 | folding changes no step of any run, and where it raises the run has no value |
| ExpressionCost.KeepsExactlyContributing | challenges/expression-cost-analysis/engine.py:7-12 | the rows kept are exactly those on which `res` depends through a chain of reads, in order |
| ExpressionCost.FoldsEverything | challenges/expression-cost-analysis/engine.py:13-20 | after folding every row is a literal or reads a name, and no name read was folded to a literal before |
| ExpressionCost.FoldingRaisesOnZero | challenges/expression-cost-analysis/engine.py:13-20 | for the rows `x = m op n; res = k / x`, folding raises exactly for equal m and n under `-`, opposite ones under `+`, a zero among them under `*`, and n zero or larger than m in absolute value under `/` |
| ExpressionCost.OptimizingPreservesMeaning | challenges/expression-cost-analysis/engine.py:6-20 | on every input on which all rows evaluate the optimized program evaluates to the same `res`; folding raises only when no input gives the program a value |
| ExpressionCost.MeaningsAgreeIff | challenges/expression-cost-analysis/engine.py:6-20 | on any input the program and its optimized form have the same value, or both none, exactly unless the optimized form has a value there and evaluating all rows meets a division by zero in a removed row |
| ExpressionCost.SafeDivisorsAgree | challenges/expression-cost-analysis/engine.py:6-20 | if every division among the rows that do not contribute to `res` is by a nonzero literal, optimizing keeps the meaning on every input, its absence included |
| ExpressionCost.DeadDivisionGainsValue | challenges/expression-cost-analysis/engine.py:6-20 | the condition of `MeaningsAgreeIff` can fail: a program without a value on any input whose optimized form has one |
| ExpressionCost.PlanStorage | challenges/expression-cost-analysis/engine.py:21-27 | the first cost loop finds the root of every name, the last use of every root, and the total operator cost |
| ExpressionCost.TimeByOperator | challenges/expression-cost-analysis/engine.py:27 | the total time is the sum over the four operators of how often the rows apply it times the cost of its own symbol |
| ExpressionCost.Simulate | challenges/expression-cost-analysis/engine.py:28-32 | the incremental simulation reports the size of the largest declarative live set |
| ExpressionCost.LocatedIffStandsFor | challenges/expression-cost-analysis/engine.py:23-26 | a name is located at a root exactly when following copies back from it ends at that root's arithmetic row |
| ExpressionCost.LivenessIsDeclarative | challenges/expression-cost-analysis/engine.py:21-32 | a result is live at row i exactly when it is computed by row i and is the output's storage, is computed at i, or is read through some alias at row i or later |
| ExpressionCost.OptimizedEmbeds | challenges/expression-cost-analysis/engine.py:6-32 | an order-preserving map takes every optimized row to one that allocates and reads at least as much, with the same output root or none |
| ExpressionCost.EmbeddedLiveSets | challenges/expression-cost-analysis/engine.py:28-32 | under such a map every live set is contained in its image's live set |
| ExpressionCost.OptimizingNeverCostsMore | challenges/expression-cost-analysis/engine.py:6-33 | whenever folding does not raise, both reported time and reported peak are at most those without optimizing |
| ExpressionCost.Analyze | challenges/expression-cost-analysis/engine.py:3-33 | the call succeeds exactly for valid costs, an accepted program and, when optimizing, a folding that does not raise; it then reports the time and the peak of the rows it costs |
| WordSelection.Masks | challenges/unique-word-selection/contracts.py:1-11 | it fails exactly on a character outside a-z; each word's mask is its set of letters, or None exactly when a letter repeats |
| WordSelection.ExtendStates | challenges/unique-word-selection/engine.py:17-20 | one word extends every disjoint state of the table before it, and keeps for each mask the first of the two selections |
| WordSelection.TableGrows | challenges/unique-word-selection/engine.py:15-20 | the table keeps exactly the reachable masks, each with its least selection in (length, lexicographic) order |
| WordSelection.BestState | challenges/unique-word-selection/engine.py:21 | the entry chosen at the end has the least key of the whole table |
| WordSelection.LexByFirstDifference | challenges/unique-word-selection/engine.py:20-21 | one index list is before another exactly if at their first difference it ends or has the smaller index |
| WordSelection.Choose | challenges/unique-word-selection/engine.py:12-21 | the selection is legal, and no legal selection covers more letters, or as many with fewer words, or as many with as many words and a smaller index list |
| WordSelection.BestIsUnique | challenges/unique-word-selection/engine.py:21 | that contract has only one answer |
| WarehouseGrid.Endpoints | challenges/warehouse-route-planner/contracts.py:1-9 | it fails exactly unless the grid is rectangular, of known tiles, with one start and one exit, and returns their cells |
| WarehouseGrid.AcceptedGrids | challenges/warehouse-route-planner/contracts.py:1-9 | the accepted grids, in characters: rows of one positive length, over `#.SEabcdABCD`, with exactly one S and one E |
| WarehouseGrid.AdjacentByMove | challenges/warehouse-route-planner/engine.py:19-20 | the four moves lead exactly to the cells one row or one column away |
| WarehouseGrid.MovesInOrder | challenges/warehouse-route-planner/engine.py:19-20 | the search tries the cell above, to the right, below and to the left, in this order |
| WarehouseRoute.NextExtends | challenges/warehouse-route-planner/engine.py:19-27 | a move is tried successfully exactly when it extends the walk legally, and leads to the cell and badges of the longer walk |
| WarehouseRoute.BadgeHeld | challenges/warehouse-route-planner/engine.py:25-26 | a badge bit is set exactly when the walk has visited that badge's tile |
| WarehouseRoute.Frontier | challenges/warehouse-route-planner/engine.py:15-29 | every legal walk ends in an expanded state that was found no later, or some queued path is at most the walk |
| WarehouseRoute.GridStates | challenges/warehouse-route-planner/engine.py:15-29 | there are at most rows x columns x 16 states |
| WarehouseRoute.ShortestRoute | challenges/warehouse-route-planner/engine.py:11-30 | the result is a legal route of least length, first in U, R, D, L order among the shortest; it is None exactly when no legal route exists; the loop takes at most rows x columns x 16 rounds |
| WarehouseRoute.BestRouteIsUnique | challenges/warehouse-route-planner/engine.py:11-30 | no two different routes are each at most the other |
| DriverActivity.Sweep | challenges/courier-payment-ledger/engine.py:30-34 | the loop reports the largest number of positive driver counts after any prefix of the events |
| DriverActivity.PositiveAtInstant | challenges/courier-payment-ledger/engine.py:26-33 | after all events up to an instant of the window, the positive counts are exactly the drivers active then |
| DriverActivity.PrefixIsCovered | challenges/courier-payment-ledger/engine.py:31-33 | at any point of the sweep the positive counts are among the drivers active at some instant of the window |
| DriverActivity.Peak | challenges/courier-payment-ledger/engine.py:24-34 | it fails exactly for an empty window; otherwise it is the maximum over the window's instants of the number of distinct drivers with a delivery in progress |
| PaymentLedger.Ledger.Open | challenges/courier-payment-ledger/engine.py:4-6 | a ledger opens, empty, exactly when no rate is negative |
| PaymentLedger.Ledger.Record | challenges/courier-payment-ledger/engine.py:7-12 | a record is rejected exactly for an unknown driver, an empty interval or an id used for another delivery, and then changes nothing |
| PaymentLedger.RecordDecides | challenges/courier-payment-ledger/engine.py:7-12 | a delivery of a known driver that takes time is kept under a new id; any other record leaves the book as it is |
| PaymentLedger.RecordedIsValid | challenges/courier-payment-ledger/engine.py:7-12 | after any run every recorded delivery is of a known driver and ends after it starts |
| PaymentLedger.Ledger.PayUpTo | challenges/courier-payment-ledger/engine.py:18-23 | it marks exactly the unpaid deliveries that end by the cutoff and returns the sum of their costs |
| PaymentLedger.Ledger.GrandTotal | challenges/courier-payment-ledger/engine.py:16 | the sum over all recorded deliveries, in whatever order |
| PaymentLedger.Ledger.StillUnpaid | challenges/courier-payment-ledger/engine.py:17 | the sum over the unpaid deliveries |
| PaymentLedger.Ledger.PeakActivity | challenges/courier-payment-ledger/engine.py:24-34 | the peak of the ledger's own deliveries |
| PaymentLedger.PaymentsPlusUnpaidIsTotal | challenges/courier-payment-ledger/engine.py:16-23 | over any run, the amounts returned by payments plus what is unpaid equal the total |
| PaymentLedger.PaidOnce | challenges/courier-payment-ledger/engine.py:18-23 | no delivery is paid by two payments of a run, whatever the cutoffs |
| PaymentLedger.PaidIffCovered | challenges/courier-payment-ledger/engine.py:18-23 | a delivery has been paid exactly when some payment came after its record with a cutoff at or after its end |
| RoomScheduler.Scheduler.Open | challenges/room-reservation-scheduler/engine.py:5-7 | it opens exactly when every interval is positive, with the same bookings, sorted |
| RoomScheduler.Scheduler.Find | challenges/room-reservation-scheduler/engine.py:8-18 | it fails exactly for an empty window or a duration that is not positive; otherwise it returns the least start in the window whose slot meets no booking, or None exactly when none fits |
| RoomScheduler.FitsBetweenBookings | challenges/room-reservation-scheduler/engine.py:13-18 | a start fits exactly if it lies in the window with its whole duration and every booking ends by then or begins after it |
| RoomScheduler.MeetsIffShared | challenges/room-reservation-scheduler/engine.py:13-18 | a booking stands in the way of a slot exactly if the two share an instant |
| RoomScheduler.Scheduler.Reserve | challenges/room-reservation-scheduler/engine.py:19-24 | the answer of find; a slot found is added to the sorted list, and otherwise nothing changes |
| RoomScheduler.OneAnswer | challenges/room-reservation-scheduler/engine.py:13-18 | find's contract has only one answer |
| RoomScheduler.ReservationsNeverOverlap | challenges/room-reservation-scheduler/engine.py:19-24 | any sequence of reservations from a disjoint list keeps it sorted and disjoint and keeps every earlier booking |
| GradingTables.LeaseBounds | backend/app/workers/interview_grading.py:79-87 | the lease lies between two and four times the timeout, and exceeds twice it exactly for timeouts strictly between 0 and 120 seconds, where it is two minutes more than the timeout, or four times the timeout where that is less |
| GradingTables.FailureBacksOff | backend/app/workers/interview_grading.py:179-189 | a row that fails after its first, second, third or a later attempt can be claimed again exactly if attempts are left and 10, 20, 40 or 60 seconds have passed; it is retired exactly if none is left |
| GradingTables.PublishGrades | backend/app/workers/interview_grading.py:166-174 | whatever the packet held, publishing leaves exactly one external entry, named after the job, with the digest of the published payload; it keeps every entry of another kind and makes the packet digest match |
| GradingTables.ReviseKeepsGrade | backend/app/services/interview/grading.py:182-190 | revising the defense answers replaces exactly the candidate statements, keeps every other entry, and makes the packet digest match |
| GradingTables.ReassemblyGrades | backend/app/services/interview/grading_review.py:103-111 | a review replaces the external and source entries by exactly the authenticated ones, keeps every other entry, and makes the packet digest match |
| GradingTables.ReassembledTwice | backend/app/services/interview/grading_review.py:103-111 | a reassembly repeated changes nothing, so reviews alone never return a packet to a digest it has left |
| GradingTables.ReviseTwice | backend/app/services/interview/grading.py:182-190 | of two revisions only the last counts: a packet revised to other answers and back is the packet revised once, the same packet if a revision had made it |
| GradingLeases.StepGood | backend/app/workers/interview_grading.py:44-189 | every step of workers, candidates and reviewers, an operator's retry and both writes of the feedback route included, keeps the invariant of rows, claims and packets |
| GradingLeases.SaveGood | backend/app/api/routes/interview_grading.py:153-160 | writing back a packet captured earlier, under no lock, keeps every stored result published with exactly one external entry |
| GradingLeases.Reachable | backend/app/workers/interview_grading.py:44-189 | in every reachable world a job was claimed exactly `attempts` times since its latest operator retry and at most `max_attempts`, and a stored result is a genuine envelope for the job's own identity and the row's own token, in a packet with exactly one external entry, for that result, and a matching digest |
| GradingLeases.TerminalStays | backend/app/workers/interview_grading.py:46-71 | no step touches a completed row, and none but an operator retry of that job a failed one |
| GradingLeases.ResultIsForever | backend/app/workers/interview_grading.py:154-159 | a completed row is the same in every later world, so a result is written at most once; a failed row is the same until an operator asks for the job again |
| GradingLeases.OnlyTheHolderWrites | backend/app/workers/interview_grading.py:145-176 | a step that stores a result is a finish by the holder of the current token, on a clock reading before the lease expires, with a genuine envelope for the job's identity and that token, and it publishes the result in the same step |
| GradingLeases.SupersededChangesNothing | backend/app/workers/interview_grading.py:154-189 | a worker whose token is off the row changes nothing, whether it finishes or fails |
| GradingLeases.ExpiredHolderCannotPublish | backend/app/workers/interview_grading.py:154-162 | a holder whose lease has expired on its clock changes nothing by finishing |
| GradingLeases.RereadIsIssued | backend/app/workers/interview_grading.py:73-76 | the row read back after the claim has committed, whatever happened in between, is a copy issued before for the token now on it, or has no token and passes no guard of a worker |
| GradingLeases.FailDecisionAgrees | backend/app/workers/interview_grading.py:179-189 | whenever the token guard passes, the claim's copy of `attempts` is the row's, and the row is retired exactly when its attempts are used up |
| GradingLeases.EveryChangeUsesUp | backend/app/workers/interview_grading.py:44-189 | every change of a row strictly decreases a measure of its remaining transitions, except an operator retry, which takes it from 0 to 7 |
| GradingLeases.BoundedTransitions | backend/app/workers/interview_grading.py:44-189 | a run of any length changes a row at most 2 * max_attempts + 2 times, and at most 8 times more for each operator retry in it |
| GradingLeases.ClaimsAreBounded | backend/app/api/routes/interview_grading.py:164-208 | over any run from the start a job is claimed at most three times, and three times more for each operator retry |
| GradingLeases.CrashIsRecovered | backend/app/workers/interview_grading.py:44-56 | once the lease of a crashed worker has expired, the sweep of a later claim makes the job claimable at once if it has attempts left, and retires it otherwise |
| GradingLeases.OperatorRetryStartsOver | backend/app/api/routes/interview_grading.py:164-208 | an operator retry goes through exactly for a failed job; the job can be claimed at once, has three attempts and no claim of its own, and its packet alone is marked as not executed |
| GradingLeases.ReviewNeedsResult | backend/app/services/interview/grading_review.py:85-111 | a review goes through exactly for a completed job, and leaves that job's stored result as the one external entry |
| GradingLeases.SaveRestores | backend/app/api/routes/interview_grading.py:153-160 | over any interleaving, the feedback route's second write puts back the packet it last read, so that whatever was written to it in between is lost, and changes nothing else |
| GradingLeases.ExecutedIffCompleted | backend/app/workers/interview_grading.py:154-176 | in every reachable world a session's packet is marked as executed exactly if its job is completed, whatever the feedback route wrote back |
| GradingLeases.PromptWorkerPublishes | backend/app/workers/interview_grading.py:79-87 | a worker that publishes a verified result before twice the timeout has passed since its claim is accepted, whatever the others did |
| GradingLeases.PublishWindow | backend/app/workers/interview_grading.py:154-157 | up to twice the timeout after the claim, the lease is unexpired exactly strictly before that instant, or for a timeout strictly between 0 and 120 seconds |
| GradingLeases.DefaultBoundaryIsRefused | backend/app/workers/interview_grading.py:154-157 | with the default timeout of 600 seconds, publishing exactly 1200 seconds after the claim is refused |
| GradingWorker.GradingStore.Enqueue | backend/app/workers/interview_grading.py:22-41 | a session has one job: the existing one, an error exactly when it has another source, or a new claimable one with three attempts |
| GradingWorker.GradingStore.Candidate | backend/app/workers/interview_grading.py:57-60 | the candidate is the oldest claimable row, and None exactly when there is none |
| GradingWorker.GradingStore.ClaimNext | backend/app/workers/interview_grading.py:44-75 | expiry, retirement and the guarded claim are steps of the protocol; the job claimed is the oldest claimable one, and None exactly when there is none |
| GradingWorker.GradingStore.Reread | backend/app/workers/interview_grading.py:73-76 | the copy the worker gets is one issued for the token now on the row, and None exactly stands for a row on which no worker can act |
| GradingWorker.GradingStore.FinishJob | backend/app/workers/interview_grading.py:145-176 | the method takes the finish step and returns true exactly when that applies; it raises exactly for an envelope that is not genuine or is for another submission or token than the claim's, or for a missing evaluation row behind a passed guard; unless it returns true nothing changes |
| GradingWorker.GradingStore.FailJob | backend/app/workers/interview_grading.py:179-189 | the method takes the fail step |
| GradingWorker.GradingStore.Conclude | backend/app/workers/interview_grading.py:201-209 | a genuine envelope of the claim is published; an exception, a forged envelope (not genuine, or for another submission or token), or a missing evaluation row behind a passed guard is rolled back and leaves the failing of the attempt to a later step; a cancellation leaves the row to its lease |
| AiGrading.StartingOverTellsDefense | backend/app/workers/interview_ai_grading.py:41-43 | after an accepted answer under automatic grading, the owner's retry, or a visit to a row without a complete defense, the state is queued exactly if every question has an answer that is not blank, and else waits for the defense |
| AiGrading.QueuedIsAnswered | backend/app/workers/interview_ai_grading.py:41-43 | in every reachable world a queued row has an answer that is not blank to every question |
| AiGrading.CompletedDefenseIsTakenUp | backend/app/workers/interview_ai_grading.py:86-131 | the accepted answer that completes the defense under automatic grading leaves a row that the candidate query lists, and the next visit claims it for six minutes as its first attempt |
| AiGrading.VisitDecides | backend/app/workers/interview_ai_grading.py:101-131 | a visit leaves a row whose lease or delay has not run out; else it claims an answered one while fewer than two attempts are used, and then hands it to review, out of the candidate query |
| AiGrading.AnswerDecides | backend/app/api/routes/interview.py:1762-1793 | an answer is taken exactly if its question exists and it is not blank, and replaces that answer alone; with automatic grading on a judged state joins the latest five of the history, and with it off grading and history stay |
| AiGrading.RetryDecides | backend/app/api/routes/interview.py:1651-1661 | the owner's retry is taken exactly with a complete defense, a state that waits for review or for another attempt, and no retry before; it leaves a candidate, with the old state the last of at most five in the history |
| AiGrading.RetriedOnce | backend/app/api/routes/interview.py:1655-1659 | over any run in which every feedback writes back the row it finds, no second retry is taken |
| AiGrading.LeaseIsExclusiveIff | backend/app/workers/interview_ai_grading.py:104-108 | from a claim until its lease runs out, over any run without a publication by the holder or a defense revision under automatic grading, the token stays at every point exactly if every row that a feedback writes back already carried the claim when it was read; then nobody else claims |
| AiGrading.PublishIsFenced | backend/app/workers/interview_ai_grading.py:159-174 | a publication has the current token, an unexpired lease and, at the claim and now, the same packet digest; it changes only the grading state |
| AiGrading.JudgmentIsStored | backend/app/workers/interview_ai_grading.py:147-174 | a judgment is stored exactly if the token is on the row, its lease has not run out and the packet has the digest of the claim; it is labelled with that digest, and its state has neither token nor delay |
| AiGrading.ClaimsPublishOnce | backend/app/workers/interview_ai_grading.py:159-174 | over any run in which every feedback writes back the row it finds, each claim publishes at most once, and the token on the row has not published |
| AiGrading.ShownIsCurrent | backend/app/workers/interview_ai_grading.py:178-193 | in every reachable world, whatever feedbacks wrote back, attempts are within `MAX_ATTEMPTS`, and a verdict shown to a candidate is for the present rubric and prompt and carries the digest the packet has now, had at the claim and had at the publication; it was computed from that packet unless the packet returned to a digest it had left |
| AiGrading.StaleIffReturned | backend/app/workers/interview_ai_grading.py:159-174 | over any interleaving of everyone else's steps, feedback writes included, a worker's publication shows a stale verdict for some moment of reading exactly if at the end its token is on the row, unexpired, beside the digest of its claim, and at some moment the packet had another digest |
| AiGrading.ReturnedAnswerShowsStale | backend/app/api/routes/interview.py:1774-1793 | the run by answers, from any row ready to claim with its statements last in the packet: with automatic grading off an answer is changed after the claim, the packet read, and the answer changed back, which restores the packet |
| AiGrading.SavesInvisibleIffClean | backend/app/api/routes/interview_grading.py:153-160 | over every interleaving the row is at every point what it would be without the feedbacks' second writes exactly if each of those finds the row as the route's last read left it |
| AiGrading.SaveLetsTwoClaim | backend/app/api/routes/interview_grading.py:153-160 | a failing run from any row ready to claim: a feedback reads the row, a worker claims it, the feedback writes the row back, and a second worker claims inside the first one's lease, on the same attempt |
| AiGrading.SaveRevivesToken | backend/app/api/routes/interview_grading.py:153-160 | a failing run from any row ready to claim, with automatic grading on: a feedback reads the claimed row, another answer fences the worker out, the worker reads that packet, the feedback writes the row back, and the worker publishes a verdict on another packet than the row has |
| AiGrading.RevisionFencesOutIff | backend/app/api/routes/interview.py:1782-1793 | after a defense revision under automatic grading an earlier token is off the row at every point of any run exactly if no row that a feedback writes back carries it; then that claim never publishes, even if the packet digest returns to what it was |
| AiGrading.ClaimsAreBounded | backend/app/workers/interview_ai_grading.py:117-128 | over any run in which every feedback writes back the row it finds, without the owner's retry or a revision under automatic grading, a complete defense stays complete and every claim uses one attempt, so there are at most two claims |
| AiGrading.FailureBacksOff | backend/app/workers/interview_ai_grading.py:154-158 | a failed judgment puts off the next claim for exactly a minute, and leaves the row for review exactly when two attempts are used up |
| AiGrading.GradingRows.VisitRow | backend/app/workers/interview_ai_grading.py:101-131 | a locked visit claims exactly when no lease or backoff holds, the defense is complete and attempts remain; a row with an unanswered question waits for the defense or stays as it was |
| AiGrading.GradingRows.ClaimFirst | backend/app/workers/interview_ai_grading.py:95-133 | unlocked candidates are visited in order up to the first that can be claimed, and no other row changes |
| AiGrading.GradingRows.PublishRow | backend/app/workers/interview_ai_grading.py:159-174 | the row is replaced exactly under the publication guard, and is otherwise unchanged |
| EvaluationQueue.RecoverySlack | backend/app/workers/queue.py:236-238 | recovery waits at least 300 seconds longer than the timeout, and by exactly the larger of 300 seconds and the timeout |
| EvaluationQueue.BackoffDoubles | backend/app/workers/queue.py:241-242 | the retry backoff is 2 seconds up to the first attempt, doubles with each further one, and is capped at 60 exactly from the sixth on |
| EvaluationQueue.StepExclusive | backend/app/workers/queue.py:191-317 | if every run ends before the recovery time after its claim, every step keeps each live run the sole owner of its row |
| EvaluationQueue.NoTwoLiveRuns | backend/app/workers/queue.py:381-417 | runs cut off at the timeout, with bookkeeping delays below 300 seconds, never overlap on one job, and a job is claimed at most max(1, max_attempts) times |
| EvaluationQueue.RecoveryIsSafeIff | backend/app/workers/queue.py:265-317 | a live job can be recovered if and only if a run may last as long as the recovery time |
| EvaluationQueue.FinishedRowsStay | backend/app/workers/queue.py:245-317 | under exclusion no step writes a completed or failed row |
| EvaluationQueue.UnsuccessfulRunsDecideRightly | backend/app/workers/queue.py:245-253 | in every reachable world of runs cut off in time, an unsuccessful run's row fails exactly when the row's own attempts are used up, and else can be claimed again exactly after their backoff |
| EvaluationQueue.SuccessfulRunsComplete | backend/app/workers/queue.py:385-417 | in every reachable world of runs cut off in time, a run leaves its row completed exactly if it succeeded and its submission is evaluated, and keeps the row's attempts |
| EvaluationQueue.FinishedForever | backend/app/workers/queue.py:191-317 | under exclusion a completed or failed row is the same after any continuation |
| EvaluationQueue.RecoveryTakes | backend/app/workers/queue.py:265-317 | recovery takes exactly the unlocked rows asked for that have been running for twice the timeout and for 300 seconds more than it, and leaves every other row and its submission alone |
| EvaluationQueue.RecoveryDecides | backend/app/workers/queue.py:291-314 | a recovered row is completed exactly if its submission is evaluated, else failed or put off on its own attempts; a submission breaks exactly if its row is recovered while it is in progress |
| EvaluationQueue.EvaluationStore.ClaimById | backend/app/workers/queue.py:191-213 | the guarded update claims exactly a queued or retrying row that is available, and changes no other |
| EvaluationQueue.EvaluationStore.RecoverStuck | backend/app/workers/queue.py:265-317 | exactly the stuck rows, of one job if so asked and without those another worker has locked, are recovered and counted, completed where the submission is, and every other row is untouched |
| EvaluationQueue.EvaluationStore.ConcludeRun | backend/app/workers/queue.py:385-417 | the row is completed exactly if the run succeeded and its submission is evaluated; any other run retries or fails it |
| RelayJob.RelayIsCorrect | backend/app/execution_broker.py:357-385 | in every reachable world at most one call is outstanding, it is the one named by `call`, and a returned result is that of the reply first accepted for the call's own id |
| RelayJob.FirstReplyStays | backend/app/execution_broker.py:451-462 | the first accepted reply of a call, and how a call ended, are never replaced |
| RelayJob.RepeatChangesNothing | backend/app/execution_broker.py:455-456 | once a reply to a call has been accepted, posting for that call again changes nothing in any later world |
| RelayJob.NothingReturnsAfterCancel | backend/app/execution_broker.py:374-385 | once cancelled, the job stays cancelled and no call that has not ended ever returns a result |
| RelayJob.TimedOutJobIsOver | backend/app/execution_broker.py:357-385 | once a call has ended by timeout, over any continuation no call is let in, every new one is refused with 503, and no call then open returns a result |
| RelayJob.AnsweredCallEnds | backend/app/execution_broker.py:357-380 | over any interleaving without a cancellation or a timed-out call, a call whose reply was posted ends as the reply says once its thread has taken its three remaining steps: with the result, with 429 for an error 429, and with 502 for any other error or none of both |
| RelayJob.FreshJobDelivers | backend/app/execution_broker.py:345-380 | a fresh job takes its first call before it expires, delivers its reply, and is free again |
| RelayJob.EntryDecides | backend/app/execution_broker.py:358-365 | a call is refused with 503 exactly if the job is cancelled or has expired, else with 429 exactly if a call is outstanding; one let in is outstanding, has no reply, and sleeps until someone posts or cancels |
| RelayJob.PostDecides | backend/app/execution_broker.py:454-461 | a reply is taken exactly for the outstanding, unanswered call of a job that is not cancelled; it is then the call's reply and wakes its thread |
| RelayJob.CancelledCallIsRefused | backend/app/execution_broker.py:374-385 | a cancellation wakes whoever waits, and the call ends with 503 even if its reply is there |
| RelayJob.UnansweredCallTimesOut | backend/app/execution_broker.py:366-370 | a wait that runs out before anyone posts or cancels ends its call with 504 and cancels the job |
| RelayJob.LegacyJob.Enter | backend/app/execution_broker.py:358-365 | the first section refuses with 503 when cancelled or expired, else with 429 when a call is outstanding, and else installs the call with no reply |
| RelayJob.LegacyJob.Post | backend/app/execution_broker.py:451-462 | a reply is accepted exactly for the outstanding call of a job that is not cancelled; a repeat answers ok without effect |
| CapacityQueue.SlotsAreConserved | backend/app/core/capacity_queue.py:69-88 | under any events, free, granted and active permits add up to `slots`; active is the number of unreleased executions; waiting never exceeds `max_waiters`; no wake-up is lost; admissions and the line are in arrival order; each execution releases once, and with its thread still running only if its task was itself cancelled |
| CapacityQueue.NoOvertaking | backend/app/core/capacity_queue.py:69-81 | whoever has been admitted arrived before whoever still waits |
| CapacityQueue.ArrivalDecides | backend/app/core/capacity_queue.py:69-81 | in every reachable world an arrival is admitted at once exactly if a permit is free and nobody is in line, is refused exactly if it cannot be and `max_waiters` wait, and else joins the end of the line |
| CapacityQueue.ReleasedSlotIsPassedOn | backend/app/core/capacity_queue.py:79-88 | in every reachable world a released slot goes to the first waiter without a permit, and the head of the line then resumes and its execution begins |
| CapacityQueue.SlotHeldUntilThreadStops | backend/app/execution_broker.py:190-206 | over every run in which its task is not itself cancelled, however callers disconnect, time out or are cancelled, an execution keeps its slot until its thread has stopped |
| CapacityQueue.CancelledTaskReleasesEarly | backend/app/execution_broker.py:198-206 | cancelling the task itself, instead of the shield around it, gives the slot back while the thread still runs |
| CapacityQueue.CallbackReleasesOnce | backend/app/execution_broker.py:190-205 | once the task of a stopped thread has ended its callback returns the slot, and running it again changes nothing |
| CapacityQueue.CallerEndsOnce | backend/app/execution_broker.py:198-206 | a waiting caller is answered exactly by its finished task and is gone exactly by disconnecting; no other step changes a caller, and neither end is undone |
| CapacityQueue.Queue.Acquire | backend/app/core/capacity_queue.py:69-81 | it refuses exactly when the semaphore is locked and the line is full, admits at once exactly when unlocked, and else joins the line |
| CapacityQueue.Queue.Release | backend/app/core/capacity_queue.py:86-88 | one permit is freed and handed to the first waiter without one |
| CapacityQueue.SlotHolder.ReleaseOnce | backend/app/execution_broker.py:190-205 | the slot is released by the first call only |
| ReadCache.ServedViewsAreCurrent | frontend/interview-api.js:147-189 | in every reachable world a private view served from the cache was requested by the signed-in account after the latest invalidation, hence after the latest completed progress-changing write, and is fresh |
| ReadCache.JoinedRequestsAreCurrent | frontend/interview-api.js:158-178 | so was a pending request that a new read joins |
| ReadCache.UpdatesAreCurrent | frontend/interview-api.js:181-185 | so was the request behind a late update that is let through |
| ReadCache.AnsweredReadIsServed | frontend/interview-api.js:160-187 | a response stored in the generation of its request is served for five minutes to every read of that view, over any interleaving without an invalidation or a change of account, unless a later answer replaced it |
| ReadCache.ReadsShareRequests | frontend/interview-api.js:158-178 | a read that finds a request pending for its view sends none, and one that finds none sends its own, for the present generation |
| ReadCache.SettledIsNotJoined | frontend/interview-api.js:174-176 | a request that has settled is joined no more, and no other pending request is dropped |
| ReadCache.WatchingRegisters | frontend/interview-api.js:179-187 | a read that wants updates registers for its request exactly if it is answered from the cache |
| ReadCache.UpdatesUntilDisturbed | frontend/interview-api.js:182-185 | a registered update is let through over any interleaving without an invalidation, a change of account or a reload |
| ReadCache.InvalidationEndsUpdates | frontend/interview-api.js:182-185 | and never after an invalidation |
| ReadCache.InvalidationEndsRequests | frontend/interview-api.js:136-164 | after an invalidation, on demand, on signing out or around a progress-changing write, nothing is served or joined, and what was asked before is never stored in any later world |
| ReadCache.SessionSteps | frontend/interview-api.js:66-85 | signing in sets account and token; signing out removes both and invalidates; a reload forgets what is pending and keeps the views |
| ReadCache.InterviewApi.InvalidateReads | frontend/interview-api.js:136-145 | the generation advances, and every private view and pending request is dropped |
| ReadCache.InterviewApi.BeginRead | frontend/interview-api.js:147-188 | a read without an account goes to the server; any other is served the fresh view of the present generation, and joins the pending request or sends its own |
| ReadCache.InterviewApi.OnResponse | frontend/interview-api.js:160-164 | a response is stored exactly when generation and account are still those of its request |
| WeightProfile.CauchySchwarz | backend/scripts/refit_ai_weight_profile.py:50-55 | the square of an inner product is at most the product of the two norms squared |
| WeightProfile.CovarianceBound | backend/scripts/refit_ai_weight_profile.py:48-55 | squared covariance never exceeds the product of the variances |
| WeightProfile.CorrelationInRange | backend/scripts/refit_ai_weight_profile.py:44-56 | a correlation lies in [-1, 1] |
| WeightProfile.SelfCorrelation | backend/scripts/refit_ai_weight_profile.py:44-56 | a column of positive variance correlates with itself at exactly 1 |
| WeightProfile.CorrelationIsSymmetric | backend/scripts/refit_ai_weight_profile.py:44-56 | correlation does not depend on which column is the target |
| WeightProfile.NegationFlips | backend/scripts/refit_ai_weight_profile.py:44-56 | reversing a column reverses the correlation |
| WeightProfile.DeviationsSumToZeroIff | backend/scripts/refit_ai_weight_profile.py:48-49 | deviations sum to zero from the mean and from no other number |
| WeightProfile.CorrelationIgnoresShift | backend/scripts/refit_ai_weight_profile.py:48-56 | adding a constant to a column leaves its variance and its correlations |
| WeightProfile.NoCorrelation | backend/scripts/refit_ai_weight_profile.py:44-53 | with fewer than eight pairs, or a column without spread, the correlation is 0 |
| WeightProfile.Corr | backend/scripts/refit_ai_weight_profile.py:33-56 | the loop collects exactly the rows that have both values, and the result is their correlation, in [-1, 1] |
| WeightProfile.NormalizedWeights | backend/scripts/refit_ai_weight_profile.py:59-75 | before rounding, the weights have the default keys; they are the defaults when there is nothing to share, and else sum to exactly 1, are at least the floor, and order the features as the clipped raw values do |
| WeightProfile.OnlyPositiveEarns | backend/scripts/refit_ai_weight_profile.py:59-75 | when there is something to share, a feature without a positive raw value gets exactly the floor, and every other gets more |
| WeightProfile.RoundedWeights | backend/scripts/refit_ai_weight_profile.py:75 | after rounding to six digits the weights follow the same order, keep the floor, and sum to 1 up to half a unit of the last digit for each |
| WeightProfile.DerivedWeights | backend/scripts/refit_ai_weight_profile.py:78-92 | with enough rows a positive correlation stands as it is and any other counts as 0, with too few all are 0; each lies in [0, 1]; the weights are the defaults when there is nothing to share, and else sum to 1, order the features as these values do and keep the floor, 0.05 below twenty features |
| WeightProfile.OnlyPositiveCorrelationEarns | backend/scripts/refit_ai_weight_profile.py:78-92 | when there is something to share, a feature whose correlation with the target is not positive gets exactly the floor, and every other gets more |
| RateLimit.RefinesSimpleLimiter | backend/app/core/ratelimit.py:33-69 | under a nondecreasing clock every decision is that of a limiter that counts the accepted checks of the window, wherever cleanups happen |
| RateLimit.AcceptanceBounds | backend/app/core/ratelimit.py:35-59 | at most `limit` checks are accepted in any aligned window and at most twice that in any span of one window's length, at whatever instant it starts |
| RateLimit.DoubleLimitIsReached | backend/app/core/ratelimit.py:35-59 | for every limit and every window, checks at two instants within one window's length have twice the limit accepted |
| RateLimit.RetryLandsOnNextWindow | backend/app/core/ratelimit.py:57-59 | waiting out the retry hint lands in the first second of the next window, and a second less is still in the present one |
| RateLimit.Limiter.Enforce | backend/app/core/ratelimit.py:33-59 | 503 exactly for a limit or window below 1; else the counter is inserted or incremented exactly under the limit, and a refusal carries the retry hint |
| RateLimit.CleanupChangesNoDecision | backend/app/core/ratelimit.py:62-69 | a cleanup inserted anywhere in a run under a nondecreasing clock leaves every decision as it was |

## Left out

- Argument types: a value of another Python type (a cost that is a bool, an index that is a float) is not representable, so its rejection is not modelled; error texts are not modelled.
- `load_case`, `valid`, `cost`, `overlap`, `render_route`: seeded exercise defects. The cost of a delivery is an arbitrary fixed function of it.
- WordSelection.ExtendStates: masks are sets of letters, not integers, and the table is visited in any order rather than insertion order; the result does not depend on it.
- DriverActivity.Sweep: ties of the event order beyond (time, delta) are left open rather than broken by driver name; the result does not depend on them.
- WeightProfile.NormalizedWeights: states the weights before `round(..., 6)`, over exact reals; `RoundedWeights` says what rounding leaves of it.
- WeightProfile.DerivedWeights: likewise before rounding; the reported correlations are those before `round(v, 4)`.
- GradingLeases.StepGood: an operator retry is a step on any failed row; its admission and identity checks, and the digest check before a feedback's second write, only refuse these steps more often.
- WeightProfile.Corr: the square root is a parameter, required to be the positive root at the two variances.
- GradingWorker.GradingStore.ClaimNext: runs its statements without interference; interference between them is in `GradingLeases`, where they are separate steps, and before the last read in `Reread`.
- GradingLeases.PromptWorkerPublishes: counts the timeout from the claim's clock reading, since nothing in the code bounds the delay between that reading and the start of the run.
- Row columns that guard nothing (`started_at`, `finished_at`, `last_error` of grading jobs, snapshot paths and keys) and the unused parts of an assessment.
- The verification of a signed result, beyond its being genuine and bound to job, source, version and token.
- AiGrading.GradingRows.VisitRow: an answer counts as blank if it consists of spaces, tabs and line breaks; Python's `strip` knows more white space.
- AI grading of a row whose status is already final: candidates are listed before they are locked, so such a row may be claimed again; nothing is asserted against it.
- `poll_legacy`, the registry of legacy jobs and its reaper: reaping a job cancels it, which is modelled; answers 404 afterwards are not.
- `CapacityQueue.refresh`: it replaces the semaphore, and conservation is not claimed across it.
- The reads of `readCached` for public pages, and the refresh-and-retry of a request answered 401, which could send it again for another signed-in account.
- `enforce_rate_limit` without commit: an accepted check that its caller rolls back is not counted; only committed checks are modelled.
- HTTP, storage, providers, containers, migrations, configuration, metrics and logging.
