# Palai, verified

A Dafny model of the hard parts of Palai, a control plane for durable agent execution: the audit chain over
the session journal, the machine allocator with its bill and retry budget, the run protocol (commands,
approvals, tool calls, background tasks, wakes, cancels and detached children), and the publishing of a branch.

`dafny verify dfyconfig.toml` checks everything here.

## How it is modelled

- **Database.** A table is a map or a sequence. A transaction that holds its row's lock is one step, written
  once as a function of the tables. A method that spans several transactions, or one transaction whose
  statements do not exclude each other, is a program counter, and every other step may fall between two of
  its own. Everything is scoped to one tenant except machine placement, where tenancy is the point.
- **Imperative code.** The store's own methods are methods of classes (`SpineStore`, `ToolStore`, `TaskStore`,
  `JobStore`, `Allocator`, `RunStore`, `ParentStore`, `CredentialVault`), with the source's loops, each proved
  to be the function that the state machine takes as its step.
- **History.** A few fields are not in the tables and only remember what happened (why a run is waiting, how
  a claim ended, that an answer was lost). No step reads them.
- **Hashes.** SHA-256 is a parameter, any function to 32 bytes (16 where the source cuts it). A conclusion that
  would need injectivity says instead that two inputs hashed in the computation at hand collide.
- **Outside.** Clocks, random choices, what an engine, an observer or a disk answered and what an unlocked read
  saw are parameters or steps of the environment.

## The files

- `Bytes`, `KeyOrder`, `AuditChain`, `AuditDecode`, `AuditPrefix`, `AuditReport`, `AuditEvidence`: the row encoding and
  its reader, the chain, the checkpoint, the comparison, and what a comparison proves.
- `Books`, `Fleet`, `Holds`, `Allocator`: holds and their bill, placement under concurrent acquires and settles,
  HoldMachine under the writer lease, and the methods themselves.
- `Jobs`, `Tickets`, `JobStore`, `Backoff`: the retry budget across claims, parks and wakes, what a wake goes by, and
  the delay between attempts.
- `RunTable`, `Journal`, `Spine`, `Commands`, `Effects`, `CommandLife`, `Closings`, `Wakes`, `Quiet`, `SpineStore`: the
  shared tables, their transactions and what each does to the rows, the life of a command, what a closed session
  leaves, and every way a waiting run goes on.
- `Tools`, `ToolLedger`, `ToolResults`, `ToolEvents`, `ToolWaits`, `Background`, `ToolStore`: the approval gate and the park that
  follows it, the replay ledger and background tasks.
- `Cancel`, `Responses`, `Doubts`, `Subtree`, `Detach`, `RunStore`: cancelling against a racing engine, who owes an
  ended run its response, the doubt a cancel reads, the runs beneath it, and waking a parent released to its
  children.
- `Push`, `Vault`, `PublishKeys`, `Shell`, `NameStatus`: publishing a branch, its credential and its identities, and
  the two printers with their readers.

## Where the code does not do what is said of it

Each of these is kept as the code has it, shown on a family of states, and bounded by the exact condition under
which the property does hold.

- A gap alert says that anchored rows were removed; it is raised as well when rows were added below the
  anchored top (`AuditEvidence.InsertionIsAGap`). A lost row is said to show as a gap; replaced by one under another
  number, it shows as a tamper (`AuditEvidence.SwapIsATamper`). `AuditEvidence.GapExactly` says which.
- The refusal of a lease can name the session where the machine was full, after a settle
  (`Allocation.SettleCanMislead`); `Fleet.AnswerExact` says exactly when, and the other two refusals are always right.
- HoldMachine can answer the id of a hold closed between its read and its touch (`Holds.KeptIsOpenExactly`,
  `Holds.KeptCanBeClosed`).
- Lowering a machine's declared capacity below its load is the only way past the ceiling (`Fleet.CeilingStep`).
- The refund of a park is not fenced, so a leftover attempt can make another job pay
  (`Jobs.StaleMarkerOvercharges`); a wake overcharges, by one, exactly as `Jobs.WakeExactly` says.
- The backoff can overflow for caps above 2^62, and then panic (`Backoff.LargeCapOverflows`,
  `Backoff.OverflowPanics`).
- A command can stay queued on an ended run in two ways (`CommandLife.StrandedExactly`, `CommandLife.AcceptRaces`,
  `CommandLife.CarryRaces`).
- A comment says that a session closed under a live run stays closing until the run ends; nothing finishes the
  close then, and it stays closing for good (`Closings.ClosingForGood`).
- A command can be queued in a closed session: accepted on a read made before the close, or a notice to a run
  still live (`Closings.ShutExactly`, `Closings.QueuedShutWasLate`, `Closings.CloseRaces`).
- A leftover capacity marker lets a machine's arrival resume a paused run (`Wakes.MisleadsExactly`,
  `Wakes.StaleMarkerUnpauses`, `Wakes.StaleMarkerReached`).
- A decision that carries no request hash is bound to no particular call (`ToolResults.GateExact`,
  `ToolResults.EmptyHashApproves`).
- A comment on the approval wake says that the park looks again; it does not, so a decision that commits first
  leaves the run parked with nobody to wake it (`ToolWaits.AnswerableExactly`, `ToolWaits.DecidedBeforeParked`).
- The executing event is journaled for more than fresh pre-writes (`ToolResults.BeginTellsUnlessResolved`).
- A response can be finished by a terminal that its run refused: an engine's (`Cancel.LooseWriteDiverges`), or a
  failed recovery's, which leaves a canceled run under a failed response (`Cancel.RecoveryDiverges`);
  `Cancel.AgreeExactly` bounds both.
- An ended run's response stays open if the process that ended it is lost before its second write; only cancelling
  a canceled run again brings it on (`Responses.DanglesWhenDropped`, `Responses.OpenForGood`).
- A run in doubt can be written plainly canceled by three writes that do not look for doubt: a child's, an
  engine's own, and a cancel's whose call was marked after it looked (`Cancel.CleanExactly`,
  `Cancel.CleanCancelMissed`, `Cancel.ChildInDoubt`, `Cancel.EngineInDoubt`, `Cancel.DoubtInTheGap`).
- A cancel does not reach every descendant: one created deeper down after the cancel read them stays live
  (`Subtree.SurvivorsAreNew`, `Subtree.GrandchildEscapes`).
- Three steps leave a released parent with nobody to wake it, and no other does (`Detach.LostExactly`,
  `Detach.NoLostWake`, with `Detach.SilentEndStrands`, `Detach.CrashStrands` and `Detach.PauseStrands`).
- A divergence can be reported of a head this very call published (`Push.LostAnswerDiverges`).
- The credential file can outlive the push that wrote it: left unfinished, or not removable
  (`Push.FileGoneExactly`, `Push.FileOutlives`); and a helper written twice in two places leaves one
  (`Vaults.StraysExactly`).
- Name-status output cut inside a last path is read as a change to a shorter path (`NameStatus.CutAnywhere`,
  `NameStatus.CutTellsTruth`).

## Model

| member | source | states |
|---|---|---|
| `Bytes.FieldPrefixFree` | packages/audit/chain.go:82-87 | a length-prefixed field read off the front of equal byte strings is the same field, and so is the rest: no byte moves between neighbours |
| `Bytes.FormatIntInjective` | packages/audit/chain.go:96-97 | the decimal form of a 64-bit number determines it, sign included |
| `AuditChain.EncodeInjective` | packages/audit/chain.go:77-105 | the bytes a row is hashed over determine the whole row; an absent response id differs from an empty one |
| `AuditChain.RowDigest` | packages/audit/chain.go:80-105 | the digest written field by field is the hash of that encoding |
| `AuditChain.ChainInjective` | packages/audit/chain.go:107-124 | equal chains over equally many messages are over the same messages, or two inputs actually hashed collide |
| `AuditChain.SortedUnique` | packages/audit/chain.go:113-118 | under the unique (session, seq) key there is one sorted order, so an unstable sort has no choice |
| `AuditChain.KeyedByIsNeeded` | packages/audit/chain.go:113-118 | without that key there are two sorted orders of the very rows given: the condition is exact |
| `AuditChain.HeadPermutes` | packages/audit/chain.go:107-126 | the head is the same for every order the rows arrive in |
| `AuditChain.HeadInjective` | packages/audit/chain.go:110-126 | equal heads over equally many rows: the same rows, or a collision among what was hashed |
| `AuditChain.FoldRows` | packages/audit/chain.go:119-124 | the loop computes the chain over the rows it is given, in that order |
| `AuditChain.Head` | packages/audit/chain.go:110-126 | the copy, sort and fold give the chain along some sorted permutation, and the canonical head under the key |
| `AuditDecode.EncodeReads` | packages/audit/chain.go:77-105 | a decoder written apart reads the bytes a row is hashed over back to that row, each field in its place |
| `AuditDecode.HeadReadsBack` | packages/audit/chain.go:107-126 | the printed head is the prefix and digits that read back to the chain along any sorted order of the rows |
| `AuditDecode.ChainOf` | packages/audit/chain.go:119-124 | no rows give 32 zero bytes; one more row gives the hash of the head so far and that row's digest |
| `AuditPrefix.PrefixCounts` | packages/audit/report.go:140-150 | the prefix loop keeps each row at or below the top as often as the journal holds it and drops every other |
| `AuditPrefix.TopPermutes` | packages/audit/chain.go:150-155 | the running maximum depends on the rows and not their order |
| `AuditPrefix.GroupBySession` | packages/audit/chain.go:140-143 | the map built by the loop holds each session's rows in arrival order and no other key |
| `AuditPrefix.IdsUnique` | packages/audit/chain.go:144-148 | however the map is walked, its keys sort to one list |
| `AuditReport.SummarizeGroups` | packages/audit/chain.go:149-158 | one anchor per session: its count, its top seq and the head over exactly its rows |
| `AuditReport.NewCheckpoint` | packages/audit/checkpoint.go:46-59 | the checkpoint of a journal, and said by its fields: version, algorithm, head and count of all rows, one anchor in byte order for exactly each session the rows mention, with that session's own count, top and head |
| `AuditReport.CheckpointIsTrue` | packages/audit/checkpoint.go:46-59 | the same of the specification |
| `AuditReport.CheckpointPermutes` | packages/audit/checkpoint.go:46-59 | the checkpoint is the same for every order the rows were read in |
| `AuditReport.Judge` | packages/audit/report.go:152-175 | one session's figures give at most one alert, and it names that session |
| `AuditReport.PrefixAndTop` | packages/audit/report.go:141-150 | the inner loop computes the prefix and its top seq together |
| `AuditReport.JudgeAll` | packages/audit/report.go:139-176 | the outer loop collects every prefix and every verdict, anchor by anchor |
| `AuditReport.Compare` | packages/audit/report.go:116-191 | for any checkpoint: OK exactly when version and algorithm are known, the recomputed head is the checkpoint's and every anchor matches its rows; OK exactly when there is no alert; an unknown version or algorithm gives the one malformed alert and is not OK; every anchor that does not match is told of |
| `AuditReport.ReportIsTrue` | packages/audit/report.go:116-191 | the same of the report along any order of the anchors |
| `AuditReport.AnchoredCounts` | packages/audit/report.go:149-179 | where no session is listed twice the anchored rows are exactly the covered rows, each as often as the journal holds it |
| `AuditEvidence.HonestOrder` | packages/audit/report.go:135-137 | an honest checkpoint's anchors have one sorted order, their own |
| `AuditEvidence.DeletionIsAGap` | packages/audit/report.go:92-161 | only deleting anchored rows gives one gap for that session and no tamper |
| `AuditEvidence.RewriteIsATamper` | packages/audit/report.go:92-175 | only rewriting bytes under unchanged keys gives one tamper and no gap, or a collision |
| `AuditEvidence.InsertionIsAGap` | packages/audit/report.go:152-163 | rows added at or below the anchored top are reported as a gap as well, though nothing was removed |
| `AuditEvidence.GapExactly` | packages/audit/report.go:92-175 | where rows at or below the top were only removed or only added there is a gap exactly when any was; otherwise exactly when the counts or tops differ; any other change is a tamper, or a collision |
| `AuditEvidence.SwapIsATamper` | packages/audit/report.go:92-107 | a lost row whose place another took under another seq is reported as a tamper, not as a gap |
| `AuditEvidence.IntactIsSilent` | packages/audit/report.go:137-176 | an untouched session gives no alert |
| `AuditEvidence.AlertsPerSession` | packages/audit/report.go:137-190 | the alerts about a session are its own verdict, at most one; a session the checkpoint never saw gets none |
| `AuditEvidence.TamperEvidence` | packages/audit/report.go:116-191 | the report is OK if every anchored prefix is intact, and only then unless a collision among the hashed inputs is exhibited |
| `AuditEvidence.NeverInconsistent` | packages/audit/report.go:178-188 | the internally-inconsistent branch never fires for an honest checkpoint, short of a collision |
| `AuditEvidence.RowsAccounted` | packages/audit/report.go:178-180 | anchored and unanchored counts add up to the rows read, and the unanchored rows are exactly those above a recorded top or in an unseen session |
| `AuditEvidence.NewRowsNeverMatter` | packages/audit/report.go:86-91 | for any checkpoint, rows above the anchored tops or in new sessions change the unanchored count and nothing else, wherever they turn up |
| `AuditEvidence.UnchangedPasses` | packages/audit/report.go:116-191 | a journal read again unchanged, in any order, passes |
| `AuditEvidence.EmptyCutPasses` | packages/audit/checkpoint.go:68-85 | a checkpoint over no rows passes against every journal, which is what the signing refusal is for |
| `AuditEvidence.CutThenVerify` | packages/audit/report.go:116-191 | cutting, re-reading and comparing end to end: OK if the prefix is intact, and only then or with a collision |
| `Books.LedgerConservation` | packages/coordinator/occupancy_billing.go:164-239 | in every state of every run of holds, touches and settles: one entry per hold at most, each a closed hold's exact bill, every positive bill entered, totals equal |
| `Books.EntryIff` | packages/coordinator/occupancy_billing.go:172-186 | a hold has an entry exactly when it is closed with time to bill |
| `Books.ClosedForGood` | packages/coordinator/occupancy_billing.go:172-176 | once closed, a hold's row, bill and entry never change, whatever is touched or settled later |
| `Books.BillIsSpanLessGapsAndTails` | packages/coordinator/occupancy_billing.go:24-33 | the bill of consecutive holds is the span from first start to last release, less gaps and idle tails, exactly |
| `Books.SettleBalanced` | packages/coordinator/occupancy_billing.go:194-239 | closing and billing in one transaction keeps the books balanced, first or repeated |
| `Fleet.Ceiling` | packages/coordinator/occupancy.go:124-211 | over every interleaving of lock, insert, commit, abort, settle and re-declaration, no machine carries more than its capacity unless that was lowered below its load |
| `Fleet.CeilingStep` | storage/queries/leases.sql:39-112 | one step keeps the ceiling exactly when it does not lower the capacity below the load |
| `Fleet.GrantFits` | storage/queries/leases.sql:105-112 | whatever adds to a machine's load is an insert, and leaves it within the capacity then in force |
| `Fleet.Exclusivity` | storage/queries/leases.sql:88-111 | in every reachable state all open holds on one machine are one project's, the project their sessions belong to |
| `Fleet.AnswerExact` | packages/coordinator/occupancy.go:176-203 | a step that answers a refusal gives another reason than the INSERT had exactly when its last read finds room again on a machine that was full or another's; it then names the session, after a settle |
| `Fleet.RefusalsTruthful` | packages/coordinator/occupancy.go:176-203 | over every run, each refusal ever answered was given at one step and is the INSERT's own reason exactly unless that step misnames |
| `Fleet.OpenOnCounts` | storage/queries/leases.sql:105-112 | the guard's count is the number of open rows of the machine |
| `Fleet.LockedExactly` | packages/coordinator/occupancy.go:148-211 | over every run a machine's row is locked exactly since an acquire took it and until that acquire committed, rolled back or answered |
| `Fleet.OwnersAre` | storage/queries/leases.sql:39-112 | over every run a machine belongs to whom it was enrolled for and a session to the project that opened it |
| `Allocation.SettleCanMislead` | packages/coordinator/occupancy.go:187-203 | on any machine exactly full of the caller's holds, a settle between INSERT and re-read makes it report a visible session as unavailable |
| `Allocation.Allocator.AcquireLease` | packages/coordinator/occupancy.go:148-211 | undisturbed: grants exactly when the machine is offered, the session the project's, room is left and nobody else holds it, adds that row and no other, and otherwise names the reason in the source's order |
| `Allocation.Allocator.TouchLease` | packages/coordinator/occupancy.go:286-301 | moves the last activity of an open hold only; reports an id nothing answers to |
| `Allocation.Allocator.SettleOccupancy` | packages/coordinator/occupancy_billing.go:194-239 | only the call that closes a hold reports so; it closes the row now and for the reason given and appends that hold's bill, up to the last activity when idle and to now otherwise; a closed one is left alone, an unknown one reported |
| `Allocation.Allocator.SettleUsage` | packages/coordinator/usage.go:192-204 | appends one entry for a positive quantity whose key is new, and nothing otherwise |
| `Allocation.Allocator.OpenOccupancy` | packages/coordinator/occupancy_billing.go:67-80 | the loop returns the last open hold of the session, if there is one |
| `Allocation.Allocator.HoldMachine` | packages/coordinator/occupancy_billing.go:143-162 | keeps the hold alive, or closes it as lost, now, and acquires, or acquires; each said by the rows |
| `Allocation.AcquireIsARun` | packages/coordinator/occupancy.go:148-211 | an undisturbed acquire is the run lock, insert, commit of the concurrent machine, with the exact refusal |
| `Allocation.HoldKeeps` | packages/coordinator/occupancy_billing.go:130-162 | a hold taken alone keeps every invariant and is then the session's one open hold, on that machine |
| `Allocation.UnserialisedHoldsTwice` | packages/coordinator/occupancy_billing.go:62-66 | two unserialised calls leave a session holding two machines exactly where it holds nothing and both machines would take it |
| `Holds.OneOpenHold` | packages/coordinator/occupancy_billing.go:54-162 | with one HoldMachine per session at a time, in every interleaving, holds of a session never overlap and only the last can be open |
| `Holds.SessionBill` | packages/coordinator/occupancy_billing.go:24-33 | in every state of every such run, all of a session's holds but the last are closed and its bill so far is their span less gaps and idle tails, so never more than that span; a hold still open began after it |
| `Holds.KeptIsOpenExactly` | packages/coordinator/occupancy_billing.go:143-155 | over every run, the id HoldMachine answers when it keeps a hold is one of this session on this machine, still open exactly when nobody settled it between the read and the touch |
| `Holds.KeptCanBeClosed` | packages/coordinator/occupancy_billing.go:143-155 | and it happens: wherever a session with no call in flight holds a machine, a settle between read and touch makes the call answer a closed hold |
| `Holds.LeaveCloses` | packages/coordinator/occupancy_billing.go:143-162 | between its steps too, a hold left for another machine is closed as lost, now, unless somebody closed it first, and no other row changes |
| `Jobs.WaitingIsFree` | packages/coordinator/placement.go:146-191 | in every reachable state a job's count is its seed plus its claims less soft requeues and parks; a dead one has a failed or lost claim of its own |
| `Jobs.ParkSound` | storage/queries/jobs.sql:37-64 | the refund's floor is never reached: the claim given back was counted |
| `Jobs.WokenSound` | storage/queries/jobs.sql:9-35 | the wake's job starts at exactly the newest job's count |
| `Jobs.ChargesExactly` | packages/coordinator/lease.go:95-191 | a job has spent no more than its seed and its failed or lost claims exactly when some claim of it was parked or its last claim is settled; otherwise exactly one attempt more |
| `Jobs.WakeExactly` | storage/queries/jobs.sql:9-35 | a capacity wake seeds its job beyond what the newest job was seeded with and burned exactly when that job is not fair in this sense, and then by one; the newest job's own marker makes it fair |
| `Jobs.DeadMeansBurned` | packages/coordinator/lease.go:95-191 | a dead job has at least MaxAttempts failed or lost attempts along the chain that carried its count, in every run without such a wake |
| `Jobs.StaleMarkerOvercharges` | storage/queries/jobs.sql:37-64 | such a wake happens: the unfenced refund of a leftover attempt lets a job die of one failure where two are allowed |
| `Jobs.DiesExactly` | packages/coordinator/lease.go:95-191 | a job comes to be dead exactly by a failure of the claim that holds it, or by the sweep after its lease lapsed, and in both only with its attempts used up |
| `Jobs.DiedAt` | packages/coordinator/lease.go:95-191 | over every run each dead job died at one step, in one of those two ways |
| `Tickets.WaitsExactly` | packages/coordinator/placement.go:146-191 | over every run a run waits exactly when it was suspended or parked and neither a wake nor an enqueue came since |
| `Tickets.MarkedExactly` | storage/queries/runners.sql:507-551 | over every run the awaiting_capacity marker names a job exactly when that job was the last of its run to park and no attempt was recorded since |
| `Tickets.NewestIsLast` | storage/queries/jobs.sql:9-35 | in every reachable state the newest job of a run is the last one enqueued for it |
| `Tickets.WakeFound` | packages/coordinator/placement.go:350-383 | every capacity wake finds such a park and such a rest, and its job goes on from the run's last one |
| `JobTable.JobStore.ClaimJob` | storage/queries/jobs.sql:66-88 | claims a queued or lapsed job at the next fence, renewed, running and counted; anything else is refused and left |
| `JobTable.JobStore.Heartbeat` | packages/coordinator/lease.go:47-64 | renews for the running holder only |
| `JobTable.JobStore.Fail` | packages/coordinator/lease.go:107-145 | requeues, or dead-letters once the row's own count has reached the maximum; stale exactly when not the running holder, and then nothing changes |
| `JobTable.JobStore.RequeueSoft` | packages/coordinator/lease.go:157-174 | requeues and gives the claim back, never below zero; stale exactly when not the running holder, and then nothing changes |
| `JobTable.JobStore.ReclaimExpired` | packages/coordinator/lease.go:181-191 | one bounded sweep: a row changes only from running, lapsed and out of attempts to dead, the answer is how many did, and with room to spare none such is left |
| `JobTable.SweepSound` | storage/queries/jobs.sql:235-256 | the same of the sweep's function |
| `Backoff.FullJitterBackoff` | packages/coordinator/lease.go:278-290 | for every attempt, base and cap, in 64-bit arithmetic: the delay is any value up to what the doublings reached, capped; it panics exactly when that is negative or 2^63-1; with no overflow it is min(max, base doubled) |
| `Backoff.Double` | packages/coordinator/lease.go:282-285 | the loop makes n doublings, each from below max, and stops early only at max; it overflows exactly when some doubling below max starts at 2^62 or above, and otherwise reaches the ideal ceiling |
| `Backoff.LargeCapOverflows` | packages/coordinator/lease.go:273-285 | a cap overflows a base exactly when it lies above the one doubling of it at or above 2^62, and then at every attempt after that: the comment that a large attempt cannot overflow is not true of every cap |
| `Backoff.OverflowPanics` | packages/coordinator/lease.go:282-289 | the attempt right after that doubling has a negative ceiling, which the random source panics on |
| `RunTable.Apply` | packages/state-machines/statemachine.go:25-33 | the search of the table finds the one row for state and command, or none |
| `RunTable.TerminalIsAbsorbing` | packages/state-machines/statemachine.go:35-48 | the terminal states are exactly those no command leaves, and each is reached |
| `RunTable.TableShape` | packages/state-machines/run.go:34-53 | which states and commands lead to each state, both ways |
| `Journal.SequencesIncrease` | storage/queries/events.sql:1-10 | within a session the numbers strictly increase |
| `Journal.SequencesComplete` | packages/coordinator/orchestration.go:455-473 | and leave no gap: every number up to the last is some event's |
| `Spine.TransitJournaled` | packages/coordinator/store.go:462-545 | a transition with its event and its sweep keeps the journal and every command's life in step |
| `Spine.ApplyJournaled` | packages/coordinator/commands.go:622-654 | applying a queued command journals one event whose number is the applied sequence |
| `Spine.ExpireJournaled` | packages/coordinator/commands.go:787-822 | a sweep journals one expiry for each row it expires and no other |
| `CommandLife.CommandLifecycle` | packages/coordinator/commands.go:87-204 | in every state of every run: no gap in any session, each command accepted once with at most one end, and the applied sequence is its only applied event's |
| `CommandLife.EndIsFinal` | packages/coordinator/commands.go:622-654 | no step moves a command that is applied, rejected or expired, or changes what any command is |
| `CommandLife.EndsStay` | packages/coordinator/commands.go:616-654 | the same over whole runs |
| `CommandLife.StrandedExactly` | packages/coordinator/commands.go:777-822 | after a step nothing but change_config, or send_message on a completed run, is queued on a terminal run, exactly unless it accepts for a run read as active that has ended or carries to a run ended otherwise |
| `CommandLife.NeverStranded` | packages/coordinator/commands.go:777-822 | the same over every run without such a step |
| `CommandLife.AcceptRaces` | packages/coordinator/commands.go:87-204 | the first happens: a pause read against any live run that is canceled before the accept |
| `CommandLife.CarryRaces` | packages/coordinator/commands.go:862-869 | and the second: a message to be carried to any live run that is canceled first |
| `Wakes.SingleWinner` | packages/coordinator/approvals.go:540-578 | every step either wakes no run and enqueues nothing, or wakes one and enqueues its job once, admission and reconciler aside |
| `Wakes.JobsAreWakes` | packages/coordinator/approvals.go:540-578 | over every run a run's jobs are its wakes plus its admission and re-enqueues |
| `Wakes.MarksExactly` | storage/queries/runners.sql:507-551 | the awaiting_capacity marker stays true of waiting runs exactly unless one is made to wait for something else under a leftover marker |
| `Wakes.MisleadsExactly` | storage/queries/runners.sql:507-551 | in every state of every run a waiting run carries the marker of another wait exactly when it was made to wait under a leftover marker and since then neither an attempt was recorded nor that wait left |
| `Wakes.CapacityWakesCapacity` | packages/coordinator/placement.go:342-383 | over every run a capacity wake finds a run parked for capacity exactly unless it was so made to wait |
| `Wakes.StaleMarkerUnpauses` | storage/queries/runners.sql:507-551 | with one, the next capacity wake resumes a run its user paused |
| `Wakes.StaleMarkerReached` | storage/queries/runners.sql:507-551 | and the state it starts from is reached from an empty database, for any session and run |
| `SpineTables.SpineStore.AppendEvent` | packages/coordinator/orchestration.go:459-473 | the event takes the session's next number, which is returned |
| `Effects.SweepRows` | packages/coordinator/commands.go:787-822 | sweeping an ended run expires exactly what is queued on it, save a change of configuration and, where it completed, a message; every other row stays |
| `Effects.SweepTells` | packages/coordinator/commands.go:787-854 | and journals one event for each row expired and each message a completed run leaves, all in the one session |
| `Effects.CloseRows` | packages/coordinator/commands.go:297-323 | closing an open session expires exactly what else is queued in it and leaves it closed or, under a live run, closing; a session not open stays as it is |
| `Effects.CloseTells` | packages/coordinator/commands.go:297-323 | and journals the move first, one expiry for each row, and the finish last where no run is live |
| `Effects.TransitTells` | packages/coordinator/store.go:462-545 | a transition journals its own event first and then what its sweep tells, all in the run's session |
| `Effects.AcceptRows` | packages/coordinator/commands.go:87-204 | a new id adds one row as asked for, answered by kind and what was read; other rows move only if it closes the session, a run only if it resumes one, another session only if it forks |
| `Closings.ShutExactly` | packages/coordinator/commands.go:285-323 | a step leaves something queued in a closing or closed session exactly when it is an accept that read the session as active before the close, or a notice to a run still live there |
| `Closings.QueuedShutWasLate` | packages/coordinator/commands.go:445-467 | over every run no command accepted before a close is still queued in a closing or closed session: each that is was accepted late |
| `Closings.CloseRaces` | packages/coordinator/commands.go:87-204 | late accepts happen: a change of configuration read against any open session that is closed first |
| `Closings.ShutWhenClosed` | packages/coordinator/commands.go:297-323 | over every run a session is active until a close is accepted for it and closing or closed from then on |
| `Closings.ClosingForGood` | packages/coordinator/commands.go:309-315 | over every run a session closed under a live run stays closing for good: nothing finishes its close |
| `SpineTables.SpineStore.SweepQueuedCommands` | packages/coordinator/commands.go:787-854 | the loops expire, journal and warn, said by the rows' own columns and the number of events |
| `SpineTables.SpineStore.ApplyRunTransition` | packages/coordinator/store.go:462-545 | succeeds exactly where the table allows: the run, its cause, its queue and its events, first its own; otherwise changes nothing |
| `SpineTables.SpineStore.WakeParkedRun` | packages/coordinator/approvals.go:551-578 | resumes and enqueues together, only a waiting run |
| `SpineTables.SpineStore.AcceptCommand` | packages/coordinator/commands.go:87-204 | unknown session, replay, rejection, immediate settlement or queueing: the new row and every other, by their columns |
| `SpineTables.SpineStore.ApplyCommand` | packages/coordinator/commands.go:555-578 | applies exactly when the run is live and the command queued |
| `SpineTables.SpineStore.PauseRun` | packages/coordinator/commands.go:678-697 | waits and applies together or does neither |
| `SpineTables.SpineStore.InterruptModelStep` | packages/coordinator/commands.go:738-775 | journals the partial step and applies together or does neither |
| `SpineTables.SpineStore.CarrySessionSendMessages` | packages/coordinator/commands.go:862-869 | re-scopes exactly the queued messages of ended runs of the session, and answers how many |
| `SpineTables.SpineStore.CloseInTx` | packages/coordinator/commands.go:297-323 | closes an open session, expires exactly its other queued commands, finishes the close when no run is active, and journals each in order |
| `SpineTables.SpineStore.ResumeInTx` | packages/coordinator/commands.go:388-422 | rejects without a waiting run; otherwise wakes it and applies in its session |
| `SpineTables.SpineStore.ParkRunForCapacity` | packages/coordinator/placement.go:166-191 | waits and marks together |
| `SpineTables.SpineStore.WakeRunAwaitingCapacity` | packages/coordinator/placement.go:350-383 | wakes a marked waiting run with one job |
| `Tools.RowsFollow` | storage/queries/responses.sql:236-297 | every step moves a tool call along the allowed edges, keeps its run and hash, and never lowers its fence |
| `ToolResults.GateExact` | packages/coordinator/approvals.go:315-421 | a step makes a call ready exactly when it is an approving click by an allowed principal on a pending call, not past the deadline, with the call's hash or none |
| `ToolResults.EmptyHashApproves` | packages/coordinator/approvals.go:377-379 | a click without a hash approves whatever is pending |
| `ToolResults.VoidClick` | packages/coordinator/approvals.go:315-379 | a click that does not decide changes nothing, except that a late one expires the call |
| `ToolResults.ExitAwakes` | packages/coordinator/approvals.go:504-578 | whatever step takes a call out of the gate leaves its run not waiting |
| `ToolResults.LeavesOnce` | packages/coordinator/approvals.go:315-521 | in every reachable state a gated call has one ready or withdrawn event exactly when it is no longer pending |
| `ToolWaits.AnswerableExactly` | packages/coordinator/approvals.go:551-563 | a step leaves a run parked for approval with nothing at the gate exactly when it is the park itself, coming after its last call was decided; no decision or expiry does |
| `ToolWaits.UnansweredUntil` | packages/coordinator/approvals.go:551-563 | and then it stays so exactly until another of its calls comes to the gate or something else resumes, wakes or ends it; no click or deadline will |
| `ToolWaits.NoLostAnswer` | apps/control-plane/internal/execution/approval.go:72-87 | in every state of every run, a run is parked for an approval nobody can give exactly when it parked late and nothing else has brought it on since |
| `ToolWaits.DecidedBeforeParked` | apps/control-plane/internal/execution/tool_dispatch.go:179-224 | late parks happen: a click between the request and the park wakes nobody and the park does not look again |
| `ToolResults.NeverReturns` | packages/coordinator/approvals.go:115-185 | a call that left the gate never comes back |
| `ToolResults.ToldOnce` | packages/coordinator/orchestration.go:573-742 | in every reachable state completion, doubt and reconciliation have each been journaled exactly as often as the row's state says: once or not at all |
| `ToolResults.SettledForGood` | packages/coordinator/orchestration.go:820-865 | a completed, withdrawn or reconciled call keeps its state and result for good |
| `ToolResults.BeginTellsUnlessResolved` | packages/coordinator/orchestration.go:648-707 | the executing event is journaled for every unresolved row, not only a fresh one |
| `ToolEvents.DeedTells` | packages/coordinator/approvals.go:115-521 | every request, decision, expiry, pre-write, commit, doubt and reconciliation journals exactly the events listed for it, in order, in its run's session, numbered on; a run it resumes included |
| `ToolTables.ToolStore.RequestToolApproval` | packages/coordinator/approvals.go:115-185 | parks a new call and opens its approval; a call already there is left as it is |
| `ToolTables.ToolStore.DecideToolApproval` | packages/coordinator/approvals.go:315-421 | refused exactly for a principal not on a non-empty list; decides exactly a pending call not past its deadline under its hash or none: state, result, record and wake by the rows; a late click withdraws; anything else changes nothing |
| `ToolTables.ToolStore.ExpireToolCall` | packages/coordinator/approvals.go:504-521 | withdraws, journals and wakes |
| `ToolTables.ToolStore.SweepExpiredToolApprovals` | packages/coordinator/approvals.go:431-465 | the loop withdraws each candidate still pending, leaves every other row and answers how many |
| `ToolTables.ToolStore.BeginToolCall` | packages/coordinator/orchestration.go:652-710 | a new row in flight, or the higher fence and a ready one put in flight; a resolved one and an ended run change nothing |
| `ToolTables.ToolStore.CommitToolResult` | packages/coordinator/orchestration.go:584-629 | ended run, stale and committed told apart by run, state and fence; only a commit writes, and only a call in flight at no higher fence |
| `ToolTables.ToolStore.MarkToolCallUncertain` | packages/coordinator/orchestration.go:716-742 | doubts a call in flight, once |
| `ToolTables.ToolStore.ReconcileToolCall` | packages/coordinator/orchestration.go:826-865 | settles an uncertain call, once |
| `Background.ToldExactlyOnce` | packages/coordinator/background.go:204-307 | in every reachable state a settled task has one queued notice or one orphan warning, never both, the warning only for an ended run, and a task ended on purpose has neither |
| `Background.SweepDelivers` | packages/coordinator/background.go:224-307 | the settle that wins queues the notice on its live run and leaves it not waiting; a second one changes nothing |
| `ToolTables.TaskStore.SettleTask` | packages/coordinator/background.go:224-307 | true exactly when nobody has told of it and the id is new; then an orphan warning for an ended run, or the notice's row and the wake |
| `ToolTables.TaskStore.SettleEndedTask` | packages/coordinator/background.go:491-506 | stamps a running task ended on purpose |
| `ToolTables.TaskStore.SweepFinished` | packages/coordinator/background.go:152-177 | the loop settles each task observed finished and counts the claims it won |
| `ToolTables.SweepKeeps` | packages/coordinator/background.go:152-177 | a pass over any list, however stale, keeps every task told at most once |
| `ToolTables.SweepTasks` | packages/coordinator/background.go:152-177 | a pass leaves every task not observed finished as it was, and of each that was, somebody has now told, unless the notice's id was taken |
| `Cancel.OneTerminal` | storage/queries/responses.sql:190-200 | no step moves a run that has ended or a response that has finished |
| `Cancel.CanceledMeansCanceled` | packages/coordinator/orchestration.go:317-407 | over every interleaving a response is canceled, cleanly or uncertainly, only where its run is canceled |
| `Cancel.AgreeExactly` | apps/control-plane/internal/execution/finalize.go:214-221 | a finished response no loose write reached names its run's own terminal, whichever it is; a canceled run's does so exactly unless a terminal its run had refused - an engine's or a failed recovery's - wrote it first |
| `Cancel.CancelReturns` | packages/coordinator/orchestration.go:349-407 | when a cancel returns its run and every child it found are over, and a canceled run's response is canceled or uncertain unless written loosely |
| `Cancel.LooseWriteDiverges` | apps/control-plane/internal/execution/finalize.go:214-221 | an attempt that reports completion of a waiting run leaves it, once canceled, under a completed response |
| `Cancel.RecoveryDiverges` | apps/control-plane/internal/execution/restore.go:312-337 | a recovery that fails after its run was canceled, and before the cancel writes, leaves the canceled run under a failed response |
| `Cancel.CleanExactly` | packages/coordinator/orchestration.go:317-407 | a step finishes a response as plainly canceled under a call in doubt exactly when it is one of three writes that do not look - a child's, an engine's own, a cancel's that saw nothing - to an open response of a run in doubt; as uncertain exactly when it is the last write of a cancel that saw doubt |
| `Cancel.CleanInDoubtExactly` | packages/coordinator/orchestration.go:317-407 | the same over whole runs |
| `Cancel.CleanCancelMissed` | packages/coordinator/orchestration.go:349-366 | over every run a plainly canceled response was written by one of the three; where it was the cancel's own and its run in doubt, the call was marked between that cancel's read and its transition |
| `Cancel.DoubtInTheGap` | packages/coordinator/orchestration.go:349-366 | the gap happens |
| `Cancel.ChildInDoubt` | packages/coordinator/orchestration.go:317-337 | a child in doubt is written plainly canceled by its ancestor's cancel, with no gap |
| `Cancel.EngineInDoubt` | apps/control-plane/internal/execution/finalize.go:214-274 | a run in doubt whose engine reports canceled is written plainly canceled |
| `Cancel.UncertainWasSeen` | packages/coordinator/orchestration.go:349-407 | over every run an uncertain response was written by a cancel whose first read found its run in doubt |
| `Responses.DanglesExactly` | packages/coordinator/orchestration.go:317-407 | a step leaves an ended run's open response to nobody exactly when it loses the only caller that owed the write, or it was nobody's and the step does not cancel a canceled run anew |
| `Responses.DanglesWhenDropped` | apps/control-plane/internal/execution/finalize.go:214-274 | over every run an ended run's response is open and nobody's exactly when the last caller that owed it was lost and nobody has cancelled a canceled run anew since |
| `Responses.AnsweredUnlessDropped` | packages/coordinator/orchestration.go:953-963 | without a lost caller, an ended run to which nobody owes a write has a finished response |
| `Responses.OpenForGood` | apps/control-plane/internal/execution/finalize.go:214-221 | a run that ended otherwise than canceled and lost its writer keeps its response open, whatever is done afterwards |
| `Doubts.DoubtMoves` | storage/queries/responses.sql:223-229 | a run comes to be in doubt exactly by a mark on its irreversible or interactive call in flight while it lives, and leaves it exactly when its only uncertain call is reconciled to an answer |
| `Doubts.DoubtIsLedger` | storage/queries/responses.sql:284-297 | whatever a transaction of the tool ledger does to doubt is one of the steps the cancelling machine allows, or none |
| `Doubts.ManualIsForGood` | packages/coordinator/orchestration.go:826-865 | over every run, a call left to a human keeps its run in doubt for good: nothing settles it |
| `Subtree.SurvivorsAreNew` | packages/coordinator/orchestration.go:289-337 | when a cancel returns, every descendant that existed at its read and every direct child, whenever created, is over; only deeper descendants created since the read can be live |
| `Subtree.GrandchildEscapes` | packages/coordinator/orchestration.go:166-182 | those happen: a child that spawns after the read and before its own cancel leaves a live grandchild |
| `RunTables.RunStore.CancelChildren` | packages/coordinator/orchestration.go:317-337 | the loop cancels each child still live, finishes its response if open, leaves every other run and response, and answers how many distinct live ones there were |
| `RunTables.RunStore.CancelRunReconciled` | packages/coordinator/orchestration.go:349-407 | undisturbed: run and children over, an ended run untouched, an open response finished as canceled or uncertain by the doubt read first, each live child's as canceled, and no other response moved |
| `RunTables.RunStore.SweepDeadLetteredRuns` | packages/coordinator/lease.go:222-271 | each run that can still fail is failed, its response, if open, finished as failed, and owes its parent a wake; no other run or response moves |
| `RunTables.KidsAreOver` | packages/coordinator/orchestration.go:317-337 | every child named is over afterwards and an ended run is unchanged |
| `RunTables.KidsAnswered` | packages/coordinator/orchestration.go:317-337 | a response is written exactly where its run is a live child named and it was open, and then as canceled |
| `RunTables.KidsCounted` | packages/coordinator/orchestration.go:317-337 | the count is of the distinct live children named |
| `Detach.LostExactly` | packages/coordinator/detach.go:63-143 | a step leaves a released parent with no live child and no wake outstanding exactly when its last child ends by a path that owes no wake with none outstanding, its only waker is lost, or its only wake finds a pause queued, no child being left |
| `Detach.LostUntilRescued` | packages/coordinator/detach.go:63-143 | and then it stays so exactly until something else wakes it, it ends or it is given another child; nothing its present children and their wakers do brings it back |
| `Detach.NoLostWake` | packages/coordinator/detach.go:63-143 | in every state of every run a released parent has a live child or a wake outstanding, exactly unless one of the three lost it and since then nothing has woken it, ended it or given it another child |
| `Detach.OutstandingWakes` | packages/coordinator/detach.go:90-143 | an outstanding wake with no live child and no pause queued re-enters the parent with one job, from wherever it stands |
| `Detach.WakeFindsChildrenDone` | packages/coordinator/detach.go:81-89 | a wake that commits finds every child over and the parent waiting, and adds its job; its row lock keeps new children out |
| `Detach.JobPerStart` | packages/coordinator/detach.go:90-143 | over every run a run has had one job for its birth, unless its parent runs it inline, and one for each time it came out of a wait |
| `Detach.PausedExactly` | packages/coordinator/detach.go:107-120 | over every run a pause is queued exactly since a command queued it and until one settles it |
| `RunTables.ParentStore.WakeDetachedParent` | packages/coordinator/detach.go:90-143 | wakes exactly a waiting parent with no pause queued and no live child |
| `RunTables.WakeAloneIsARun` | packages/coordinator/detach.go:90-143 | undisturbed, the four statements wake exactly when the method does and leave the same rows |
| `Push.OnlyFastForwardToHead` | adapters/repositories/publish.go:109-160 | in every interleaving the call changes the ref at most once, by one push, to the head, from nothing or from a commit the head descends from |
| `Push.ReturnsTrue` | adapters/repositories/publish.go:115-182 | a receipt names the head or a descendant; a divergence means nothing was moved unless a taken push went unanswered; on every return the handle is gone |
| `Push.HandleLives` | adapters/repositories/publish.go:115-138 | in every interleaving the call's own handle is in the vault exactly from its mint to the end of the call |
| `Push.AnswerOn` | adapters/repositories/publish.go:139-182 | which answer a step decides and on what it read: reconciled receipt, receipt, divergence or failure, each both ways |
| `Push.TakenIsReceipt` | adapters/repositories/publish.go:171-182 | a push that was taken returns a receipt for what is read after it, the head or a descendant |
| `Push.FileGoneExactly` | adapters/repositories/publish.go:129-138 | on every return the credential file is gone exactly unless its writing failed after it was opened or the revoke, whose error is dropped, could not remove it |
| `Push.FileOutlives` | adapters/repositories/publish.go:129-138 | both happen, and the call returns as if nothing had |
| `Push.ForeignDivergenceMovedNothing` | adapters/repositories/publish.go:157-170 | a divergence onto a commit that does not descend from the head proves nothing was moved |
| `Push.LostAnswerDiverges` | adapters/repositories/publish.go:157-170 | a divergence can be reported of a head this very call published |
| `PublishKeys.RequestHashBinds` | adapters/repositories/publish.go:73-82 | equal request hashes over NUL-free fields mean the same operation, head included, or a collision |
| `PublishKeys.HeadInKey` | adapters/repositories/publish.go:50-71 | a pull request's key ignores the head; a push or merge of another head has another key, or a collision |
| `PublishKeys.KeyBinds` | adapters/repositories/publish.go:50-71 | over NUL-free fields two publications share a key exactly when they are the same operation of the same run on the same remote, branch and base, and of the same head unless a pull request, or the hash collided |
| `PublishKeys.NulSlides` | adapters/repositories/publish.go:79-82 | a NUL inside a field lets two different operations share a hash |
| `Vaults.CredentialVault.WriteHelper` | adapters/repositories/broker.go:120-148 | fails closed for unknown, revoked and expired handles, writes nothing without a token; a write that fails after the open leaves its file and records no path |
| `Vaults.CredentialVault.Revoke` | adapters/repositories/broker.go:229-245 | removes the secret, and its helper file where that can be removed |
| `Vaults.StraysExactly` | adapters/repositories/broker.go:120-148 | an operation leaves a file that no revoke will find exactly when it writes a helper while the handle's file is elsewhere, leaves one unfinished where none is recorded, or revokes without being able to remove |
| `Vaults.DiskIsAccounted` | adapters/repositories/broker.go:98-148 | in every run of mints, helpers, revokes and waits without such an operation, every file on disk is a live handle's recorded one |
| `Vaults.HelperNamesFile` | adapters/repositories/broker.go:147 | Git reads the configuration as the helper and the file's whole path |
| `Vaults.PathsDiffer` | adapters/repositories/broker.go:381 | two handles never share a file |
| `Shell.QuoteIsOneWord` | adapters/repositories/broker.go:150-168 | for every path, the shell reads the quoted form as one word equal to it |
| `Shell.HelperIsTwoWords` | adapters/repositories/broker.go:147 | the helper configuration is two words whatever blanks the path holds |
| `Shell.UnquotedTears` | adapters/repositories/broker.go:150-165 | unquoted, a path with a blank is two words |
| `NameStatus.RoundTrip` | adapters/repositories/authoring.go:168-206 | reading back any print of well-formed records gives their changes in order, R as added and deleted, C as added |
| `NameStatus.OneRecord` | adapters/repositories/authoring.go:184-206 | what one record reads as, letter by letter |
| `NameStatus.ParseNameStatus` | adapters/repositories/authoring.go:173-206 | the index-advancing loop reads fields as the reader's definition says, errors included |
| `NameStatus.CutAnywhere` | adapters/repositories/authoring.go:173-206 | output cut anywhere is refused exactly when it ends in a record with fewer NULs than paths; otherwise it reads as the whole records before and the last one with its last path cut there |
| `NameStatus.CutTellsTruth` | adapters/repositories/authoring.go:184-206 | an accepted cut says what the record says exactly when only the last NUL is missing |
| `NameStatus.CountsRecords` | adapters/repositories/authoring.go:221-226 | counting terminators counts the records, none included |

## Left out

- Row-level security, tenant scoping of each statement, SQL text, JSON bodies, the outbox and outbound queue
  deliveries: plumbing around the effects that are modelled.
- The signature, freshness and file handling of a checkpoint, and the reading of rows from the database.
- The order in which a capacity wake, a claim or a sweep picks among several candidates; the pool a run is placed
  in and its write-once record. A wake or a claim may take any eligible row here.
- The order in which a sweep's expiry events are journaled: the database returns them in no promised order, and
  the model takes table order.
- `ReleaseLease` as a way to end a hold: production does not use it.
- Wall-clock details of job leases and readiness: a lease lapses or is renewed as a step.
- OpenPullRequest, MergePullRequest and the provider client: one find or one call, then its answer.
- JournalChildCompletionOnce, a child's delegation and budget, model requests and results.
- Publication approvals, which repeat the tool gate on another table; list, read and projection queries.
- Config revisions, delivered-message rows and the history a fork copies or a clear retracts: the command's own
  life is modelled, those rows are not.
- Killing a background process: outside the database. Its settlement is modelled.
- Deletion of the remote branch by others during a push: the remote only fast-forwards.
- RunTables.RunStore.CancelRunReconciled: states the undisturbed call; interleavings are in `Cancel`.
- RunTables.ParentStore.WakeDetachedParent: states the undisturbed call; interleavings are in `Detach`.
- SpineTables.SpineStore.ParkRunForCapacity: the job's refund is in `Jobs`, not in this method.
- SpineTables.SpineStore.WakeRunAwaitingCapacity: takes the candidate its query selected; the carried count is in
  `Jobs`.
- Allocation.Allocator.AcquireLease: states the undisturbed call; interleavings are in `Fleet`.
- One clock stands for the process's and the database's: a deadline set by the one and read by the other is not
  modelled apart.
- Publication parks, which share the tool gate's park: a wait with cause `ForApproval` is the tool gate's.
