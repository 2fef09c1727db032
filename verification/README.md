# DeterSim, verified

DeterSim runs distributed programs inside a deterministic simulator, records every
random decision on an entropy tape, checks the histories the programs leave behind,
and shrinks the tapes that make them fail. This project models its logic in Dafny
and proves what each part is for. `dafny verify dfyconfig.toml` checks all of it.

How it is built: code that updates variables in place is a class or a method with
loops (`Checker.LinearSearch`, `Transactions.TxnSearch`, `Shrink.ShrinkTape`,
`PageStore.Device`, `SimInner.Inner`, `Nemesis.ConnectivityMatrix`,
`Plans.Composite`, `ProtocolNodes`, `Stream.DeterministicStream`,
`Search.RunSearch`). Each is proved equal to a function of its inputs or its old
state, and the theorems are lemmas about those functions. The methods of
`SimInner.Inner` that only carry out the function of `Sim` for one command have no
row of their own below; the loops that join them into runs do.

- **Consistency checkers** (`SerialOrders`, `Precedence`, `SearchScope`,
  `Linearizability`, `Checker`, `FailingParts`, `Timing`, `Models`, `ModelLaws`,
  `TransactionSearch`, `TransactionScope`, `Transactions`).
  The specification is a permutation of operation indices that respects real time
  and replays through the model; both memoised, budgeted searches are proved to
  find the first such permutation or to prove that there is none, and to remember and
  count exactly the states they have to look at.
- **The simulator** (`Tape`, `Queue`, `PageStore`, `Sim`, and `SimInvariant`,
  `SimTasks`, `SimCommands`, `SimDispatch` for the invariant; `SimTheorems`,
  `SimReplay`, `SimClock`, `SimSleep` for what follows from it; `SimMessages`,
  `SimSteps` for what each step does, told by the tables it acts on; `SimInner` for
  the code that updates its fields). A task is an opaque deterministic machine: an
  operation, or an await of a message, a deadline, a message with a timeout, or
  another task. One step of the model is one such command or one queued event.
- **The shrinker** (`Shrink`, `LabelShrink`, and `Sweeps`, `LabelOrder` for what it
  tries and in which order).
- **The reference protocols** (`Protocols`, `ProtocolNodes`, `Quorum`,
  `ClientReads`, `Verdicts`, `Duplication`, `CleanRuns`), as nodes over a network
  that may drop, delay and reorder anything and duplicate messages of the kinds it is
  given.
- **Fault plans** (`Nemesis`, `Planners`, `PlannerLaws`, `Merge`, `Refill`, `Plans`,
  `PlanOrder`, `FaultRuns`). A plan is any deterministic rule from the turns it has
  had, each with what it saw and drew, and from the values drawn so far to the label
  of the next draw, and to its answer; scripts, random links, random partitions and
  merges of plans are such rules.
- **History text** (`History`, `HistoryText`), **streams** (`Stream`, `StreamLog`),
  **seed search** (`Search`, `SearchOrder`, `Sorting`).

Where the code and what is said about it differ, the code is modelled and the
difference is proved:

- Precedence is `complete <= invoke`, so two operations at one instant block each
  other and their history is rejected whatever it returned
  (`Timing.TimedOrderExistsIff`, `Timing.MutualBlockRejected`). A client of the
  correct protocols whose clock stands still leaves such a history
  (`Duplication.StandingClockRejected`).
- Chunk deletion with a minimum above one gives no 1-minimality for arbitrary
  failures (`Shrink.LargerChunksMissADeletion`, `Shrink.MinimalityGuaranteedIff`),
  and a minimum of zero always spends the whole budget
  (`Shrink.ZeroMinimumSpendsBudget`). The label-aware pass tries each draw once,
  which is not enough either (`LabelShrink.TieredMinimalityGuaranteedIff`).
- The minimal failing part of a history can still hold an operation that could go
  (`FailingParts.MinimizedStaysReducible`); it cannot when refutation survives
  adding operations (`FailingParts.MinimizedIsIrreducible`).
- A crash is documented to lose unflushed bytes; it does so only for nodes told to,
  and the set of nodes that rot on a crash is never filled
  (`SimTheorems.CrashKeepsUnflushed`, `SimTheorems.UnflushedByteSurvivesCrash`).
- The acknowledgement counters never look at the sender, so what the network may
  duplicate decides safety. An answered put is on both followers exactly when it
  duplicates neither requests nor acknowledgements
  (`Duplication.CommittedUnderDuplicationIff`), and every history is accepted
  exactly when it duplicates none of those nor an `ok` for the primary-backup store,
  and neither a put nor an `ok` for Mini-Raft
  (`Duplication.AcceptedUnderDuplicationIff`).
- A sleep whose deadline the skew pushes beyond the largest time is never resumed
  (`SimSleep.SleepNeverResumes`), and a node one nanosecond behind with a task that
  sleeps until the last time has such a sleep (`SimSleep.SomeSleepNeverResumes`).
- Log entries with separators, and the single empty entry, do not survive the
  history text (`History.LogRoundTripIff`).

## Model

| member | source | states |
|---|---|---|
| Precedence.Predecessors | crates/detersim-check/src/lib.rs:591-604 | each operation's list holds, in ascending order, exactly the operations completed at or before its invocation |
| Precedence.Ready | crates/detersim-check/src/lib.rs:638-641 | an operation is tried exactly when it is unused and all its predecessors are used |
| SerialOrders.CompletesIffWitness | crates/detersim-check/src/lib.rs:607-673 | running operations one by one once their predecessors are used reaches exactly the permutations that respect precedence and replay |
| Linearizability.SearchExact | crates/detersim-check/src/lib.rs:607-673 | the search returns the lexicographically first witness, or within budget proves there is none; `seen` is free of duplicates, `explored` is its size and never exceeds the budget; never found and inconclusive at once |
| Linearizability.VisitExact | crates/detersim-check/src/lib.rs:607-673 | at every depth the remembered states are dead ends or on the current path, so pruning and backtracking never lose a completion |
| Linearizability.BudgetMonotone | crates/detersim-check/src/lib.rs:382-392 | a larger budget leaves a definite verdict, its witness and its step count unchanged |
| Linearizability.LargeBudgetDecides | crates/detersim-check/src/lib.rs:382-392 | some budget, and every larger one, gives a definite verdict |
| SearchScope.ScopeIff | crates/detersim-check/src/lib.rs:607-673 | the incomplete runs the search has to look at, told step by step, are those that replay and do not come after the first witness |
| Linearizability.SearchRemembers | crates/detersim-check/src/lib.rs:630-636 | `seen` holds only pairs of used operations and state that such runs reach, each once, `explored` is their number, and within budget all of them are there |
| Linearizability.BudgetDecides | crates/detersim-check/src/lib.rs:607-636 | with more such pairs than the budget the search is inconclusive, with fewer it is not, and a definite search counts exactly them |
| Checker.LinearSearch.constructor | crates/detersim-check/src/lib.rs:566-588 | a fresh search has nothing used, explored or remembered |
| Checker.LinearSearch.Admit | crates/detersim-check/src/lib.rs:638-651 | an operation is admitted exactly when it is ready and the model explains its output |
| Checker.LinearSearch.Descend | crates/detersim-check/src/lib.rs:653-670 | taking an operation, searching on and giving it back restores `used` and `order` on failure |
| Checker.LinearSearch.Branch | crates/detersim-check/src/lib.rs:638-672 | the loop over the operations carries out the rest of the search from index 0 |
| Checker.LinearSearch.Dfs | crates/detersim-check/src/lib.rs:607-673 | the in-place search carries out the specified search on its fields |
| Checker.RunSearch | crates/detersim-check/src/lib.rs:561-589 | a found order names the first linearization by its ids, and every other outcome is the specified one |
| Checker.RefutedMeansNone | crates/detersim-check/src/lib.rs:382-407 | a search that fails within its budget means no linearization exists |
| Checker.MinimizeFailure | crates/detersim-check/src/lib.rs:675-701 | the minimal history is the nonempty in-order part one greedy pass leaves; it has no linearization, and each operation kept was tried for removal and could not be removed |
| FailingParts.MinimizedIsIrreducible | crates/detersim-check/src/lib.rs:675-701 | no operation of the minimal history can be removed when refuted parts stay refuted as operations are added |
| FailingParts.IrreducibleIffUnchanged | crates/detersim-check/src/lib.rs:675-701 | no operation of a part can be removed exactly when one more greedy pass over it changes nothing |
| FailingParts.MinimizedStaysReducible | crates/detersim-check/src/lib.rs:675-701 | a history of three operations whose minimal part keeps one that could go |
| Checker.CheckLinearizable | crates/detersim-check/src/lib.rs:372-408 | Linearizable gives the first order of the completed operations, NotLinearizable means none exists and names a minimized part that fails itself, Inconclusive means the budget ran out |
| Checker.VerdictSurvivesBudget | crates/detersim-check/src/lib.rs:372-408 | raising the budget keeps both kinds of definite answer |
| Checker.CompletedSelects | crates/detersim-check/src/lib.rs:379-381 | what is checked is the history read at the strictly increasing indices of its completed operations |
| Checker.LinearizationIff | crates/detersim-check/src/lib.rs:561-673 | a linearization orders the completed operations so that none comes before one that completed at or before its invocation, and the model, run on their inputs, gives their outputs |
| Timing.TimedOrderExistsIff | crates/detersim-check/src/lib.rs:591-604 | for completed operations with any times, some order respects the coded precedence exactly when no two of them each come before the other |
| Timing.BlockingIsInstant | crates/detersim-check/src/lib.rs:591-604 | operations completed no earlier than invoked block each other exactly when both lie at one same instant |
| Timing.MutualBlockRejected | crates/detersim-check/src/lib.rs:591-604 | a history with two operations that block each other has no linearization under any model |
| ModelLaws.RegisterIsKey | crates/detersim-check/src/lib.rs:740-762 | a register behaves as a key that always has a value, output for output |
| ModelLaws.MultiKeyIsPerKey | crates/detersim-check/src/lib.rs:834-863 | a multi-key store restricted to one key is a single-key store run on that key's operations |
| ModelLaws.LogKeepsAppends | crates/detersim-check/src/lib.rs:888-917 | appends return consecutive indices and a read returns everything appended, in order |
| ModelLaws.KeyHoldsLastPut | crates/detersim-check/src/lib.rs:787-812 | every get finds what the last put before it left, or the initial value |
| TransactionSearch.SearchExact | crates/detersim-check/src/lib.rs:479-515 | the transaction search returns the first witness, or within budget proves there is none |
| TransactionSearch.SearchCost | crates/detersim-check/src/lib.rs:479-515 | explored steps overshoot the budget by at most n(n-1)/2, and an inconclusive search reached the budget |
| TransactionSearch.BudgetMonotone | crates/detersim-check/src/lib.rs:479-515 | a larger budget leaves a definite transaction verdict unchanged |
| TransactionSearch.LargeBudgetDecides | crates/detersim-check/src/lib.rs:479-515 | some budget, and every larger one, gives a definite transaction verdict |
| TransactionScope.SearchRemembers | crates/detersim-check/src/lib.rs:479-515 | the transaction search remembers only pairs that runs not after the first witness reach, each once, and within budget all of them |
| TransactionScope.SearchCharges | crates/detersim-check/src/lib.rs:496-514 | within budget the steps counted are the ready transactions of every pair remembered, less those the order found made unnecessary |
| TransactionScope.SpendingDecides | crates/detersim-check/src/lib.rs:479-495 | a budget above what the search spends under a larger one gives the same outcome |
| Transactions.ApplyTxn | crates/detersim-check/src/lib.rs:518-537 | the loop threads the state through a transaction's actions, failing at the first unexplained read |
| Transactions.ApplyIffExplained | crates/detersim-check/src/lib.rs:518-537 | a list of actions is accepted exactly when every read returns the last write before it, its own transaction's included, or the initial value |
| Transactions.WitnessIffSerialOrder | crates/detersim-check/src/lib.rs:415-463 | witnesses of the search are exactly the serial orders that respect real time and explain every read |
| Transactions.TxnSearch.constructor | crates/detersim-check/src/lib.rs:429-438 | a fresh transaction search has nothing used, explored or remembered |
| Transactions.TxnSearch.Descend | crates/detersim-check/src/lib.rs:502-511 | taking a transaction, searching on and giving it back restores the state on failure |
| Transactions.TxnSearch.Branch | crates/detersim-check/src/lib.rs:496-514 | the loop over the transactions counts and tries each ready one |
| Transactions.TxnSearch.Dfs | crates/detersim-check/src/lib.rs:479-515 | the in-place transaction search carries out the specified search |
| Transactions.RunTxnSearch | crates/detersim-check/src/lib.rs:428-449 | a found order is the first serial order; a failed search within budget means there is none |
| Transactions.CheckSerializable | crates/detersim-check/src/lib.rs:415-463 | Serializable gives the first serial order of committed, completed transactions, NotSerializable means none exists and returns all ids |
| Transactions.EligibleSelects | crates/detersim-check/src/lib.rs:424-427 | what is searched is the history read at the strictly increasing indices of its committed, completed transactions |
| Transactions.SerialOrderIff | crates/detersim-check/src/lib.rs:415-463 | a serial order lists those transactions so that none comes before one that completed at or before its invocation, and every read finds the last write before it or the initial value |
| Tape.DrawMirrors | crates/detersim-sim/src/tape.rs:102-136 | drawing from a generator and from a recording that covers its log gives the same value and keeps both in step |
| Tape.GeneratorDraws | crates/detersim-sim/src/tape.rs:102-136 | a generator gives its stream from the start, each value once, logged with its index and label |
| Tape.RecordingDraws | crates/detersim-sim/src/tape.rs:117-168 | a recording gives its values from the start and then zeros, is consumed once all are drawn, and exhausted by one draw more |
| SimReplay.ReplayFidelity | crates/detersim-sim/src/lib.rs:858-892 | after every number of steps a generating run and a replay of any tape extending its log agree on the whole world, log and labels, whatever plans drew during set-up |
| SimReplay.ReplayConsumesLog | crates/detersim-sim/src/tape.rs:138-168 | replaying exactly the final log reaches the same world, consumes all of it and never runs past its end |
| SimReplay.ReplayReportsSame | crates/detersim-sim/src/lib.rs:1095-1122 | the reports of the two runs differ only in the fields that say how the tape was read |
| SimDispatch.StepOk | crates/detersim-sim/src/lib.rs:1059-1122 | every step, from every reachable world, keeps the simulator's invariant |
| SimDispatch.StepsOk | crates/detersim-sim/src/lib.rs:1059-1122 | every world any set-up and any number of steps reach satisfies the invariant |
| SimDispatch.StartPollOk | crates/detersim-sim/src/lib.rs:1285-1300 | a due poll never finds its task on a crashed node, so that guard is never taken |
| SimTheorems.NoLostWakeup | crates/detersim-sim/src/lib.rs:490-566 | a nonempty inbox has no receivers, a live timer has exactly one event queued, and every suspended task has a poll queued or its own source of wake-ups |
| SimTheorems.NothingQueued | crates/detersim-sim/src/lib.rs:1097-1122 | with nothing queued, whoever is left waits on an empty inbox or on an unfinished task |
| SimTheorems.DeadlockReportSound | crates/detersim-sim/src/lib.rs:1095-1122 | a run that reports no abort reports a deadlock exactly when tasks are left, each of them stuck |
| SimTheorems.CrashLeavesNothing | crates/detersim-sim/src/lib.rs:365-431 | a crash removes the node's tasks, inbox, receivers and timers, and from the queue exactly their polls, their timers and the node's messages; the rest keeps its keys |
| SimTheorems.GoneForGood | crates/detersim-sim/src/lib.rs:242-253 | a task that is removed, not running and not queued is never queued or run again |
| SimTheorems.CrashIsFinal | crates/detersim-sim/src/lib.rs:365-410 | no task of a crashed node is ever polled again, restart or not |
| SimTheorems.CrashedNodesOwnNothing | crates/detersim-sim/src/lib.rs:365-396 | in every reachable world crashed nodes own no tasks, inboxes or receivers, every timer belongs to a task that is left, and no queued message was sent by a crashed node |
| SimTheorems.CrashKeepsUnflushed | crates/detersim-sim/src/lib.rs:385-388 | in every reachable world a crash changes storage only for nodes set to lose unflushed bytes, and then only that node's |
| SimTheorems.UnflushedByteSurvivesCrash | crates/detersim-sim/src/lib.rs:385-388 | a run whose node crashes with a byte pending that was never committed, and keeps it |
| SimMessages.MessageArrives | crates/detersim-sim/src/lib.rs:1254-1276 | a message whose target is registered, whose ends are up, whose link is not cut and which the drop draw spares is appended to its target's inbox, traced as dispatched, and wakes the receivers there |
| SimMessages.MessageIsDropped | crates/detersim-sim/src/lib.rs:1230-1263 | any other message changes no inbox and no receiver, and the trace names the first obstacle |
| SimMessages.ArrivalDraws | crates/detersim-sim/src/lib.rs:1254-1263 | one value is drawn for a message exactly when nothing but chance can stop it |
| SimMessages.SendQueues | crates/detersim-sim/src/lib.rs:601-626 | a send draws its delay, its extra delay and its duplication in order, queues one arrival or two at the times drawn, and lets the task go on |
| SimMessages.SendFromCrashedIs | crates/detersim-sim/src/lib.rs:605-608 | a crashed node sends nothing, draws nothing and leaves one trace entry |
| SimMessages.ReceiveTakesOldest | crates/detersim-sim/src/lib.rs:537-556 | a receive takes the oldest message and leaves the others in order |
| SimMessages.ReceiveWaits | crates/detersim-sim/src/lib.rs:268-273 | a receive that finds nothing suspends its task, registered once behind the receivers already there |
| SimMessages.InboxStep | crates/detersim-sim/src/lib.rs:1203-1303 | in one step an inbox loses its oldest message to a task, gains one that arrived, is lost with its node, or stays as it is |
| SimMessages.ReceivedInOrder | crates/detersim-sim/src/lib.rs:1059-1122 | over any steps without a crash of the node, what its tasks received and then what waits is what was there and then what the trace says arrived, in that order |
| SimMessages.ReceivedWasSent | crates/detersim-sim/src/lib.rs:601-626 | in every run each message in an inbox was sent to that node by that sender at an earlier step |
| SimSteps.RunEndsIff | crates/detersim-sim/src/lib.rs:1204-1213 | a step with no task running ends the run exactly when the next event lies past the horizon or the event budget is spent |
| SimSteps.HaltedStays | crates/detersim-sim/src/lib.rs:1059-1094 | a halted run never changes again |
| SimSteps.PollRunsIff | crates/detersim-sim/src/lib.rs:1285-1300 | a due poll runs its task where it left off exactly when the task is suspended on a live node; a stale one leaves no trace |
| SimSteps.TimerFiresIff | crates/detersim-sim/src/lib.rs:1216-1223 | an armed timer wakes its task once; a cancelled one leaves no trace |
| SimSteps.SpawnStarts | crates/detersim-sim/src/lib.rs:752-788 | a spawned task starts on its parent's node under a new id, queued now; the parent goes on with the id |
| SimSteps.FinishLeaves | crates/detersim-sim/src/lib.rs:762-774 | a finished task is gone, keeps its output for whoever joins it, and those that wait are polled |
| SimSteps.JoinIs | crates/detersim-sim/src/lib.rs:682-703 | joining a finished task gives its output at once, joining another registers and suspends |
| SimSteps.JoinedOutput | crates/detersim-sim/src/lib.rs:682-774 | over any steps the output a join finds is the one its task finished with |
| SimSteps.SleepIsOver | crates/detersim-sim/src/lib.rs:490-516 | a sleep whose deadline the node's clock shows ends at once and cancels its timer |
| SimSteps.NowIs | crates/detersim-sim/src/lib.rs:303-313 | a clock shows the global time plus the skew, clamped, unless it has shown a later time |
| SimSteps.RngIs | crates/detersim-sim/src/lib.rs:293-301 | a node's random values are its own stream, each used once |
| SimSteps.RecordIs | crates/detersim-sim/src/lib.rs:568-573 | a recorded line is the last of the history |
| SimSteps.StorageIs | crates/detersim-sim/src/lib.rs:638-667 | writes and flushes act on the node's own device, under the storage faults set for that node |
| SimSteps.StorageReads | crates/detersim-sim/src/lib.rs:649-677 | reads and lengths tell what is written and change nothing; only a read past the end panics |
| SimSteps.RestartIff | crates/detersim-sim/src/lib.rs:1038-1057 | a restart brings up exactly a registered node that is down and has a program, starts the program afresh and brings nothing else back; the outcome is recorded |
| SimSteps.CrashTakesOwn | crates/detersim-sim/src/lib.rs:365-396 | a crash takes from tasks, join slots, timers, inboxes and receivers what belongs to the node and nothing else |
| SimSteps.CrashOfNobody | crates/detersim-sim/src/lib.rs:366-368 | crashing a node nobody registered changes nothing |
| SimSteps.LinkIs | crates/detersim-sim/src/lib.rs:331-340 | a single link goes up or down in one direction and both ends become known |
| SimSteps.AsymmetricIs | crates/detersim-sim/src/lib.rs:335-337 | an asymmetric partition cuts one direction and no other link |
| SimSteps.PartitionIs | crates/detersim-sim/src/lib.rs:331-334 | a partition links known nodes exactly when the last group naming either names both, or no group names either |
| SimSteps.HealIs | crates/detersim-sim/src/lib.rs:341-341 | healing links every two known nodes |
| SimSteps.SettingIs | crates/detersim-sim/src/lib.rs:344-361 | clock skew and storage faults set what they name for their node and nothing else; bit rot spoils the device of a node that has one |
| SimSteps.AddNodeIs | crates/detersim-sim/src/lib.rs:925-945 | a new node is registered with its program, an inbox and a device, becomes known to the links, and starts |
| SimSteps.PercentIs | crates/detersim-sim/src/lib.rs:998-1011 | percentages are cut at a hundred |
| SimSteps.ScheduledIs | crates/detersim-sim/src/lib.rs:947-952 | a scheduled fault is queued for its time |
| SimSteps.PlanIs | crates/detersim-sim/src/lib.rs:958-980 | a plan is shown the time, the nodes, those down and the links, and its actions are queued for their times in the order given |
| SimSteps.FaultNowIs | crates/detersim-sim/src/lib.rs:982-1036 | a fault applied at once does what it does when dispatched, but is not counted, and a restart is then no nemesis action |
| SimSteps.ReportIs | crates/detersim-sim/src/lib.rs:1095-1122 | the report tells the run's logs, tape, tasks left, deadlock and limits as they are |
| SimClock.DispatchOrder | crates/detersim-sim/src/lib.rs:86-90 | events leave the queue in strictly increasing (time, seq) order, none lies in the past and none share a sequence number |
| SimClock.LoopProgress | crates/detersim-sim/src/lib.rs:1203-1303 | between polls each turn aborts, counts one event, or skips a stale one and shortens the queue |
| SimClock.DispatchedBounded | crates/detersim-sim/src/lib.rs:1203-1213 | the number of dispatched events never decreases and never exceeds the limit |
| SimClock.LocalClockMonotone | crates/detersim-sim/src/lib.rs:303-313 | no node sees its clock go backwards under any skew changes |
| SimClock.SleepArmsOneTimer | crates/detersim-sim/src/lib.rs:281-320 | a suspending sleep queues exactly one event, at the later of now and the deadline taken back by the skew |
| SimSleep.FirstPollSleeps | crates/detersim-sim/src/lib.rs:490-516 | the first poll of a sleep with its deadline ahead suspends its task with one timer at the global deadline |
| SimSleep.FirstPollWaits | crates/detersim-sim/src/lib.rs:490-566 | the first poll of a receive with a timeout that finds no message does the same, with the deadline fixed by that poll |
| SimSleep.SleepResumesOnTime | crates/detersim-sim/src/lib.rs:490-566 | over any steps with the skew unchanged and the node up, a sleep or timed receive not yet resumed is exactly as it was, spurious polls included, the time has not passed its global deadline, and a step that resumes it without a message comes at that very time with the local clock at or past the deadline |
| SimSleep.SleepResumedAfter | crates/detersim-sim/src/lib.rs:490-566 | once the clock is past the global deadline the sleep or timed receive has been resumed |
| SimSleep.ResumingContinues | crates/detersim-sim/src/lib.rs:490-566 | the resuming step is the one after which the task goes on, told nothing after a sleep, and the oldest message or the timeout after a timed receive |
| SimSleep.SleepNeverResumes | crates/detersim-sim/src/lib.rs:315-320 | a sleeper whose deadline less the skew is beyond the largest time is still in its sleep after any number of steps |
| SimSleep.ReceiveNeverTimesOut | crates/detersim-sim/src/lib.rs:315-320 | a timed receive with such a deadline is resumed by a message or not at all |
| SimSleep.SomeSleepNeverResumes | crates/detersim-sim/src/lib.rs:315-320 | a run of two steps that leaves a task in such a sleep |
| SimInner.Inner.EnqueuePolls | crates/detersim-sim/src/lib.rs:1265-1272 | the loop over the tasks queues one poll at the current time for each, in order |
| SimInner.Inner.SweepQueue | crates/detersim-sim/src/lib.rs:365-431 | rebuilding the queue keeps exactly the live events in their order |
| SimInner.Inner.ChangeLinks | crates/detersim-sim/src/lib.rs:331-344 | partitions, single links and healing are carried out by the connectivity matrix in place |
| SimInner.Inner.CrashHost | crates/detersim-sim/src/lib.rs:365-396 | the in-place crash is the crash the theorems speak of |
| SimInner.Inner.PopEvent | crates/detersim-sim/src/lib.rs:1203-1213 | one turn pops the least event and aborts past the horizon or the event limit |
| SimInner.Inner.PopUntilPoll | crates/detersim-sim/src/lib.rs:1203-1303 | the loop runs steps of the model until a poll is due, the queue is empty or the run aborts |
| SimInner.Inner.PollCurrent | crates/detersim-sim/src/lib.rs:1075-1092 | polling a task runs its commands one by one, each a step of the model, until it suspends or ends |
| SimInner.Inner.Run | crates/detersim-sim/src/lib.rs:1059-1122 | a whole run is a number of steps of the model; when it finishes the report describes the last world and the tape, and it does not finish only when the last `pollLimit` steps were commands of one poll that has not ended |
| SimInner.Inner.ScheduleNemesisPlan | crates/detersim-sim/src/lib.rs:958-980 | any deterministic plan is asked until it stops or the limit is reached, each action queued as it comes, all its draws made on the tape, each label free to depend on the values before it |
| SimInner.Inner.SetUp | crates/detersim-sim/src/lib.rs:901-1019 | set-up calls, plans that draw and stop early included, act on the fields as the model's configuration does |
| PageStore.Device.Write | crates/detersim-sim/src/lib.rs:105-113 | a write, torn or not, is logged and applied to the pending image |
| PageStore.Device.FlushAll | crates/detersim-sim/src/lib.rs:123-135 | a flush commits the log, in order or reversed, and empties it |
| PageStore.Device.CrashRecover | crates/detersim-sim/src/lib.rs:141-150 | recovery falls back to the committed image, its first byte flipped under bit rot |
| PageStore.RunConsistent | crates/detersim-sim/src/lib.rs:104-160 | over any mix of operations pending equals committed with the log applied in order |
| PageStore.RecoveryRestoresFlush | crates/detersim-sim/src/lib.rs:123-150 | after any writes since a flush, recovery restores exactly the flushed image |
| PageStore.ReadAfterWrite | crates/detersim-sim/src/lib.rs:105-121 | an untorn write reads back, zero-filled gaps included |
| PageStore.WriteIs | crates/detersim-sim/src/lib.rs:105-113 | a write changes exactly the bytes it covers and fills a gap with zeros; a torn one covers the first half, rounded up |
| PageStore.RotIs | crates/detersim-sim/src/lib.rs:141-151 | bit rot flips the lowest bit of the first byte and no other, so rotting twice restores the image |
| PageStore.FlushBytes | crates/detersim-sim/src/lib.rs:123-160 | at each byte an in-order flush commits the last covering write, a reordered one the first |
| PageStore.ReorderInvisibleIff | crates/detersim-sim/src/lib.rs:123-135 | reordering is invisible exactly when first and last covering writes agree everywhere |
| PageStore.DisjointWritesHideReorder | crates/detersim-sim/src/lib.rs:123-135 | pairwise disjoint writes hide reordering |
| Shrink.ShrinkTape | crates/detersim-shrink/src/lib.rs:181-249 | the nested loops compute the specified report and end for every configuration |
| Shrink.ShrinkSound | crates/detersim-shrink/src/lib.rs:181-249 | the minimized tape fails exactly as the original does, is the original at strictly increasing kept indices, within max(1, budget) attempts |
| Shrink.ShrinkMinimal | crates/detersim-shrink/src/lib.rs:200-249 | with attempts left, minimum chunk one gives 1-minimality for every predicate, larger chunks for every monotone one |
| Shrink.MinimalityGuaranteedIff | crates/detersim-shrink/src/lib.rs:200-249 | every failing tape ends 1-minimal with attempts left exactly when the minimum chunk is at most one or the budget at most three |
| Shrink.LargerChunksMissADeletion | crates/detersim-shrink/src/lib.rs:200-249 | a concrete non-monotone failure that a larger minimum chunk leaves reducible |
| Shrink.ZeroMinimumSpendsBudget | crates/detersim-shrink/src/lib.rs:205-227 | a zero minimum chunk always spends the whole budget |
| Sweeps.ShrinkIsSweeps | crates/detersim-shrink/src/lib.rs:181-249 | the shrinker is a descent of greedy sweeps over blocks of half the tape, then half as long and so on, and one over single draws, each block one attempt |
| Sweeps.ChunksRunOut | crates/detersim-shrink/src/lib.rs:204-227 | while attempts last, half the tape and every halving of it down to the minimum is reached, and left only with a failing part of the tape of which no aligned chunk of that length can go |
| Sweeps.AttemptsAtMost | crates/detersim-shrink/src/lib.rs:204-249 | a positive minimum needs at most 1 + 1.5 n^2 + n attempts on n draws, so a larger budget always lasts |
| Sweeps.FirstHalfGoes | crates/detersim-shrink/src/lib.rs:204-218 | a failure that does not need the first half of its tape loses it, whatever the budget beyond a second attempt |
| LabelShrink.SummarizeRemovedLabels | crates/detersim-shrink/src/lib.rs:323-344 | removed labels are tallied once each, sorted, with exact positive counts |
| LabelShrink.StringLeqIff | crates/detersim-shrink/src/lib.rs:323-344 | labels are ordered by the first character that differs, a label before those it starts |
| LabelShrink.ShrinkTapeLabelAware | crates/detersim-shrink/src/lib.rs:251-312 | the tiered pass computes the specified report and tallies, or falls back when labels do not match the tape |
| LabelShrink.TieredSound | crates/detersim-shrink/src/lib.rs:251-344 | the tiered result fails, reads the original at kept indices, stays in budget, and removed-label counts sum to the draws removed |
| LabelShrink.TieredMinimal | crates/detersim-shrink/src/lib.rs:268-312 | with attempts left and a monotone failure the tiered pass ends 1-minimal |
| LabelShrink.TieredCost | crates/detersim-shrink/src/lib.rs:268-312 | the tiers together try every draw exactly once, budget permitting |
| LabelShrink.TieredMinimalityGuaranteedIff | crates/detersim-shrink/src/lib.rs:268-312 | for arbitrary predicates and labels the tiered result is 1-minimal whenever attempts are left exactly when the budget is at most three |
| LabelOrder.NameOrderIs | crates/detersim-shrink/src/lib.rs:314-321 | the order of the names gives every draw its turn and none before a draw it outranks: delays first, then decisions, then faults, then the rest |
| LabelOrder.TieredIsSweep | crates/detersim-shrink/src/lib.rs:268-312 | the label-aware shrinker is one greedy sweep over the draws in the order of their names, each draw one attempt |
| LabelOrder.LoneDrawKept | crates/detersim-shrink/src/lib.rs:268-321 | when any one draw makes the tape fail, the draw left is the last of those whose label no other label outranks |
| LabelShrink.ShrinkPreservingSignature | crates/detersim-shrink/src/lib.rs:50-131 | the minimized tape has the original's signature, with or without labels |
| ProtocolNodes.PrimaryNode.Receive | crates/detersim-protocols/src/primary_backup_kv.rs:56-105 | the primary and leader loops take the modelled turn on each message, keeping only a count of acknowledgements |
| ProtocolNodes.PrimaryNode.Replicates | crates/detersim-protocols/src/primary_backup_kv.rs:158-169 | one request is sent to each target, in order |
| ProtocolNodes.FollowerNode.Receive | crates/detersim-protocols/src/primary_backup_kv.rs:107-132 | a follower stores and acknowledges, answers one read, and stops |
| ProtocolNodes.ClientNode.Start | crates/detersim-protocols/src/client.rs:66-72 | the client stamps its first put with its clock and sends it |
| ProtocolNodes.ClientNode.Receive | crates/detersim-protocols/src/client.rs:66-117 | the client records each answered put and its read with the stamps the checker sees |
| Quorum.StepCommit | crates/detersim-protocols/src/primary_backup_kv.rs:171-179 | every event but the duplication of a request or an acknowledgement keeps each follower's share of the quorum in one place |
| Quorum.QuorumSafety | crates/detersim-protocols/src/primary_backup_kv.rs:56-179 | in every run that duplicates neither requests nor acknowledgements, once `ok` is on its way or the client has recorded anything, both followers hold the value |
| ClientReads.FinishedReadIsFresh | crates/detersim-protocols/src/client.rs:66-117 | in every run that duplicates no harmful kind, a client that finishes has recorded its put and a read that found it |
| Verdicts.FreshReadAccepted | crates/detersim-check/src/lib.rs:591-604 | a put followed by a get that finds it is accepted unless both happen at one instant |
| Verdicts.StaleReadRejected | crates/detersim-protocols/src/client.rs:66-117 | puts in sequence followed by a read that misses the last one have no linearization |
| Verdicts.BrokenRunsRejected | crates/detersim-protocols/src/primary_backup_kv.rs:78-102 | every completed run of the stale-follower and lost-update variants is rejected, duplication included |
| Duplication.CommittedUnderDuplicationIff | crates/detersim-protocols/src/primary_backup_kv.rs:171-179 | an answered put is on both followers in every run exactly when neither requests nor acknowledgements are duplicated |
| Duplication.FinishedIsFresh | crates/detersim-protocols/src/mini_raft.rs:296-346 | a history that completes without harmful duplication is a put and the read that found it, accepted exactly when the clock moved |
| Duplication.AcceptedUnderDuplicationIff | crates/detersim-protocols/src/mini_raft.rs:296-393 | every history that completes while the clock moves is accepted exactly when none of the variant's harmful kinds is duplicated |
| Duplication.SomeBadFinish | crates/detersim-protocols/src/primary_backup_kv.rs:56-179 | for each harmful kind, a run duplicating only that kind whose completed history is rejected although the clock moved |
| Duplication.StandingClockRejected | crates/detersim-protocols/src/client.rs:66-117 | for both protocols a fault-free run at time zero finishes and its history is rejected |
| CleanRuns.CorrectRun | crates/detersim-protocols/src/primary_backup_kv.rs:56-132 | without losses the correct store finishes at any times: both followers hold the value, the client reads it, everyone stops |
| CleanRuns.MiniRaftRun | crates/detersim-protocols/src/mini_raft.rs:296-346 | without losses Mini-Raft finishes likewise through its leader |
| CleanRuns.StaleRun | crates/detersim-protocols/src/primary_backup_kv.rs:78-132 | without losses the stale-follower store finishes with the value on the other follower and a read that finds nothing |
| CleanRuns.LostUpdateRun | crates/detersim-protocols/src/primary_backup_kv.rs:78-132 | without losses the lost-update store finishes with one put on each follower and a read that finds the first |
| History.DecimalValue | crates/detersim-protocols/src/history.rs:47-98 | decimal text is nonempty, all digits, and denotes the number printed |
| History.DecimalIntParses | crates/detersim-protocols/src/history.rs:186-190 | every 32-bit integer printed parses back |
| History.SplitJoin | crates/detersim-protocols/src/history.rs:120-121 | splitting joined parts gives each part split, in order |
| History.KvLineRoundTrip | crates/detersim-protocols/src/history.rs:120-147 | a key-value line always parses back with its process fixed, and no log line is taken for one |
| History.LogLineRoundTripIff | crates/detersim-protocols/src/history.rs:149-184 | a log line parses back exactly when its strings hold no separator and are not the single empty entry; no key-value line is taken for one |
| History.EntriesRoundTripIff | crates/detersim-protocols/src/history.rs:192-198 | joined entries parse back exactly when none holds a comma and they are not the single empty entry |
| History.KvRoundTrip | crates/detersim-protocols/src/history.rs:101-108 | decoding any mixed history yields its key-value operations, in order, unchanged but for the process |
| History.LogRoundTripIff | crates/detersim-protocols/src/history.rs:111-118 | decoding yields the log operations exactly when every one of them is encodable |
| History.CheckerSeesClientHistory | crates/detersim-protocols/src/history.rs:101-147 | the checker decodes from a printed client history exactly what the client recorded |
| HistoryText.DecimalShortest | crates/detersim-protocols/src/history.rs:47-98 | decimal text has no leading zero but for zero itself |
| HistoryText.ValueLeads | crates/detersim-protocols/src/history.rs:120-198 | a digit is worth ten to the number of digits after it |
| HistoryText.NumeralIff | crates/detersim-protocols/src/history.rs:120-198 | a text reads as a number exactly when it is digits, after a plus sign if there is one, for a number within bounds |
| HistoryText.TellsI32Iff | crates/detersim-protocols/src/history.rs:186-190 | a text reads as a signed number exactly when it is such digits or a minus sign and digits, within 32 bits |
| HistoryText.JoinSplit | crates/detersim-protocols/src/history.rs:120-198 | splitting a text and joining the parts gives it back, and no part holds the separator |
| HistoryText.LineIs | crates/detersim-protocols/src/history.rs:47-98 | the fields of every printed operation |
| HistoryText.KvLineIff | crates/detersim-protocols/src/history.rs:120-147 | of all lines, exactly those with the seven fields of a put or a get are taken for key-value operations, and which operation each is |
| HistoryText.LogLineIff | crates/detersim-protocols/src/history.rs:149-184 | of all lines, exactly those with the fields of an append or a read are taken for log operations, and which operation each is |
| Stream.DeterministicStream.constructor | crates/detersim-net/src/lib.rs:93-104 | a new stream is connected and empty |
| Stream.DeterministicStream.Send | crates/detersim-net/src/lib.rs:107-166 | a send numbers the frame, applies link faults, and buffers, drops, blocks, holds or delivers it |
| Stream.DeterministicStream.DrainOrdered | crates/detersim-net/src/lib.rs:184-195 | draining delivers buffered frames from the next number on until one is missing |
| Stream.DeterministicStream.IntoTranscript | crates/detersim-net/src/lib.rs:179-182 | the final transcript is the state after one more drain |
| Stream.DeliveredIsLongestPrefix | crates/detersim-net/src/lib.rs:107-195 | the delivered frames are the longest prefix of sent frames with none dropped or blocked, each once with its own bytes |
| Stream.TimingFaultsInvisible | crates/detersim-net/src/lib.rs:142-164 | duplicate and delay faults never change what is delivered |
| StreamLog.RunIsLogged | crates/detersim-net/src/lib.rs:107-195 | after any sends exactly what they let through and do not hold back is delivered, and the log holds, send by send, the link changes, what became of the frame, and what was delivered then |
| Search.SeedOrderPermutes | crates/detersim-search/src/lib.rs:387-402 | every strategy visits every seed exactly once |
| SearchOrder.SeedOrderIs | crates/detersim-search/src/lib.rs:387-402 | seeds are tried in turn, or odd ones first, or by falling stress with the larger of two equals first |
| Search.PruneAsYouGo | crates/detersim-search/src/lib.rs:426-438 | pruning after every push leaves what pruning once at the end would |
| Search.RetainBestIsBest | crates/detersim-search/src/lib.rs:426-438 | the retained candidates are the best ones, in order, and nothing dropped beats them |
| SearchOrder.CandidatesAreBest | crates/detersim-search/src/lib.rs:404-438 | the candidates are attempts of the search with their scores, best first, ties to the earlier, and none left out is ahead of one kept |
| Search.RunSearch | crates/detersim-search/src/lib.rs:120-178 | the report holds the first failure in the strategy's order, the number of failing seeds, all coverage, and the best candidates of the whole search |
| Search.SearchIn | crates/detersim-search/src/lib.rs:125-165 | the loop over an order of seeds keeps failures, coverage and the retained candidates as specified |
| Search.StrategiesAgree | crates/detersim-search/src/lib.rs:120-178 | failures observed and final coverage are the same for all strategies |
| Search.NewCoverageAddsUp | crates/detersim-search/src/lib.rs:145-152 | the attempts' new coverage sums to the final coverage |
| Search.CompareStrategies | crates/detersim-search/src/lib.rs:186-228 | each row reports its strategy's search, and the best strategy is chosen among the rows |
| Search.BestStrategyMeans | crates/detersim-search/src/lib.rs:207-220 | with a failing seed the pick meets a failure soonest, ties by rank; with none it is the lowest-ranked strategy asked for |
| SearchOrder.BestStrategyIs | crates/detersim-search/src/lib.rs:207-220 | the pick failed soonest, or covers most when none failed; ties go to the random, then the coverage-guided search |
| Nemesis.ConnectivityMatrix.SetOneLink | crates/detersim-nemesis/src/lib.rs:55-63 | a link is set and both ends registered |
| Nemesis.ConnectivityMatrix.AssignGroups | crates/detersim-nemesis/src/lib.rs:74-80 | every named node is registered and belongs to the last group naming it |
| Nemesis.ConnectivityMatrix.Partition | crates/detersim-nemesis/src/lib.rs:72-91 | exactly the pairs of known nodes in different groups end up blocked |
| Nemesis.PartitionIsolates | crates/detersim-nemesis/src/lib.rs:38-91 | after a partition two known nodes are connected exactly when they share a group; healing connects all |
| Plans.ScriptedPlan.NextAction | crates/detersim-nemesis/src/lib.rs:189-199 | the cursor walks the script as the planner of the script does |
| Plans.RandomLinkFault.NextAction | crates/detersim-nemesis/src/lib.rs:222-246 | one link is drawn from the candidates, once |
| Plans.RandomPartition.NextAction | crates/detersim-nemesis/src/lib.rs:265-295 | the time and the count of remaining splits advance as the planner says, with one draw for each split |
| Planners.ScriptPunctualIff | crates/detersim-nemesis/src/lib.rs:176-199 | a script stops for good and gives its actions in order of time exactly when it was written so |
| PlannerLaws.ScriptGives | crates/detersim-nemesis/src/lib.rs:189-199 | a script gives its actions in order, up to the limit, and draws nothing |
| Planners.LinkFaultPunctual | crates/detersim-nemesis/src/lib.rs:222-246 | a random link fault comes once and stops for good |
| PlannerLaws.LinkFaultGives | crates/detersim-nemesis/src/lib.rs:222-246 | a random link fault draws one value to pick a candidate, and sets that link at its time |
| Planners.SplitSeparates | crates/detersim-nemesis/src/lib.rs:283-294 | whatever is drawn, a random split puts the live nodes into two groups, neither empty, no node in both |
| Planners.SplitsPunctual | crates/detersim-nemesis/src/lib.rs:265-295 | random splits come in order of time and, while the world looks the same, stop for good |
| PlannerLaws.SplitsGiven | crates/detersim-nemesis/src/lib.rs:265-295 | random splits come one interval apart, each drawing one value that cuts the ascending live nodes in two |
| Plans.Composite.Refill | crates/detersim-nemesis/src/lib.rs:328-335 | every child with nothing pending is asked, in turn, with its own draws |
| Plans.Composite.Select | crates/detersim-nemesis/src/lib.rs:337-341 | the earliest pending action is selected, ties by plan index |
| Plans.Composite.NextAction | crates/detersim-nemesis/src/lib.rs:322-344 | over any deterministic children with draws, the composite draws and answers exactly as the merged planner does |
| Refill.MergedDrawsInTurn | crates/detersim-nemesis/src/lib.rs:322-335 | asked as one plan, a merge draws exactly what its children draw one after the other, whatever their labels depend on |
| Merge.MergeKeepsAnswers | crates/detersim-nemesis/src/lib.rs:297-344 | for any children, whatever they see and draw: what a child has answered is what has come out of it, in its own order, and the one action it has pending |
| Merge.MergeOfAnswers | crates/detersim-nemesis/src/lib.rs:297-344 | if the children stay stopped once they have stopped, what comes out is the beginning of the merge of the lists they give |
| Merge.MergeKeepsChildren | crates/detersim-nemesis/src/lib.rs:297-344 | the merge of lists holds every list's actions exactly once, in the list's order, and nothing else |
| Merge.MergeSortedIff | crates/detersim-nemesis/src/lib.rs:297-344 | the merge of lists is sorted by (time, plan) exactly when every list is sorted by time |
| Merge.MergedScripts | crates/detersim-nemesis/src/lib.rs:297-344 | asking a merge of scripts up to a limit gives that many of the merge's first actions |
| Merge.MergedPunctual | crates/detersim-nemesis/src/lib.rs:297-344 | a merge of plans that stop for good and go in order of time is such a plan again |
| PlanOrder.PlanInOrderIff | crates/detersim-sim/src/lib.rs:958-980 | what any plan gives stands in the queue in the order given exactly when that is the order of its times, and earlier events are undisturbed |
| PlanOrder.PlanInOrder | crates/detersim-sim/src/lib.rs:958-980 | a plan that stops for good and goes in order of time always has its actions queued in the order given |
| FaultRuns.StepsAccount | crates/detersim-sim/src/lib.rs:1203-1303 | over any steps before an abort, scheduled faults move from the queue to the trace in their order; none is lost, repeated or overtaken |
| FaultRuns.PlanDispatchedInOrderIff | crates/detersim-sim/src/lib.rs:958-980 | at every step of a run before an abort, the plan's faults dispatched so far and then those still queued are all it gave, in the order given, exactly when that is the order of its times |

## Left out

- The command line, the visualiser, the test kit, and every JSON or HTML builder: output and plumbing.
- Trace text and coverage labels: trace entries are datatype values, coverage signals an arbitrary type.
- The async machinery: a task is a deterministic machine advanced by polls; a join handle is awaited by one task at a time, and dropping a pending future is modelled only as the losing side of a receive with a timeout.
- Panics: a `panicked` flag ends the run; it covers a read past the end of a store, joining an unknown or foreign handle, and registering a node twice.
- SplitMix64: the generator and the nodes' random streams are arbitrary functions of their position; the stress score of a seed is an arbitrary function.
- 64-bit overflow of sequence numbers, task and timer ids, attempt counters and scores: they are unbounded here; times are clamped and saturated as in the code.
- The event queue is the list of its events in key order, not a heap; equal keys do not occur.
- Events scheduled in the past between two calls of `run`, and set-up calls made after a run has started.
- SimInner.Inner.Run: a poll that has not ended after `pollLimit` commands ends the run unfinished, because a task that never suspends makes the original loop forever.
- `SimInner.Inner` keeps each store and the links as values; a `PageStore.Device` or a `Nemesis.ConnectivityMatrix` is opened on the value for each change and its new contents are put back.
- The report's seed, coverage signals and the cached length of its tape log.
- The fields of `Inner` are grouped in records, which the methods update one group at a time.
- Impure failure predicates: the shrinker's predicate is a function of the tape.
- The planted bugs that emit fixed labels or canned histories, the persistence probe, and three primary-backup variants: acknowledge-before-replicate, uncommitted follower and duplicate request. The off-by-one quorum is the same code as the stale-follower variant.
- Network timing and loss in the protocols: packets are a bag with arbitrary delay; the client's clock is any non-decreasing sequence of readings.
- Plans as trait objects: `Plans.Composite` and `SimInner.Inner.ScheduleNemesisPlan` take a `Plans.Plan`, which can carry any planner; scripts, random links, random partitions and composites are each proved to act as one.
- A plan scheduled a second time in a set-up list: there it starts anew. A plan that may draw without end for one answer.
- Suite-level comparison and its tally of wins.
