# Scheduling and preemption, proved

A Dafny model of the scheduling half of a teaching RISC-V kernel: the two Python simulators under
`experiments/`, the kernel's ready queue and management loop (`src/scheduler.rs`), the trap path in
assembly (`src/trap.S`, `src/user.S`), the system-call table (`src/syscall.rs`) and the user program
that the loop schedules (`src/user_scheduler.S`).

`dafny verify dfyconfig.toml` checks everything.

## How it is laid out

| files | what they model |
|---|---|
| `Util` | results, sums, duplicate-free sequences |
| `Scheduling`, `SchedulingWork`, `SchedulingSjf`, `SchedulingCompletions`, `SchedulingRr`, `SchedulingPolicies`, `SchedulingMetrics`, `SchedulingProgram` | the event-driven simulator: its steps on values, what each policy's trace looks like, busy time, optimality of SJF in total and completion by completion, fairness of RR, the meaning of the report, and the program with its mutable lists |
| `MlfqSim`, `MlfqTurns`, `MlfqPriority`, `MlfqStarvation`, `MlfqGaming`, `MlfqTimes`, `MlfqBusy`, `MlfqMetrics`, `MlfqProgram` | the tick-driven simulator: its steps, a turn in plain numbers, strict priority, bounded waiting, accounting, conservation of time, busy time, the meaning of the report, and the program |
| `Agreement` | the two simulators compute the same round robin |
| `KernelQueue`, `Kernel`, `KernelSafety`, `KernelRun`, `KernelTurns`, `KernelMetrics`, `KernelProgram` | the ready queue, one iteration of the management loop, its invariant, whole runs, an iteration in plain numbers, the printed figures, and the program with its task array |
| `Riscv`, `Syscalls`, `UserProgram`, `UserExit`, `UserTimer` | the user-mode machine, system calls, the user program line by line, and how it ends alone, mode 4 apart |
| `TrapAsm`, `TrapHandler`, `Preemption` | the trap path as code run by a small machine, `handle`, and preemption of many tasks |
| `PreparedTasks`, `ClosedSystem`, `Rotation` | the tasks `batch` prepares, the loop driving the machine, and cooperative rotation |

Where the source changes state step by step, a class does the same on its own fields and arrays
(`SchedulingProgram.Simulator`, `MlfqProgram.Simulator`, `KernelQueue.Ready`, `KernelProgram.Batch`,
`TrapHandler.TrapCell`), and each method is proved to have exactly the effect of a function on values;
the theorems are about those functions. Failed runtime asserts, `unwrap` on an error and overflow are
results, so that "never fires" is something to prove.

The clock, the timer, what the linker chose, how many user instructions run before the timer fires, and
what the kernel's own Rust code does to registers and memory are parameters, universally quantified. The
queue capacity (`N`) and the quantum (`timer::T`) are parameters too.

## What is proved, in short

* No pattern of timer interrupts and no interleaving changes what a task computes: after any sequence
  of runs each task is where its solo execution of the same number of instructions is. Along the way,
  trap entry followed by restore is the identity, the frame address is the same at every trap, and
  `run_task` returns 1 with every callee-saved register intact.
* The user program exits with code 0 if and only if the iteration count is at least 1 and the true sum
  modulo 2^64 is below 2^63 (every count from 1 to 2^32 - 1; not 0, because the loop is a do-while; not
  2^32), and its marker is printable in the modes that print it.
* Put together: a batch stops early only if some spec is unhealthy in that sense, and comes to its end
  only if none is.
* The management loop: the runtime check holds at every head, no push fails, finished tasks never
  change, at most one task runs, dispatches and trace entries are conserved, boosts stay on their grid,
  accounting cannot be escaped, and priority is strict at every run. It stops early if and only if a
  task ended in a way its spec forbids. For every policy it is said exactly which traps leave a task
  current, until when a run is timed, what is left of the budgets, and what is noted in the trace.
* The simulators: busy time does not depend on the policy, SJF is optimal for simultaneous arrivals
  (in total and for every k-th completion), FCFS and SJF run each job in one piece, FCFS and RR serve
  in order of entry to the queue, RR cuts at exactly the quantum and is fair, a job climbs the levels of
  MLFQ one by one at exactly its 4th and 8th tick, MLFQ starves nobody and cannot be gamed, every
  blocked period lasts exactly its wait, every reported number is that of the trace, and the two
  simulators agree where they overlap.

## Where the code and the documents differ

The model follows the code.

* `docs/course/15-mlfq.md` asks for a stable rebuild of the ready queue at a boost; the kernel leaves the
  queue as it is and only resets levels and budgets, of the running task too.
* The queue self-test at the start of `batch` assumes a capacity of at least 2 (`KernelQueue.Probe`).
* The user program's loop tests its condition at the end, so a count of 0 still runs one round and the
  checksum then fails.

## Model

| member | source | states |
|---|---|---|
| Scheduling.ArrivalOrder | experiments/scheduling.py:25 | every job once, by arrival and then input order |
| Scheduling.ArriveAdmits | experiments/scheduling.py:29-35 | exactly the due jobs leave `pending`: with service they become ready, without they are first run and done at their arrival |
| Scheduling.Shortest | experiments/scheduling.py:44 | least (remaining, arrival, index) key in the queue |
| Scheduling.IterateCases | experiments/scheduling.py:37-50 | a turn either only admits, or runs the job picked for all that is left of it, or under rr for one quantum if more is left |
| Scheduling.IterateKeepsInv | experiments/scheduling.py:37-57 | each job stays in exactly one place with sound times, and (service left, arrivals left) shrinks: the loop terminates |
| SchedulingWork.BusyTime | experiments/scheduling.py:37-58 | an instant is covered by the trace iff the policy-free backlog is positive iff some arrived job is unfinished; no instant twice |
| SchedulingWork.BusyTimeIsPolicyFree | experiments/scheduling.py:37-58 | the busy instants and the last completion are the same for all policies and quanta |
| SchedulingCompletions.KthCompletionAtLeast | experiments/scheduling.py:37-57 | for simultaneous arrivals, under every policy and quantum the k-th completion is no earlier than the sum of the k smallest services |
| SchedulingCompletions.SjfKthCompletion | experiments/scheduling.py:43-45 | under SJF the k-th completion is exactly then |
| SchedulingCompletions.SjfLeadsThroughout | experiments/scheduling.py:37-57 | for every k, SJF's k-th completion is no later than any other schedule's |
| SchedulingSjf.SjfIsOptimal | experiments/scheduling.py:37-57 | for simultaneous arrivals SJF's total turnaround is the least one, below every policy with every quantum |
| SchedulingRr.RoundRobinIsFair | experiments/scheduling.py:29-57 | response and gaps at most (n-1)q, and between two slices of a job every other job runs at most once |
| SchedulingPolicies.TraceIsExplained | experiments/scheduling.py:43-50 | every segment of the final trace lasts for what was left of its job, or under rr for exactly one quantum if more was left; under sjf no unfinished job that had arrived was less by (service left, arrival, index) |
| SchedulingPolicies.OneSegmentEach | experiments/scheduling.py:43-53 | under fcfs and sjf each job with service has exactly one segment, of the length of its service |
| SchedulingPolicies.FullQuanta | experiments/scheduling.py:49 | under rr every segment of a job but its last is exactly one quantum long, and the last no longer |
| SchedulingPolicies.ServedInOrder | experiments/scheduling.py:46-57 | under fcfs and rr segments follow the order of entry to the queue: by time, arrivals before the job that just ran, arrivals at one time in input order |
| SchedulingPolicies.FcfsFollowsArrivals | experiments/scheduling.py:47 | under fcfs segments follow arrival and then input order |
| SchedulingPolicies.SjfTakesLeast | experiments/scheduling.py:44 | under sjf the job that runs is least by (service, arrival, index) among those that have arrived and not run |
| SchedulingMetrics.ReportIsTheTrace | experiments/scheduling.py:48-57 | first run and completion of a job with service are the start of its first and the end of its last segment, without service both are its arrival; its segments add up to its service |
| SchedulingProgram.ReportIsConsistent | experiments/scheduling.py:59-62 | the returned metrics have exactly the names as keys; arrival + response is the start of the first and arrival + turnaround the end of the last entry by that name in the returned trace, and both are 0 for a job without service or entry; the trace is the segments of the run by name |
| SchedulingProgram.ClosingAssertions | experiments/scheduling.py:58-61 | both closing assertions hold for every accepted input |
| SchedulingProgram.Simulator.ArriveNow | experiments/scheduling.py:29-35 | the in-place loop admits exactly what the model admits |
| SchedulingProgram.Simulator.RunSlice | experiments/scheduling.py:45-54 | the in-place bookkeeping of one slice |
| SchedulingProgram.Simulator.LoopBody | experiments/scheduling.py:38-57 | one pass of the loop body is one model turn |
| SchedulingProgram.Simulator.RunToEnd | experiments/scheduling.py:37-57 | the loop terminates in the model's final state |
| SchedulingProgram.Simulate | experiments/scheduling.py:18-62 | rejects exactly the bad inputs in the order of the checks; otherwise runs the policy named and returns a report that shows that run's trace and metrics read off it, with executed time equal to total service |
| MlfqSim.Woken | experiments/mlfq.py:29-35 | exactly the due tasks with work, in input order |
| MlfqSim.Pick | experiments/mlfq.py:43 | the front, or under mlfq the first entry of the least level |
| MlfqSim.NextWake | experiments/mlfq.py:53-55 | the least wake time of the waiting tasks, if any waits |
| MlfqSim.AfterKeepsTask | experiments/mlfq.py:59-80 | one charged tick keeps a task's times adding up, and leads one level down with a full slice and allotment exactly when it uses up the allotment |
| MlfqSim.IterateKeepsInv | experiments/mlfq.py:28-97 | each task is in exactly one place, with sound times and budgets, after every turn |
| MlfqSim.IterateShrinks | experiments/mlfq.py:28-56 | service left, tasks waiting, tasks waiting ahead of the clock shrink lexicographically: termination, idle jumps included |
| MlfqSim.FinalIsReached | experiments/mlfq.py:28 | the final state is the state after finitely many turns |
| MlfqTurns.AlwaysOnRung | experiments/mlfq.py:25-76 | at every turn level, allotment and slice of an unfinished job follow from its ticks since its last boost, demotion or start: 4, 8, 0 less those ticks, and 2, 4, 8 less those since the last full slice |
| MlfqTurns.LevelMoves | experiments/mlfq.py:36-71 | over one turn a level is reset by a boost, or rises by one exactly at the 4th tick at level 0 or the 8th at level 1, to slice and allotment 4 and 8 or 8 and 0, or stays |
| MlfqTurns.RrSlices | experiments/mlfq.py:67-75 | under rr every unfinished job is at level 0 with a slice of 2 less its ticks since it last used one up |
| MlfqTurns.BoostsOnTheDot | experiments/mlfq.py:27-41 | a boost is logged exactly when due, and the next is due at the next multiple of the period; the first after one period |
| MlfqTurns.PrepareTakes | experiments/mlfq.py:29-51 | the CPU stays with its job, or goes to the front, or under mlfq to the first of the least level, of the queue with the newly woken at its end; one dispatch is counted |
| MlfqTurns.TickSettles | experiments/mlfq.py:63-95 | after a tick the job is done, blocked, running or ready, and keeps the CPU exactly if it is unfinished, at no scheduling point of its own, has slice left, and under mlfq no boost is due and nobody ready is better; otherwise it goes behind the newly woken |
| MlfqTurns.TurnLogs | experiments/mlfq.py:36-72 | trace and events of a turn: the tick with the level it ran at, the boost, and the demotion exactly when the level rises |
| MlfqPriority.AlwaysOrderly | experiments/mlfq.py:36-41 | the next boost is at most a period away at every turn, and a task that keeps the CPU is at least as urgent as every ready one |
| MlfqPriority.StrictPriority | experiments/mlfq.py:42-44 | every tick is executed by a task whose level is at most that of every ready task |
| MlfqStarvation.NobodyStarves | experiments/mlfq.py:29-51 | max_ready_wait is at most 2(n-1) under rr and boost_period + 2(n-1) under mlfq, for all inputs |
| MlfqGaming.AllotmentsCannotBeGamed | experiments/mlfq.py:59-73 | at most 4 ticks at level 0 and 8 at level 1 in any window without a boost inside |
| MlfqGaming.DemotionEndsSlice | experiments/mlfq.py:67-75 | when the allotment runs out, so does the slice |
| MlfqTimes.TraceIsTotalService | experiments/mlfq.py:98 | the closing assertion |
| MlfqTimes.TurnaroundAddsUp | experiments/mlfq.py:65-80 | turnaround = service + wait per completed burst but the last + the history field for time ready |
| MlfqMetrics.TurnaroundIsTheRun | experiments/mlfq.py:29-80 | the same with the waits before the job's dispatches summed over the turns of the run |
| MlfqTimes.WakesOnTime | experiments/mlfq.py:28-97 | over every turn a waiting task goes on waiting for the same wake-up or is back at exactly that time, woken at the head of the turn, run in the same turn, or woken at the end of its tick; a task that blocks is to wake `wait` ticks later |
| MlfqTimes.BlockedForExactlyItsWait | experiments/mlfq.py:79-88 | a blocked period lasts exactly `wait` ticks, whatever boosts and idle jumps happen meanwhile |
| MlfqMetrics.ReportIsTheRun | experiments/mlfq.py:47-50 | first and last tick, tick count and longest wait are those of the final state; without service first and done are the arrival |
| MlfqMetrics.LongestWaitIsMaximum | experiments/mlfq.py:47 | the reported wait is at least every wait before a dispatch and equals one of them |
| MlfqProgram.ReportIsConsistent | experiments/mlfq.py:99-101 | the returned metrics have exactly the names as keys; arrival + response is the time of the first and arrival + turnaround the end of the last entry by that name in the returned trace, both 0 without service; max_ready_wait is the longest wait of the run; trace, events and dispatches are the run's, by name |
| MlfqBusy.TicksAreTheBacklog | experiments/mlfq.py:28-61 | without bursts, under rr and mlfq, a tick is executed at an instant iff the policy-free backlog is positive there |
| MlfqBusy.AllSimulatorsAreBusyTogether | experiments/mlfq.py:28-61 | so it is busy at the same instants as every policy of the event-driven simulator |
| MlfqProgram.Simulator.WakeUp | experiments/mlfq.py:82-88 | the in-place loop is the model's wake-up of all due tasks |
| MlfqProgram.Simulator.BoostAll | experiments/mlfq.py:36-41 | the in-place boost |
| MlfqProgram.Simulator.Dispatch | experiments/mlfq.py:42-51 | the in-place selection |
| MlfqProgram.Simulator.Account | experiments/mlfq.py:57-80 | the in-place tick |
| MlfqProgram.Simulator.FinishTick | experiments/mlfq.py:81-95 | the end of the tick: wake-ups, then keep or release the CPU |
| MlfqProgram.Simulator.LoopBody | experiments/mlfq.py:28-97 | one pass is one model turn, and the two assertions at its end hold |
| MlfqProgram.Simulator.RunToEnd | experiments/mlfq.py:28-97 | the loop terminates in the model's final state |
| MlfqProgram.AssertionsHold | experiments/mlfq.py:96-97 | the ready list is duplicate-free and all ready |
| MlfqProgram.Simulate | experiments/mlfq.py:18-101 | rejects exactly the bad inputs; otherwise runs the policy named and returns a report that shows that run's trace, events and dispatches and the metrics read off it, one trace entry per unit of service |
| Agreement.SimulatorsAgree | experiments/mlfq.py:28-101 | without bursts, rr's tick trace is the expansion of the event-driven trace with quantum 2, with equal first and completion times and one dispatch per segment |
| Util.Best | src/scheduler.rs:120-123 | first of the entries with the least key |
| KernelQueue.PushFits | src/scheduler.rs:102-115 | an id that is not queued always fits, and keeps the queue duplicate-free |
| KernelQueue.PopOrderIsStable | src/scheduler.rs:116-131 | emptying a queue yields exactly its entries, one before another iff its level is better, or equal (or not counted) and it was pushed earlier |
| KernelQueue.Ready.Push | src/scheduler.rs:102-115 | appends, or fails without effect for the first applicable reason |
| KernelQueue.Ready.Pop | src/scheduler.rs:116-131 | removes exactly the chosen entry, order of the rest unchanged |
| KernelQueue.Ready.CloseGap | src/scheduler.rs:128 | the in-place shift removes one entry |
| KernelQueue.Ready.FirstLeast | src/scheduler.rs:121-123 | the scan finds the first minimum |
| KernelQueue.Probe | src/scheduler.rs:274-286 | the self-test passes exactly from capacity 2 on |
| KernelSafety.StartIsSound | src/scheduler.rs:287-321 | the state before the loop satisfies the invariant: tasks queued in order, each with one quantum, an allotment of two and its frame; first boost after 20 quanta |
| KernelSafety.CheckHolds | src/scheduler.rs:132-150 | every assert of the runtime check follows from the invariant |
| KernelSafety.NextBoostBounds | src/scheduler.rs:333-336 | the new deadline is strictly later than the reading used and at most one period later |
| KernelSafety.BoostOnGrid | src/scheduler.rs:325-337 | the deadline is base plus a whole number of periods, and each boost moves it at least one |
| KernelSafety.BoostKeeps | src/scheduler.rs:325-337 | a boost happens exactly when due, resets exactly the unfinished tasks, the running one included, and keeps the invariant |
| KernelSafety.ChoiceKeeps | src/scheduler.rs:339-350 | a dispatch takes a queued task, keeps the invariant and touches no other task |
| KernelSafety.ArmKeeps | src/scheduler.rs:357-366 | under Mlfq the deadline of a run is exactly the least of slice, allotment and time to boost away, but at least one tick |
| KernelSafety.TrapOnTask | src/scheduler.rs:376-436 | charging, counting and demoting leave a live task solvent, and release counts change by the reason alone |
| KernelSafety.SettleIs | src/scheduler.rs:376-456 | after an allowed trap nothing fails: no push error, no overflow, no backward clock |
| KernelSafety.SettledCounts | src/scheduler.rs:388-456 | each release is traced once, and each one-shot timer trap |
| KernelSafety.SettleKeeps | src/scheduler.rs:376-456 | the invariant after the trap, other tasks untouched; exactly which traps leave the task current and which put it at the back of the queue; Rr deadline unchanged |
| KernelRun.SelectKeeps | src/scheduler.rs:323-366 | nothing fails up to the run, which is of the current or a queued task; boost deadline bounds |
| KernelRun.TurnKeeps | src/scheduler.rs:323-457 | an iteration stops exactly when the task ended as its spec forbids; otherwise the invariant holds again |
| KernelRun.TurnFinishes | src/scheduler.rs:339-341 | with nothing current and nothing queued the loop ends with every task done |
| KernelRun.EveryRunIsSafe | src/scheduler.rs:323-457 | for all traps and monotone clocks: invariant at each head, done tasks unchanged, end only when all are done with first <= completion |
| KernelRun.StopsExactlyWhenBlamed | src/scheduler.rs:388-400 | the batch stops early if and only if some task ended as its spec forbids |
| KernelRun.HeadMeans | src/scheduler.rs:323-457 | switches = releases + 1 if current; trace + dropped = switches - 1 if current; boosts and boost deadline bounded by the clock; Running iff current |
| KernelRun.AlwaysSolvent | src/scheduler.rs:377-436 | slice and allotment of every live task positive; allotment = full - charged at levels 0 and 1 |
| KernelRun.AccountingCannotBeEscaped | src/scheduler.rs:377-436 | between boosts, an undemoted task above the lowest level has used less user time than its allotment |
| KernelRun.RrDeadlineStands | src/scheduler.rs:348-366 | under Rr every trap of a dispatch but the last precedes the deadline set at the dispatch |
| KernelRun.StrictPriority | src/scheduler.rs:325-343 | every run under Mlfq is of a task whose level is at most that of every ready task |
| KernelTurns.SelectTakes | src/scheduler.rs:325-366 | who runs, after the boost: the current task, else the front or under Mlfq the first of the least level of the queue; what budgets it has; the deadline of its run under each policy, under Mlfq the least of slice, allotment and time to boost |
| KernelTurns.TrapLeadsTo | src/scheduler.rs:376-448 | the task stays current under Cooperative exactly after a system call; OneShot: system call or timer; Rr: system call before the deadline; Mlfq: system call with slice, allotment and boost period left; else it is queued last or done; levels, slices and allotments in quanta |
| KernelTurns.DeadlineMoves | src/scheduler.rs:405-416 | only a OneShot timer trap that is not the last one moves the deadline, to one quantum from then |
| KernelTurns.StopsExactlyFor | src/scheduler.rs:388-400 | an iteration fails exactly for an exit code other than 0, or a fault of a task not expected to fault or of cause other than 2 |
| KernelTurns.CheckIsExact | src/scheduler.rs:132-150 | the runtime check passes exactly if the queue holds each ready task once and nothing else, and at most one task runs |
| KernelTurns.BadClockStops | src/scheduler.rs:378-416 | a clock that runs backwards under Mlfq stops the batch, and so does an overflowing OneShot deadline |
| KernelTurns.TraceIsTheRun | src/scheduler.rs:449-456 | the trace holds the first 64 runs that ended otherwise than by a system call that kept the task, with task and reason in order; the rest are counted as dropped |
| KernelMetrics.TurnRecords | src/scheduler.rs:342-448 | one iteration's effect on every printed figure of every task: traps by kind, demotions, preemptions, first run, completion, longest wait |
| KernelMetrics.FiguresAreTheRun | src/scheduler.rs:475-486 | the same figures after any run are those of the run |
| KernelProgram.Batch.constructor | src/scheduler.rs:287-321 | the setup loop builds the model's initial state |
| KernelProgram.Batch.Occurrences | src/scheduler.rs:138-141 | counts an id in the queue |
| KernelProgram.Batch.CheckQueue | src/scheduler.rs:132-150 | true exactly when all asserts of the check hold |
| KernelProgram.Batch.BoostDue | src/scheduler.rs:325-337 | the in-place boost |
| KernelProgram.Batch.Choose | src/scheduler.rs:339-350 | the in-place dispatch |
| KernelProgram.Batch.Arm | src/scheduler.rs:357-366 | the deadline of a run |
| KernelProgram.Batch.SettleTrap | src/scheduler.rs:376-456 | the in-place accounting after a trap |
| KernelProgram.Batch.Iterate | src/scheduler.rs:323-457 | one pass of the loop is one model iteration |
| KernelProgram.Batch.RunToEnd | src/scheduler.rs:323-457 | the loop over any number of traps is the model's run |
| KernelProgram.RunBatch | src/scheduler.rs:246-487 | fails exactly by a task's forbidden end; at the end every task is done, first run no later than completion |
| Syscalls.Dispatch | src/syscall.rs:21-40 | exits exactly on EXIT with a byte; prints exactly the argument of an ASCII PUTCHAR; result 0, unknown call or invalid argument otherwise |
| UserProgram.Head | src/user_scheduler.S:17-24 | the sentinel checks pass and the running sum takes its next term, in 64-bit arithmetic, memory untouched |
| UserProgram.CountDown | src/user_scheduler.S:41-44 | a burst of c rounds takes 2c instructions and leaves the counter at 0 |
| UserProgram.Choose | src/user_scheduler.S:27-34 | which code each mode goes to |
| UserProgram.Compare | src/user_scheduler.S:62-70 | exits with 0 exactly when the running sum equals the closed form |
| UserExit.ChecksumExact | src/user_scheduler.S:60-66 | the exact counts for which the wrapped sum equals the wrapped closed form |
| UserExit.SmallCountsPass | src/user_scheduler.S:60-66 | every count from 1 to 2^32 - 1 passes and 2^32 does not |
| UserExit.LoopToExit | src/user_scheduler.S:17-70 | from any round of the loop to the exit, by induction on the rounds left |
| UserExit.AlwaysExits | src/user_scheduler.S:11-87 | alone, the program always exits, with 0 iff marker and count are good, for every mode but 4 |
| UserTimer.TimerMode | src/user_scheduler.S:71-82 | in mode 4, alone and with the flag left alone: it ends iff the flag is set, and then with 0, whatever marker and count |
| TrapAsm.SavesSlots | src/trap.S:96-121 | the stores of x6..x31 fill exactly their slots |
| TrapAsm.EntrySaves | src/trap.S:71-135 | all registers and trap CSRs are in the frame, no other memory changes, kernel gp, tp and vector are back |
| TrapAsm.RestoreLoads | src/trap.S:142-189 | the frame's registers, sepc and sstatus are loaded and sscratch is again the trap-stack top |
| TrapAsm.EntryThenRestore | src/trap.S:71-189 | trap entry then restore is the identity on user registers, sepc, sstatus and sscratch |
| TrapAsm.EnterSaves | src/user.S:356-383 | run_task saves ra, sp, gp, tp, s0..s11 and moves to the task's trap stack |
| TrapAsm.TerminateRestores | src/trap.S:195-222 | the bridge restores all of them, clears sscratch and keeps a0 |
| TrapHandler.Quiet | src/scheduler.rs:233 | clears SPP, SPIE and SIE and takes nothing else away |
| TrapHandler.HandleMeans | src/scheduler.rs:200-244 | exactly which traps pass all asserts; the reason for each; the frame as edited, with the result register of every call; time and output |
| TrapHandler.TrapCell.HandleTrap | src/scheduler.rs:200-244 | returns 1 with frame and EXCHANGE updated together, or fails with EXCHANGE untouched |
| Preemption.WriteHolds | src/scheduler.rs:352-356 | writing a frame makes memory hold it and touches nothing else |
| Preemption.HandlesAsSolo | src/scheduler.rs:200-244 | no assert of the handler fires, and the edited frame is the task's next solo state |
| Preemption.RunTaskReturns | src/scheduler.rs:351-376 | run_task returns 1 with ra, sp, gp, tp, s0..s11 intact |
| Preemption.RunTaskIsSolo | src/scheduler.rs:351-376 | one run advances its task by its own solo steps, and no other task |
| Preemption.PreemptionIsInvisible | src/scheduler.rs:351-376 | for every interleaving and timer pattern each task ends where its solo execution ends |
| PreparedTasks.StacksAreSane | src/scheduler.rs:175-184 | the stacks give every task memory of its own, for any number of tasks |
| PreparedTasks.FirstImage | src/scheduler.rs:290-308 | the user state each task starts in, every register of it |
| PreparedTasks.TasksReachTheirVerdicts | src/scheduler.rs:290-376 | under any schedule a task ends only with its own verdict, and has ended after enough instructions |
| ClosedSystem.SystemStep | src/scheduler.rs:323-457 | loop and machine stay in step, unless a task ends in a way the loop does not accept |
| ClosedSystem.SystemEndsAsTasksDo | src/scheduler.rs:323-457 | the system stops early only for a task's own verdict, and ends only if all are accepted |
| ClosedSystem.NeverStuck | src/scheduler.rs:323-376 | while a task is left the system can make another iteration |
| ClosedSystem.HealthyBatchesNeverFail | src/scheduler.rs:388-400 | the exit-code and fault asserts fire only if some spec is unhealthy; a batch that ends had only healthy ones |
| Rotation.TrapNumber | src/user_scheduler.S:35-61 | trap by trap: print, yield, print, yield, ..., exit 0 |
| Rotation.CooperativeTurn | src/scheduler.rs:401-448 | a system call keeps the task, a yield sends it to the back, an exit removes it |
| Rotation.CooperativeRotation | src/scheduler.rs:401-448 | the console shows the markers in order N times, yields = system calls = N each, switches = tasks * (N + 1); it is over after exactly tasks * (2N + 1) runs, at the next iteration |

## Left out

- Lessons 16 to 47 of `docs/course`: no code exists for them.
- The single-process lifecycle (`src/process.rs`, `src/user.rs`, `src/user10.rs`), memory layout, the BSS loop, the console, SBI, CSR set-up and panic printing: interval checks, formatting and easy transition tables.
- `tools/`, `tests/` and `labs/`: process and log plumbing.
- The timer device and `timer::arm`/`stop`: a run may end by a timer interrupt at any instruction, whether or not the timer was armed, so that under OneShot and Rr arming it changes nothing the model has; the cooperative rotation assumes none, since that policy never arms it.
- Mode 4 of the user program in a batch: the kernel writes the timer flag, so the task's result is not a function of its own state. `UserTimer.TimerMode` says what the program does for each value of the flag; the members named next leave the mode out.
- UserExit.LoopToExit: leaves out mode 4, whose loop ends by the flag and not by the count.
- UserExit.AlwaysExits: leaves out mode 4, for the same reason.
- PreparedTasks.TasksReachTheirVerdicts: leaves out batches with a mode-4 task that is not expected to fault.
- ClosedSystem.HealthyBatchesNeverFail: leaves out batches with a mode-4 task that is not expected to fault.
- The workload asserts at the end of `batch` (mode 4 saw all its timers; a mode-2 task was demoted under Mlfq): the first needs the flag, the second depends on how long the task runs in real time.
- Overflow of the 64-bit clock: the readings are assumed to stay one boost period below its end. The overflow checks are modelled and proved not to fail under that assumption.
- Memory isolation: the kernel has none. The solo execution of a task is followed only as long as it stays in its own code and stack, which the user program is proved to do.
- Liveness: nothing says that the machine keeps running a task.
- Code addresses: one four-byte slot per assembler line, so `li` of a large constant counts as one instruction.
- Memory is a map from the addresses of eight-byte cells; overlapping accesses do not occur in the modelled code.
- Names in the simulators' internal traces are positions in the job list; the reports of the `Simulate` methods use the names, as the source's do.
- Python's `sorted` and `min` with a key are functions proved to return the sorted order and the first minimum.
- Task records carry history fields the source does not have (`waited`, `charged`, and the loop's `clock`); no step reads them to decide anything.
- The unused tail of the kernel's task array, which nothing changes.
