/**
 The management loop of src/scheduler.rs (`batch`), one iteration at a time. The clock and the traps
 come from outside: an iteration is given every clock reading it takes, in program order, and the
 trap that ends its run of the task. Failed runtime asserts and overflows are results. The capacity
 of the queue (N in the source) and the quantum (timer::T) are parameters. Tasks are those of the
 specs; the unused tail of the task array never changes.
 */
module Kernel {
  import opened Util
  import opened TrapAsm
  import opened TrapHandler
  import opened KernelQueue

  const USIZE_MAX: int := 0xffff_ffff_ffff_ffff

  /** Entries of the trace array. */
  const TRACE: nat := 64

  datatype Policy = Cooperative | OneShot(limit: nat) | Rr | Mlfq

  datatype State = Ready | Running | Done

  /** `charged` is history: user time charged since the last boost, demotion or start. */
  datatype Task = Task(
    frame: Frame, state: State, level: nat, slice: nat, allot: nat, timers: nat, yielded: nat, syscalls: nat,
    demotions: nat, preemptions: nat, first: Option<nat>, completion: nat, readySince: nat, maxWait: nat,
    charged: nat)

  /** `fault[i]` says that spec i is expected to fault. */
  datatype Config = Config(policy: Policy, capacity: nat, quantum: nat, base: nat, fault: seq<bool>)

  /** `clock` is history: the last reading the loop can have taken. */
  datatype Loop = Loop(
    tasks: seq<Task>, queue: seq<nat>, current: Option<nat>, deadline: nat, boost: nat, boosts: nat,
    switches: nat, trace: seq<(nat, Reason)>, dropped: nat, clock: nat)

  /** The clock readings of one iteration in program order, and the trap. */
  datatype Event = Event(
    check: nat, boosted: nat, dispatched: nat, due: nat, left: nat, armed: nat, entered: nat, time: nat,
    rearmed: nat, requeued: nat, frame: Frame, reason: Reason)

  datatype Stop = CheckFailed | PushFailed(error: PushError) | ZeroInterval | ClockOverflow | TimeBackwards
                | BadExit | UnexpectedFault

  datatype Outcome = Going(loop: Loop) | Finished(loop: Loop) | Stopped(why: Stop)

  /** What batch asserts of its specs, and room for the first boost deadline. */
  predicate Configured(c: Config) {
    0 < |c.fault| <= c.capacity && c.quantum > 0 && c.base + 20 * c.quantum <= USIZE_MAX
  }

  function FullSlice(c: Config, level: nat): nat
    requires level <= 2
  {
    if level == 0 then c.quantum else if level == 1 then 2 * c.quantum else 4 * c.quantum
  }

  function FullAllot(c: Config, level: nat): nat
    requires level <= 2
  {
    if level == 0 then 2 * c.quantum else if level == 1 then 4 * c.quantum else USIZE_MAX
  }

  /** `Task::budget` at a new level. */
  function Budget(c: Config, t: Task, level: nat): Task
    requires level <= 2
  {
    t.(level := level, slice := FullSlice(c, level), allot := FullAllot(c, level), charged := 0)
  }

  function FirstTask(c: Config, frame: Frame): Task {
    Task(frame, Ready, 0, c.quantum, 2 * c.quantum, 0, 0, 0, 0, 0, None, 0, c.base, 0, 0)
  }

  function Start(c: Config, frames: seq<Frame>): Loop {
    Loop(seq(|frames|, i requires 0 <= i < |frames| => FirstTask(c, frames[i])), seq(|frames|, (i: nat) => i), None, 0,
         c.base + 20 * c.quantum, 0, 0, [], 0, c.base)
  }

  /** `timer::after`. */
  function After(now: nat, interval: nat): Result<nat, Stop> {
    if interval == 0 then Err(ZeroInterval)
    else if now + interval > USIZE_MAX then Err(ClockOverflow)
    else Ok(now + interval)
  }

  function SatSub(a: nat, b: nat): nat {
    if a < b then 0 else a - b
  }

  /** `Ready::check`. */
  ghost predicate Check(tasks: seq<Task>, queue: seq<nat>) {
    && |queue| <= |tasks|
    && (forall id :: id in queue ==> id < |tasks| && tasks[id].state == Ready)
    && (forall id :: 0 <= id < |tasks| ==> multiset(queue)[id] == if tasks[id].state == Ready then 1 else 0)
    && (forall i, j :: 0 <= i < j < |tasks| ==> tasks[i].state != Running || tasks[j].state != Running)
  }

  /** The boost deadline after a boost at `now`: the next multiple of 20 quanta after base. */
  function NextBoost(c: Config, now: nat): int
    requires c.quantum > 0
  {
    c.base + ((now - c.base) / (20 * c.quantum) + 1) * (20 * c.quantum)
  }

  function Refreshed(c: Config, t: Task): Task {
    if t.state == Done then t else Budget(c, t, 0)
  }

  function RefreshAll(c: Config, tasks: seq<Task>): (r: seq<Task>)
    ensures |r| == |tasks| && forall i :: 0 <= i < |tasks| ==> r[i] == Refreshed(c, tasks[i])
  {
    seq(|tasks|, i requires 0 <= i < |tasks| => Refreshed(c, tasks[i]))
  }

  /** The boost, if it is due; the running task is refreshed too. */
  function Boosted(c: Config, k: Loop, e: Event): Outcome
    requires c.quantum > 0
  {
    if !(c.policy == Mlfq && e.check >= k.boost) then Going(k)
    else if e.boosted < c.base || NextBoost(c, e.boosted) > USIZE_MAX then Stopped(ClockOverflow)
    else Going(k.(tasks := RefreshAll(c, k.tasks), boosts := k.boosts + 1, boost := NextBoost(c, e.boosted)))
  }

  function Levels(tasks: seq<Task>): (r: seq<nat>)
    ensures |r| == |tasks| && forall i :: 0 <= i < |tasks| ==> r[i] == tasks[i].level
  {
    seq(|tasks|, i requires 0 <= i < |tasks| => tasks[i].level)
  }

  /** The task's bookkeeping at the start of a dispatch. */
  function Begun(t: Task, now: nat): Task {
    t.(state := Running, maxWait := Max(t.maxWait, SatSub(now, t.readySince)), first := if t.first.None? then Some(now) else t.first)
  }

  /** Take the next task from the queue unless one is current; an empty queue ends the batch. */
  function Chosen(c: Config, k: Loop, e: Event): Outcome
    requires Below(k.queue, |k.tasks|)
  {
    if k.current.Some? then Going(k)
    else if k.queue == [] then Finished(k)
    else
      var p := Front(Levels(k.tasks), k.queue, c.policy == Mlfq);
      var i := k.queue[p];
      match After(e.due, c.quantum)
      case Err(why) => Stopped(why)
      case Ok(deadline) =>
        Going(k.(tasks := k.tasks[i := Begun(k.tasks[i], e.dispatched)], queue := RemoveAt(k.queue, p), current := Some(i),
                 deadline := deadline, switches := k.switches + 1))
  }

  /** Under Mlfq every run has a deadline of its own, within what is left of slice, allotment and boost period. */
  function Armed(c: Config, k: Loop, e: Event): Outcome
    requires k.current.Some? && k.current.value < |k.tasks|
  {
    if c.policy != Mlfq then Going(k)
    else
      var t := k.tasks[k.current.value];
      match After(e.armed, Max(Min(Min(t.slice, t.allot), SatSub(k.boost, e.left)), 1))
      case Err(why) => Stopped(why)
      case Ok(deadline) => Going(k.(deadline := deadline))
  }

  /** From the head of the loop to the call of run_task. */
  ghost function Select(c: Config, k: Loop, e: Event): Outcome
    requires c.quantum > 0
  {
    if !Check(k.tasks, k.queue) then Stopped(CheckFailed)
    else
      match Boosted(c, k, e)
      case Going(b) => (
        if !Below(b.queue, |b.tasks|) then Stopped(CheckFailed)
        else
          match Chosen(c, b, e)
          case Going(d) => if d.current.value >= |d.tasks| then Stopped(CheckFailed) else Armed(c, d, e)
          case other => other)
      case other => other
  }

  /** User time is charged on every trap, whatever its reason. */
  function Charged(c: Config, t: Task, delta: nat): Task {
    if c.policy != Mlfq then t
    else t.(slice := SatSub(t.slice, delta), allot := if t.level < 2 then SatSub(t.allot, delta) else t.allot,
            charged := t.charged + delta)
  }

  /** The match on the reason: counters, and the end of the task. */
  function Counted(t: Task, e: Event): Task {
    match e.reason
    case Exit(_) => t.(state := Done, completion := e.time)
    case Fault(_) => t.(state := Done, completion := e.time)
    case Yield => t.(yielded := t.yielded + 1)
    case Timer => t.(timers := t.timers + 1)
    case Syscall => t.(syscalls := t.syscalls + 1)
  }

  /** Demotion or a new slice under Mlfq. */
  function Leveled(c: Config, t: Task): Task
    requires t.level <= 2
  {
    if t.state == Done || c.policy != Mlfq then t
    else if t.level < 2 && t.allot == 0 then Budget(c, t, t.level + 1).(demotions := t.demotions + 1)
    else if t.slice == 0 then t.(slice := FullSlice(c, t.level))
    else t
  }

  /** Whether the task, counted and charged as t, goes back to the queue. */
  predicate Requeued(c: Config, k: Loop, t: Task, e: Event) {
    || e.reason == Yield || (e.reason == Timer && !c.policy.OneShot?)
    || (t.state != Done && c.policy == Mlfq && ((t.level < 2 && t.allot == 0) || t.slice == 0 || e.time >= k.boost))
    || (t.state != Done && c.policy == Rr && e.time >= k.deadline)
  }

  function Parked(t: Task, e: Event): Task {
    t.(state := Ready, readySince := e.requeued,
       preemptions := t.preemptions + if e.reason == Timer || e.reason == Syscall then 1 else 0)
  }

  /** The asserts on how a task may end. */
  function Complaint(c: Config, i: nat, reason: Reason): Option<Stop>
    requires i < |c.fault|
  {
    match reason
    case Exit(code) => if code != 0 then Some(BadExit) else None
    case Fault(cause) => if !(c.fault[i] && cause == 2) then Some(UnexpectedFault) else None
    case _ => None
  }

  /** Under OneShot a timer trap below the limit sets the next deadline. */
  function Rearmed(c: Config, k: Loop, t: Task, e: Event): Result<nat, Stop> {
    if e.reason == Timer && c.policy.OneShot? && t.timers != c.policy.limit then After(e.rearmed, c.quantum) else Ok(k.deadline)
  }

  function Noted(k: Loop, i: nat, reason: Reason): Loop {
    if |k.trace| < TRACE then k.(trace := k.trace + [(i, reason)]) else k.(dropped := k.dropped + 1)
  }

  /** From the return of run_task to the end of the iteration. */
  function Settle(c: Config, k: Loop, e: Event): Outcome
    requires k.current.Some? && k.current.value < |k.tasks| == |c.fault| && k.tasks[k.current.value].level <= 2
  {
    var i := k.current.value;
    if c.policy == Mlfq && e.time < e.entered then Stopped(TimeBackwards)
    else
      var counted := Counted(Charged(c, k.tasks[i].(frame := e.frame), SatSub(e.time, e.entered)), e);
      match Complaint(c, i, e.reason)
      case Some(why) => Stopped(why)
      case None =>
        match Rearmed(c, k, counted, e)
        case Err(why) => Stopped(why)
        case Ok(deadline) =>
          var t := Leveled(c, counted);
          if Requeued(c, k, counted, e) then
            match Pushed(k.queue, c.capacity, i)
            case Err(why) => Stopped(PushFailed(why))
            case Ok(queue) =>
              Going(Noted(k.(tasks := k.tasks[i := Parked(t, e)], queue := queue, current := None, deadline := deadline,
                             clock := e.requeued), i, e.reason))
          else
            var n := k.(tasks := k.tasks[i := t], current := if t.state == Done then None else Some(i),
                        deadline := deadline, clock := e.requeued);
            Going(if e.reason == Syscall then n else Noted(n, i, e.reason))
  }

  /** One iteration of the loop. */
  ghost function Turn(c: Config, k: Loop, e: Event): Outcome
    requires c.quantum > 0
  {
    match Select(c, k, e)
    case Going(s) =>
      if s.current.Some? && s.current.value < |s.tasks| == |c.fault| && s.tasks[s.current.value].level <= 2 then Settle(c, s, e)
      else Stopped(CheckFailed)
    case other => other
  }
}
