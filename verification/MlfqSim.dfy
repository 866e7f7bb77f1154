/**
 The tick-driven simulator (experiments/mlfq.py): a multi-level feedback queue or round robin,
 with slices, cumulative allotments, voluntary yields, simulated I/O, periodic boosts and idle
 jumps. Tasks are identified by their position in the input list.
 */
module MlfqSim {
  import opened Util
  import S = Scheduling

  /** burst == 0: no voluntary scheduling point; burst > 0 and wait == 0: yield. */
  datatype Job = Job(name: string, arrival: int, service: int, burst: int, wait: int)

  datatype Policy = Rr | Mlfq

  datatype Phase = New | Ready | Running | Blocked | Done

  /** One entry of `states`; `waited` is a history variable, the total time spent ready. */
  datatype Task = Task(
    left: int, level: int, slice: int, allot: int, used: int, wake: int, phase: Phase,
    first: Option<int>, done: Option<int>, readyAt: int, maxWait: int, waited: int)
  {
    predicate Waiting() {
      phase == New || phase == Blocked
    }
  }

  datatype Event = Boosted(time: int) | Demoted(time: int, job: nat)

  /** `job` ran during [time, time + 1) at `level`. */
  datatype Tick = Tick(time: int, job: nat, level: int)

  datatype State = State(
    tasks: seq<Task>, ready: seq<nat>, now: int, nextBoost: int, current: Option<nat>,
    switches: nat, events: seq<Event>, trace: seq<Tick>)

  predicate ValidJob(j: Job) {
    j.arrival >= 0 && j.service >= 0 && j.burst >= 0 && j.wait >= 0 && (j.wait != 0 ==> j.burst != 0)
  }

  predicate ValidJobs(jobs: seq<Job>) {
    forall i :: 0 <= i < |jobs| ==> ValidJob(jobs[i])
  }

  /** The same jobs as the event-driven simulator sees them. */
  function Plain(jobs: seq<Job>): (r: seq<S.Job>)
    ensures |r| == |jobs|
    ensures forall i :: 0 <= i < |jobs| ==> r[i] == S.Job(jobs[i].name, jobs[i].arrival, jobs[i].service)
  {
    seq(|jobs|, i requires 0 <= i < |jobs| => S.Job(jobs[i].name, jobs[i].arrival, jobs[i].service))
  }

  /** Valid jobs that never yield or block. */
  predicate PureCpu(jobs: seq<Job>) {
    ValidJobs(jobs) && forall i :: 0 <= i < |jobs| ==> jobs[i].burst == 0
  }

  /** The slice of a level: (2, 4, 8). */
  function SliceOf(level: int): int {
    if level == 0 then 2 else if level == 1 then 4 else 8
  }

  /** The allotment of a level: (4, 8, 0); level 2 has none. */
  function AllotOf(level: int): int {
    if level == 0 then 4 else if level == 1 then 8 else 0
  }

  function Fresh(j: Job): Task {
    Task(j.service, 0, 2, 4, 0, j.arrival, New, None, None, 0, 0, 0)
  }

  function Init(jobs: seq<Job>, period: int): State {
    State(seq(|jobs|, i requires 0 <= i < |jobs| => Fresh(jobs[i])), [], 0, period, None, 0, [], [])
  }

  /** Arrival or wake-up of one task; a task without service completes on the spot. */
  function WakeTask(t: Task, now: int): Task {
    if !t.Waiting() || t.wake > now then t
    else if t.left == 0 then t.(first := Some(now), done := Some(now), phase := Done)
    else t.(phase := Ready, readyAt := now)
  }

  predicate BecomesReady(t: Task, now: int) {
    t.Waiting() && t.wake <= now && t.left != 0
  }

  /** The tasks among the first n that become ready at `now`, in input order. */
  function Woken(tasks: seq<Task>, now: int, n: nat): (r: seq<nat>)
    requires n <= |tasks|
    ensures Below(r, n) && Distinct(r)
    ensures forall i :: i in r <==> 0 <= i < n && BecomesReady(tasks[i], now)
  {
    if n == 0 then []
    else if BecomesReady(tasks[n - 1], now) then Woken(tasks, now, n - 1) + [n - 1]
    else Woken(tasks, now, n - 1)
  }

  function Awakened(tasks: seq<Task>, now: int): (r: seq<Task>)
    ensures |r| == |tasks| && forall i :: 0 <= i < |tasks| ==> r[i] == WakeTask(tasks[i], now)
  {
    seq(|tasks|, i requires 0 <= i < |tasks| => WakeTask(tasks[i], now))
  }

  function WakeAll(s: State): State {
    s.(tasks := Awakened(s.tasks, s.now), ready := s.ready + Woken(s.tasks, s.now, |s.tasks|))
  }

  function BoostTask(t: Task): Task {
    if t.done == None then t.(level := 0, slice := 2, allot := 4) else t
  }

  function Lifted(tasks: seq<Task>): (r: seq<Task>)
    ensures |r| == |tasks| && forall i :: 0 <= i < |tasks| ==> r[i] == BoostTask(tasks[i])
  {
    seq(|tasks|, i requires 0 <= i < |tasks| => BoostTask(tasks[i]))
  }

  /** The periodic boost, when it is due. */
  function Boost(policy: Policy, period: int, s: State): State
    requires period > 0
  {
    if policy == Mlfq && s.now >= s.nextBoost then
      s.(tasks := Lifted(s.tasks),
         events := s.events + [Boosted(s.now)],
         nextBoost := (s.now / period + 1) * period)
    else s
  }

  function LevelsOf(tasks: seq<Task>): (r: seq<int>)
    ensures |r| == |tasks| && forall i :: 0 <= i < |tasks| ==> r[i] == tasks[i].level
  {
    seq(|tasks|, i requires 0 <= i < |tasks| => tasks[i].level)
  }

  /** The position selected: the front, or under Mlfq the first entry of the least level. */
  function Pick(policy: Policy, s: State): (p: nat)
    requires s.ready != [] && Below(s.ready, |s.tasks|)
    ensures p < |s.ready| && (policy == Rr ==> p == 0)
    ensures policy == Mlfq ==> forall k :: 0 <= k < |s.ready| ==> s.tasks[s.ready[p]].level <= s.tasks[s.ready[k]].level
    ensures policy == Mlfq ==> forall k :: 0 <= k < p ==> s.tasks[s.ready[p]].level < s.tasks[s.ready[k]].level
  {
    if policy == Mlfq then Best(LevelsOf(s.tasks), s.ready) else 0
  }

  function StartTask(t: Task, now: int): Task {
    t.(maxWait := Max(t.maxWait, now - t.readyAt), waited := t.waited + now - t.readyAt,
       phase := Running, first := if t.first == None then Some(now) else t.first)
  }

  /** Dispatch the ready task at position p. */
  function Start(s: State, p: nat): State
    requires p < |s.ready| && s.ready[p] < |s.tasks|
  {
    var i := s.ready[p];
    s.(ready := RemoveAt(s.ready, p), current := Some(i), switches := s.switches + 1,
       tasks := s.tasks[i := StartTask(s.tasks[i], s.now)])
  }

  function Select(policy: Policy, s: State): State
    requires Below(s.ready, |s.tasks|)
  {
    if s.current == None && s.ready != [] then Start(s, Pick(policy, s)) else s
  }

  /** The least wake time of the waiting tasks among the first n. */
  function NextWake(tasks: seq<Task>, n: nat): (r: Option<int>)
    requires n <= |tasks|
    ensures r == None <==> forall i :: 0 <= i < n ==> !tasks[i].Waiting()
    ensures r.Some? ==> exists i :: 0 <= i < n && tasks[i].Waiting() && tasks[i].wake == r.value
    ensures r.Some? ==> forall i :: 0 <= i < n && tasks[i].Waiting() ==> r.value <= tasks[i].wake
  {
    if n == 0 then None
    else
      var r := NextWake(tasks, n - 1);
      if !tasks[n - 1].Waiting() then r
      else if r == None then Some(tasks[n - 1].wake)
      else Some(Min(r.value, tasks[n - 1].wake))
  }

  /** Jump to the next arrival or wake-up. */
  function Idle(s: State): State {
    var w := NextWake(s.tasks, |s.tasks|);
    if w.Some? then s.(now := w.value) else s
  }

  /** The counters of the running task after one more tick. */
  function Spend(t: Task): Task {
    t.(left := t.left - 1, used := t.used + 1, slice := t.slice - 1,
       allot := if t.level != 2 then t.allot - 1 else t.allot)
  }

  predicate Voluntary(j: Job, t: Task) {
    j.burst > 0 && t.used % j.burst == 0
  }

  predicate Demotes(policy: Policy, t: Task) {
    t.left != 0 && policy == Mlfq && t.level < 2 && t.allot == 0
  }

  /** Demotion, or a new slice at the same level. */
  function Budget(policy: Policy, t: Task): Task {
    if Demotes(policy, t) then
      t.(level := t.level + 1, slice := SliceOf(t.level + 1), allot := AllotOf(t.level + 1))
    else if t.slice == 0 then
      t.(slice := if policy == Mlfq then SliceOf(t.level) else 2)
    else t
  }

  /** Completion or blocking at the end of a tick. */
  function Settle(j: Job, t: Task, now: int): Task {
    if t.left == 0 then t.(done := Some(now), phase := Done)
    else if Voluntary(j, t) && j.wait != 0 then t.(phase := Blocked, wake := now + j.wait)
    else t
  }

  /** The running task gives up the CPU whatever else happens at this boundary. */
  predicate Leaves(policy: Policy, j: Job, t: Task) {
    var u := Spend(t);
    u.left == 0 || Voluntary(j, u) || Demotes(policy, u) || u.slice == 0
  }

  function After(policy: Policy, j: Job, t: Task, now: int): Task {
    Settle(j, Budget(policy, Spend(t)), now)
  }

  /** One tick of the current task, up to its own completion or blocking. */
  function Charge(jobs: seq<Job>, policy: Policy, s: State): State
    requires s.current.Some? && s.current.value < |s.tasks| == |jobs|
  {
    var i := s.current.value;
    var t := s.tasks[i];
    s.(trace := s.trace + [Tick(s.now, i, t.level)],
       now := s.now + 1,
       tasks := s.tasks[i := After(policy, jobs[i], t, s.now + 1)],
       events := if Demotes(policy, Spend(t)) then s.events + [Demoted(s.now + 1, i)] else s.events)
  }

  predicate Outranked(s: State, i: nat)
    requires i < |s.tasks| && Below(s.ready, |s.tasks|)
  {
    exists k :: 0 <= k < |s.ready| && s.tasks[s.ready[k]].level < s.tasks[i].level
  }

  /** Put task i at the back of the queue if it can still run, and free the CPU. */
  function Release(s: State, i: nat): State
    requires i < |s.tasks|
  {
    if s.tasks[i].phase == Running then
      s.(tasks := s.tasks[i := s.tasks[i].(phase := Ready, readyAt := s.now)], ready := s.ready + [i], current := None)
    else s.(current := None)
  }

  /** The end of a tick: keep the CPU or release it. */
  function Yield(policy: Policy, s: State, i: nat, leaves: bool): State
    requires i < |s.tasks| && Below(s.ready, |s.tasks|)
  {
    if leaves || (policy == Mlfq && (Outranked(s, i) || s.now >= s.nextBoost)) then Release(s, i) else s
  }

  function RunTick(jobs: seq<Job>, policy: Policy, s: State): State
    requires s.current.Some? && s.current.value < |s.tasks| == |jobs| && Below(s.ready, |s.tasks|)
  {
    var i := s.current.value;
    Yield(policy, WakeAll(Charge(jobs, policy, s)), i, Leaves(policy, jobs[i], s.tasks[i]))
  }

  /** The loop body up to the tick: wake-ups, boost, selection. */
  function Prepare(policy: Policy, period: int, s: State): State
    requires period > 0 && Below(s.ready, |s.tasks|)
  {
    Select(policy, Boost(policy, period, WakeAll(s)))
  }

  lemma PrepareFits(policy: Policy, period: int, s: State)
    requires period > 0 && Below(s.ready, |s.tasks|) && (s.current.Some? ==> s.current.value < |s.tasks|)
    ensures var p := Prepare(policy, period, s);
            |p.tasks| == |s.tasks| && Below(p.ready, |p.tasks|) && (p.current.Some? ==> p.current.value < |p.tasks|)
  {
    hide Pick;
  }

  /** One turn of the simulator's loop. */
  function Iterate(jobs: seq<Job>, policy: Policy, period: int, s: State): State
    requires period > 0 && |s.tasks| == |jobs| && Below(s.ready, |s.tasks|)
    requires s.current.Some? ==> s.current.value < |jobs|
  {
    PrepareFits(policy, period, s);
    var p := Prepare(policy, period, s);
    if p.current == None then Idle(p) else RunTick(jobs, policy, p)
  }

  predicate Finished(s: State) {
    forall i :: 0 <= i < |s.tasks| ==> s.tasks[i].done.Some?
  }

  /** Number of completed burst-and-wait cycles after `used` ticks. */
  function Cycles(j: Job, used: int): int
    requires j.burst >= 0
  {
    if j.burst == 0 then 0 else used / j.burst
  }

  /** Execution, blocking and ready time of a task since its arrival. */
  function Accounted(j: Job, t: Task): int
    requires j.burst >= 0
  {
    t.used + j.wait * Cycles(j, t.used) + t.waited
  }

  /** The life of one task at time `now`; times inside it always add up. */
  ghost predicate TaskOk(j: Job, t: Task, now: int) {
    && ValidJob(j) && t.used >= 0 && t.left >= 0 && t.used + t.left == j.service
    && (t.done.Some? <==> t.phase == Done)
    && (t.first.Some? ==> j.arrival <= t.first.value <= now)
    && match t.phase
       case New => t.used == 0 && t.wake == j.arrival >= now && t.first == None && t.waited == 0
       case Blocked => t.left > 0 && t.wake >= now && t.first.Some? && t.wake - j.arrival == Accounted(j, t)
       case Ready => t.left > 0 && j.arrival <= t.readyAt <= now && t.readyAt - j.arrival == Accounted(j, t)
       case Running => t.left > 0 && t.first.Some? && now - j.arrival == Accounted(j, t)
       case Done =>
         && t.left == 0 && t.first.Some? && t.first.value <= t.done.value <= now
         && (if j.service == 0 then t.first.value == t.done.value == j.arrival
             else t.done.value - j.arrival == j.service + j.wait * Cycles(j, j.service - 1) + t.waited)
  }

  /** Slices and allotments of an unfinished task. */
  ghost predicate BudgetOk(policy: Policy, t: Task) {
    && 0 <= t.level <= 2 && 0 < t.slice <= SliceOf(t.level) && (policy == Rr ==> t.level == 0)
    && (policy == Mlfq ==>
          if t.level == 2 then t.allot == 0
          else t.allot == t.slice || t.allot == t.slice + SliceOf(t.level))
  }

  ghost predicate Slot(jobs: seq<Job>, policy: Policy, s: State, i: nat)
    requires i < |jobs| == |s.tasks|
  {
    && TaskOk(jobs[i], s.tasks[i], s.now)
    && (s.tasks[i].phase != Done ==> BudgetOk(policy, s.tasks[i]))
    && (i in s.ready <==> s.tasks[i].phase == Ready)
    && (s.current == Some(i) <==> s.tasks[i].phase == Running)
  }

  /** What holds between the steps of the loop body. */
  ghost predicate Inv(jobs: seq<Job>, policy: Policy, s: State) {
    && |s.tasks| == |jobs| && s.now >= 0
    && Distinct(s.ready) && Below(s.ready, |jobs|) && (s.current.Some? ==> s.current.value < |jobs|)
    && forall i :: 0 <= i < |jobs| ==> Slot(jobs, policy, s, i)
  }

  /** No arrival or wake-up is due. */
  ghost predicate Quiet(s: State) {
    forall i :: 0 <= i < |s.tasks| && s.tasks[i].Waiting() ==> s.tasks[i].wake > s.now
  }

  /** What holds whenever the loop condition is evaluated. */
  ghost predicate HeadInv(jobs: seq<Job>, policy: Policy, s: State) {
    Inv(jobs, policy, s) && (s.current.Some? ==> Quiet(s))
  }

  lemma InitInv(jobs: seq<Job>, policy: Policy, period: int)
    requires ValidJobs(jobs)
    ensures HeadInv(jobs, policy, Init(jobs, period))
  {
  }

  lemma WakeAllKeepsInv(jobs: seq<Job>, policy: Policy, s: State)
    requires Inv(jobs, policy, s)
    ensures Inv(jobs, policy, WakeAll(s)) && Quiet(WakeAll(s))
  {
    var t, w := WakeAll(s), Woken(s.tasks, s.now, |s.tasks|);
    forall e | e in w
      ensures e !in s.ready
    {
      assert Slot(jobs, policy, s, e);
    }
    ConcatMembers(s.ready, w);
    forall i | 0 <= i < |jobs|
      ensures Slot(jobs, policy, t, i)
    {
      assert Slot(jobs, policy, s, i);
    }
  }

  lemma BoostKeepsInv(jobs: seq<Job>, policy: Policy, period: int, s: State)
    requires Inv(jobs, policy, s) && period > 0
    ensures Inv(jobs, policy, Boost(policy, period, s))
    ensures Quiet(s) ==> Quiet(Boost(policy, period, s))
  {
    forall i | 0 <= i < |jobs|
      ensures Slot(jobs, policy, Boost(policy, period, s), i)
    {
      assert Slot(jobs, policy, s, i);
    }
  }

  lemma StartKeepsInv(jobs: seq<Job>, policy: Policy, s: State, p: nat)
    requires Inv(jobs, policy, s) && s.current == None && p < |s.ready|
    ensures Inv(jobs, policy, Start(s, p))
    ensures Quiet(s) ==> Quiet(Start(s, p))
  {
    assert s.ready[p] in s.ready && Slot(jobs, policy, s, s.ready[p]);
    RemoveAtMembers(s.ready, p);
    forall i | 0 <= i < |jobs|
      ensures Slot(jobs, policy, Start(s, p), i)
    {
      assert Slot(jobs, policy, s, i);
    }
  }

  lemma IdleKeepsInv(jobs: seq<Job>, policy: Policy, s: State)
    requires Inv(jobs, policy, s) && s.current == None && s.ready == []
    ensures Inv(jobs, policy, Idle(s))
  {
    var w := NextWake(s.tasks, |s.tasks|);
    if w.Some? {
      var k :| 0 <= k < |s.tasks| && s.tasks[k].Waiting() && s.tasks[k].wake == w.value;
      assert Slot(jobs, policy, s, k);
    }
    forall i | 0 <= i < |jobs|
      ensures Slot(jobs, policy, Idle(s), i)
    {
      assert Slot(jobs, policy, s, i);
    }
  }

  lemma NextCycle(j: Job, used: int)
    requires j.burst > 0 && used >= 0
    ensures Cycles(j, used + 1) == Cycles(j, used) + if (used + 1) % j.burst == 0 then 1 else 0
  {
    var b, q := j.burst, used / j.burst;
    assert used == q * b + used % b;
    if used % b == b - 1 {
      assert used + 1 == (q + 1) * b;
      DivUnique(used + 1, b, q + 1, 0);
    } else {
      DivUnique(used + 1, b, q, used % b + 1);
    }
  }

  lemma DivUnique(a: int, b: int, q: int, r: int)
    requires b > 0 && a == q * b + r && 0 <= r < b
    ensures a / b == q && a % b == r
  {
    var d := a / b - q;
    assert d * b == (a / b) * b - q * b == r - a % b;
    if d != 0 {
      NonZeroMultiple(d, b);
    }
  }

  lemma NonZeroMultiple(d: int, b: int)
    requires b > 0 && d != 0
    ensures d * b >= b || d * b <= -b
  {
    if d > 0 {
      assert (d - 1) * b >= 0;
    } else {
      assert (-d - 1) * b >= 0;
    }
  }

  /** The budget after a tick: the tick that uses up the allotment leads one level down, to a full slice and allotment. */
  predicate NextBudget(policy: Policy, t: Task, u: Task) {
    if policy == Mlfq && t.level < 2 && t.allot == 1 then
      u.level == t.level + 1 && (if t.level == 0 then u.slice == 4 && u.allot == 8 else u.slice == 8 && u.allot == 0)
    else
      && u.level == t.level && u.allot == (if t.level < 2 then t.allot - 1 else t.allot)
      && u.slice == if t.slice > 1 then t.slice - 1 else if t.level == 0 then 2 else if t.level == 1 then 4 else 8
  }

  lemma AfterKeepsBudget(policy: Policy, j: Job, t: Task, now: int)
    requires BudgetOk(policy, t) && t.left > 0 && t.phase == Running
    ensures var u := After(policy, j, t, now + 1); u.phase != Done ==> BudgetOk(policy, u) && NextBudget(policy, t, u)
  {
  }

  /** One tick keeps a running task's times and budget consistent. */
  lemma AfterKeepsTask(policy: Policy, j: Job, t: Task, now: int)
    requires TaskOk(j, t, now) && t.phase == Running && BudgetOk(policy, t)
    ensures var u := After(policy, j, t, now + 1);
            TaskOk(j, u, now + 1) && (u.phase != Done ==> BudgetOk(policy, u) && NextBudget(policy, t, u))
  {
    AfterKeepsBudget(policy, j, t, now);
    hide BudgetOk, NextBudget;
    if j.burst > 0 {
      NextCycle(j, t.used);
      assert j.wait * (Cycles(j, t.used) + 1) == j.wait * Cycles(j, t.used) + j.wait;
    }
  }

  /** Replacing the running task by a consistent successor one tick later. */
  lemma ReplaceKeepsInv(jobs: seq<Job>, policy: Policy, s: State, i: nat, u: Task, t: State)
    requires Inv(jobs, policy, s) && s.current == Some(i) && Quiet(s) && i < |jobs|
    requires TaskOk(jobs[i], u, s.now + 1) && u.phase in {Running, Blocked, Done}
    requires u.phase != Done ==> BudgetOk(policy, u)
    requires t.tasks == s.tasks[i := u] && t.ready == s.ready && t.now == s.now + 1
    requires t.current == if u.phase == Running then Some(i) else None
    ensures Inv(jobs, policy, t)
  {
    forall k | 0 <= k < |jobs|
      ensures Slot(jobs, policy, t, k)
    {
      assert Slot(jobs, policy, s, k);
    }
  }

  /** A state during the tick's epilogue: a task that blocked or finished is still `current`. */
  function Settled(s: State, i: nat): State
    requires i < |s.tasks|
  {
    s.(current := if s.tasks[i].phase == Running then Some(i) else None)
  }

  lemma ChargeKeepsInv(jobs: seq<Job>, policy: Policy, s: State)
    requires Inv(jobs, policy, s) && s.current.Some? && Quiet(s)
    ensures Inv(jobs, policy, Settled(Charge(jobs, policy, s), s.current.value))
  {
    var i, t := s.current.value, Charge(jobs, policy, s);
    assert Slot(jobs, policy, s, i);
    var u := After(policy, jobs[i], s.tasks[i], s.now + 1);
    AfterKeepsTask(policy, jobs[i], s.tasks[i], s.now);
    ReplaceKeepsInv(jobs, policy, s, i, u, Settled(t, i));
  }

  lemma ReleaseKeepsInv(jobs: seq<Job>, policy: Policy, s: State, i: nat)
    requires i < |s.tasks| && Inv(jobs, policy, Settled(s, i))
    ensures Inv(jobs, policy, Release(s, i))
  {
    var t := Release(s, i);
    assert Slot(jobs, policy, Settled(s, i), i);
    AppendMembers(s.ready, i);
    forall k | 0 <= k < |jobs|
      ensures Slot(jobs, policy, t, k)
    {
      assert Slot(jobs, policy, Settled(s, i), k);
    }
  }

  lemma RunTickKeepsInv(jobs: seq<Job>, policy: Policy, s: State)
    requires Inv(jobs, policy, s) && s.current.Some? && Quiet(s)
    ensures Inv(jobs, policy, RunTick(jobs, policy, s)) && Quiet(RunTick(jobs, policy, s))
  {
    var i, w := s.current.value, WakeAll(Charge(jobs, policy, s));
    ChargeKeepsInv(jobs, policy, s);
    WakeAllKeepsInv(jobs, policy, Settled(Charge(jobs, policy, s), i));
    SettledWake(jobs, policy, s);
    ReleaseKeepsInv(jobs, policy, w, i);
  }

  /** Waking others does not change whether the charged task still runs. */
  lemma SettledWake(jobs: seq<Job>, policy: Policy, s: State)
    requires Inv(jobs, policy, s) && s.current.Some?
    ensures var i, c := s.current.value, Charge(jobs, policy, s);
            && Settled(WakeAll(c), i) == WakeAll(Settled(c, i))
            && WakeAll(c).tasks[i] == c.tasks[i]
            && (c.tasks[i].phase == Running || Leaves(policy, jobs[i], s.tasks[i]))
  {
    var i := s.current.value;
    assert Slot(jobs, policy, s, i);
  }

  lemma PrepareKeepsInv(jobs: seq<Job>, policy: Policy, period: int, s: State)
    requires HeadInv(jobs, policy, s) && period > 0
    ensures var t := Prepare(policy, period, s);
            Inv(jobs, policy, t) && Quiet(t) && (t.current == None ==> t.ready == [])
  {
    WakeAllKeepsInv(jobs, policy, s);
    BoostKeepsInv(jobs, policy, period, WakeAll(s));
    var b := Boost(policy, period, WakeAll(s));
    if b.current == None && b.ready != [] {
      StartKeepsInv(jobs, policy, b, Pick(policy, b));
    }
  }

  lemma IterateKeepsInv(jobs: seq<Job>, policy: Policy, period: int, s: State)
    requires HeadInv(jobs, policy, s) && period > 0
    ensures HeadInv(jobs, policy, Iterate(jobs, policy, period, s))
  {
    PrepareKeepsInv(jobs, policy, period, s);
    var p := Prepare(policy, period, s);
    if p.current == None {
      IdleKeepsInv(jobs, policy, p);
    } else {
      RunTickKeepsInv(jobs, policy, p);
    }
  }

  /* Termination: (service left, tasks that wait, tasks whose wake-up lies ahead) shrinks. */

  function LeftOf(tasks: seq<Task>): (r: seq<int>)
    ensures |r| == |tasks| && forall i :: 0 <= i < |tasks| ==> r[i] == tasks[i].left
  {
    seq(|tasks|, i requires 0 <= i < |tasks| => tasks[i].left)
  }

  function WaitingOf(tasks: seq<Task>): (r: seq<int>)
    ensures |r| == |tasks| && forall i :: 0 <= i < |tasks| ==> r[i] == if tasks[i].Waiting() then 1 else 0
  {
    seq(|tasks|, i requires 0 <= i < |tasks| => if tasks[i].Waiting() then 1 else 0)
  }

  function AheadOf(tasks: seq<Task>, now: int): (r: seq<int>)
    ensures |r| == |tasks|
    ensures forall i :: 0 <= i < |tasks| ==> r[i] == if tasks[i].Waiting() && tasks[i].wake > now then 1 else 0
  {
    seq(|tasks|, i requires 0 <= i < |tasks| => if tasks[i].Waiting() && tasks[i].wake > now then 1 else 0)
  }

  lemma MeasureNonNegative(jobs: seq<Job>, policy: Policy, s: State)
    requires Inv(jobs, policy, s)
    ensures Sum(LeftOf(s.tasks)) >= 0 && Sum(WaitingOf(s.tasks)) >= 0 && Sum(AheadOf(s.tasks, s.now)) >= 0
  {
    forall i | 0 <= i < |s.tasks|
      ensures s.tasks[i].left >= 0
    {
      assert Slot(jobs, policy, s, i);
    }
    SumNonNegative(LeftOf(s.tasks));
    SumNonNegative(WaitingOf(s.tasks));
    SumNonNegative(AheadOf(s.tasks, s.now));
  }

  lemma SelectKeepsTask(jobs: seq<Job>, policy: Policy, s: State, i: nat)
    requires Inv(jobs, policy, s) && i < |jobs|
    ensures var t, u := s.tasks[i], Select(policy, s).tasks[i];
            u.left == t.left && u.wake == t.wake && (u.Waiting() <==> t.Waiting())
  {
    if s.current == None && s.ready != [] {
      var k := s.ready[Pick(policy, s)];
      assert k in s.ready && Slot(jobs, policy, s, k);
    }
  }

  /** `Prepare` executes nothing and makes no task wait. */
  lemma PrepareKeepsTask(jobs: seq<Job>, policy: Policy, period: int, s: State, i: nat)
    requires HeadInv(jobs, policy, s) && period > 0 && i < |jobs|
    ensures var t, u := s.tasks[i], Prepare(policy, period, s).tasks[i];
            u.left == t.left && u.wake == t.wake && (u.Waiting() <==> t.Waiting() && t.wake > s.now)
  {
    var w := WakeAll(s);
    WakeAllKeepsInv(jobs, policy, s);
    BoostKeepsInv(jobs, policy, period, w);
    assert w.tasks[i] == WakeTask(s.tasks[i], s.now);
    assert Boost(policy, period, w).tasks[i] in {w.tasks[i], BoostTask(w.tasks[i])};
    SelectKeepsTask(jobs, policy, Boost(policy, period, w), i);
  }

  lemma TickShrinks(jobs: seq<Job>, policy: Policy, s: State)
    requires Inv(jobs, policy, s) && s.current.Some? && Quiet(s)
    ensures Sum(LeftOf(RunTick(jobs, policy, s).tasks)) == Sum(LeftOf(s.tasks)) - 1
    ensures |RunTick(jobs, policy, s).trace| == |s.trace| + 1
  {
    var i, t := s.current.value, RunTick(jobs, policy, s);
    assert LeftOf(t.tasks) == LeftOf(s.tasks)[i := s.tasks[i].left - 1];
    SumUpdate(LeftOf(s.tasks), i, s.tasks[i].left - 1);
  }

  lemma PrepareKeepsLeft(jobs: seq<Job>, policy: Policy, period: int, s: State)
    requires HeadInv(jobs, policy, s) && period > 0
    ensures LeftOf(Prepare(policy, period, s).tasks) == LeftOf(s.tasks)
  {
    var p := Prepare(policy, period, s);
    forall i | 0 <= i < |jobs|
      ensures LeftOf(p.tasks)[i] == LeftOf(s.tasks)[i]
    {
      PrepareKeepsTask(jobs, policy, period, s, i);
    }
  }

  /** In b exactly those of a wait on whose wake-up was not due. */
  predicate WaitOn(a: seq<Task>, b: seq<Task>, now: int) {
    && |a| == |b|
    && forall i :: 0 <= i < |a| ==> b[i].wake == a[i].wake && (b[i].Waiting() <==> a[i].Waiting() && a[i].wake > now)
  }

  lemma FewerWait(a: seq<Task>, b: seq<Task>, now: int, i: nat)
    requires WaitOn(a, b, now) && i < |a| && a[i].Waiting() && a[i].wake <= now
    ensures Sum(WaitingOf(b)) < Sum(WaitingOf(a))
  {
    SumStrictlyMonotone(WaitingOf(b), WaitingOf(a), i);
  }

  lemma FewerAhead(a: seq<Task>, b: seq<Task>, now: int, later: int, k: nat)
    requires WaitOn(a, b, now) && now < later && k < |a| && a[k].Waiting() && a[k].wake == later
    requires forall i :: 0 <= i < |a| && a[i].Waiting() ==> a[i].wake > now
    ensures WaitingOf(b) == WaitingOf(a) && Sum(AheadOf(b, later)) < Sum(AheadOf(a, now))
  {
    assert WaitingOf(b) == WaitingOf(a);
    SumStrictlyMonotone(AheadOf(b, later), AheadOf(a, now), k);
  }

  /** An idle turn wakes something, or moves the clock to the next wake-up. */
  lemma IdleShrinks(jobs: seq<Job>, policy: Policy, period: int, s: State)
    requires HeadInv(jobs, policy, s) && period > 0 && !Finished(s)
    requires Prepare(policy, period, s).current == None
    ensures var t := Iterate(jobs, policy, period, s);
            && LeftOf(t.tasks) == LeftOf(s.tasks)
            && (Sum(WaitingOf(t.tasks)) < Sum(WaitingOf(s.tasks))
                || (WaitingOf(t.tasks) == WaitingOf(s.tasks)
                    && Sum(AheadOf(t.tasks, t.now)) < Sum(AheadOf(s.tasks, s.now))))
  {
    hide Prepare, Slot;
    var p := Prepare(policy, period, s);
    PrepareKeepsInv(jobs, policy, period, s);
    PrepareKeepsLeft(jobs, policy, period, s);
    PrepareWaits(jobs, policy, period, s);
    if i: nat :| i < |jobs| && s.tasks[i].Waiting() && s.tasks[i].wake <= s.now {
      FewerWait(s.tasks, p.tasks, s.now, i);
    } else {
      var k := UnfinishedWaits(jobs, policy, period, s);
      FewerAhead(s.tasks, p.tasks, s.now, Idle(p).now, k);
    }
  }

  lemma PrepareWaits(jobs: seq<Job>, policy: Policy, period: int, s: State)
    requires HeadInv(jobs, policy, s) && period > 0
    ensures |s.tasks| == |jobs| && WaitOn(s.tasks, Prepare(policy, period, s).tasks, s.now)
  {
    hide Prepare, Slot;
    PrepareKeepsInv(jobs, policy, period, s);
    forall i | 0 <= i < |jobs|
      ensures var t, u := s.tasks[i], Prepare(policy, period, s).tasks[i];
              u.wake == t.wake && (u.Waiting() <==> t.Waiting() && t.wake > s.now)
    {
      PrepareKeepsTask(jobs, policy, period, s, i);
    }
  }

  lemma UnfinishedWaits(jobs: seq<Job>, policy: Policy, period: int, s: State) returns (k: nat)
    requires HeadInv(jobs, policy, s) && period > 0 && !Finished(s) && Quiet(s)
    requires Prepare(policy, period, s).current == None
    ensures var p := Prepare(policy, period, s);
            Idle(p).now > s.now && k < |jobs| && s.tasks[k].Waiting() && s.tasks[k].wake == Idle(p).now
  {
    var p := Prepare(policy, period, s);
    PrepareKeepsInv(jobs, policy, period, s);
    var u :| 0 <= u < |s.tasks| && s.tasks[u].done == None;
    PrepareKeepsTask(jobs, policy, period, s, u);
    assert Slot(jobs, policy, p, u) && Slot(jobs, policy, s, u);
    k :| 0 <= k < |jobs| && p.tasks[k].Waiting() && p.tasks[k].wake == Idle(p).now;
    PrepareKeepsTask(jobs, policy, period, s, k);
  }

  /** The state in which the loop stops: every task is done. */
  function Run(jobs: seq<Job>, policy: Policy, period: int, s: State): (r: State)
    requires HeadInv(jobs, policy, s) && period > 0
    ensures HeadInv(jobs, policy, r) && Finished(r)
    decreases Sum(LeftOf(s.tasks)), Sum(WaitingOf(s.tasks)), Sum(AheadOf(s.tasks, s.now))
  {
    if Finished(s) then s
    else
      IterateKeepsInv(jobs, policy, period, s);
      IterateShrinks(jobs, policy, period, s);
      MeasureNonNegative(jobs, policy, s);
      Run(jobs, policy, period, Iterate(jobs, policy, period, s))
  }

  lemma IterateShrinks(jobs: seq<Job>, policy: Policy, period: int, s: State)
    requires HeadInv(jobs, policy, s) && period > 0 && !Finished(s)
    ensures var t := Iterate(jobs, policy, period, s);
            || Sum(LeftOf(t.tasks)) < Sum(LeftOf(s.tasks))
            || (LeftOf(t.tasks) == LeftOf(s.tasks) && Sum(WaitingOf(t.tasks)) < Sum(WaitingOf(s.tasks)))
            || (LeftOf(t.tasks) == LeftOf(s.tasks) && WaitingOf(t.tasks) == WaitingOf(s.tasks)
                && Sum(AheadOf(t.tasks, t.now)) < Sum(AheadOf(s.tasks, s.now)))
  {
    var p := Prepare(policy, period, s);
    PrepareKeepsInv(jobs, policy, period, s);
    if p.current == None {
      IdleShrinks(jobs, policy, period, s);
    } else {
      PrepareKeepsLeft(jobs, policy, period, s);
      TickShrinks(jobs, policy, p);
    }
  }

  function Final(jobs: seq<Job>, policy: Policy, period: int): (r: State)
    requires ValidJobs(jobs) && period > 0
    ensures HeadInv(jobs, policy, r) && Finished(r)
  {
    InitInv(jobs, policy, period);
    Run(jobs, policy, period, Init(jobs, period))
  }

  /** The state after k turns of the loop. */
  function StateAt(jobs: seq<Job>, policy: Policy, period: int, k: nat): (r: State)
    requires ValidJobs(jobs) && period > 0
    ensures HeadInv(jobs, policy, r)
  {
    if k == 0 then
      InitInv(jobs, policy, period);
      Init(jobs, period)
    else
      var s := StateAt(jobs, policy, period, k - 1);
      IterateKeepsInv(jobs, policy, period, s);
      if Finished(s) then s else Iterate(jobs, policy, period, s)
  }

  lemma {:induction false} RunIsReached(jobs: seq<Job>, policy: Policy, period: int, k: nat, s: State) returns (m: nat)
    requires ValidJobs(jobs) && period > 0 && s == StateAt(jobs, policy, period, k)
    ensures Run(jobs, policy, period, s) == StateAt(jobs, policy, period, m)
    decreases Sum(LeftOf(s.tasks)), Sum(WaitingOf(s.tasks)), Sum(AheadOf(s.tasks, s.now))
  {
    if Finished(s) {
      m := k;
    } else {
      IterateKeepsInv(jobs, policy, period, s);
      IterateShrinks(jobs, policy, period, s);
      MeasureNonNegative(jobs, policy, s);
      m := RunIsReached(jobs, policy, period, k + 1, Iterate(jobs, policy, period, s));
    }
  }

  /** The loop ends after some number of turns, so whatever every StateAt satisfies holds at the end. */
  lemma FinalIsReached(jobs: seq<Job>, policy: Policy, period: int) returns (k: nat)
    requires ValidJobs(jobs) && period > 0
    ensures Final(jobs, policy, period) == StateAt(jobs, policy, period, k)
  {
    k := RunIsReached(jobs, policy, period, 0, Init(jobs, period));
  }
}
