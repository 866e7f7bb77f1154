/**
 Safety of the management loop over every run: for every sequence of traps and every monotone clock
 the runtime checks hold, every unwrap succeeds, nobody escapes the accounting, and the counters add
 up. The only way to stop early is a task that ends the way its spec does not allow.
 */
module KernelSafety {
  import opened Util
  import opened TrapAsm
  import opened TrapHandler
  import opened KernelQueue
  import opened Kernel

  /** Under Mlfq: both allowances positive and within the level, the allotment exactly what is left of it. */
  predicate Solvent(c: Config, t: Task)
    requires t.level <= 2
  {
    && 0 < t.slice <= FullSlice(c, t.level) && t.allot > 0
    && t.allot == if t.level < 2 then FullAllot(c, t.level) - t.charged else USIZE_MAX
  }

  /** A task has been started unless it is still waiting for its first run, and ends after it started. */
  predicate Timed(c: Config, t: Task, now: nat) {
    && (t.state != Ready ==> t.first.Some?)
    && (t.first.Some? ==> c.base <= t.first.value <= now)
    && (t.state == Done ==> t.first.value <= t.completion <= now)
  }

  ghost predicate Slot(c: Config, k: Loop, i: nat, now: nat)
    requires i < |k.tasks|
  {
    var t := k.tasks[i];
    && t.level <= 2
    && (t.state == Ready <==> i in k.queue)
    && (t.state == Running <==> k.current == Some(i))
    && Timed(c, t, now)
    && (c.policy == Mlfq && t.state != Done ==> Solvent(c, t))
  }

  ghost predicate Slots(c: Config, k: Loop, now: nat) {
    forall i :: 0 <= i < |k.tasks| ==> Slot(c, k, i, now)
  }

  /** Under Mlfq the current task is at least as urgent as every queued one. */
  ghost predicate Prior(c: Config, k: Loop)
    requires Below(k.queue, |k.tasks|)
  {
    c.policy == Mlfq && k.current.Some? && k.current.value < |k.tasks| ==>
      forall p :: 0 <= p < |k.queue| ==> k.tasks[k.current.value].level <= k.tasks[k.queue[p]].level
  }

  /** How often each task has given up the machine. */
  function Releases(tasks: seq<Task>): (r: seq<int>)
    ensures |r| == |tasks|
    ensures forall i :: 0 <= i < |tasks| ==> r[i] == Release(tasks[i])
  {
    seq(|tasks|, i requires 0 <= i < |tasks| => Release(tasks[i]))
  }

  function Release(t: Task): int {
    t.yielded + t.preemptions + if t.state == Done then 1 else 0
  }

  function TimerTraps(tasks: seq<Task>): (r: seq<int>)
    ensures |r| == |tasks|
    ensures forall i :: 0 <= i < |tasks| ==> r[i] == tasks[i].timers
  {
    seq(|tasks|, i requires 0 <= i < |tasks| => tasks[i].timers)
  }

  function Held(k: Loop): int {
    if k.current.Some? then 1 else 0
  }

  /** Trace entries besides releases: only OneShot notes a trap and keeps the task. */
  function ExtraNotes(c: Config, k: Loop): int {
    if c.policy.OneShot? then Sum(TimerTraps(k.tasks)) else 0
  }

  /** Every dispatch is a release or the current task; every release is traced or counted as dropped. */
  predicate Conserved(c: Config, k: Loop) {
    && k.switches == Sum(Releases(k.tasks)) + Held(k)
    && |k.trace| + k.dropped == Sum(Releases(k.tasks)) + ExtraNotes(c, k)
    && |k.trace| <= TRACE && (k.dropped > 0 ==> |k.trace| == TRACE)
  }

  function Period(c: Config): int {
    20 * c.quantum
  }

  /** The boost deadline is base plus m periods; the last period began by now; boosts are fewer than m. */
  predicate BoostAt(c: Config, k: Loop, now: nat, m: nat) {
    && k.boost == c.base + m * Period(c) && m >= 1 && k.boosts < m
    && c.base + (m - 1) * Period(c) <= now
  }

  ghost predicate OnGrid(c: Config, k: Loop, now: nat) {
    exists m: nat :: BoostAt(c, k, now, m)
  }

  ghost predicate Shape(c: Config, k: Loop) {
    && Configured(c) && |k.tasks| == |c.fault| && Distinct(k.queue) && Below(k.queue, |k.tasks|)
    && (k.current.Some? ==> k.current.value < |k.tasks|)
  }

  ghost predicate Inv(c: Config, k: Loop, now: nat) {
    && c.base <= now && Shape(c, k) && Slots(c, k, now) && Prior(c, k) && Conserved(c, k) && OnGrid(c, k, now)
  }

  /** The readings of one iteration are in order, and far enough from the end of the clock. */
  predicate Clocked(c: Config, now: nat, e: Event) {
    && now <= e.check <= e.boosted <= e.dispatched <= e.due <= e.left <= e.armed <= e.entered <= e.time <= e.rearmed
       <= e.requeued
    && e.requeued + Period(c) <= USIZE_MAX
  }

  /* The beginning. */

  lemma StartIsSound(c: Config, frames: seq<Frame>)
    requires Configured(c) && |frames| == |c.fault|
    ensures Inv(c, Start(c, frames), c.base)
    ensures var k := Start(c, frames);
            && |k.tasks| == |k.queue| == |frames| && k.current.None? && k.boost == c.base + 20 * c.quantum
            && forall i: nat :: i < |frames| ==>
                 k.queue[i] == i && k.tasks[i].frame == frames[i] && k.tasks[i].state == Ready && k.tasks[i].readySince == c.base
                 && k.tasks[i].level == 0 && k.tasks[i].slice == c.quantum && k.tasks[i].allot == 2 * c.quantum
  {
    var k := Start(c, frames);
    assert BoostAt(c, k, c.base, 1);
    SumOfZeros(Releases(k.tasks));
    SumOfZeros(TimerTraps(k.tasks));
    forall i | 0 <= i < |k.tasks|
      ensures Slot(c, k, i, c.base)
    {
      assert k.queue[i] == i;
    }
  }

  /* The runtime check. */

  lemma CountOnce(s: seq<nat>, v: nat)
    requires Distinct(s)
    ensures multiset(s)[v] == if v in s then 1 else 0
  {
    if s != [] {
      CountOnce(s[1..], v);
      TailMembers(s);
      assert s == [s[0]] + s[1..];
    }
  }

  /** `Ready::check` holds at the head of the loop. */
  lemma CheckHolds(c: Config, k: Loop, now: nat)
    requires Shape(c, k) && Slots(c, k, now)
    ensures Check(k.tasks, k.queue)
  {
    PigeonHole(k.queue, |k.tasks|);
    forall id | id in k.queue
      ensures id < |k.tasks| && k.tasks[id].state == Ready
    {
      assert Slot(c, k, id, now);
    }
    forall id | 0 <= id < |k.tasks|
      ensures multiset(k.queue)[id] == if k.tasks[id].state == Ready then 1 else 0
    {
      CountOnce(k.queue, id);
      assert Slot(c, k, id, now);
    }
    forall i, j | 0 <= i < j < |k.tasks|
      ensures k.tasks[i].state != Running || k.tasks[j].state != Running
    {
      assert Slot(c, k, i, now) && Slot(c, k, j, now);
    }
  }

  /* The boost. */

  lemma DivFloor(d: int, p: int)
    requires p > 0 && d >= 0
    ensures d / p >= 0 && (d / p) * p <= d < (d / p) * p + p
  {
  }

  lemma PeriodFloor(c: Config, now: nat)
    requires c.quantum > 0 && now >= c.base
    ensures var q := (now - c.base) / Period(c);
            q >= 0 && NextBoost(c, now) == c.base + (q + 1) * Period(c)
            && c.base + q * Period(c) <= now < c.base + q * Period(c) + Period(c)
  {
    DivFloor(now - c.base, Period(c));
  }

  /** A boost leaves a deadline strictly later than the reading used and at most one period later. */
  lemma NextBoostBounds(c: Config, now: nat)
    requires c.quantum > 0 && now >= c.base
    ensures now < NextBoost(c, now) <= now + Period(c)
  {
    PeriodFloor(c, now);
    Successor((now - c.base) / Period(c), Period(c));
  }

  lemma Successor(q: int, p: int)
    ensures (q + 1) * p == q * p + p
  {
  }

  lemma Multiples(a: int, b: int, p: int)
    requires p > 0 && a * p < b * p
    ensures a < b
  {
  }

  /** However late the loop is, one boost moves the deadline by at least one period. */
  lemma BoostOnGrid(c: Config, k: Loop, now: nat, at: nat, m: nat)
    requires Configured(c) && BoostAt(c, k, now, m) && now <= at && at >= k.boost
    ensures var n := k.(boosts := k.boosts + 1, boost := NextBoost(c, at));
            exists m: nat :: BoostAt(c, n, at, m)
  {
    PeriodSign(c, m);
    hide NextBoost, Period;
    PeriodFloor(c, at);
    var q := (at - c.base) / Period(c);
    Successor(q, Period(c));
    Multiples(m, q + 1, Period(c));
    assert BoostAt(c, k.(boosts := k.boosts + 1, boost := NextBoost(c, at)), at, q + 1);
  }

  lemma SameSums(c: Config, a: seq<Task>, b: seq<Task>)
    requires |a| == |b|
    requires forall i :: 0 <= i < |a| ==> Release(a[i]) == Release(b[i]) && a[i].timers == b[i].timers
    ensures Releases(a) == Releases(b) && TimerTraps(a) == TimerTraps(b)
  {
  }

  /** A boost keeps the invariant: it resets every unfinished task, the running one included. */
  lemma BoostKeeps(c: Config, k: Loop, e: Event) returns (b: Loop)
    requires Inv(c, k, k.clock) && Clocked(c, k.clock, e)
    ensures Boosted(c, k, e) == Going(b) && Inv(c, b, e.boosted)
    ensures b.queue == k.queue && b.current == k.current && b.clock == k.clock && b.deadline == k.deadline
    ensures |b.tasks| == |k.tasks|
    ensures var due := c.policy == Mlfq && e.check >= k.boost;
            && b.boosts == k.boosts + (if due then 1 else 0)
            && forall i :: 0 <= i < |k.tasks| ==>
                             b.tasks[i] == if due && k.tasks[i].state != Done then Budget(c, k.tasks[i], 0) else k.tasks[i]
  {
    hide NextBoost, Period, Slot, Prior, RefreshAll, Releases, TimerTraps;
    var m: nat :| BoostAt(c, k, k.clock, m);
    PeriodSign(c, m);
    NextBoostBounds(c, e.boosted);
    b := Boosted(c, k, e).loop;
    RefreshKeepsCounters(c, k.tasks);
    SameSums(c, k.tasks, b.tasks);
    forall i | 0 <= i < |b.tasks|
      ensures Slot(c, b, i, e.boosted)
    {
      SlotAfterBoost(c, k, b, i, k.clock, e.boosted);
    }
    if c.policy == Mlfq && e.check >= k.boost {
      BoostOnGrid(c, k, k.clock, e.boosted, m);
      var g: nat :| BoostAt(c, k.(boosts := k.boosts + 1, boost := NextBoost(c, e.boosted)), e.boosted, g);
      assert BoostAt(c, b, e.boosted, g);
      PriorAfterBoost(c, k, b, k.clock);
    } else {
      assert b == k;
      assert BoostAt(c, b, e.boosted, m);
    }
  }

  lemma PeriodSign(c: Config, m: nat)
    requires c.quantum > 0 && m >= 1
    ensures Period(c) > 0 && m * Period(c) >= Period(c) && (m - 1) * Period(c) >= 0
  {
    assert (m - 1) * Period(c) >= 0;
    Successor(m - 1, Period(c));
  }

  lemma RefreshKeepsCounters(c: Config, tasks: seq<Task>)
    ensures forall i :: 0 <= i < |tasks| ==>
                          Release(RefreshAll(c, tasks)[i]) == Release(tasks[i])
                          && RefreshAll(c, tasks)[i].timers == tasks[i].timers
  {
  }

  lemma SlotAfterBoost(c: Config, k: Loop, b: Loop, i: nat, now: nat, at: nat)
    requires c.quantum > 0 && now <= at && i < |k.tasks| == |b.tasks| && Slot(c, k, i, now)
    requires b.queue == k.queue && b.current == k.current
    requires b.tasks[i] == k.tasks[i] || b.tasks[i] == Refreshed(c, k.tasks[i])
    ensures Slot(c, b, i, at)
  {
  }

  lemma PriorAfterBoost(c: Config, k: Loop, b: Loop, now: nat)
    requires Shape(c, k) && Slots(c, k, now) && b.queue == k.queue && b.current == k.current
    requires b.tasks == RefreshAll(c, k.tasks)
    ensures Prior(c, b)
  {
    if b.current.Some? {
      assert Slot(c, k, b.current.value, now);
    }
  }

  /* The choice of the next task. */

  /** One task replaced, with the change of its release count. */
  lemma OneRelease(c: Config, tasks: seq<Task>, i: nat, t: Task)
    requires i < |tasks|
    ensures Sum(Releases(tasks[i := t])) == Sum(Releases(tasks)) - Release(tasks[i]) + Release(t)
    ensures Sum(TimerTraps(tasks[i := t])) == Sum(TimerTraps(tasks)) - tasks[i].timers + t.timers
  {
    assert Releases(tasks[i := t]) == Releases(tasks)[i := Release(t)];
    assert TimerTraps(tasks[i := t]) == TimerTraps(tasks)[i := t.timers];
    SumUpdate(Releases(tasks), i, Release(t));
    SumUpdate(TimerTraps(tasks), i, t.timers);
  }

  /** A dispatch keeps the invariant, and under Mlfq takes a task of the best level queued. */
  lemma ChoiceKeeps(c: Config, k: Loop, e: Event, now: nat) returns (d: Loop)
    requires Inv(c, k, now) && now <= e.dispatched <= e.due && e.due + Period(c) <= USIZE_MAX
    requires k.current.Some? || k.queue != []
    ensures Chosen(c, k, e) == Going(d) && Inv(c, d, e.dispatched) && d.current.Some?
    ensures d.clock == k.clock && d.boost == k.boost && |d.tasks| == |k.tasks| && d.boosts == k.boosts
    ensures if k.current.Some? then d == k else d.current.value in k.queue && d.deadline == e.due + c.quantum
    ensures forall j :: 0 <= j < |k.tasks| && Some(j) != d.current ==> d.tasks[j] == k.tasks[j]
  {
    hide Slot, Prior, OnGrid, Conserved;
    d := Chosen(c, k, e).loop;
    GridLater(c, k, d, now, e.dispatched);
    if k.current.Some? {
      SlotsLater(c, k, now, e.dispatched);
    } else {
      ChoiceSlots(c, k, d, e, now);
      ChoiceCounts(c, k, d, e, now);
      ChoicePrior(c, k, d, e);
    }
  }

  lemma GridLater(c: Config, k: Loop, d: Loop, now: nat, later: nat)
    requires OnGrid(c, k, now) && now <= later && d.boost == k.boost && d.boosts == k.boosts
    ensures OnGrid(c, d, later)
  {
    var m: nat :| BoostAt(c, k, now, m);
    assert BoostAt(c, d, later, m);
  }

  lemma SlotsLater(c: Config, k: Loop, now: nat, later: nat)
    requires Slots(c, k, now) && now <= later
    ensures Slots(c, k, later)
  {
    forall i | 0 <= i < |k.tasks|
      ensures Slot(c, k, i, later)
    {
      assert Slot(c, k, i, now);
    }
  }

  lemma ChoiceSlots(c: Config, k: Loop, d: Loop, e: Event, now: nat)
    requires Shape(c, k) && Slots(c, k, now) && now <= e.dispatched && k.current.None? && k.queue != [] && c.base <= e.dispatched
    requires Chosen(c, k, e) == Going(d)
    ensures Shape(c, d) && Slots(c, d, e.dispatched)
  {
    hide Front, Levels;
    var p := Front(Levels(k.tasks), k.queue, c.policy == Mlfq);
    var i := k.queue[p];
    RemoveAtMembers(k.queue, p);
    forall q | 0 <= q < |d.queue|
      ensures d.queue[q] < |d.tasks|
    {
      assert d.queue[q] in k.queue;
    }
    forall j | 0 <= j < |d.tasks|
      ensures Slot(c, d, j, e.dispatched)
    {
      assert Slot(c, k, j, now);
    }
  }

  lemma ChoiceCounts(c: Config, k: Loop, d: Loop, e: Event, now: nat)
    requires Shape(c, k) && Slots(c, k, now) && Conserved(c, k) && k.current.None? && k.queue != []
    requires Chosen(c, k, e) == Going(d)
    ensures Conserved(c, d)
  {
    hide Front, Levels;
    var i := k.queue[Front(Levels(k.tasks), k.queue, c.policy == Mlfq)];
    assert Slot(c, k, i, now);
    OneRelease(c, k.tasks, i, Begun(k.tasks[i], e.dispatched));
  }

  lemma ChoicePrior(c: Config, k: Loop, d: Loop, e: Event)
    requires Shape(c, k) && Shape(c, d) && k.current.None? && k.queue != [] && Chosen(c, k, e) == Going(d)
    ensures Prior(c, d)
  {
    var p := Front(Levels(k.tasks), k.queue, c.policy == Mlfq);
    if c.policy == Mlfq {
      forall q | 0 <= q < |d.queue|
        ensures d.tasks[d.current.value].level <= d.tasks[d.queue[q]].level
      {
        var o := if q < p then q else q + 1;
        assert d.queue[q] == k.queue[o];
        assert Levels(k.tasks)[k.queue[p]] <= Levels(k.tasks)[k.queue[o]];
      }
    }
  }

  /** d is the least of slice, allotment and time to boost, but at least one tick. */
  predicate IsLeast(d: int, slice: int, allot: int, toBoost: int) {
    && d >= 1
    && (d > 1 ==> d <= slice && d <= allot && d <= toBoost && (d == slice || d == allot || d == toBoost))
    && (d == 1 ==> slice <= 1 || allot <= 1 || toBoost <= 1)
  }

  lemma ArmsForLeast(c: Config, k: Loop, e: Event, s: Loop)
    requires k.current.Some? && k.current.value < |k.tasks| && Armed(c, k, e) == Going(s)
    ensures s == k.(deadline := s.deadline)
    ensures if c.policy == Mlfq then
              var t := k.tasks[k.current.value];
              IsLeast(s.deadline - e.armed, t.slice, t.allot, if k.boost < e.left then 0 else k.boost - e.left)
            else s.deadline == k.deadline
  {
  }

  /** The deadline of a run under Mlfq exists, keeps the invariant, and is the least of the three bounds away. */
  lemma ArmKeeps(c: Config, k: Loop, e: Event, now: nat) returns (s: Loop)
    requires Inv(c, k, now) && k.current.Some? && now <= e.armed && e.armed + Period(c) <= USIZE_MAX
    ensures Armed(c, k, e) == Going(s) && Inv(c, s, e.armed) && s == k.(deadline := s.deadline)
    ensures c.policy != Mlfq ==> s == k
    ensures c.policy == Mlfq ==>
              var t := k.tasks[k.current.value];
              IsLeast(s.deadline - e.armed, t.slice, t.allot, if k.boost < e.left then 0 else k.boost - e.left)
  {
    hide Conserved, OnGrid, Prior;
    assert Slot(c, k, k.current.value, now);
    s := Armed(c, k, e).loop;
    ArmsForLeast(c, k, e, s);
    ArmedCounts(c, k, s);
    GridLater(c, k, s, now, e.armed);
    forall i | 0 <= i < |s.tasks|
      ensures Slot(c, s, i, e.armed)
    {
      assert Slot(c, k, i, now);
    }
  }

  lemma ArmedCounts(c: Config, k: Loop, s: Loop)
    requires s == k.(deadline := s.deadline) && Below(k.queue, |k.tasks|)
    ensures Conserved(c, k) ==> Conserved(c, s)
    ensures Prior(c, k) ==> Prior(c, s)
  {
  }

  /* The trap. */

  /** The running task after its trap, counted and charged but not yet demoted or parked. */
  function Tallied(c: Config, t: Task, e: Event): Task {
    Counted(Charged(c, t.(frame := e.frame), SatSub(e.time, e.entered)), e)
  }

  function Ending(reason: Reason): int {
    if reason.Exit? || reason.Fault? then 1 else 0
  }

  /** What a trap does to the running task. */
  lemma TrapOnTask(c: Config, t: Task, e: Event, now: nat)
    requires c.quantum > 0 && t.level <= 2 && t.state == Running && Timed(c, t, now) && now <= e.entered <= e.time
    requires c.policy == Mlfq ==> Solvent(c, t)
    ensures var u := Leveled(c, Tallied(c, t, e));
            && u.level <= 2 && Timed(c, u, e.time) && u.state == (if Ending(e.reason) == 1 then Done else Running)
            && (c.policy == Mlfq && u.state != Done ==> Solvent(c, u))
            && Release(u) == Release(t) + Ending(e.reason) + (if e.reason == Yield then 1 else 0)
            && u.timers == t.timers + if e.reason == Timer then 1 else 0
  {
  }

  /** A task that is not requeued keeps its level. */
  lemma KeptLevel(c: Config, k: Loop, t: Task, e: Event)
    requires t.level <= 2 && !Requeued(c, k, Tallied(c, t, e), e)
    ensures Leveled(c, Tallied(c, t, e)).level == t.level
  {
  }

  /** The loop after the trap, apart from the trace. */
  function Settled(c: Config, k: Loop, e: Event, deadline: nat): Loop
    requires k.current.Some? && k.current.value < |k.tasks| && k.tasks[k.current.value].level <= 2
  {
    var i := k.current.value;
    var u := Leveled(c, Tallied(c, k.tasks[i], e));
    if Requeued(c, k, Tallied(c, k.tasks[i], e), e) then
      k.(tasks := k.tasks[i := Parked(u, e)], queue := k.queue + [i], current := None, deadline := deadline, clock := e.requeued)
    else
      k.(tasks := k.tasks[i := u], current := if u.state == Done then None else Some(i), deadline := deadline, clock := e.requeued)
  }

  /** Settle is Settled plus the note, unless the way the task ended is not allowed. */
  lemma SettleIs(c: Config, k: Loop, e: Event) returns (deadline: nat)
    requires Shape(c, k) && Slots(c, k, e.armed) && k.current.Some?
    requires e.armed <= e.entered <= e.time <= e.rearmed && e.rearmed + Period(c) <= USIZE_MAX
    requires Complaint(c, k.current.value, e.reason).None?
    ensures Rearmed(c, k, Tallied(c, k.tasks[k.current.value], e), e) == Ok(deadline)
    ensures Slot(c, k, k.current.value, e.armed)
    ensures var n := Settled(c, k, e, deadline);
            Settle(c, k, e) == Going(if e.reason == Syscall && n.current.Some? then n else Noted(n, k.current.value, e.reason))
  {
    hide Slot, Tallied, Leveled, Requeued, Charged, Counted;
    var i := k.current.value;
    assert Slot(c, k, i, e.armed);
    SlotMeans(c, k, i, e.armed);
    var t := Tallied(c, k.tasks[i], e);
    TalliedIs(c, k.tasks[i], e);
    deadline := Rearmed(c, k, t, e).value;
    if Requeued(c, k, t, e) {
      forall q | 0 <= q < |k.queue|
        ensures k.queue[q] < c.capacity
      {
      }
      PushFits(k.queue, c.capacity, i);
    } else {
      SyscallKeeps(c, k.tasks[i], e);
    }
  }

  lemma SlotMeans(c: Config, k: Loop, i: nat, now: nat)
    requires i < |k.tasks| && Slot(c, k, i, now) && k.current == Some(i)
    ensures i !in k.queue && k.tasks[i].level <= 2 && k.tasks[i].state == Running
  {
  }

  lemma SlotBudget(c: Config, k: Loop, i: nat, now: nat)
    requires i < |k.tasks| && Slot(c, k, i, now) && k.current == Some(i)
    ensures c.policy == Mlfq ==> Solvent(c, k.tasks[i])
  {
  }

  lemma TalliedIs(c: Config, t: Task, e: Event)
    requires t.level <= 2
    ensures Tallied(c, t, e) == Counted(Charged(c, t.(frame := e.frame), SatSub(e.time, e.entered)), e)
    ensures Tallied(c, t, e).level <= 2
  {
  }

  lemma SyscallKeeps(c: Config, t: Task, e: Event)
    requires t.level <= 2 && t.state == Running
    ensures e.reason == Syscall ==> Leveled(c, Tallied(c, t, e)).state != Done
  {
  }

  lemma SettledShape(c: Config, k: Loop, e: Event, deadline: nat)
    requires Shape(c, k) && Slots(c, k, e.armed) && k.current.Some? && Slot(c, k, k.current.value, e.armed)
    requires e.armed <= e.entered <= e.time <= e.requeued
    ensures Shape(c, Settled(c, k, e, deadline)) && Slots(c, Settled(c, k, e, deadline), e.requeued)
  {
    hide Tallied, Leveled, Requeued, Solvent;
    var n := Settled(c, k, e, deadline);
    var i := k.current.value;
    TrapOnTask(c, k.tasks[i], e, e.armed);
    NotDoneRequeued(c, k, k.tasks[i], e);
    AppendMembers(k.queue, i);
    SettledTask(c, k, e, deadline);
    forall j | 0 <= j < |n.tasks| && j != i
      ensures Slot(c, n, j, e.requeued)
    {
      assert Slot(c, k, j, e.armed);
    }
  }

  lemma NotDoneRequeued(c: Config, k: Loop, t: Task, e: Event)
    requires t.level <= 2 && t.state == Running
    ensures Requeued(c, k, Tallied(c, t, e), e) ==> Leveled(c, Tallied(c, t, e)).state != Done
  {
  }

  /** The slot of the task that trapped. */
  lemma SettledTask(c: Config, k: Loop, e: Event, deadline: nat)
    requires Shape(c, k) && k.current.Some? && Slot(c, k, k.current.value, e.armed)
    requires e.armed <= e.entered <= e.time <= e.requeued
    ensures Slot(c, Settled(c, k, e, deadline), k.current.value, e.requeued)
  {
    hide Tallied, Leveled, Requeued;
    var i := k.current.value;
    var n := Settled(c, k, e, deadline);
    TrapOnTask(c, k.tasks[i], e, e.armed);
    NotDoneRequeued(c, k, k.tasks[i], e);
    AppendMembers(k.queue, i);
    assert i in n.queue <==> Requeued(c, k, Tallied(c, k.tasks[i], e), e);
  }

  lemma SettledPrior(c: Config, k: Loop, e: Event, deadline: nat)
    requires Shape(c, k) && k.current.Some? && Slot(c, k, k.current.value, e.armed) && Prior(c, k)
    requires Below(Settled(c, k, e, deadline).queue, |k.tasks|)
    ensures Prior(c, Settled(c, k, e, deadline))
  {
    hide Tallied, Leveled, Requeued;
    var i := k.current.value;
    var n := Settled(c, k, e, deadline);
    if n.current.Some? {
      KeptLevel(c, k, k.tasks[i], e);
      assert i !in k.queue;
    }
  }

  /** Every release and every OneShot timer trap is noted, and nothing else is. */
  lemma SettledCounts(c: Config, k: Loop, e: Event, deadline: nat)
    requires Shape(c, k) && k.current.Some? && Slot(c, k, k.current.value, e.armed) && Conserved(c, k)
    requires e.armed <= e.entered <= e.time
    ensures var n := Settled(c, k, e, deadline);
            && n.switches == Sum(Releases(n.tasks)) + Held(n)
            && n.trace == k.trace && n.dropped == k.dropped
            && Sum(Releases(n.tasks)) + ExtraNotes(c, n) == Sum(Releases(k.tasks)) + ExtraNotes(c, k)
               + if e.reason == Syscall && n.current.Some? then 0 else 1
  {
    hide Tallied, Leveled, Releases, TimerTraps, Solvent;
    var i := k.current.value;
    TrapOnTask(c, k.tasks[i], e, e.armed);
    TalliedIs(c, k.tasks[i], e);
    var u := Leveled(c, Tallied(c, k.tasks[i], e));
    NotDoneRequeued(c, k, k.tasks[i], e);
    TalliedState(c, k.tasks[i], e);
    OneRelease(c, k.tasks, i, Parked(u, e));
    OneRelease(c, k.tasks, i, u);
  }

  lemma TalliedState(c: Config, t: Task, e: Event)
    requires t.level <= 2 && t.state == Running
    ensures Tallied(c, t, e).state == if Ending(e.reason) == 1 then Done else Running
  {
  }

  lemma NotedCounts(c: Config, n: Loop, i: nat, reason: Reason, before: Loop)
    requires |before.trace| <= TRACE && (before.dropped > 0 ==> |before.trace| == TRACE)
    requires n.trace == before.trace && n.dropped == before.dropped && Conserved(c, before)
    requires n.switches == Sum(Releases(n.tasks)) + Held(n)
    requires Sum(Releases(n.tasks)) + ExtraNotes(c, n) == |before.trace| + before.dropped + 1
    ensures Conserved(c, Noted(n, i, reason))
    ensures Noted(n, i, reason) == n.(trace := Noted(n, i, reason).trace, dropped := Noted(n, i, reason).dropped)
  {
    hide Releases, TimerTraps, Sum;
  }

  /** The invariant does not look at the trace beyond its count. */
  lemma NotedRest(c: Config, n: Loop, r: Loop, now: nat)
    requires r == n.(trace := r.trace, dropped := r.dropped) && Shape(c, n) && Slots(c, n, now) && Prior(c, n) && OnGrid(c, n, now)
    ensures Shape(c, r) && Slots(c, r, now) && Prior(c, r) && OnGrid(c, r, now)
  {
    GridLater(c, n, r, now, now);
    forall i | 0 <= i < |r.tasks|
      ensures Slot(c, r, i, now)
    {
      assert Slot(c, n, i, now);
    }
  }

  /** The user time that uses up the level: two quanta at level 0, four at level 1, never at level 2. */
  predicate LevelUsedUp(c: Config, level: nat, charged: int) {
    (level == 0 && charged >= 2 * c.quantum) || (level == 1 && charged >= 4 * c.quantum)
  }

  /** Whether the task that ran in s keeps the machine after trap e. */
  predicate Keeps(c: Config, s: Loop, e: Event)
    requires s.current.Some? && s.current.value < |s.tasks|
  {
    var t, user := s.tasks[s.current.value], e.time - e.entered;
    match c.policy
    case Cooperative => e.reason == Syscall
    case OneShot(_) => e.reason == Syscall || e.reason == Timer
    case Rr => e.reason == Syscall && e.time < s.deadline
    case Mlfq => e.reason == Syscall && user < t.slice && e.time < s.boost && !LevelUsedUp(c, t.level, t.charged + user)
  }

  lemma SettledCurrent(c: Config, k: Loop, e: Event, deadline: nat)
    requires k.current.Some? && k.current.value < |k.tasks| && k.tasks[k.current.value].level <= 2
    requires k.tasks[k.current.value].state == Running && e.entered <= e.time
    requires c.policy == Mlfq ==> Solvent(c, k.tasks[k.current.value])
    ensures var n := Settled(c, k, e, deadline);
            && n.current == (if Keeps(c, k, e) then k.current else None)
            && n.queue == k.queue + (if Keeps(c, k, e) || Ending(e.reason) == 1 then [] else [k.current.value])
  {
  }

  /** From the call of run_task to the end of the iteration. */
  lemma SettleKeeps(c: Config, k: Loop, e: Event) returns (r: Loop)
    requires Inv(c, k, e.armed) && k.current.Some?
    requires e.armed <= e.entered <= e.time <= e.rearmed <= e.requeued && e.requeued + Period(c) <= USIZE_MAX
    requires Complaint(c, k.current.value, e.reason).None?
    ensures Settle.requires(c, k, e) && Settle(c, k, e) == Going(r) && Inv(c, r, e.requeued) && r.clock == e.requeued
    ensures r.boost == k.boost && r.boosts == k.boosts && |r.tasks| == |k.tasks|
    ensures forall j :: 0 <= j < |k.tasks| && j != k.current.value ==> r.tasks[j] == k.tasks[j]
    ensures r.current == if Keeps(c, k, e) then k.current else None
    ensures r.queue == k.queue + if Keeps(c, k, e) || Ending(e.reason) == 1 then [] else [k.current.value]
    ensures c.policy == Rr ==> r.deadline == k.deadline && (r.current.Some? ==> e.time < k.deadline)
  {
    hide Settle, Slot, Keeps, Prior, OnGrid, Conserved, Tallied, Leveled, Requeued, Releases, TimerTraps, ExtraNotes, Held;
    assert Slot(c, k, k.current.value, e.armed);
    SlotMeans(c, k, k.current.value, e.armed);
    var deadline := SettleIs(c, k, e);
    var n := Settled(c, k, e, deadline);
    SettledShape(c, k, e, deadline);
    SettledPrior(c, k, e, deadline);
    SettledCounts(c, k, e, deadline);
    SettledDeadline(c, k, e, deadline);
    SettledCurrent(c, k, e, deadline) by {
      SlotBudget(c, k, k.current.value, e.armed);
    }
    GridLater(c, k, n, e.armed, e.requeued);
    ConservedMeans(c, k);
    if e.reason == Syscall && n.current.Some? {
      r := n;
      ConservedIs(c, n);
    } else {
      r := Noted(n, k.current.value, e.reason);
      NotedCounts(c, n, k.current.value, e.reason, k);
      NotedRest(c, n, r, e.requeued);
    }
  }

  /** Under Rr the deadline of the dispatch stands, and a task that stays current has not reached it. */
  lemma SettledDeadline(c: Config, k: Loop, e: Event, deadline: nat)
    requires k.current.Some? && k.current.value < |k.tasks| && k.tasks[k.current.value].level <= 2
    requires Rearmed(c, k, Tallied(c, k.tasks[k.current.value], e), e) == Ok(deadline)
    ensures var n := Settled(c, k, e, deadline);
            c.policy == Rr ==> n.deadline == k.deadline && (n.current.Some? ==> e.time < k.deadline)
  {
  }

  lemma ConservedMeans(c: Config, k: Loop)
    requires Conserved(c, k)
    ensures |k.trace| + k.dropped == Sum(Releases(k.tasks)) + ExtraNotes(c, k)
    ensures |k.trace| <= TRACE && (k.dropped > 0 ==> |k.trace| == TRACE)
  {
  }

  lemma ConservedIs(c: Config, k: Loop)
    requires k.switches == Sum(Releases(k.tasks)) + Held(k)
    requires |k.trace| + k.dropped == Sum(Releases(k.tasks)) + ExtraNotes(c, k)
    requires |k.trace| <= TRACE && (k.dropped > 0 ==> |k.trace| == TRACE)
    ensures Conserved(c, k)
  {
  }
}
