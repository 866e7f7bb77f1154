/**
 One iteration of the management loop in plain numbers: who runs, until when, whether the task keeps
 the machine afterwards, what is left of its budgets, and what is noted. Nothing here is said through
 the functions that compute it.
 */
module KernelTurns {
  import opened Util
  import opened TrapHandler
  import opened KernelQueue
  import opened Kernel
  import opened KernelSafety
  import opened KernelRun
  import opened KernelMetrics

  /* From the head of the loop to the call of run_task. */

  /** Entry p of the queue is its front, or under Mlfq the earliest of those with the least level in `tasks`. */
  ghost predicate IsNext(c: Config, tasks: seq<Task>, queue: seq<nat>, p: nat)
    requires Below(queue, |tasks|)
  {
    && p < |queue|
    && if c.policy != Mlfq then p == 0
       else
         forall q :: 0 <= q < |queue| ==>
                       if q < p then tasks[queue[p]].level < tasks[queue[q]].level
                       else tasks[queue[p]].level <= tasks[queue[q]].level
  }

  /** A due boost puts every unfinished task at level 0 with one quantum and an allotment of two; nothing else moves. */
  predicate Reset(c: Config, due: bool, t: Task, u: Task) {
    if due && t.state != Done then
      u.level == 0 && u.slice == c.quantum && u.allot == 2 * c.quantum && u.charged == 0
    else u.level == t.level && u.slice == t.slice && u.allot == t.allot && u.charged == t.charged
  }

  /** The machine stays with the current task, or goes to the next of the queue, which leaves it. */
  ghost predicate Takes(c: Config, k: Loop, s: Loop) {
    && Below(k.queue, |s.tasks|)
    && if k.current.Some? then s.current == k.current && s.queue == k.queue && s.switches == k.switches
       else
         exists p: nat :: IsNext(c, s.tasks, k.queue, p) && s.current == Some(k.queue[p]) && s.queue == RemoveAt(k.queue, p)
                          && s.switches == k.switches + 1
  }

  lemma BoostResets(c: Config, k: Loop, e: Event, b: Loop)
    requires c.quantum > 0 && Boosted(c, k, e) == Going(b)
    ensures |b.tasks| == |k.tasks| && b == k.(tasks := b.tasks, boosts := b.boosts, boost := b.boost)
    ensures forall j :: 0 <= j < |k.tasks| ==>
                          && b.tasks[j].state == k.tasks[j].state
                          && Reset(c, c.policy == Mlfq && e.check >= k.boost, k.tasks[j], b.tasks[j])
  {
  }

  lemma ChoiceTakes(c: Config, b: Loop, e: Event, d: Loop)
    requires Below(b.queue, |b.tasks|) && Chosen(c, b, e) == Going(d)
    ensures |d.tasks| == |b.tasks| && Takes(c, b, d) && d.trace == b.trace && d.dropped == b.dropped
    ensures d.current.Some? && d.boost == b.boost
    ensures d.deadline == if b.current.Some? then b.deadline else e.due + c.quantum
    ensures forall j :: 0 <= j < |b.tasks| ==>
                          && d.tasks[j].level == b.tasks[j].level && d.tasks[j].slice == b.tasks[j].slice
                          && d.tasks[j].allot == b.tasks[j].allot && d.tasks[j].charged == b.tasks[j].charged
  {
    if b.current.None? {
      var levels := Levels(b.tasks);
      var p := Front(levels, b.queue, c.policy == Mlfq);
      assert c.policy == Mlfq ==> p == Best(levels, b.queue);
      FirstOfLeast(c, b, d, levels, p);
    }
  }

  lemma FirstOfLeast(c: Config, b: Loop, d: Loop, levels: seq<nat>, p: nat)
    requires Below(b.queue, |b.tasks|) && |d.tasks| == |b.tasks| == |levels| && p < |b.queue|
    requires forall j :: 0 <= j < |b.tasks| ==> d.tasks[j].level == levels[j]
    requires if c.policy == Mlfq then p == Best(levels, b.queue) else p == 0
    ensures IsNext(c, d.tasks, b.queue, p)
  {
  }

  /**
   Who runs, with what left, and until when: the queue's choice is taken after the boost, and under Mlfq
   the run is given exactly the least of slice, allotment and time to boost.
   */
  lemma SelectTakes(c: Config, k: Loop, e: Event) returns (s: Loop)
    requires Inv(c, k, k.clock) && Clocked(c, k.clock, e) && (k.current.Some? || k.queue != [])
    ensures Select(c, k, e) == Going(s) && |s.tasks| == |k.tasks| && Takes(c, k, s) && s.trace == k.trace && s.dropped == k.dropped
    ensures forall j :: 0 <= j < |k.tasks| ==> Reset(c, c.policy == Mlfq && e.check >= k.boost, k.tasks[j], s.tasks[j])
    ensures if c.policy == Mlfq then
              s.current.Some? && s.current.value < |s.tasks|
              && var t := s.tasks[s.current.value];
                 IsLeast(s.deadline - e.armed, t.slice, t.allot, if s.boost < e.left then 0 else s.boost - e.left)
            else s.deadline == if k.current.Some? then k.deadline else e.due + c.quantum
  {
    hide Check, Boosted, Chosen, Armed, Inv, Clocked, Takes, IsNext, IsLeast, Reset;
    InvConfigured(c, k);
    s := SelectKeeps(c, k, e);
    var b := Boosted(c, k, e).loop;
    BoostResets(c, k, e, b);
    var d := Chosen(c, b, e).loop;
    ChoiceTakes(c, b, e, d);
    ArmsForLeast(c, d, e, s);
    TakesThrough(c, k, b, d, s);
    forall j | 0 <= j < |k.tasks|
      ensures Reset(c, c.policy == Mlfq && e.check >= k.boost, k.tasks[j], s.tasks[j])
    {
      ResetThrough(c, c.policy == Mlfq && e.check >= k.boost, k.tasks[j], b.tasks[j], s.tasks[j]);
    }
  }

  lemma TakesThrough(c: Config, k: Loop, b: Loop, d: Loop, s: Loop)
    requires b.queue == k.queue && b.current == k.current && b.switches == k.switches && Takes(c, b, d)
    requires s == d.(deadline := s.deadline)
    ensures Takes(c, k, s)
  {
  }

  lemma ResetThrough(c: Config, due: bool, t: Task, m: Task, u: Task)
    requires Reset(c, due, t, m) && u.level == m.level && u.slice == m.slice && u.allot == m.allot && u.charged == m.charged
    ensures Reset(c, due, t, u)
  {
  }

  /* From the return of run_task to the end of the iteration. */

  /** What is left of the budgets of a task t that used `user` ticks and goes on as u. */
  predicate Left(c: Config, t: Task, user: int, u: Task) {
    if c.policy != Mlfq then u.level == t.level && u.slice == t.slice && u.allot == t.allot && u.demotions == t.demotions
    else if LevelUsedUp(c, t.level, t.charged + user) then
      && u.level == t.level + 1 && u.charged == 0 && u.demotions == t.demotions + 1
      && (t.level == 0 ==> u.slice == 2 * c.quantum && u.allot == 4 * c.quantum)
      && (t.level == 1 ==> u.slice == 4 * c.quantum && u.allot == USIZE_MAX)
    else
      && u.level == t.level && u.charged == t.charged + user && u.demotions == t.demotions
      && u.allot == (if t.level < 2 then t.allot - user else USIZE_MAX)
      && u.slice == (if user < t.slice then t.slice - user
                     else if t.level == 0 then c.quantum else if t.level == 1 then 2 * c.quantum else 4 * c.quantum)
  }

  /** The run whose trap e is settled from s to n. */
  ghost predicate SettledFrom(c: Config, s: Loop, e: Event, n: Loop) {
    && s.current.Some? && s.current.value < |s.tasks| == |c.fault|
    && s.tasks[s.current.value].level <= 2 && s.tasks[s.current.value].state == Running
    && (c.policy == Mlfq ==> Solvent(c, s.tasks[s.current.value]))
    && e.entered <= e.time && Settle(c, s, e) == Going(n)
  }

  lemma KeepsOrNot(c: Config, s: Loop, e: Event, n: Loop)
    requires SettledFrom(c, s, e, n)
    ensures var i := s.current.value;
            && |n.tasks| == |s.tasks| && n.tasks[i].frame == e.frame
            && n.current == (if Keeps(c, s, e) then Some(i) else None)
            && n.queue == s.queue + (if Keeps(c, s, e) || Ending(e.reason) == 1 then [] else [i])
            && n.tasks[i].state == (if Ending(e.reason) == 1 then Done else if Keeps(c, s, e) then Running else State.Ready)
  {
  }

  /** Parking a task leaves its budgets alone. */
  lemma BudgetsLeft(c: Config, s: Loop, e: Event, n: Loop)
    requires SettledFrom(c, s, e, n) && Ending(e.reason) == 0
    ensures Left(c, s.tasks[s.current.value], e.time - e.entered, n.tasks[s.current.value])
  {
    hide Left;
    var i := s.current.value;
    var u := RunnerAfter(c, s, e, n);
    BudgetsOf(c, s.tasks[i], e);
    LeftThrough(c, s.tasks[i], e.time - e.entered, u, n.tasks[i]);
  }

  lemma BudgetsOf(c: Config, t: Task, e: Event)
    requires t.level <= 2 && t.state == Running && (c.policy == Mlfq ==> Solvent(c, t)) && e.entered <= e.time && Ending(e.reason) == 0
    ensures Tallied(c, t, e).level <= 2 && Left(c, t, e.time - e.entered, Leveled(c, Tallied(c, t, e)))
  {
  }

  lemma LeftThrough(c: Config, t: Task, user: int, u: Task, v: Task)
    requires Left(c, t, user, u)
    requires v.level == u.level && v.charged == u.charged && v.demotions == u.demotions && v.slice == u.slice && v.allot == u.allot
    ensures Left(c, t, user, v)
  {
  }

  /** Every trap is noted, with task and reason, but a system call that keeps the task; beyond 64 they are only counted. */
  lemma NotedOrNot(c: Config, s: Loop, e: Event, n: Loop)
    requires SettledFrom(c, s, e, n)
    ensures if e.reason == Syscall && n.current.Some? then n.trace == s.trace && n.dropped == s.dropped
            else if |s.trace| < 64 then n.trace == s.trace + [(s.current.value, e.reason)] && n.dropped == s.dropped
            else n.trace == s.trace && n.dropped == s.dropped + 1
  {
  }

  /** Only a OneShot timer trap short of the limit moves the deadline, to a quantum from then. */
  lemma DeadlineMoves(c: Config, s: Loop, e: Event, n: Loop)
    requires SettledFrom(c, s, e, n)
    ensures n.deadline == if c.policy.OneShot? && e.reason == Timer && s.tasks[s.current.value].timers + 1 != c.policy.limit
                          then e.rearmed + c.quantum else s.deadline
  {
  }

  /** The state in which run_task is called, and that the trap is settled from it. */
  lemma RunState(c: Config, k: Loop, e: Event) returns (s: Loop)
    requires Inv(c, k, k.clock) && Clocked(c, k.clock, e) && Turn(c, k, e).Going?
    ensures Select(c, k, e) == Going(s) && Inv(c, s, e.armed) && SettledFrom(c, s, e, Turn(c, k, e).loop)
    ensures |s.tasks| == |k.tasks| && (k.current.Some? || k.queue != [])
    ensures c.policy == Rr ==> s.deadline == if k.current.Some? then k.deadline else e.due + c.quantum
  {
    hide Inv, Settle, Select, Turn;
    InvConfigured(c, k);
    if k.current.None? && k.queue == [] {
      var b := TurnFinishes(c, k, e);
    } else {
      s := SelectKeeps(c, k, e);
      RunsAs(c, s, e);
      TurnIsSettle(c, k, e, s);
    }
  }

  lemma RunsAs(c: Config, s: Loop, e: Event)
    requires Inv(c, s, e.armed) && s.current.Some?
    ensures s.current.value < |s.tasks| == |c.fault| && s.tasks[s.current.value].level <= 2
    ensures s.tasks[s.current.value].state == Running && (c.policy == Mlfq ==> Solvent(c, s.tasks[s.current.value]))
  {
    assert Slot(c, s, s.current.value, e.armed);
  }

  lemma TurnIsSettle(c: Config, k: Loop, e: Event, s: Loop)
    requires c.quantum > 0 && Select(c, k, e) == Going(s) && s.current.Some? && s.current.value < |s.tasks| == |c.fault|
    requires s.tasks[s.current.value].level <= 2
    ensures Turn(c, k, e) == Settle(c, s, e)
  {
    hide Select, Settle;
  }

  /**
   The whole of what a trap leads to. The task keeps the machine under the cooperative policy exactly
   after a system call; under OneShot after a system call or the timer; under Rr after a system call
   before the deadline of its dispatch; under Mlfq after a system call with slice, allotment and boost
   period all left. Otherwise, unless it ended, it goes to the back of the queue.
   */
  lemma TrapLeadsTo(c: Config, k: Loop, e: Event) returns (s: Loop)
    requires Inv(c, k, k.clock) && Clocked(c, k.clock, e) && Turn(c, k, e).Going?
    ensures Select(c, k, e) == Going(s) && s.current.Some? && s.current.value < |s.tasks|
    ensures var n, i := Turn(c, k, e).loop, s.current.value;
            && i < |n.tasks| == |k.tasks| && n.tasks[i].frame == e.frame
            && n.current == (if Keeps(c, s, e) then Some(i) else None)
            && n.queue == s.queue + (if Keeps(c, s, e) || Ending(e.reason) == 1 then [] else [i])
            && n.tasks[i].state == (if Ending(e.reason) == 1 then Done else if Keeps(c, s, e) then Running else State.Ready)
            && (Ending(e.reason) == 0 ==> Left(c, s.tasks[i], e.time - e.entered, n.tasks[i]))
    ensures c.policy == Rr ==> s.deadline == if k.current.Some? then k.deadline else e.due + c.quantum
  {
    hide Inv, Turn, Select, Settle, Keeps, Left, Clocked;
    InvConfigured(c, k);
    s := RunState(c, k, e);
    KeepsOrNot(c, s, e, Turn(c, k, e).loop);
    if Ending(e.reason) == 0 {
      BudgetsLeft(c, s, e, Turn(c, k, e).loop);
    }
  }

  /* The asserts. */

  /** The batch goes on after a run unless the task exited with a code but 0, or faulted otherwise than its spec says. */
  lemma StopsExactlyFor(c: Config, k: Loop, e: Event) returns (s: Loop)
    requires Inv(c, k, k.clock) && Clocked(c, k.clock, e) && (k.current.Some? || k.queue != [])
    ensures Select(c, k, e) == Going(s) && s.current.Some? && s.current.value < |c.fault|
    ensures Turn(c, k, e).Stopped? <==> match e.reason
                                        case Exit(code) => code != 0
                                        case Fault(cause) => !c.fault[s.current.value] || cause != 2
                                        case _ => false
  {
    hide Inv, Clocked, Select, Turn, Kept;
    InvConfigured(c, k);
    s := TurnKeeps(c, k, e);
  }

  /** The queue holds each ready task once and nothing else, and at most one task runs. */
  ghost predicate EachReadyOnce(tasks: seq<Task>, queue: seq<nat>) {
    && Distinct(queue) && Below(queue, |tasks|)
    && (forall id: nat :: id < |tasks| ==> (id in queue <==> tasks[id].state == State.Ready))
    && (forall i, j :: 0 <= i < j < |tasks| ==> tasks[i].state != Running || tasks[j].state != Running)
  }

  /** The runtime check passes exactly then. */
  lemma CheckIsExact(tasks: seq<Task>, queue: seq<nat>)
    ensures Check(tasks, queue) <==> EachReadyOnce(tasks, queue)
  {
    if Check(tasks, queue) {
      forall a | 0 <= a < |queue|
        ensures queue[a] < |tasks| && forall b :: a < b < |queue| ==> queue[a] != queue[b]
      {
        assert queue[a] in queue;
        forall b | a < b < |queue|
          ensures queue[a] != queue[b]
        {
          if queue[a] == queue[b] {
            TwiceIsTwo(queue, a, b);
          }
        }
      }
      assert forall id: nat :: id in multiset(queue) <==> id in queue;
    }
    if EachReadyOnce(tasks, queue) {
      PigeonHole(queue, |tasks|);
      forall id: nat | id < |tasks|
        ensures multiset(queue)[id] == if tasks[id].state == State.Ready then 1 else 0
      {
        CountOnce(queue, id);
      }
    }
  }

  lemma TwiceIsTwo(queue: seq<nat>, a: nat, b: nat)
    requires a < b < |queue| && queue[a] == queue[b]
    ensures multiset(queue)[queue[a]] >= 2
  {
    assert queue == queue[..b] + queue[b..];
    assert queue[a] == queue[..b][a] && queue[b] == queue[b..][0];
    assert queue[a] in queue[..b] && queue[a] in queue[b..];
  }

  /** A clock that runs backwards under Mlfq, or leaves no room for the next OneShot deadline, stops the batch. */
  lemma BadClockStops(c: Config, s: Loop, e: Event)
    requires s.current.Some? && s.current.value < |s.tasks| == |c.fault| && s.tasks[s.current.value].level <= 2
    ensures c.policy == Mlfq && e.time < e.entered ==> Settle(c, s, e) == Stopped(TimeBackwards)
    ensures (c.policy.OneShot? && e.reason == Timer && s.tasks[s.current.value].timers + 1 != c.policy.limit
             && e.rearmed + c.quantum >= 0x1_0000_0000_0000_0000) ==> Settle(c, s, e).Stopped?
  {
  }

  /* The trace. */

  /** Task and reason of every run that ended otherwise than by a system call after which the task went on. */
  ghost function Notes(c: Config, k: Loop, es: seq<Event>): seq<(nat, Reason)>
    requires c.quantum > 0
    decreases |es|
  {
    if es == [] || !Turn(c, k, es[0]).Going? || RunsNow(c, k, es[0]).None? then []
    else
      var n := Turn(c, k, es[0]).loop;
      (if es[0].reason == Syscall && n.current.Some? then [] else [(RunsNow(c, k, es[0]).value, es[0].reason)])
      + Notes(c, n, es[1..])
  }

  function First64<T>(s: seq<T>): seq<T> {
    if |s| <= 64 then s else s[..64]
  }

  /** The trace printed at the end is the first 64 notes of the run in order, and the rest are counted as dropped. */
  lemma {:induction false} TraceIsTheRun(c: Config, k: Loop, es: seq<Event>)
    requires Inv(c, k, k.clock) && Clocks(c, k.clock, es) && RunLoop(c, k, es).Going?
    ensures var n, all := RunLoop(c, k, es).loop, k.trace + Notes(c, k, es);
            n.trace == First64(all) && |n.trace| + n.dropped == |all| + k.dropped
    decreases |es|
  {
    hide Inv, Turn, RunsNow, Clocked, First64;
    InvConfigured(c, k);
    TraceFits(c, k);
    if es == [] {
      FirstOfFew(k.trace);
    } else {
      var n := Turn(c, k, es[0]).loop;
      var note := TurnNotes(c, k, es);
      GoesOn(c, k, es[0]);
      TraceIsTheRun(c, n, es[1..]);
      NoteThenRest(k.trace, note, Notes(c, n, es[1..]));
    }
  }

  lemma TraceFits(c: Config, k: Loop)
    requires Inv(c, k, k.clock)
    ensures |k.trace| <= 64 && (k.dropped > 0 ==> |k.trace| == 64)
  {
  }

  lemma FirstOfFew<T>(s: seq<T>)
    ensures |s| <= 64 ==> First64(s) == s && s + [] == s
  {
  }

  /** What one iteration adds to the notes, and to the trace. */
  lemma TurnNotes(c: Config, k: Loop, es: seq<Event>) returns (note: seq<(nat, Reason)>)
    requires es != [] && Inv(c, k, k.clock) && Clocked(c, k.clock, es[0]) && Turn(c, k, es[0]).Going?
    ensures var n := Turn(c, k, es[0]).loop;
            && Notes(c, k, es) == note + Notes(c, n, es[1..]) && |note| <= 1
            && n.trace == First64(k.trace + note) && |n.trace| + n.dropped == |k.trace| + |note| + k.dropped
  {
    hide Inv, Turn, Select, Settle, Clocked;
    InvConfigured(c, k);
    TraceFits(c, k);
    var n, e := Turn(c, k, es[0]).loop, es[0];
    var s := RunState(c, k, e);
    var same := SelectTakes(c, k, e);
    NotedOrNot(c, s, e, n);
    note := if e.reason == Syscall && n.current.Some? then [] else [(s.current.value, e.reason)];
    FirstOfMore(k.trace, note);
  }

  lemma FirstOfMore<T>(s: seq<T>, note: seq<T>)
    requires |s| <= 64 && |note| <= 1
    ensures First64(s + note) == if |s| < 64 then s + note else s
  {
  }

  lemma NoteThenRest<T>(s: seq<T>, note: seq<T>, rest: seq<T>)
    requires |s| <= 64
    ensures First64(First64(s + note) + rest) == First64(s + (note + rest))
  {
    assert s + (note + rest) == s + note + rest;
  }
}
