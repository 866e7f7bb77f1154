/**
 The management loop as the program of src/scheduler.rs: an array of tasks and a Ready queue changed
 in place, proved against the values of module Kernel. The array holds the tasks of the specs.
 */
module KernelProgram {
  import opened Util
  import opened TrapAsm
  import opened TrapHandler
  import opened KernelQueue
  import opened Kernel
  import opened KernelRun

  /** How far an iteration got. */
  datatype Progress = Continues | Over | Failed(why: Stop)

  /** The progress and the state agree with an outcome. */
  predicate Reports(p: Progress, k: Loop, o: Outcome) {
    match o
    case Going(n) => p == Continues && k == n
    case Finished(n) => p == Over && k == n
    case Stopped(why) => p == Failed(why)
  }

  class Batch {
    const config: Config
    const tasks: array<Task>
    const ready: Ready
    var current: Option<nat>
    var deadline: nat
    var boost: nat
    var boosts: nat
    var switches: nat
    var trace: seq<(nat, Reason)>
    var dropped: nat
    ghost var clock: nat

    ghost predicate Valid()
      reads this, ready, ready.ids
    {
      && config.quantum > 0 && ready.Valid() && ready.ids.Length == config.capacity
      && tasks.Length == |config.fault|
      && (current.Some? ==> current.value < tasks.Length)
    }

    ghost function View(): Loop
      reads this, tasks, ready, ready.ids
      requires ready.len <= ready.ids.Length
    {
      Loop(tasks[..], ready.Contents(), current, deadline, boost, boosts, switches, trace, dropped, clock)
    }

    /** The setup of `batch`: one fresh task per spec, all queued in order. */
    constructor (c: Config, frames: seq<Frame>)
      requires Configured(c) && |frames| == |c.fault|
      ensures Valid() && fresh(tasks) && fresh(ready) && fresh(ready.ids) && config == c
      ensures View() == Start(c, frames)
    {
      config := c;
      tasks := new Task[|frames|](i requires 0 <= i < |frames| => FirstTask(c, frames[i]));
      ready := new Ready(c.capacity);
      current, deadline, boost, boosts, switches, trace, dropped := None, 0, c.base + 20 * c.quantum, 0, 0, [], 0;
      clock := c.base;
      new;
      var k := 0;
      while k < |frames|
        modifies ready`len, ready.ids
        invariant 0 <= k <= |frames| && ready.Valid() && ready.ids.Length == c.capacity
        invariant ready.Contents() == seq(k, (i: nat) => i)
        invariant tasks[..] == Start(c, frames).tasks
      {
        var r := ready.Push(k);
        k := k + 1;
      }
      assert View().tasks == Start(c, frames).tasks && View().queue == Start(c, frames).queue;
    }

    /** How often id is queued. */
    method Occurrences(id: nat) returns (n: nat)
      requires ready.Valid()
      ensures n == multiset(ready.Contents())[id]
    {
      n := 0;
      var k := 0;
      while k < ready.len
        invariant 0 <= k <= ready.len
        invariant n == multiset(ready.ids[..k])[id]
      {
        assert ready.ids[..k + 1] == ready.ids[..k] + [ready.ids[k]];
        if ready.ids[k] == id {
          n := n + 1;
        }
        k := k + 1;
      }
    }

    /** `Ready::check`. */
    method CheckQueue() returns (ok: bool)
      requires Valid()
      ensures ok == Check(tasks[..], ready.Contents())
    {
      ghost var ts, q := tasks[..], ready.Contents();
      if ready.len > tasks.Length {
        return false;
      }
      var k := 0;
      while k < ready.len
        invariant 0 <= k <= ready.len
        invariant forall j :: 0 <= j < k ==> q[j] < |ts| && ts[q[j]].state == Ready
      {
        if ready.ids[k] >= tasks.Length || tasks[ready.ids[k]].state != State.Ready {
          assert q[k] in q;
          return false;
        }
        k := k + 1;
      }
      var id, running := 0, 0;
      while id < tasks.Length
        invariant 0 <= id <= tasks.Length && running <= 1
        invariant forall j :: 0 <= j < id ==> multiset(q)[j] == if ts[j].state == State.Ready then 1 else 0
        invariant forall i, j :: 0 <= i < j < id ==> ts[i].state != Running || ts[j].state != Running
        invariant running == 1 <==> exists j :: 0 <= j < id && ts[j].state == Running
      {
        var n := Occurrences(id);
        if n != if tasks[id].state == State.Ready then 1 else 0 {
          return false;
        }
        if tasks[id].state == Running {
          running := running + 1;
          if running > 1 {
            return false;
          }
        }
        id := id + 1;
      }
      return true;
    }

    /** The boost, in place. */
    method BoostDue(e: Event) returns (p: Progress)
      requires Valid()
      modifies this`boosts, this`boost, tasks
      ensures Valid()
      ensures Reports(p, View(), Boosted(config, old(View()), e))
    {
      if !(config.policy == Mlfq && e.check >= boost) {
        assert View() == old(View());
        return Continues;
      }
      if e.boosted < config.base || NextBoost(config, e.boosted) > USIZE_MAX {
        return Failed(ClockOverflow);
      }
      ghost var before := tasks[..];
      var k := 0;
      while k < tasks.Length
        modifies tasks
        invariant 0 <= k <= tasks.Length && Valid()
        invariant forall j :: 0 <= j < k ==> tasks[j] == Refreshed(config, before[j])
        invariant forall j :: k <= j < tasks.Length ==> tasks[j] == before[j]
      {
        if tasks[k].state != Done {
          tasks[k] := Budget(config, tasks[k], 0);
        }
        k := k + 1;
      }
      boosts := boosts + 1;
      boost := NextBoost(config, e.boosted);
      assert tasks[..] == RefreshAll(config, before);
      return Continues;
    }

    /** The next task, from the queue unless one is current. */
    method Choose(e: Event) returns (p: Progress)
      requires Valid() && Below(ready.Contents(), tasks.Length)
      modifies this`current, this`deadline, this`switches, tasks, ready`len, ready.ids
      ensures Valid()
      ensures Reports(p, View(), Chosen(config, old(View()), e))
      ensures p == Continues ==> current.Some?
    {
      if current.Some? {
        return Continues;
      }
      ghost var k := View();
      var levels := CurrentLevels();
      var id := ready.Pop(levels, config.policy == Mlfq);
      if id.None? {
        return Over;
      }
      match After(e.due, config.quantum)
      case Err(why) =>
        return Failed(why);
      case Ok(at) =>
        tasks[id.value] := Begun(tasks[id.value], e.dispatched);
        current := id;
        deadline := at;
        switches := switches + 1;
        assert View().tasks == Chosen(config, k, e).loop.tasks;
        return Continues;
    }

    method CurrentLevels() returns (levels: seq<nat>)
      ensures levels == Levels(tasks[..])
    {
      levels := [];
      var k := 0;
      while k < tasks.Length
        invariant 0 <= k <= tasks.Length && levels == Levels(tasks[..])[..k]
      {
        levels := levels + [tasks[k].level];
        k := k + 1;
      }
    }

    /** The deadline of a run under Mlfq. */
    method Arm(e: Event) returns (p: Progress)
      requires Valid() && current.Some?
      modifies this`deadline
      ensures Valid() && Reports(p, View(), Armed(config, old(View()), e))
    {
      if config.policy == Mlfq {
        var t := tasks[current.value];
        match After(e.armed, Max(Min(Min(t.slice, t.allot), SatSub(boost, e.left)), 1))
        case Err(why) =>
          return Failed(why);
        case Ok(at) =>
          deadline := at;
      }
      return Continues;
    }

    /** From the head of the loop to the call of run_task. */
    method SelectNext(e: Event) returns (p: Progress)
      requires Valid()
      modifies this`boosts, this`boost, this`current, this`deadline, this`switches, tasks, ready`len, ready.ids
      ensures Valid() && Reports(p, View(), Select(config, old(View()), e))
      ensures p == Continues ==> current.Some?
    {
      hide Boosted, Chosen, Armed, Check;
      ghost var k := View();
      var ok := CheckQueue();
      if !ok {
        return Failed(CheckFailed);
      }
      CheckBelow(k.tasks, k.queue);
      p := BoostDue(e);
      if p != Continues {
        return;
      }
      p := Choose(e);
      if p != Continues {
        return;
      }
      p := Arm(e);
    }

    /** Demotion or a new slice, and whether the task goes back to the queue. */
    method Relevel(counted: Task, e: Event) returns (t: Task, requeue: bool)
      requires Valid() && counted.level <= 2
      ensures t == Leveled(config, counted) && requeue == Requeued(config, View(), counted, e)
    {
      t := counted;
      requeue := e.reason == Yield || (e.reason == Timer && !config.policy.OneShot?);
      if t.state != Done && config.policy == Mlfq {
        if t.level < 2 && t.allot == 0 {
          t := Budget(config, t, t.level + 1).(demotions := t.demotions + 1);
          requeue := true;
        } else if t.slice == 0 {
          t := t.(slice := FullSlice(config, t.level));
          requeue := true;
        }
        if e.time >= boost {
          requeue := true;
        }
      } else if t.state != Done && config.policy == Rr && e.time >= deadline {
        requeue := true;
      }
    }

    /** Charge, count, demote, requeue and note, after the return of run_task. */
    method SettleTrap(e: Event) returns (p: Progress)
      requires Valid() && current.Some? && tasks[current.value].level <= 2
      modifies this, tasks, ready`len, ready.ids
      ensures Valid() && Reports(p, View(), Settle(config, old(View()), e))
    {
      hide Charged;
      ghost var k := View();
      var i := current.value;
      if config.policy == Mlfq && e.time < e.entered {
        return Failed(TimeBackwards);
      }
      ChargedLevel(config, tasks[i].(frame := e.frame), SatSub(e.time, e.entered));
      var t := Counted(Charged(config, tasks[i].(frame := e.frame), SatSub(e.time, e.entered)), e);
      var complaint := Complaint(config, i, e.reason);
      if complaint.Some? {
        return Failed(complaint.value);
      }
      var requeue: bool;
      if e.reason == Timer && config.policy.OneShot? && t.timers != config.policy.limit {
        match After(e.rearmed, config.quantum)
        case Err(why) =>
          return Failed(why);
        case Ok(at) =>
          deadline := at;
      }
      var counted := t;
      t, requeue := Relevel(counted, e);
      hide Requeued, Leveled;
      assert requeue == Requeued(config, k, counted, e) by {
        SameRequeue(config, View(), k, counted, e);
      }
      clock := e.requeued;
      if requeue {
        tasks[i] := Parked(t, e);
        var pushed := ready.Push(i);
        if pushed.Err? {
          return Failed(PushFailed(pushed.error));
        }
        current := None;
      } else {
        tasks[i] := t;
        if t.state == Done {
          current := None;
        }
      }
      assert tasks[..] == k.tasks[i := tasks[i]];
      if e.reason != Syscall || requeue {
        Note(i, e.reason);
      }
      return Continues;
    }

    method Note(i: nat, reason: Reason)
      modifies this`trace, this`dropped
      requires Valid()
      ensures Valid() && View() == Noted(old(View()), i, reason)
    {
      if |trace| < TRACE {
        trace := trace + [(i, reason)];
      } else {
        dropped := dropped + 1;
      }
    }

    /** One iteration of the loop, with the trap that ends its run. */
    method Iterate(e: Event) returns (p: Progress)
      requires Valid()
      modifies this, tasks, ready`len, ready.ids
      ensures Valid() && Reports(p, View(), Turn(config, old(View()), e))
    {
      hide Select, Settle;
      p := SelectNext(e);
      if p == Continues {
        if tasks[current.value].level > 2 {
          return Failed(CheckFailed);
        }
        p := SettleTrap(e);
      }
    }

    /** The loop over as many iterations as there are events. */
    method RunToEnd(es: seq<Event>) returns (p: Progress)
      requires Valid()
      modifies this, tasks, ready`len, ready.ids
      ensures Valid() && Reports(p, View(), RunLoop(config, old(View()), es))
    {
      hide Turn;
      p := Continues;
      var k := 0;
      while k < |es| && p == Continues
        invariant 0 <= k <= |es| && Valid()
        invariant RunLoop(config, old(View()), es)
                  == match p
                     case Continues => RunLoop(config, View(), es[k..])
                     case Over => Finished(View())
                     case Failed(why) => Stopped(why)
      {
        assert es[k..][1..] == es[k + 1..];
        p := Iterate(es[k]);
        k := k + 1;
      }
    }
  }

  /**
   The whole batch. Whatever the traps and the clock, it never fails except by a task's own fault,
   and when it is over every task is done, its first run no later than its completion.
   */
  method RunBatch(c: Config, frames: seq<Frame>, es: seq<Event>) returns (p: Progress, tasks: seq<Task>)
    requires Configured(c) && |frames| == |c.fault| && Clocks(c, c.base, es)
    ensures p.Failed? ==> p.why in {BadExit, UnexpectedFault}
    ensures p.Failed? <==> exists j: nat, why :: Blames(c, Start(c, frames), es, j, why)
    ensures p == Over ==>
              |tasks| == |c.fault| && forall i :: 0 <= i < |tasks| ==>
                tasks[i].state == Done && tasks[i].first.Some? && c.base <= tasks[i].first.value <= tasks[i].completion
    ensures p == Continues ==> RunLoop(c, Start(c, frames), es).Going?
  {
    hide RunLoop, Clocks, Start, Blames;
    var b := new Batch(c, frames);
    p := b.RunToEnd(es);
    tasks := b.tasks[..];
    BatchIsSafe(c, frames, es);
    StopsExactlyWhenBlamed(c, frames, es);
  }

  lemma SameRequeue(c: Config, a: Loop, b: Loop, t: Task, e: Event)
    requires a.boost == b.boost && (c.policy == Rr ==> a.deadline == b.deadline)
    ensures Requeued(c, a, t, e) == Requeued(c, b, t, e)
  {
  }

  lemma ChargedLevel(c: Config, t: Task, delta: nat)
    ensures Charged(c, t, delta).level == t.level && Charged(c, t, delta).state == t.state
  {
  }


  lemma CheckBelow(tasks: seq<Task>, queue: seq<nat>)
    requires Check(tasks, queue)
    ensures Below(queue, |tasks|)
  {
    forall p | 0 <= p < |queue|
      ensures queue[p] < |tasks|
    {
      assert queue[p] in queue;
    }
  }
}
