/**
 The figures `batch` prints for each task are those of the run: traps by kind, the reading at the
 first dispatch, the time of the last trap, and the longest time spent ready before a dispatch.
 */
module KernelMetrics {
  import opened Util
  import opened TrapHandler
  import opened KernelQueue
  import opened Kernel
  import opened KernelSafety
  import opened KernelRun

  function One(b: bool): nat {
    if b then 1 else 0
  }

  /** The user time of this run takes what task i was charged since its last reset to the full allotment. */
  predicate UsedUp(c: Config, s: Loop, e: Event, i: nat) {
    && c.policy == Mlfq && Ending(e.reason) == 0 && i < |s.tasks| && s.tasks[i].level < 2
    && s.tasks[i].charged + SatSub(e.time, e.entered) >= FullAllot(c, s.tasks[i].level)
  }

  /** The task lost the machine though it neither yielded nor ended. */
  predicate Evicted(e: Event, n: Loop) {
    e.reason in {Timer, Syscall} && n.current.None?
  }

  /**
   What one iteration does to the figures of task i, given whether it ran i, whether it dispatched it,
   and whether the run used up i's allotment.
   */
  ghost predicate Recorded(k: Loop, e: Event, n: Loop, i: nat, ran: bool, began: bool, usedUp: bool) {
    && i < |k.tasks| == |n.tasks|
    && var t, u := k.tasks[i], n.tasks[i];
       && u.yielded == t.yielded + One(ran && e.reason == Yield)
       && u.timers == t.timers + One(ran && e.reason == Timer)
       && u.syscalls == t.syscalls + One(ran && e.reason == Syscall)
       && u.demotions == t.demotions + One(ran && usedUp)
       && u.preemptions == t.preemptions + One(ran && Evicted(e, n))
       && u.first == (if began && t.first.None? then Some(e.dispatched) else t.first)
       && u.maxWait == (if began then Max(t.maxWait, SatSub(e.dispatched, t.readySince)) else t.maxWait)
       && u.completion == (if ran && Ending(e.reason) == 1 then e.time else t.completion)
       && u.readySince == (if ran && u.state == Ready then e.requeued else t.readySince)
  }

  lemma SelectRecords(c: Config, k: Loop, e: Event, s: Loop, i: nat)
    requires c.quantum > 0 && Select(c, k, e) == Going(s) && i < |k.tasks|
    ensures |s.tasks| == |k.tasks|
    ensures var t, u, began := k.tasks[i], s.tasks[i], k.current.None? && s.current == Some(i);
            && u.yielded == t.yielded && u.timers == t.timers && u.syscalls == t.syscalls
            && u.first == (if began && t.first.None? then Some(e.dispatched) else t.first)
            && u.maxWait == (if began then Max(t.maxWait, SatSub(e.dispatched, t.readySince)) else t.maxWait)
            && u.completion == t.completion && u.readySince == t.readySince
            && u.demotions == t.demotions && u.preemptions == t.preemptions
  {
    hide Check, NextBoost, Front;
  }

  lemma SettleRecords(c: Config, k: Loop, e: Event, n: Loop, i: nat)
    requires k.current.Some? && k.current.value < |k.tasks| == |c.fault| && k.tasks[k.current.value].level <= 2
    requires k.tasks[k.current.value].state == Running && Settle(c, k, e) == Going(n) && i < |k.tasks|
    requires c.policy == Mlfq ==> Solvent(c, k.tasks[k.current.value])
    ensures Recorded(k, e, n, i, k.current == Some(i), false, UsedUp(c, k, e, i))
  {
    if k.current == Some(i) {
      var u := RunnerAfter(c, k, e, n);
      TallyRecords(c, k.tasks[i], e);
      hide Settle, Leveled, Tallied, Solvent;
    } else {
      OthersUntouched(c, k, e, n, i);
      hide Settle, UsedUp;
    }
  }

  /** The task that ran, after its trap: counted, charged and levelled, and parked if it lost the machine without ending. */
  lemma RunnerAfter(c: Config, k: Loop, e: Event, n: Loop) returns (u: Task)
    requires k.current.Some? && k.current.value < |k.tasks| == |c.fault| && k.tasks[k.current.value].level <= 2
    requires k.tasks[k.current.value].state == Running && Settle(c, k, e) == Going(n)
    ensures u == Leveled(c, Tallied(c, k.tasks[k.current.value], e)) && u.state == (if Ending(e.reason) == 1 then Done else Running)
    ensures |n.tasks| == |k.tasks|
    ensures n.tasks[k.current.value] == if n.current.None? && Ending(e.reason) == 0 then Parked(u, e) else u
  {
    hide Charged, Leveled, Pushed;
    var t := k.tasks[k.current.value];
    TallyEnds(c, t, e);
    u := Leveled(c, Tallied(c, t, e));
  }

  lemma TallyEnds(c: Config, t: Task, e: Event)
    requires t.level <= 2 && t.state == Running
    ensures Tallied(c, t, e) == Counted(Charged(c, t.(frame := e.frame), SatSub(e.time, e.entered)), e)
    ensures Tallied(c, t, e).level == t.level
    ensures Leveled(c, Tallied(c, t, e)).state == if Ending(e.reason) == 1 then Done else Running
  {
  }

  lemma TallyRecords(c: Config, t: Task, e: Event)
    requires t.level <= 2 && t.state == Running && (c.policy == Mlfq ==> Solvent(c, t))
    ensures var u := Leveled(c, Tallied(c, t, e));
            && u.yielded == t.yielded + One(e.reason == Yield) && u.timers == t.timers + One(e.reason == Timer)
            && u.syscalls == t.syscalls + One(e.reason == Syscall) && u.preemptions == t.preemptions
            && u.first == t.first && u.maxWait == t.maxWait && u.readySince == t.readySince
            && u.completion == (if Ending(e.reason) == 1 then e.time else t.completion)
            && u.demotions == t.demotions
               + One(c.policy == Mlfq && Ending(e.reason) == 0 && t.level < 2
                     && t.charged + SatSub(e.time, e.entered) >= FullAllot(c, t.level))
  {
  }

  lemma OthersUntouched(c: Config, k: Loop, e: Event, n: Loop, i: nat)
    requires k.current.Some? && k.current.value < |k.tasks| == |c.fault| && k.tasks[k.current.value].level <= 2
    requires Settle(c, k, e) == Going(n) && i < |k.tasks| && k.current != Some(i)
    ensures |n.tasks| == |k.tasks| && n.tasks[i] == k.tasks[i]
  {
    hide Leveled, Requeued, Charged, Counted, Pushed;
  }

  /** This iteration runs task i until its allotment is used up. */
  ghost predicate DemotedNow(c: Config, k: Loop, e: Event, i: nat)
    requires c.quantum > 0
  {
    RunsNow(c, k, e) == Some(i) && UsedUp(c, Select(c, k, e).loop, e, i)
  }

  /** The figures after one iteration, for every task. */
  lemma TurnRecords(c: Config, k: Loop, e: Event, i: nat)
    requires Inv(c, k, k.clock) && Clocked(c, k.clock, e) && Turn(c, k, e).Going? && i < |k.tasks|
    ensures var ran := RunsNow(c, k, e) == Some(i);
            Recorded(k, e, Turn(c, k, e).loop, i, ran, ran && k.current.None?, DemotedNow(c, k, e, i))
    ensures DemotedNow(c, k, e, i) ==> RunsNow(c, k, e) == Some(i)
  {
    hide Inv, Select, Settle, Turn, Clocked;
    InvConfigured(c, k);
    if k.current.None? && k.queue == [] {
      var b := TurnFinishes(c, k, e);
    } else {
      var s := TurnKeeps(c, k, e);
      RunsSettles(c, k, e, s);
      SelectRecords(c, k, e, s, i);
      SettleRecords(c, s, e, Turn(c, k, e).loop, i);
    }
  }

  lemma RunsSettles(c: Config, k: Loop, e: Event, s: Loop)
    requires Inv(c, s, e.armed) && Select(c, k, e) == Going(s) && s.current.Some? && c.quantum > 0
    ensures s.current.value < |s.tasks| == |c.fault| && s.tasks[s.current.value].level <= 2
    ensures s.tasks[s.current.value].state == Running && Turn(c, k, e) == Settle(c, s, e)
    ensures c.policy == Mlfq ==> Solvent(c, s.tasks[s.current.value])
  {
    hide Select, Settle;
    assert Slot(c, s, s.current.value, e.armed);
  }

  /** How often task i trapped for this reason. */
  ghost function Traps(c: Config, k: Loop, es: seq<Event>, i: nat, reason: Reason): nat
    requires c.quantum > 0
    decreases |es|
  {
    if es == [] then 0
    else
      One(RunsNow(c, k, es[0]) == Some(i) && es[0].reason == reason)
      + if Turn(c, k, es[0]).Going? then Traps(c, Turn(c, k, es[0]).loop, es[1..], i, reason) else 0
  }

  /** How often task i used up its allotment. */
  ghost function Demotions(c: Config, k: Loop, es: seq<Event>, i: nat): nat
    requires c.quantum > 0
    decreases |es|
  {
    if es == [] then 0
    else
      One(DemotedNow(c, k, es[0], i))
      + if Turn(c, k, es[0]).Going? then Demotions(c, Turn(c, k, es[0]).loop, es[1..], i) else 0
  }

  /** How often task i lost the machine without yielding or ending. */
  ghost function Evictions(c: Config, k: Loop, es: seq<Event>, i: nat): nat
    requires c.quantum > 0
    decreases |es|
  {
    if es == [] || !Turn(c, k, es[0]).Going? then 0
    else
      var n := Turn(c, k, es[0]).loop;
      One(RunsNow(c, k, es[0]) == Some(i) && Evicted(es[0], n)) + Evictions(c, n, es[1..], i)
  }

  /** The time of the last trap by which task i ended. */
  ghost function EndTime(c: Config, k: Loop, es: seq<Event>, i: nat): Option<nat>
    requires c.quantum > 0
    decreases |es|
  {
    if es == [] then None
    else
      var later := if Turn(c, k, es[0]).Going? then EndTime(c, Turn(c, k, es[0]).loop, es[1..], i) else None;
      if later.Some? then later
      else if RunsNow(c, k, es[0]) == Some(i) && Ending(es[0].reason) == 1 then Some(es[0].time)
      else None
  }

  /** The reading at task i's first dispatch. */
  ghost function FirstDispatch(c: Config, k: Loop, es: seq<Event>, i: nat): Option<nat>
    requires c.quantum > 0
    decreases |es|
  {
    if es == [] then None
    else if RunsNow(c, k, es[0]) == Some(i) && k.current.None? then Some(es[0].dispatched)
    else if Turn(c, k, es[0]).Going? then FirstDispatch(c, Turn(c, k, es[0]).loop, es[1..], i)
    else None
  }

  /** The longest wait of task i before a dispatch. */
  ghost function LongestWait(c: Config, k: Loop, es: seq<Event>, i: nat): nat
    requires c.quantum > 0
    decreases |es|
  {
    if es == [] then 0
    else
      Max(if RunsNow(c, k, es[0]) == Some(i) && k.current.None? && i < |k.tasks| then SatSub(es[0].dispatched, k.tasks[i].readySince) else 0,
          if Turn(c, k, es[0]).Going? then LongestWait(c, Turn(c, k, es[0]).loop, es[1..], i) else 0)
  }

  /** The figures after any run are the run's. */
  lemma {:induction false} FiguresAreTheRun(c: Config, k: Loop, es: seq<Event>, i: nat)
    requires Inv(c, k, k.clock) && Clocks(c, k.clock, es) && RunLoop(c, k, es).Going? && i < |k.tasks|
    ensures var n := RunLoop(c, k, es).loop;
            && |n.tasks| == |k.tasks|
            && n.tasks[i].yielded == k.tasks[i].yielded + Traps(c, k, es, i, Yield)
            && n.tasks[i].timers == k.tasks[i].timers + Traps(c, k, es, i, Timer)
            && n.tasks[i].syscalls == k.tasks[i].syscalls + Traps(c, k, es, i, Syscall)
            && n.tasks[i].demotions == k.tasks[i].demotions + Demotions(c, k, es, i)
            && n.tasks[i].preemptions == k.tasks[i].preemptions + Evictions(c, k, es, i)
            && n.tasks[i].completion == (match EndTime(c, k, es, i) case Some(t) => t case None => k.tasks[i].completion)
            && n.tasks[i].first == (if k.tasks[i].first.Some? then k.tasks[i].first else FirstDispatch(c, k, es, i))
            && n.tasks[i].maxWait == Max(k.tasks[i].maxWait, LongestWait(c, k, es, i))
    decreases |es|
  {
    hide Inv, Turn, RunsNow, Clocked, DemotedNow, Evicted;
    InvConfigured(c, k);
    if es != [] {
      TurnRecords(c, k, es[0], i);
      GoesOn(c, k, es[0]);
      FiguresAreTheRun(c, Turn(c, k, es[0]).loop, es[1..], i);
    }
  }

  lemma GoesOn(c: Config, k: Loop, e: Event)
    requires Inv(c, k, k.clock) && Clocked(c, k.clock, e) && Turn(c, k, e).Going?
    ensures Kept(c, k, e, Turn(c, k, e).loop)
  {
    hide Inv, Turn, Clocked, Kept;
    if k.current.None? && k.queue == [] {
      var b := TurnFinishes(c, k, e);
    } else {
      var s := TurnKeeps(c, k, e);
    }
  }
}
