/**
 What the tick-driven simulator reports is what its run shows: for each job the response is the time
 of its first tick, the turnaround ends with its last one, its ticks add up to its service, and
 max_ready_wait is exactly the longest time it was ready before a dispatch.
 */
module MlfqMetrics {
  import opened Util
  import opened MlfqSim
  import opened MlfqTimes

  function TicksOf(trace: seq<Tick>, i: nat): int {
    if trace == [] then 0
    else TicksOf(trace[..|trace| - 1], i) + if trace[|trace| - 1].job == i then 1 else 0
  }

  function FirstTick(trace: seq<Tick>, i: nat): Option<int> {
    if trace == [] then None
    else
      var before := FirstTick(trace[..|trace| - 1], i);
      var e := trace[|trace| - 1];
      if before.None? && e.job == i then Some(e.time) else before
  }

  function LastTick(trace: seq<Tick>, i: nat): Option<int> {
    if trace == [] then None
    else
      var e := trace[|trace| - 1];
      if e.job == i then Some(e.time) else LastTick(trace[..|trace| - 1], i)
  }

  lemma TraceGrows(trace: seq<Tick>, e: Tick, i: nat)
    ensures TicksOf(trace + [e], i) == TicksOf(trace, i) + if e.job == i then 1 else 0
    ensures FirstTick(trace + [e], i) == if FirstTick(trace, i).None? && e.job == i then Some(e.time) else FirstTick(trace, i)
    ensures LastTick(trace + [e], i) == if e.job == i then Some(e.time) else LastTick(trace, i)
  {
    assert (trace + [e])[..|trace|] == trace;
  }

  /** The last dispatch before a tick waited this long, if it was of task i. */
  function DispatchWait(policy: Policy, period: int, s: State, i: nat): Option<int>
    requires period > 0 && Below(s.ready, |s.tasks|)
  {
    var b := Boost(policy, period, WakeAll(s));
    if b.current == None && b.ready != [] && b.ready[Pick(policy, b)] == i && i < |b.tasks| then Some(b.now - b.tasks[i].readyAt)
    else None
  }

  /** The longest wait of task i before a dispatch in the first k turns. */
  function LongestWait(jobs: seq<Job>, policy: Policy, period: int, k: nat, i: nat): int
    requires ValidJobs(jobs) && period > 0
  {
    if k == 0 then 0
    else
      var before := LongestWait(jobs, policy, period, k - 1, i);
      match TurnWait(jobs, policy, period, k - 1, i)
      case Some(x) => Max(before, x)
      case None => before
  }

  /** The sum of task i's waits before its dispatches in the first k turns. */
  function TotalWait(jobs: seq<Job>, policy: Policy, period: int, k: nat, i: nat): int
    requires ValidJobs(jobs) && period > 0
  {
    if k == 0 then 0
    else
      TotalWait(jobs, policy, period, k - 1, i)
      + match TurnWait(jobs, policy, period, k - 1, i)
        case Some(x) => x
        case None => 0
  }

  /** It is at least every such wait, and one of them unless it is zero. */
  lemma {:induction false} LongestWaitIsMaximum(jobs: seq<Job>, policy: Policy, period: int, k: nat, i: nat)
    requires ValidJobs(jobs) && period > 0
    ensures var w := LongestWait(jobs, policy, period, k, i);
            && (forall j :: 0 <= j < k ==> WaitAtMost(jobs, policy, period, j, i, w))
            && (w == 0 || exists j :: 0 <= j < k && TurnWait(jobs, policy, period, j, i) == Some(w))
  {
    hide TurnWait;
    if k > 0 {
      LongestWaitIsMaximum(jobs, policy, period, k - 1, i);
      var before, w := LongestWait(jobs, policy, period, k - 1, i), LongestWait(jobs, policy, period, k, i);
      forall j | 0 <= j < k
        ensures WaitAtMost(jobs, policy, period, j, i, w)
      {
        assert j < k - 1 ==> WaitAtMost(jobs, policy, period, j, i, before);
      }
    }
  }

  predicate WaitAtMost(jobs: seq<Job>, policy: Policy, period: int, j: nat, i: nat, w: int)
    requires ValidJobs(jobs) && period > 0
  {
    var x := TurnWait(jobs, policy, period, j, i);
    x.Some? ==> x.value <= w
  }

  function TurnWait(jobs: seq<Job>, policy: Policy, period: int, k: nat, i: nat): Option<int>
    requires ValidJobs(jobs) && period > 0
  {
    var s := StateAt(jobs, policy, period, k);
    if Finished(s) then None else DispatchWait(policy, period, s, i)
  }

  /** Task i's ticks and times so far are those of the trace. */
  ghost predicate Told(jobs: seq<Job>, s: State, i: nat) {
    && i < |jobs| == |s.tasks|
    && TicksOf(s.trace, i) == s.tasks[i].used
    && (jobs[i].service > 0 ==>
          && FirstTick(s.trace, i) == s.tasks[i].first
          && (s.tasks[i].done.Some? ==> LastTick(s.trace, i) == Some(s.tasks[i].done.value - 1)))
  }

  /** Apart from its place in the queues, a task is as before. */
  ghost predicate SameRecord(j: Job, t: Task, u: Task) {
    && u.used == t.used && u.left == t.left && u.maxWait == t.maxWait && u.waited == t.waited
    && (j.service > 0 ==> u.first == t.first && u.done == t.done)
  }

  /** Waking and boosting change no time of a task that needs service. */
  lemma WakeOnTask(jobs: seq<Job>, policy: Policy, period: int, s: State, i: nat)
    requires Inv(jobs, policy, s) && period > 0 && i < |jobs|
    ensures |WakeAll(s).tasks| == |jobs| && SameRecord(jobs[i], s.tasks[i], WakeAll(s).tasks[i])
    ensures var b := Boost(policy, period, WakeAll(s));
            && b.trace == s.trace && b.now == s.now && b.current == s.current && b.ready == WakeAll(s).ready
            && |b.tasks| == |jobs| && SameRecord(jobs[i], s.tasks[i], b.tasks[i])
  {
    assert Slot(jobs, policy, s, i);
    assert WakeAll(s).tasks[i] == WakeTask(s.tasks[i], s.now);
    hide WakeAll;
  }

  /** What the selection does to one task, given how long it waited if it is the one taken. */
  lemma SelectOnTask(jobs: seq<Job>, policy: Policy, b: State, i: nat)
    requires Inv(jobs, policy, b) && i < |jobs|
    ensures var t, u := b.tasks[i], Select(policy, b).tasks[i];
            if b.current == None && b.ready != [] && b.ready[Pick(policy, b)] == i then
              u == StartTask(t, b.now) && Select(policy, b).current == Some(i)
            else u == t && (Select(policy, b).current == Some(i) ==> b.current == Some(i))
  {
    hide Pick;
  }

  /** What the loop body does to one task before the tick. */
  ghost predicate Readied(j: Job, s: State, p: State, i: nat, w: Option<int>) {
    && i < |s.tasks| == |p.tasks| && p.trace == s.trace && p.now == s.now
    && var t, u := s.tasks[i], p.tasks[i];
       && u.used == t.used && u.left == t.left
       && (j.service > 0 ==> u.done == t.done && u.first == if w.Some? && t.first.None? then Some(p.now) else t.first)
       && u.maxWait == (if w.Some? then Max(t.maxWait, w.value) else t.maxWait)
       && u.waited == t.waited + (if w.Some? then w.value else 0)
       && (p.current == Some(i) ==> w.Some? || s.current == Some(i)) && (w.Some? ==> p.current == Some(i))
  }

  lemma PrepareOnTask(jobs: seq<Job>, policy: Policy, period: int, s: State, i: nat)
    requires HeadInv(jobs, policy, s) && period > 0 && i < |jobs|
    ensures Readied(jobs[i], s, Prepare(policy, period, s), i, DispatchWait(policy, period, s, i))
  {
    WakeAllKeepsInv(jobs, policy, s);
    BoostKeepsInv(jobs, policy, period, WakeAll(s));
    WakeOnTask(jobs, policy, period, s, i);
    SelectOnTask(jobs, policy, Boost(policy, period, WakeAll(s)), i);
    hide Boost, WakeAll, Pick, Inv;
  }

  /** What a tick does to one task. */
  ghost predicate Ticked(j: Job, p: State, n: State, i: nat) {
    && i < |p.tasks| == |n.tasks| && p.current.Some? && p.current.value < |p.tasks|
    && n.trace == p.trace + [Tick(p.now, p.current.value, p.tasks[p.current.value].level)]
    && var t, u, here := p.tasks[i], n.tasks[i], p.current == Some(i);
       && u.used == t.used + (if here then 1 else 0) && u.maxWait == t.maxWait && u.waited == t.waited
       && (j.service > 0 ==> u.first == t.first && u.done == if here && t.left == 1 then Some(p.now + 1) else t.done)
  }

  lemma TickOnTask(jobs: seq<Job>, policy: Policy, p: State, i: nat)
    requires Inv(jobs, policy, p) && p.current.Some? && i < |jobs|
    ensures Ticked(jobs[i], p, RunTick(jobs, policy, p), i)
  {
    var c := p.current.value;
    assert Slot(jobs, policy, p, i) && Slot(jobs, policy, p, c);
    var g := Charge(jobs, policy, p);
    ChargedRecord(policy, jobs[c], p.tasks[c], p.now + 1);
    assert |g.tasks| == |p.tasks| && g.tasks[i] == if i == c then After(policy, jobs[c], p.tasks[c], p.now + 1) else p.tasks[i];
    assert g.trace == p.trace + [Tick(p.now, c, p.tasks[c].level)];
    WokenRecord(jobs[i], g.tasks[i], g.now);
    hide Charge, After, Leaves, Inv, Slot, WakeTask, Awakened;
    assert WakeAll(g).tasks[i] == WakeTask(g.tasks[i], g.now) && WakeAll(g).trace == g.trace;
    YieldedRecord(policy, WakeAll(g), c, Leaves(policy, jobs[c], p.tasks[c]), jobs[i], i);
    hide WakeAll, Yield;
  }

  lemma WokenRecord(j: Job, t: Task, now: int)
    requires t.Waiting() && t.left == 0 ==> j.service == 0
    ensures SameRecord(j, t, WakeTask(t, now))
  {
  }

  lemma YieldedRecord(policy: Policy, s: State, c: nat, leaves: bool, j: Job, i: nat)
    requires c < |s.tasks| && i < |s.tasks| && Below(s.ready, |s.tasks|)
    ensures var n := Yield(policy, s, c, leaves);
            |n.tasks| == |s.tasks| && n.trace == s.trace && SameRecord(j, s.tasks[i], n.tasks[i])
  {
    hide Outranked;
  }

  lemma ChargedRecord(policy: Policy, j: Job, t: Task, now: int)
    requires t.phase == Running && t.done.None?
    ensures var u := After(policy, j, t, now);
            && u.used == t.used + 1 && u.maxWait == t.maxWait && u.waited == t.waited && u.first == t.first
            && u.done == (if t.left == 1 then Some(now) else None)
            && (u.Waiting() ==> u.left != 0)
  {
  }

  /** The wait before a dispatch, if there was one, is in both figures. */
  predicate WaitRecorded(s: State, n: State, i: nat, w: Option<int>) {
    && i < |s.tasks| == |n.tasks|
    && n.tasks[i].maxWait == (if w.Some? then Max(s.tasks[i].maxWait, w.value) else s.tasks[i].maxWait)
    && n.tasks[i].waited == s.tasks[i].waited + (if w.Some? then w.value else 0)
  }

  /** What the invariant says of task i that its story needs. */
  ghost predicate Started(j: Job, s: State, p: State, i: nat) {
    && i < |s.tasks| == |p.tasks|
    && (s.current == Some(i) ==> s.tasks[i].first.Some?)
    && (p.current == Some(i) ==> j.service > 0 && p.tasks[i].done.None? && p.tasks[i].left > 0)
  }

  lemma StartedHolds(jobs: seq<Job>, policy: Policy, s: State, p: State, i: nat)
    requires Inv(jobs, policy, s) && Inv(jobs, policy, p) && i < |jobs|
    ensures Started(jobs[i], s, p, i)
  {
    assert Slot(jobs, policy, s, i) && Slot(jobs, policy, p, i);
  }

  lemma TickRetold(jobs: seq<Job>, s: State, p: State, n: State, i: nat, w: Option<int>)
    requires Told(jobs, s, i) && Readied(jobs[i], s, p, i, w) && Started(jobs[i], s, p, i) && Ticked(jobs[i], p, n, i)
    ensures Told(jobs, n, i) && WaitRecorded(s, n, i, w)
  {
    TraceGrows(p.trace, Tick(p.now, p.current.value, p.tasks[p.current.value].level), i);
    hide TicksOf, FirstTick, LastTick;
  }

  lemma IdleRetold(jobs: seq<Job>, s: State, p: State, n: State, i: nat, w: Option<int>)
    requires Told(jobs, s, i) && Readied(jobs[i], s, p, i, w) && p.current == None && n.tasks == p.tasks && n.trace == p.trace
    ensures Told(jobs, n, i) && WaitRecorded(s, n, i, w)
  {
    hide TicksOf, FirstTick, LastTick;
  }

  /** A turn keeps task i's story, and records its wait. */
  lemma IterateTells(jobs: seq<Job>, policy: Policy, period: int, s: State, i: nat)
    requires HeadInv(jobs, policy, s) && period > 0 && i < |jobs| && Told(jobs, s, i)
    ensures Told(jobs, Iterate(jobs, policy, period, s), i)
    ensures WaitRecorded(s, Iterate(jobs, policy, period, s), i, DispatchWait(policy, period, s, i))
  {
    hide Told, Readied, Ticked, Started, WaitRecorded, DispatchWait, Prepare, RunTick, Slot;
    var n, p, w := Iterate(jobs, policy, period, s), Prepare(policy, period, s), DispatchWait(policy, period, s, i);
    PrepareKeepsInv(jobs, policy, period, s);
    PrepareOnTask(jobs, policy, period, s, i);
    StartedHolds(jobs, policy, s, p, i);
    if p.current.Some? {
      TickOnTask(jobs, policy, p, i);
      TickRetold(jobs, s, p, n, i, w);
    } else {
      IdleRetold(jobs, s, p, n, i, w);
    }
  }

  lemma {:induction false} AlwaysTold(jobs: seq<Job>, policy: Policy, period: int, k: nat, i: nat)
    requires ValidJobs(jobs) && period > 0 && i < |jobs|
    ensures Told(jobs, StateAt(jobs, policy, period, k), i)
    ensures StateAt(jobs, policy, period, k).tasks[i].maxWait == LongestWait(jobs, policy, period, k, i)
    ensures StateAt(jobs, policy, period, k).tasks[i].waited == TotalWait(jobs, policy, period, k, i)
  {
    hide Iterate, Inv, DispatchWait, Finished;
    if k > 0 {
      AlwaysTold(jobs, policy, period, k - 1, i);
      var s := StateAt(jobs, policy, period, k - 1);
      if !Finished(s) {
        IterateTells(jobs, policy, period, s, i);
      }
    }
  }

  /** Every reported number is the trace's, and max_ready_wait is the longest wait of all turns. */
  lemma ReportIsTheRun(jobs: seq<Job>, policy: Policy, period: int, k: nat, i: nat)
    requires ValidJobs(jobs) && period > 0 && i < |jobs| && Final(jobs, policy, period) == StateAt(jobs, policy, period, k)
    ensures var f := Final(jobs, policy, period);
            && i < |f.tasks|
            && TicksOf(f.trace, i) == jobs[i].service
            && (jobs[i].service > 0 ==>
                  FirstTick(f.trace, i) == f.tasks[i].first && f.tasks[i].done.Some?
                  && LastTick(f.trace, i) == Some(f.tasks[i].done.value - 1))
            && (jobs[i].service == 0 ==> f.tasks[i].first == f.tasks[i].done == Some(jobs[i].arrival))
            && f.tasks[i].maxWait == LongestWait(jobs, policy, period, k, i)
  {
    hide StateAt, Final, LongestWait, TicksOf, FirstTick, LastTick;
    AlwaysTold(jobs, policy, period, k, i);
    AtTheEnd(jobs, policy, Final(jobs, policy, period), i);
  }

  /**
   Where a job's turnaround goes: its service, exactly `wait` for each completed burst but the last,
   and the waits before its dispatches, summed over the turns of the run.
   */
  lemma TurnaroundIsTheRun(jobs: seq<Job>, policy: Policy, period: int, i: nat) returns (k: nat)
    requires ValidJobs(jobs) && period > 0 && i < |jobs| && jobs[i].service > 0
    ensures var f, j := Final(jobs, policy, period), jobs[i];
            && f == StateAt(jobs, policy, period, k) && f.tasks[i].done.Some?
            && f.tasks[i].done.value - j.arrival
               == j.service + (if j.burst == 0 then 0 else j.wait * ((j.service - 1) / j.burst)) + TotalWait(jobs, policy, period, k, i)
  {
    hide StateAt, Final, LongestWait, TotalWait, Told;
    k := FinalIsReached(jobs, policy, period);
    AlwaysTold(jobs, policy, period, k, i);
    TurnaroundAddsUp(jobs, policy, period, i);
  }

  lemma AtTheEnd(jobs: seq<Job>, policy: Policy, f: State, i: nat)
    requires HeadInv(jobs, policy, f) && Finished(f) && i < |jobs|
    ensures f.tasks[i].used == jobs[i].service && f.tasks[i].done.Some?
    ensures jobs[i].service == 0 ==> f.tasks[i].first == f.tasks[i].done == Some(jobs[i].arrival)
  {
    assert Slot(jobs, policy, f, i);
  }

  /** Where the first tick of task i is. */
  lemma {:induction false} FirstAt(trace: seq<Tick>, i: nat) returns (k: nat)
    requires FirstTick(trace, i).Some?
    ensures k < |trace| && trace[k].job == i && trace[k].time == FirstTick(trace, i).value
    ensures forall l :: 0 <= l < k ==> trace[l].job != i
  {
    k := |trace| - 1;
    if FirstTick(trace[..k], i).Some? {
      k := FirstAt(trace[..k], i);
    } else {
      NeverRan(trace[..k], i);
    }
  }

  lemma {:induction false} NeverRan(trace: seq<Tick>, i: nat)
    requires FirstTick(trace, i).None? || TicksOf(trace, i) == 0
    ensures TicksOf(trace, i) == 0 && forall k :: 0 <= k < |trace| ==> trace[k].job != i
  {
    if trace != [] {
      TicksNonNegative(trace[..|trace| - 1], i);
      NeverRan(trace[..|trace| - 1], i);
    }
  }

  lemma {:induction false} TicksNonNegative(trace: seq<Tick>, i: nat)
    ensures TicksOf(trace, i) >= 0
  {
    if trace != [] {
      TicksNonNegative(trace[..|trace| - 1], i);
    }
  }

  /** Where the last one is. */
  lemma {:induction false} LastAt(trace: seq<Tick>, i: nat) returns (k: nat)
    requires LastTick(trace, i).Some?
    ensures k < |trace| && trace[k].job == i && trace[k].time == LastTick(trace, i).value
    ensures forall l :: k < l < |trace| ==> trace[l].job != i
  {
    k := |trace| - 1;
    if trace[k].job != i {
      k := LastAt(trace[..k], i);
    }
  }
}
