/** Conservation of time in the tick-driven simulator, for whole runs and for each job. */
module MlfqTimes {
  import opened Util
  import opened MlfqSim

  lemma IterateKeepsWork(jobs: seq<Job>, policy: Policy, period: int, s: State)
    requires HeadInv(jobs, policy, s) && period > 0
    ensures var t := Iterate(jobs, policy, period, s);
            |t.trace| + Sum(LeftOf(t.tasks)) == |s.trace| + Sum(LeftOf(s.tasks))
  {
    var p := Prepare(policy, period, s);
    PrepareKeepsInv(jobs, policy, period, s);
    PrepareKeepsLeft(jobs, policy, period, s);
    assert p.trace == s.trace;
    if p.current.Some? {
      hide RunTick;
      TickShrinks(jobs, policy, p);
    }
  }

  lemma {:induction false} AlwaysKeepsWork(jobs: seq<Job>, policy: Policy, period: int, k: nat)
    requires ValidJobs(jobs) && period > 0
    ensures var s := StateAt(jobs, policy, period, k);
            |s.trace| + Sum(LeftOf(s.tasks)) == Sum(S.Services(Plain(jobs)))
  {
    hide Iterate, Inv;
    if k == 0 {
      assert LeftOf(Init(jobs, period).tasks) == S.Services(Plain(jobs));
    } else {
      AlwaysKeepsWork(jobs, policy, period, k - 1);
      IterateKeepsWork(jobs, policy, period, StateAt(jobs, policy, period, k - 1));
    }
  }

  /** The closing assertion: the trace holds one entry per unit of service. */
  lemma TraceIsTotalService(jobs: seq<Job>, policy: Policy, period: int)
    requires ValidJobs(jobs) && period > 0
    ensures |Final(jobs, policy, period).trace| == Sum(S.Services(Plain(jobs)))
  {
    var f := Final(jobs, policy, period);
    var k := FinalIsReached(jobs, policy, period);
    AlwaysKeepsWork(jobs, policy, period, k);
    forall i | 0 <= i < |jobs|
      ensures LeftOf(f.tasks)[i] == 0
    {
      assert Slot(jobs, policy, f, i);
    }
    SumOfZeros(LeftOf(f.tasks));
  }

  /**
   A job's turnaround is its service, plus exactly `wait` for each completed burst but the last,
   plus the time it was ready; a job without service completes when it arrives.
   */
  lemma TurnaroundAddsUp(jobs: seq<Job>, policy: Policy, period: int, i: nat)
    requires ValidJobs(jobs) && period > 0 && i < |jobs|
    ensures var t, j := Final(jobs, policy, period).tasks[i], jobs[i];
            && t.first.Some? && t.done.Some? && j.arrival <= t.first.value <= t.done.value
            && (j.service == 0 ==> t.first.value == t.done.value == j.arrival)
            && (j.service > 0 ==>
                  t.done.value - j.arrival
                  == j.service + (if j.burst == 0 then 0 else j.wait * ((j.service - 1) / j.burst)) + t.waited)
  {
    assert Slot(jobs, policy, Final(jobs, policy, period), i);
  }

  /* Arrivals and wake-ups. */

  /** Woken at time `now`: over if it needs no service, else ready, or it is the one running. */
  predicate WokenAt(t: Task, u: Task, now: int, running: bool) {
    if t.left == 0 then u.phase == Done && u.done == Some(now) else running || (u.phase == Ready && u.readyAt == now)
  }

  /** Waking and boosting a waiting task: woken at its exact time, if that has come, else untouched. */
  lemma WakeOnWaiting(jobs: seq<Job>, policy: Policy, period: int, s: State, i: nat)
    requires Inv(jobs, policy, s) && period > 0 && i < |jobs| && s.tasks[i].Waiting()
    ensures var b := Boost(policy, period, WakeAll(s));
            && |b.tasks| == |jobs| && b.tasks[i].used == s.tasks[i].used && b.tasks[i].left == s.tasks[i].left
            && if s.tasks[i].wake > s.now then b.tasks[i].phase == s.tasks[i].phase && b.tasks[i].wake == s.tasks[i].wake
               else s.tasks[i].wake == s.now && WokenAt(s.tasks[i], b.tasks[i], s.now, false)
  {
    assert Slot(jobs, policy, s, i);
    assert WakeAll(s).tasks[i] == WakeTask(s.tasks[i], s.now);
    hide WakeAll;
  }

  /** Selection changes only the task it starts. */
  lemma SelectOnOther(jobs: seq<Job>, policy: Policy, b: State, i: nat)
    requires Inv(jobs, policy, b) && i < |jobs|
    ensures |Select(policy, b).tasks| == |jobs| && Select(policy, b).tasks[i].used == b.tasks[i].used
    ensures Select(policy, b).tasks[i].left == b.tasks[i].left
    ensures Select(policy, b).current == Some(i) || Select(policy, b).tasks[i] == b.tasks[i]
    ensures b.tasks[i].phase != Ready ==> Select(policy, b).tasks[i] == b.tasks[i]
  {
    if b.current == None && b.ready != [] {
      var j := b.ready[Pick(policy, b)];
      assert j in b.ready && Slot(jobs, policy, b, j);
    }
    hide Pick;
  }

  lemma PrepareOnWaiting(jobs: seq<Job>, policy: Policy, period: int, s: State, i: nat)
    requires HeadInv(jobs, policy, s) && period > 0 && i < |jobs| && s.tasks[i].Waiting()
    ensures var p := Prepare(policy, period, s);
            var t, u := s.tasks[i], p.tasks[i];
            && u.used == t.used && u.left == t.left
            && if t.wake > s.now then u.phase == t.phase && u.wake == t.wake
               else t.wake == s.now && WokenAt(t, u, s.now, p.current == Some(i))
  {
    WakeAllKeepsInv(jobs, policy, s);
    BoostKeepsInv(jobs, policy, period, WakeAll(s));
    WakeOnWaiting(jobs, policy, period, s, i);
    SelectOnOther(jobs, policy, Boost(policy, period, WakeAll(s)), i);
    hide Boost, WakeAll, Select, Inv;
  }

  /** A task that was not waiting is not waiting before the tick either. */
  lemma PrepareOnOther(jobs: seq<Job>, policy: Policy, period: int, s: State, i: nat)
    requires HeadInv(jobs, policy, s) && period > 0 && i < |jobs|
    ensures var t, u := s.tasks[i], Prepare(policy, period, s).tasks[i];
            u.used == t.used && (u.Waiting() ==> t.Waiting())
  {
    PrepareKeepsTask(jobs, policy, period, s, i);
    PrepareKeepsInv(jobs, policy, period, s);
    assert Slot(jobs, policy, s, i) && Slot(jobs, policy, Prepare(policy, period, s), i);
  }

  /** The end of a tick, for a task that did not run it. */
  lemma TickOnWaiting(jobs: seq<Job>, policy: Policy, p: State, i: nat)
    requires Inv(jobs, policy, p) && p.current.Some? && Quiet(p) && i < |jobs| && p.current != Some(i)
    ensures TickedOver(p, RunTick(jobs, policy, p), i)
  {
    assert Slot(jobs, policy, p, i);
    var g := Charge(jobs, policy, p);
    assert g.now == p.now + 1 && g.tasks[i] == p.tasks[i];
    assert WakeAll(g).tasks[i] == WakeTask(g.tasks[i], g.now);
    hide Charge, WakeAll, Outranked, Leaves, Inv;
  }

  /** The end of a tick, for the task that ran it: if it blocks, it is to wake after exactly its wait. */
  lemma TickOnRunner(jobs: seq<Job>, policy: Policy, p: State)
    requires Inv(jobs, policy, p) && p.current.Some? && Quiet(p)
    ensures var i, n := p.current.value, RunTick(jobs, policy, p);
            && i < |jobs| == |n.tasks| && n.now == p.now + 1 && n.trace == p.trace + [Tick(p.now, i, p.tasks[i].level)]
            && n.tasks[i].used == p.tasks[i].used + 1 && n.tasks[i].phase != New
            && (n.tasks[i].phase == Blocked ==> n.tasks[i].wake == n.now + jobs[i].wait && jobs[i].wait > 0)
  {
    var i := p.current.value;
    assert Slot(jobs, policy, p, i);
    var g := Charge(jobs, policy, p);
    assert g.tasks[i] == After(policy, jobs[i], p.tasks[i], p.now + 1);
    BlocksForItsWait(policy, jobs[i], p.tasks[i], p.now + 1);
    assert WakeAll(g).tasks[i] == WakeTask(g.tasks[i], g.now);
    hide After, WakeAll, Outranked, Leaves, Inv;
  }

  lemma BlocksForItsWait(policy: Policy, j: Job, t: Task, now: int)
    requires ValidJob(j) && t.phase == Running
    ensures var u := After(policy, j, t, now);
            && u.used == t.used + 1 && u.phase in {Running, Blocked, Done}
            && (u.phase == Blocked ==> u.wake == now + j.wait && j.wait > 0)
  {
  }

  /** In the turn from s to n task i is back at time w: ready since w, running at tick w, or over at w without service. */
  ghost predicate BackAt(s: State, n: State, i: nat, w: int) {
    && i < |s.tasks| == |n.tasks|
    && var t, u := s.tasks[i], n.tasks[i];
       || (u.used == t.used && u.phase == Ready && u.readyAt == w)
       || (u.used == t.used && u.phase == Done && u.done == Some(w))
       || (u.used == t.used + 1 && exists level :: n.trace == s.trace + [Tick(w, i, level)])
  }

  /** Task i waits through the turn from s to n, for the same wake-up. */
  predicate StillWaiting(s: State, n: State, i: nat) {
    && i < |s.tasks| == |n.tasks|
    && n.tasks[i].Waiting() && n.tasks[i].used == s.tasks[i].used
    && n.tasks[i].phase == s.tasks[i].phase && n.tasks[i].wake == s.tasks[i].wake
  }

  /** The two claims about the turn from s to n. */
  ghost predicate WakesRight(j: Job, s: State, n: State, i: nat) {
    && i < |s.tasks| == |n.tasks|
    && (s.tasks[i].Waiting() ==> StillWaiting(s, n, i) || BackAt(s, n, i, s.tasks[i].wake))
    && (n.tasks[i].phase == Blocked && !(s.tasks[i].Waiting() && StillWaiting(s, n, i)) ==>
          n.tasks[i].used == s.tasks[i].used + 1 && n.tasks[i].wake == n.now + j.wait && j.wait > 0)
  }

  /** The turn in which i runs the tick. */
  lemma RunnerWakes(jobs: seq<Job>, policy: Policy, period: int, s: State, i: nat)
    requires HeadInv(jobs, policy, s) && period > 0 && i < |jobs| && Prepare(policy, period, s).current == Some(i)
    ensures WakesRight(jobs[i], s, Iterate(jobs, policy, period, s), i)
  {
    var p := Prepare(policy, period, s);
    PrepareKeepsInv(jobs, policy, period, s);
    PrepareKeepsTrace(policy, period, s);
    PrepareOnOther(jobs, policy, period, s, i);
    if s.tasks[i].Waiting() {
      PrepareOnWaiting(jobs, policy, period, s, i);
    }
    assert Slot(jobs, policy, p, i);
    TickOnRunner(jobs, policy, p);
    var n := RunTick(jobs, policy, p);
    assert n == Iterate(jobs, policy, period, s) && p.now == s.now;
    hide Prepare, RunTick, Inv, Quiet, Iterate, Slot;
    assert n.trace == s.trace + [Tick(s.now, i, p.tasks[i].level)];
  }

  /** Task i before the tick: woken at its exact time, or as it was. */
  ghost predicate WokenRight(s: State, p: State, i: nat) {
    && i < |s.tasks| == |p.tasks| && p.now == s.now
    && var t, u := s.tasks[i], p.tasks[i];
       && u.used == t.used && u.left == t.left && (u.Waiting() ==> t.Waiting())
       && (t.Waiting() ==>
             if t.wake > s.now then u.phase == t.phase && u.wake == t.wake
             else t.wake == s.now && WokenAt(t, u, s.now, p.current == Some(i)))
  }

  lemma PrepareWakes(jobs: seq<Job>, policy: Policy, period: int, s: State, i: nat)
    requires HeadInv(jobs, policy, s) && period > 0 && i < |jobs|
    ensures WokenRight(s, Prepare(policy, period, s), i)
  {
    PrepareKeepsTask(jobs, policy, period, s, i);
    PrepareOnOther(jobs, policy, period, s, i);
    if s.tasks[i].Waiting() {
      PrepareOnWaiting(jobs, policy, period, s, i);
    }
    assert Prepare(policy, period, s).now == s.now && |Prepare(policy, period, s).tasks| == |s.tasks|;
    hide Prepare, Inv;
  }

  /** Task i over a tick it does not run: woken at its exact time, or as it was. */
  ghost predicate TickedOver(p: State, n: State, i: nat) {
    && i < |p.tasks| == |n.tasks|
    && var t, u := p.tasks[i], n.tasks[i];
       && u.used == t.used
       && if !t.Waiting() || t.wake > p.now + 1 then u == t
          else t.wake == p.now + 1 && WokenAt(t, u, p.now + 1, false)
  }

  lemma OtherCombines(j: Job, s: State, p: State, n: State, i: nat)
    requires WokenRight(s, p, i) && p.current != Some(i)
    requires TickedOver(p, n, i) || n.tasks == p.tasks
    ensures WakesRight(j, s, n, i)
  {
  }

  /** A turn in which somebody else, or nobody, runs. */
  lemma OtherWakes(jobs: seq<Job>, policy: Policy, period: int, s: State, i: nat)
    requires HeadInv(jobs, policy, s) && period > 0 && i < |jobs| && Prepare(policy, period, s).current != Some(i)
    ensures WakesRight(jobs[i], s, Iterate(jobs, policy, period, s), i)
  {
    hide WakesRight, WokenRight, TickedOver, Slot, Prepare, RunTick, Quiet;
    var p, n := Prepare(policy, period, s), Iterate(jobs, policy, period, s);
    PrepareKeepsInv(jobs, policy, period, s);
    PrepareWakes(jobs, policy, period, s, i);
    if p.current.Some? {
      TickOnWaiting(jobs, policy, p, i);
    }
    OtherCombines(jobs[i], s, p, n, i);
  }

  /**
   Each turn: a waiting task goes on waiting for the same wake-up or is back at exactly that time, at
   the head of the turn or at the end of its tick; and a task that blocks is to wake `wait` later.
   */
  lemma WakesOnTime(jobs: seq<Job>, policy: Policy, period: int, k: nat, i: nat)
    requires ValidJobs(jobs) && period > 0 && i < |jobs|
    ensures var s, n := StateAt(jobs, policy, period, k), StateAt(jobs, policy, period, k + 1);
            && |s.tasks| == |n.tasks| == |jobs| && WakesRight(jobs[i], s, n, i)
            && (s.tasks[i].Waiting() ==> s.now <= s.tasks[i].wake)
  {
    var s := StateAt(jobs, policy, period, k);
    assert Slot(jobs, policy, s, i);
    if !Finished(s) {
      hide Iterate;
      if Prepare(policy, period, s).current == Some(i) {
        RunnerWakes(jobs, policy, period, s, i);
      } else {
        OtherWakes(jobs, policy, period, s, i);
      }
    }
  }

  /** Task i blocks in turn k, and waits through the turns up to m. */
  ghost predicate Blocks(jobs: seq<Job>, policy: Policy, period: int, k: nat, m: nat, i: nat)
    requires ValidJobs(jobs) && period > 0 && i < |jobs|
  {
    var s, n := StateAt(jobs, policy, period, k), StateAt(jobs, policy, period, k + 1);
    && n.tasks[i].phase == Blocked && s.tasks[i].used < n.tasks[i].used
    && forall j :: k < j < m ==> StillWaiting(StateAt(jobs, policy, period, j), StateAt(jobs, policy, period, j + 1), i)
  }

  /** Every blocked period lasts exactly `wait` ticks, whatever boosts and idle jumps happen meanwhile. */
  lemma {:induction false} BlockedForExactlyItsWait(jobs: seq<Job>, policy: Policy, period: int, k: nat, m: nat, i: nat)
    requires ValidJobs(jobs) && period > 0 && i < |jobs| && k < m && Blocks(jobs, policy, period, k, m, i)
    ensures var start, s, n := StateAt(jobs, policy, period, k + 1), StateAt(jobs, policy, period, m), StateAt(jobs, policy, period, m + 1);
            && s.tasks[i].phase == Blocked && s.tasks[i].wake == start.now + jobs[i].wait
            && (StillWaiting(s, n, i) || BackAt(s, n, i, start.now + jobs[i].wait))
    decreases m
  {
    hide StateAt, BackAt;
    WakesOnTime(jobs, policy, period, k, i);
    WakesOnTime(jobs, policy, period, m, i);
    if k + 1 < m {
      BlockedForExactlyItsWait(jobs, policy, period, k, m - 1, i);
      assert StillWaiting(StateAt(jobs, policy, period, m - 1), StateAt(jobs, policy, period, m - 1 + 1), i);
    }
  }

  ghost predicate TraceOfJobs(jobs: seq<Job>, s: State) {
    && (forall k :: 0 <= k < |s.trace| ==> s.trace[k].job < |jobs|)
    && (forall k :: 0 <= k < |s.events| && s.events[k].Demoted? ==> s.events[k].job < |jobs|)
  }

  lemma PrepareKeepsTrace(policy: Policy, period: int, s: State)
    requires period > 0 && Below(s.ready, |s.tasks|)
    ensures Prepare(policy, period, s).trace == s.trace
    ensures Prepare(policy, period, s).events in {s.events, s.events + [Boosted(s.now)]}
  {
  }

  lemma RunTickTrace(jobs: seq<Job>, policy: Policy, p: State)
    requires p.current.Some? && p.current.value < |p.tasks| == |jobs| && Below(p.ready, |p.tasks|)
    ensures RunTick(jobs, policy, p).trace
            == p.trace + [Tick(p.now, p.current.value, p.tasks[p.current.value].level)]
    ensures RunTick(jobs, policy, p).events in {p.events, p.events + [Demoted(p.now + 1, p.current.value)]}
  {
  }

  lemma PrepareTraceOfJobs(jobs: seq<Job>, policy: Policy, period: int, s: State)
    requires period > 0 && Below(s.ready, |s.tasks|) && TraceOfJobs(jobs, s)
    ensures TraceOfJobs(jobs, Prepare(policy, period, s))
  {
    PrepareKeepsTrace(policy, period, s);
    hide Prepare;
  }

  lemma RunTickTraceOfJobs(jobs: seq<Job>, policy: Policy, p: State)
    requires p.current.Some? && p.current.value < |p.tasks| == |jobs| && Below(p.ready, |p.tasks|) && TraceOfJobs(jobs, p)
    ensures TraceOfJobs(jobs, RunTick(jobs, policy, p))
  {
    RunTickTrace(jobs, policy, p);
    hide RunTick;
  }

  lemma IterateTraceOfJobs(jobs: seq<Job>, policy: Policy, period: int, s: State)
    requires HeadInv(jobs, policy, s) && period > 0 && TraceOfJobs(jobs, s)
    ensures TraceOfJobs(jobs, Iterate(jobs, policy, period, s))
  {
    hide TraceOfJobs, Prepare, RunTick, Slot;
    PrepareKeepsInv(jobs, policy, period, s);
    PrepareTraceOfJobs(jobs, policy, period, s);
    var p := Prepare(policy, period, s);
    if p.current.Some? {
      RunTickTraceOfJobs(jobs, policy, p);
    } else {
      SameTraceOfJobs(jobs, p, Idle(p));
    }
  }

  lemma SameTraceOfJobs(jobs: seq<Job>, s: State, t: State)
    requires TraceOfJobs(jobs, s) && t.trace == s.trace && t.events == s.events
    ensures TraceOfJobs(jobs, t)
  {
  }

  lemma {:induction false} AlwaysTraceOfJobs(jobs: seq<Job>, policy: Policy, period: int, k: nat)
    requires ValidJobs(jobs) && period > 0
    ensures TraceOfJobs(jobs, StateAt(jobs, policy, period, k))
  {
    hide Inv, Iterate;
    if k > 0 {
      AlwaysTraceOfJobs(jobs, policy, period, k - 1);
      IterateTraceOfJobs(jobs, policy, period, StateAt(jobs, policy, period, k - 1));
    }
  }

  /** Every job of the final state can be reported. */
  lemma FinalIsComplete(jobs: seq<Job>, policy: Policy, period: int)
    requires ValidJobs(jobs) && period > 0
    ensures var f := Final(jobs, policy, period);
            TraceOfJobs(jobs, f) && forall i :: 0 <= i < |jobs| ==> f.tasks[i].first.Some? && f.tasks[i].done.Some?
  {
    var k := FinalIsReached(jobs, policy, period);
    AlwaysTraceOfJobs(jobs, policy, period, k);
    forall i | 0 <= i < |jobs|
      ensures var t := Final(jobs, policy, period).tasks[i]; t.first.Some? && t.done.Some?
    {
      TurnaroundAddsUp(jobs, policy, period, i);
    }
  }
}
