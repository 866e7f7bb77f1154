/**
 Busy time of the tick-driven simulator without bursts: under either policy, with whatever slices,
 demotions and boosts, a tick is executed exactly while the policy-free backlog is positive.
 */
module MlfqBusy {
  import opened Util
  import W = SchedulingWork
  import opened MlfqSim
  import opened MlfqTimes

  ghost predicate TickAt(trace: seq<Tick>, t: int) {
    exists k :: 0 <= k < |trace| && trace[k].time == t
  }

  /** Jobs without bursts never block. */
  lemma {:induction false} NeverBlocked(jobs: seq<Job>, policy: Policy, period: int, k: nat, i: nat)
    requires PureCpu(jobs) && period > 0 && i < |jobs|
    ensures StateAt(jobs, policy, period, k).tasks[i].phase != Blocked
  {
    hide StateAt, BackAt;
    if k == 0 {
      StartsNew(jobs, policy, period, i);
    } else {
      NeverBlocked(jobs, policy, period, k - 1, i);
      WakesOnTime(jobs, policy, period, k - 1, i);
    }
  }

  lemma StartsNew(jobs: seq<Job>, policy: Policy, period: int, i: nat)
    requires ValidJobs(jobs) && period > 0 && i < |jobs|
    ensures StateAt(jobs, policy, period, 0).tasks[i].phase == New
  {
  }

  /** Every job that still needs service and has arrived can run; later ones are untouched. */
  ghost predicate Expected(jobs: seq<Job>, s: State, i: nat)
    requires i < |jobs| == |s.tasks|
  {
    && s.tasks[i].left >= 0
    && (jobs[i].arrival > s.now ==> s.tasks[i].phase == New && s.tasks[i].left == jobs[i].service)
    && (s.tasks[i].phase == Ready || s.tasks[i].phase == Running ==> jobs[i].arrival <= s.now && s.tasks[i].left > 0)
    && (s.tasks[i].phase == Done ==> s.tasks[i].left == 0)
    && (s.tasks[i].phase == New ==> s.tasks[i].wake == jobs[i].arrival)
  }

  lemma AllExpected(jobs: seq<Job>, policy: Policy, s: State)
    requires Inv(jobs, policy, s)
    ensures forall i :: 0 <= i < |jobs| ==> Expected(jobs, s, i)
  {
    forall i | 0 <= i < |jobs|
      ensures Expected(jobs, s, i)
    {
      assert Slot(jobs, policy, s, i);
    }
  }

  /** What is owed is the backlog, and so far ticks and backlog coincide. */
  ghost predicate Busy(jobs: seq<Job>, s: State) {
    && |s.tasks| == |jobs| && s.now >= 0
    && W.Owed(Plain(jobs), LeftOf(s.tasks), s.now, |jobs|) == W.Backlog(Plain(jobs), s.now)
    && (forall k :: 0 <= k < |s.trace| ==> 0 <= s.trace[k].time < s.now)
    && (forall t :: 0 <= t < s.now ==> (TickAt(s.trace, t) <==> W.Backlog(Plain(jobs), t) > 0))
  }

  lemma TickAppend(trace: seq<Tick>, e: Tick, t: int)
    ensures TickAt(trace + [e], t) <==> TickAt(trace, t) || e.time == t
  {
    var r := trace + [e];
    if TickAt(trace, t) {
      var k :| 0 <= k < |trace| && trace[k].time == t;
      assert r[k] == trace[k];
    }
    assert r[|trace|] == e;
  }

  /** A tick serves one unit of the backlog. */
  lemma TickKeepsBusy(jobs: seq<Job>, s: State, n: State, i: nat, level: int)
    requires Busy(jobs, s) && i < |jobs| && s.tasks[i].phase == Running && (forall j :: 0 <= j < |jobs| ==> Expected(jobs, s, j))
    requires n.now == s.now + 1 && n.trace == s.trace + [Tick(s.now, i, level)]
    requires |n.tasks| == |jobs| && LeftOf(n.tasks) == LeftOf(s.tasks)[i := s.tasks[i].left - 1]
    ensures Busy(jobs, n)
  {
    assert Expected(jobs, s, i);
    forall j | 0 <= j < |jobs|
      ensures LeftOf(s.tasks)[j] >= 0 && (jobs[j].arrival > s.now ==> LeftOf(s.tasks)[j] == jobs[j].service)
    {
      assert Expected(jobs, s, j);
    }
    hide W.Owed, W.Backlog, Expected;
    W.SliceServesBacklog(Plain(jobs), LeftOf(s.tasks), i, 1, s.now);
    forall t | 0 <= t < n.now
      ensures TickAt(n.trace, t) <==> W.Backlog(Plain(jobs), t) > 0
    {
      TickAppend(s.trace, Tick(s.now, i, level), t);
    }
  }

  /** With nobody running or ready, nothing is owed, and nothing comes before the next arrival. */
  lemma IdleKeepsBusy(jobs: seq<Job>, s: State)
    requires Busy(jobs, s) && Quiet(s)
    requires forall j :: 0 <= j < |jobs| ==> Expected(jobs, s, j) && s.tasks[j].phase in {New, Done}
    ensures Busy(jobs, Idle(s))
  {
    var n, w := Idle(s), NextWake(s.tasks, |s.tasks|);
    if w.Some? {
      var k :| 0 <= k < |s.tasks| && s.tasks[k].Waiting() && s.tasks[k].wake == w.value;
      assert Expected(jobs, s, k);
      forall j | 0 <= j < |jobs|
        ensures LeftOf(s.tasks)[j] >= 0 && (jobs[j].arrival <= s.now ==> LeftOf(s.tasks)[j] == 0)
        ensures jobs[j].arrival > s.now ==> jobs[j].arrival >= w.value && LeftOf(s.tasks)[j] == jobs[j].service
      {
        assert Expected(jobs, s, j);
      }
      hide NextWake, W.Owed, W.Backlog, Expected, Quiet;
      var remaining := LeftOf(s.tasks);
      W.OwedBounds(Plain(jobs), remaining, s.now, |jobs|);
      W.IdleKeepsBacklogEmpty(Plain(jobs), remaining, s.now, w.value);
    }
  }

  /** The loop body before the tick. */
  lemma PrepareKeepsBusy(jobs: seq<Job>, policy: Policy, period: int, s: State)
    requires HeadInv(jobs, policy, s) && period > 0 && Busy(jobs, s)
    ensures Busy(jobs, Prepare(policy, period, s))
  {
    PrepareKeepsLeft(jobs, policy, period, s);
    PrepareKeepsInv(jobs, policy, period, s);
    PrepareKeepsTrace(policy, period, s);
    assert Prepare(policy, period, s).now == s.now;
    hide Prepare, W.Owed, W.Backlog;
  }

  /** Nobody blocks while the loop body looks for something to run. */
  lemma NobodyBlocked(jobs: seq<Job>, policy: Policy, period: int, s: State, i: nat)
    requires HeadInv(jobs, policy, s) && period > 0 && i < |jobs| && s.tasks[i].phase != Blocked
    ensures Prepare(policy, period, s).tasks[i].phase != Blocked
  {
    PrepareKeepsInv(jobs, policy, period, s);
    PrepareOnOther(jobs, policy, period, s, i);
    if s.tasks[i].Waiting() {
      PrepareOnWaiting(jobs, policy, period, s, i);
      assert Slot(jobs, policy, Prepare(policy, period, s), i);
    }
    hide Prepare;
  }

  lemma TickLeft(jobs: seq<Job>, policy: Policy, p: State)
    requires Inv(jobs, policy, p) && p.current.Some?
    ensures var i, n := p.current.value, RunTick(jobs, policy, p);
            && i < |jobs| == |n.tasks| && p.tasks[i].phase == Running && n.now == p.now + 1
            && LeftOf(n.tasks) == LeftOf(p.tasks)[i := p.tasks[i].left - 1]
  {
    var i := p.current.value;
    assert Slot(jobs, policy, p, i);
  }

  lemma IterateKeepsBusy(jobs: seq<Job>, policy: Policy, period: int, s: State)
    requires HeadInv(jobs, policy, s) && period > 0 && Busy(jobs, s)
    requires forall i :: 0 <= i < |jobs| ==> s.tasks[i].phase != Blocked
    ensures Busy(jobs, Iterate(jobs, policy, period, s))
  {
    hide Busy, Slot, RunTick, Prepare, Idle, Quiet, Expected;
    PrepareKeepsInv(jobs, policy, period, s);
    PrepareKeepsBusy(jobs, policy, period, s);
    var p := Prepare(policy, period, s);
    AllExpected(jobs, policy, p);
    if p.current.Some? {
      TickLeft(jobs, policy, p);
      RunTickTrace(jobs, policy, p);
      TickKeepsBusy(jobs, p, RunTick(jobs, policy, p), p.current.value, p.tasks[p.current.value].level);
    } else {
      forall i | 0 <= i < |jobs|
        ensures p.tasks[i].phase in {New, Done}
      {
        NobodyBlocked(jobs, policy, period, s, i);
        Unqueued(jobs, policy, p, i);
      }
      IdleKeepsBusy(jobs, p);
    }
  }

  lemma Unqueued(jobs: seq<Job>, policy: Policy, p: State, i: nat)
    requires Inv(jobs, policy, p) && p.current == None && p.ready == [] && i < |jobs|
    ensures p.tasks[i].phase != Ready && p.tasks[i].phase != Running
  {
    assert Slot(jobs, policy, p, i);
  }

  lemma {:induction false} AlwaysBusy(jobs: seq<Job>, policy: Policy, period: int, k: nat)
    requires PureCpu(jobs) && period > 0
    ensures Busy(jobs, StateAt(jobs, policy, period, k))
  {
    hide Busy, Iterate, Slot, Finished;
    if k == 0 {
      StartsBusy(jobs, period);
    } else {
      var s := StateAt(jobs, policy, period, k - 1);
      AlwaysBusy(jobs, policy, period, k - 1);
      if !Finished(s) {
        forall i | 0 <= i < |jobs|
          ensures i < |s.tasks| && s.tasks[i].phase != Blocked
        {
          NeverBlocked(jobs, policy, period, k - 1, i);
        }
        IterateKeepsBusy(jobs, policy, period, s);
      }
    }
  }

  lemma StartsBusy(jobs: seq<Job>, period: int)
    requires ValidJobs(jobs)
    ensures Busy(jobs, Init(jobs, period))
  {
    assert LeftOf(Init(jobs, period).tasks) == S.Services(Plain(jobs));
    W.WorkAtStart(Plain(jobs), |jobs|);
    assert W.Backlog(Plain(jobs), 0) == W.Work(Plain(jobs), 0, |jobs|);
  }

  /** Once every task is done the backlog stays empty. */
  lemma {:induction false} Drained(jobs: seq<Job>, policy: Policy, f: State, t: int)
    requires HeadInv(jobs, policy, f) && Finished(f) && Busy(jobs, f) && t >= f.now
    ensures W.Backlog(Plain(jobs), t) == 0
    decreases t - f.now
  {
    AllOver(jobs, policy, f);
    if t == f.now {
      W.OwedBounds(Plain(jobs), LeftOf(f.tasks), t, |jobs|);
    } else {
      Drained(jobs, policy, f, t - 1);
      W.NoWork(Plain(jobs), t, |jobs|);
    }
  }

  lemma AllOver(jobs: seq<Job>, policy: Policy, f: State)
    requires HeadInv(jobs, policy, f) && Finished(f)
    ensures |f.tasks| == |jobs| && forall i :: 0 <= i < |jobs| ==> LeftOf(f.tasks)[i] == 0 && jobs[i].arrival <= f.now
  {
    forall i | 0 <= i < |jobs|
      ensures f.tasks[i].left == 0 && jobs[i].arrival <= f.now
    {
      assert Slot(jobs, policy, f, i);
    }
  }

  /**
   Without bursts the CPU is busy exactly while there is work: under rr and under mlfq, for every
   boost period, a tick is executed at an instant iff the policy-free backlog is positive there.
   */
  lemma TicksAreTheBacklog(jobs: seq<Job>, policy: Policy, period: int, t: int)
    requires PureCpu(jobs) && period > 0
    ensures TickAt(Final(jobs, policy, period).trace, t) <==> W.Backlog(Plain(jobs), t) > 0
  {
    hide StateAt, W.Owed;
    var k := FinalIsReached(jobs, policy, period);
    AlwaysBusy(jobs, policy, period, k);
    var f := Final(jobs, policy, period);
    if t >= f.now {
      Drained(jobs, policy, f, t);
    }
  }

  /** So mlfq, rr and every policy of the event-driven simulator are busy at the same instants. */
  lemma AllSimulatorsAreBusyTogether(jobs: seq<Job>, policy: Policy, period: int, other: S.Policy, quantum: int, t: int)
    requires PureCpu(jobs) && period > 0 && quantum > 0
    ensures TickAt(Final(jobs, policy, period).trace, t) <==> W.Covered(S.Final(Plain(jobs), other, quantum).trace, t)
  {
    hide TickAt, W.Covered, S.Final, Final;
    TicksAreTheBacklog(jobs, policy, period, t);
    W.BusyTime(Plain(jobs), other, quantum);
  }
}
