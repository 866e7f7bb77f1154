/**
 When the simulated CPU is busy. The reference is a policy-free work counter computed from the
 job list alone; every policy and quantum keeps the CPU busy exactly while it is positive.
 */
module SchedulingWork {
  import opened Util
  import opened Scheduling

  /** Service of the first n jobs that arrive exactly at t. */
  function Work(jobs: seq<Job>, t: int, n: nat): int
    requires n <= |jobs|
  {
    if n == 0 then 0
    else Work(jobs, t, n - 1) + if jobs[n - 1].arrival == t then jobs[n - 1].service else 0
  }

  /** Work in the system at instant t if the CPU never idles while there is any. */
  function Backlog(jobs: seq<Job>, t: int): int
    decreases t
  {
    if t < 0 then 0 else Max(Backlog(jobs, t - 1) - 1, 0) + Work(jobs, t, |jobs|)
  }

  /** Service still owed at time t to those of the first n jobs that have arrived. */
  function Owed(jobs: seq<Job>, remaining: seq<int>, t: int, n: nat): int
    requires n <= |jobs| == |remaining|
  {
    if n == 0 then 0
    else Owed(jobs, remaining, t, n - 1) + if jobs[n - 1].arrival <= t then remaining[n - 1] else 0
  }

  ghost predicate Covered(trace: seq<Segment>, t: int) {
    exists k :: 0 <= k < |trace| && trace[k].start <= t < trace[k].end
  }

  /** At time t some job has arrived and has not completed. */
  ghost predicate Unfinished(jobs: seq<Job>, done: map<nat, int>, t: int) {
    exists i :: 0 <= i < |jobs| && jobs[i].arrival <= t && i in done && t < done[i]
  }

  lemma {:induction false} OwedNextTick(jobs: seq<Job>, remaining: seq<int>, t: int, n: nat)
    requires n <= |jobs| == |remaining|
    requires forall i :: 0 <= i < n && jobs[i].arrival == t + 1 ==> remaining[i] == jobs[i].service
    ensures Owed(jobs, remaining, t + 1, n) == Owed(jobs, remaining, t, n) + Work(jobs, t + 1, n)
  {
    if n > 0 {
      OwedNextTick(jobs, remaining, t, n - 1);
    }
  }

  lemma {:induction false} OwedUpdate(jobs: seq<Job>, remaining: seq<int>, i: nat, v: int, t: int, n: nat)
    requires n <= |jobs| == |remaining| && i < |jobs| && jobs[i].arrival <= t
    ensures Owed(jobs, remaining[i := v], t, n)
            == Owed(jobs, remaining, t, n) + if i < n then v - remaining[i] else 0
  {
    if n > 0 {
      OwedUpdate(jobs, remaining, i, v, t, n - 1);
    }
  }

  lemma {:induction false} OwedBounds(jobs: seq<Job>, remaining: seq<int>, t: int, n: nat)
    requires n <= |jobs| == |remaining|
    requires forall i :: 0 <= i < n ==> remaining[i] >= 0
    ensures Owed(jobs, remaining, t, n) >= 0
    ensures forall i :: 0 <= i < n && jobs[i].arrival <= t ==> remaining[i] <= Owed(jobs, remaining, t, n)
    ensures (forall i :: 0 <= i < n && jobs[i].arrival <= t ==> remaining[i] == 0) ==> Owed(jobs, remaining, t, n) == 0
  {
    if n > 0 {
      OwedBounds(jobs, remaining, t, n - 1);
    }
  }

  lemma WorkAtStart(jobs: seq<Job>, n: nat)
    requires n <= |jobs| && ValidJobs(jobs)
    ensures Owed(jobs, Services(jobs), 0, n) == Work(jobs, 0, n)
  {
  }

  /** Running job i for d ticks serves one unit of backlog per tick. */
  lemma {:induction false} SliceServesBacklog(jobs: seq<Job>, remaining: seq<int>, i: nat, d: nat, t: nat)
    requires |jobs| == |remaining| && i < |jobs| && jobs[i].arrival <= t && d <= remaining[i]
    requires forall k :: 0 <= k < |jobs| ==> remaining[k] >= 0
    requires forall k :: 0 <= k < |jobs| && jobs[k].arrival > t ==> remaining[k] == jobs[k].service
    requires Owed(jobs, remaining, t, |jobs|) == Backlog(jobs, t)
    ensures Owed(jobs, remaining[i := remaining[i] - d], t + d, |jobs|) == Backlog(jobs, t + d)
    ensures forall u :: t <= u < t + d ==> Backlog(jobs, u) > 0
    decreases d
  {
    if d == 0 {
      assert remaining[i := remaining[i]] == remaining;
    } else {
      var next := remaining[i := remaining[i] - 1];
      OwedBounds(jobs, remaining, t, |jobs|);
      OwedUpdate(jobs, remaining, i, remaining[i] - 1, t, |jobs|);
      OwedNextTick(jobs, next, t, |jobs|);
      SliceServesBacklog(jobs, next, i, d - 1, t + 1);
      assert next[i := next[i] - (d - 1)] == remaining[i := remaining[i] - d];
    }
  }

  /** With nothing owed, the backlog stays empty up to the next arrival at a. */
  lemma {:induction false} IdleKeepsBacklogEmpty(jobs: seq<Job>, remaining: seq<int>, t: nat, a: nat)
    requires |jobs| == |remaining| && t < a
    requires forall k :: 0 <= k < |jobs| ==> remaining[k] >= 0
    requires forall k :: 0 <= k < |jobs| && jobs[k].arrival > t ==> jobs[k].arrival >= a && remaining[k] == jobs[k].service
    requires Owed(jobs, remaining, t, |jobs|) == Backlog(jobs, t) == 0
    ensures Owed(jobs, remaining, a, |jobs|) == Backlog(jobs, a)
    ensures forall u :: t <= u < a ==> Backlog(jobs, u) == 0
    decreases a - t
  {
    OwedNextTick(jobs, remaining, t, |jobs|);
    if t + 1 < a {
      OwedBounds(jobs, remaining, t + 1, |jobs|);
      NoWork(jobs, t + 1, |jobs|);
      IdleKeepsBacklogEmpty(jobs, remaining, t + 1, a);
    }
  }

  lemma NoWork(jobs: seq<Job>, t: int, n: nat)
    requires n <= |jobs| && forall i :: 0 <= i < n ==> jobs[i].arrival != t
    ensures Work(jobs, t, n) == 0
  {
  }

  /** Segments of arrived jobs, in time order, none reaching past the job's completion. */
  ghost predicate Timeline(jobs: seq<Job>, s: State) {
    && (forall k :: 0 <= k < |s.trace| ==> SegmentOk(jobs, s, s.trace[k]))
    && (forall a, b :: 0 <= a < b < |s.trace| ==> s.trace[a].end <= s.trace[b].start)
  }

  ghost predicate SegmentOk(jobs: seq<Job>, s: State, g: Segment) {
    && g.job < |jobs| && jobs[g.job].arrival <= g.start < g.end <= s.now && g.job in s.first
    && (g.job in s.done ==> g.end <= s.done[g.job])
  }

  /** Up to now, an instant outside the trace is one at which every arrived job is complete. */
  ghost predicate IdleIsDone(jobs: seq<Job>, s: State) {
    forall t, i :: 0 <= t < s.now && 0 <= i < |jobs| && jobs[i].arrival <= t && !Covered(s.trace, t) ==>
      i in s.done && s.done[i] <= t
  }

  ghost predicate WorkInv(jobs: seq<Job>, s: State) {
    && |s.remaining| == |jobs| && s.now >= 0
    && Owed(jobs, s.remaining, s.now, |jobs|) == Backlog(jobs, s.now)
    && Timeline(jobs, s) && IdleIsDone(jobs, s)
    && forall t :: 0 <= t < s.now ==> (Covered(s.trace, t) <==> Backlog(jobs, t) > 0)
  }

  lemma CoveredAppend(trace: seq<Segment>, g: Segment, t: int)
    ensures Covered(trace + [g], t) <==> Covered(trace, t) || g.start <= t < g.end
  {
    var r := trace + [g];
    if Covered(trace, t) {
      var k :| 0 <= k < |trace| && trace[k].start <= t < trace[k].end;
      assert r[k] == trace[k];
    }
    assert r[|trace|] == g;
  }

  /** Every job still owed service has been admitted, and later arrivals are untouched. */
  lemma OwedFacts(jobs: seq<Job>, s: State)
    requires Inv(jobs, s, -1)
    requires s.pending == [] || jobs[s.pending[0]].arrival > s.now
    ensures forall k :: 0 <= k < |jobs| ==> s.remaining[k] >= 0
    ensures forall k :: 0 <= k < |jobs| && jobs[k].arrival > s.now ==> s.remaining[k] == jobs[k].service && k in s.pending
    ensures forall k :: 0 <= k < |jobs| && jobs[k].arrival <= s.now ==> k !in s.pending
  {
    forall k | 0 <= k < |jobs|
      ensures s.remaining[k] >= 0
      ensures jobs[k].arrival > s.now ==> s.remaining[k] == jobs[k].service && k in s.pending
      ensures jobs[k].arrival <= s.now ==> k !in s.pending
    {
      assert Placed(jobs, s, -1, k);
    }
  }

  lemma AwakeKeepsWork(jobs: seq<Job>, s: State)
    requires Inv(jobs, s, -1) && WorkInv(jobs, s) && (s.ready != [] || s.pending != [])
    ensures WorkInv(jobs, Awake(jobs, s))
  {
    var t := Awake(jobs, s);
    if t.now > s.now {
      OwedFacts(jobs, s);
      OwedBounds(jobs, s.remaining, s.now, |jobs|);
      forall i | 0 <= i < |jobs|
        ensures jobs[i].arrival < t.now ==> i in s.done && s.done[i] <= s.now && s.remaining[i] == 0
      {
        assert Placed(jobs, s, -1, i);
      }
      IdleKeepsBacklogEmpty(jobs, s.remaining, s.now, t.now);
      forall u | s.now <= u < t.now
        ensures !Covered(s.trace, u)
      {
        assert forall k :: 0 <= k < |s.trace| ==> SegmentOk(jobs, s, s.trace[k]);
      }
    }
  }

  lemma {:induction false} ArriveKeepsWork(jobs: seq<Job>, s: State, x: int)
    requires Inv(jobs, s, x) && WorkInv(jobs, s)
    ensures WorkInv(jobs, Arrive(jobs, s))
    decreases |s.pending|
  {
    if s.pending != [] && jobs[s.pending[0]].arrival <= s.now {
      var t := Admit(jobs, s);
      assert Placed(jobs, s, x, s.pending[0]);
      forall k | 0 <= k < |t.trace|
        ensures SegmentOk(jobs, t, t.trace[k])
      {
        assert SegmentOk(jobs, s, s.trace[k]);
      }
      AdmitKeepsInv(jobs, s, x);
      ArriveKeepsWork(jobs, t, x);
    }
  }

  lemma TurnKeepsWork(jobs: seq<Job>, s: State, p: nat, d: int)
    requires Inv(jobs, s, -1) && WorkInv(jobs, s) && p < |s.ready| && 0 < d <= s.remaining[s.ready[p]]
    requires s.pending == [] || jobs[s.pending[0]].arrival > s.now
    ensures WorkInv(jobs, Turn(jobs, s, p, d))
  {
    var i, t := s.ready[p], Slice(s, p, d);
    SliceKeepsInv(jobs, s, p, d);
    SliceKeepsWork(jobs, s, p, d);
    ArriveKeepsWork(jobs, t, if d == s.remaining[i] then -1 else i);
    var a, r := Arrive(jobs, t), Turn(jobs, s, p, d);
    assert forall g :: SegmentOk(jobs, a, g) ==> SegmentOk(jobs, r, g);
  }

  lemma SliceKeepsTimeline(jobs: seq<Job>, s: State, p: nat, d: int)
    requires Inv(jobs, s, -1) && Timeline(jobs, s) && p < |s.ready| && 0 < d <= s.remaining[s.ready[p]]
    ensures Timeline(jobs, Slice(s, p, d))
  {
    var t := Slice(s, p, d);
    assert Placed(jobs, s, -1, s.ready[p]);
    forall k | 0 <= k < |t.trace|
      ensures SegmentOk(jobs, t, t.trace[k])
    {
      assert k < |s.trace| ==> SegmentOk(jobs, s, s.trace[k]);
    }
    assert forall a :: 0 <= a < |s.trace| ==> SegmentOk(jobs, s, s.trace[a]);
  }

  lemma SliceCovers(s: State, p: nat, d: int, u: int)
    requires p < |s.ready| && s.ready[p] < |s.remaining|
    ensures Covered(Slice(s, p, d).trace, u) <==> Covered(s.trace, u) || s.now <= u < s.now + d
  {
    CoveredAppend(s.trace, Segment(s.ready[p], s.now, s.now + d), u);
  }

  lemma SliceKeepsIdle(jobs: seq<Job>, s: State, p: nat, d: int)
    requires Inv(jobs, s, -1) && IdleIsDone(jobs, s) && p < |s.ready| && 0 < d <= s.remaining[s.ready[p]]
    ensures IdleIsDone(jobs, Slice(s, p, d))
  {
    var r := Slice(s, p, d);
    assert Placed(jobs, s, -1, s.ready[p]);
    forall t, i | 0 <= t < r.now && 0 <= i < |jobs| && jobs[i].arrival <= t && !Covered(r.trace, t)
      ensures i in r.done && r.done[i] <= t
    {
      SliceCovers(s, p, d, t);
    }
  }

  lemma SliceKeepsWork(jobs: seq<Job>, s: State, p: nat, d: int)
    requires Inv(jobs, s, -1) && WorkInv(jobs, s) && p < |s.ready| && 0 < d <= s.remaining[s.ready[p]]
    requires s.pending == [] || jobs[s.pending[0]].arrival > s.now
    ensures WorkInv(jobs, Slice(s, p, d))
  {
    var i, t := s.ready[p], Slice(s, p, d);
    assert Placed(jobs, s, -1, i);
    SliceKeepsTimeline(jobs, s, p, d);
    SliceKeepsIdle(jobs, s, p, d);
    OwedFacts(jobs, s);
    SliceServesBacklog(jobs, s.remaining, i, d, s.now);
    forall u | 0 <= u < t.now
      ensures Covered(t.trace, u) <==> Backlog(jobs, u) > 0
    {
      SliceCovers(s, p, d, u);
    }
  }

  lemma IterateKeepsWork(jobs: seq<Job>, policy: Policy, quantum: int, s: State)
    requires Inv(jobs, s, -1) && quantum > 0 && (s.pending != [] || s.ready != []) && WorkInv(jobs, s)
    ensures WorkInv(jobs, Iterate(jobs, policy, quantum, s))
  {
    var a, p, d := IterateCases(jobs, policy, quantum, s);
    AwakeKeepsWork(jobs, s);
    AwakeKeepsInv(jobs, s);
    ArriveKeepsWork(jobs, Awake(jobs, s), -1);
    if a.ready != [] {
      TurnKeepsWork(jobs, a, p, d);
    }
  }

  lemma {:induction false} RunKeepsWork(jobs: seq<Job>, policy: Policy, quantum: int, s: State)
    requires Inv(jobs, s, -1) && quantum > 0 && WorkInv(jobs, s)
    ensures WorkInv(jobs, Run(jobs, policy, quantum, s))
    decreases Sum(s.remaining), |s.pending|
  {
    if s.pending != [] || s.ready != [] {
      IterateKeepsInv(jobs, policy, quantum, s);
      RemainingNonNegative(jobs, s);
      IterateKeepsWork(jobs, policy, quantum, s);
      RunKeepsWork(jobs, policy, quantum, Iterate(jobs, policy, quantum, s));
    }
  }

  /** After everything is done the backlog stays empty. */
  lemma {:induction false} DrainedBacklog(jobs: seq<Job>, s: State, t: int)
    requires Inv(jobs, s, -1) && s.pending == [] && s.ready == [] && WorkInv(jobs, s) && t >= s.now
    ensures Backlog(jobs, t) == 0
    decreases t - s.now
  {
    forall i | 0 <= i < |jobs|
      ensures s.remaining[i] == 0 && jobs[i].arrival <= s.now
    {
      assert Placed(jobs, s, -1, i);
    }
    if t == s.now {
      OwedBounds(jobs, s.remaining, t, |jobs|);
    } else {
      DrainedBacklog(jobs, s, t - 1);
      NoWork(jobs, t, |jobs|);
    }
  }

  /**
   The busy instants of any schedule: the trace covers an instant iff the policy-free backlog is
   positive there, iff some arrived job has not completed; and no instant is covered twice.
   */
  lemma BusyTime(jobs: seq<Job>, policy: Policy, quantum: int)
    requires ValidJobs(jobs) && quantum > 0
    ensures var f := Final(jobs, policy, quantum);
            && Timeline(jobs, f)
            && (forall t :: Covered(f.trace, t) <==> Backlog(jobs, t) > 0)
            && (forall t :: Covered(f.trace, t) <==> Unfinished(jobs, f.done, t))
  {
    InitInv(jobs);
    WorkAtStart(jobs, |jobs|);
    RunKeepsWork(jobs, policy, quantum, Init(jobs));
    var f := Final(jobs, policy, quantum);
    forall t
      ensures Covered(f.trace, t) <==> Backlog(jobs, t) > 0
      ensures Covered(f.trace, t) <==> Unfinished(jobs, f.done, t)
    {
      if t >= f.now {
        DrainedBacklog(jobs, f, t);
      }
      if Covered(f.trace, t) {
        var k :| 0 <= k < |f.trace| && f.trace[k].start <= t < f.trace[k].end;
        assert SegmentOk(jobs, f, f.trace[k]) && Placed(jobs, f, -1, f.trace[k].job);
      }
      if Unfinished(jobs, f.done, t) {
        var i :| 0 <= i < |jobs| && jobs[i].arrival <= t && i in f.done && t < f.done[i];
        assert Placed(jobs, f, -1, i);
      }
    }
  }

  /** When the last of the first n jobs completes. */
  function LastCompletion(done: map<nat, int>, n: nat): (m: int)
    ensures m >= 0 && forall i :: 0 <= i < n && i in done ==> done[i] <= m
  {
    if n == 0 then 0 else Max(LastCompletion(done, n - 1), if n - 1 in done then done[n - 1] else 0)
  }

  lemma {:induction false} LastCompletionAttained(done: map<nat, int>, n: nat) returns (i: nat)
    requires LastCompletion(done, n) > 0
    ensures i < n && i in done && done[i] == LastCompletion(done, n)
  {
    if n - 1 in done && done[n - 1] == LastCompletion(done, n) {
      i := n - 1;
    } else {
      i := LastCompletionAttained(done, n - 1);
    }
  }

  lemma LastCompletionAtMost(jobs: seq<Job>, f: State, g: State)
    requires Inv(jobs, f, -1) && f.pending == [] && f.ready == []
    requires Inv(jobs, g, -1) && g.pending == [] && g.ready == []
    requires forall t :: Unfinished(jobs, f.done, t) ==> Unfinished(jobs, g.done, t)
    ensures LastCompletion(f.done, |jobs|) <= LastCompletion(g.done, |jobs|)
  {
    if LastCompletion(f.done, |jobs|) > 0 {
      var i := LastCompletionAttained(f.done, |jobs|);
      assert Placed(jobs, f, -1, i) && Placed(jobs, g, -1, i);
      if f.done[i] > jobs[i].arrival {
        assert Unfinished(jobs, f.done, f.done[i] - 1);
      }
    }
  }

  /** Policies and quanta disagree neither on which instants are busy nor on when the last job ends. */
  lemma BusyTimeIsPolicyFree(jobs: seq<Job>, p1: Policy, q1: int, p2: Policy, q2: int)
    requires ValidJobs(jobs) && q1 > 0 && q2 > 0
    ensures var f, g := Final(jobs, p1, q1), Final(jobs, p2, q2);
            && (forall t :: Covered(f.trace, t) <==> Covered(g.trace, t))
            && LastCompletion(f.done, |jobs|) == LastCompletion(g.done, |jobs|)
  {
    BusyTime(jobs, p1, q1);
    BusyTime(jobs, p2, q2);
    var f, g := Final(jobs, p1, q1), Final(jobs, p2, q2);
    assert forall t :: Unfinished(jobs, f.done, t) <==> Covered(f.trace, t);
    assert forall t :: Unfinished(jobs, g.done, t) <==> Covered(g.trace, t);
    LastCompletionAtMost(jobs, f, g);
    LastCompletionAtMost(jobs, g, f);
  }
}
