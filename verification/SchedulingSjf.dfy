/**
 Optimality of shortest job first when all jobs arrive together. The reference value is
 computed from the services alone: each pair of jobs delays one of the two by the smaller service.
 */
module SchedulingSjf {
  import opened Util
  import opened Scheduling

  /** Delay that jobs of sizes s and one job of size v cause each other at least. */
  function Cross(s: seq<int>, v: int): int {
    if s == [] then 0 else Cross(s[..|s| - 1], v) + Min(s[|s| - 1], v)
  }

  /** The least total completion time of a batch of jobs of sizes s. */
  function LeastTotal(s: seq<int>): int {
    if s == [] then 0
    else
      var l := |s| - 1;
      LeastTotal(s[..l]) + s[l] + Cross(s[..l], s[l])
  }

  /** d for every job that still has work. */
  function Delay(s: seq<int>, d: int): int {
    if s == [] then 0 else Delay(s[..|s| - 1], d) + if s[|s| - 1] > 0 then d else 0
  }

  lemma {:induction false} CrossUpdate(s: seq<int>, i: nat, v: int, w: int)
    requires i < |s|
    ensures Cross(s[i := v], w) == Cross(s, w) - Min(s[i], w) + Min(v, w)
  {
    var l := |s| - 1;
    if i < l {
      assert s[i := v][..l] == s[..l][i := v];
      CrossUpdate(s[..l], i, v, w);
    } else {
      assert s[i := v][..l] == s[..l];
    }
  }

  /** Shortening one job changes the least total by exactly what it shortens in its pairs. */
  lemma {:induction false} LeastTotalUpdate(s: seq<int>, i: nat, v: int)
    requires i < |s| && v <= s[i]
    ensures LeastTotal(s) - LeastTotal(s[i := v]) == Cross(s, s[i]) - Cross(s, v)
  {
    var l := |s| - 1;
    if i < l {
      assert s[i := v][..l] == s[..l][i := v];
      LeastTotalUpdate(s[..l], i, v);
      CrossUpdate(s[..l], i, v, s[l]);
    } else {
      assert s[i := v][..l] == s[..l];
    }
  }

  lemma {:induction false} CrossDrop(s: seq<int>, r: int, d: int)
    requires 0 <= d <= r && forall k :: 0 <= k < |s| ==> s[k] >= 0
    ensures Cross(s, r) - Cross(s, r - d) <= Delay(s, d)
    ensures d == r && (forall k :: 0 <= k < |s| && s[k] > 0 ==> s[k] >= r) ==>
              Cross(s, r) - Cross(s, r - d) == Delay(s, d)
  {
    if s != [] {
      CrossDrop(s[..|s| - 1], r, d);
    }
  }

  /** A slice lowers the least total by no more than it delays the jobs, and by just that if it ends a shortest one. */
  lemma SliceCost(s: seq<int>, i: nat, d: int)
    requires i < |s| && 0 < d <= s[i] && forall k :: 0 <= k < |s| ==> s[k] >= 0
    ensures LeastTotal(s) - LeastTotal(s[i := s[i] - d]) <= Delay(s, d)
    ensures d == s[i] && (forall k :: 0 <= k < |s| && s[k] > 0 ==> s[k] >= d) ==>
              LeastTotal(s) - LeastTotal(s[i := s[i] - d]) == Delay(s, d)
  {
    hide LeastTotal, Cross, Delay;
    LeastTotalUpdate(s, i, s[i] - d);
    CrossDrop(s, s[i], d);
  }

  lemma {:induction false} NothingLeft(s: seq<int>)
    requires forall k :: 0 <= k < |s| ==> s[k] == 0
    ensures LeastTotal(s) == 0 && Cross(s, 0) == 0
  {
    if s != [] {
      NothingLeft(s[..|s| - 1]);
    }
  }

  /** Sum of turnarounds of the first n jobs; a job that is not done is charged up to `clock`. */
  function Turnarounds(jobs: seq<Job>, done: map<nat, int>, clock: int, n: nat): int
    requires n <= |jobs|
  {
    if n == 0 then 0
    else
      Turnarounds(jobs, done, clock, n - 1) - jobs[n - 1].arrival
      + if n - 1 in done then done[n - 1] else clock
  }

  /** The sum of turnarounds reached so far plus the least that the remaining work must add. */
  function Potential(jobs: seq<Job>, s: State, a: int): int {
    Turnarounds(jobs, s.done, Max(s.now, a), |jobs|) + LeastTotal(s.remaining)
  }

  ghost predicate Together(jobs: seq<Job>, a: int) {
    forall i :: 0 <= i < |jobs| ==> jobs[i].arrival == a
  }

  lemma {:induction false} TurnaroundsExtend(jobs: seq<Job>, done: map<nat, int>, i: nat, clock: int, n: nat)
    requires n <= |jobs| && i !in done
    ensures Turnarounds(jobs, done[i := clock], clock, n) == Turnarounds(jobs, done, clock, n)
  {
    if n > 0 {
      TurnaroundsExtend(jobs, done, i, clock, n - 1);
    }
  }

  lemma {:induction false} TurnaroundsAdvance(jobs: seq<Job>, done: map<nat, int>, remaining: seq<int>, clock: int, d: int)
    requires |remaining| <= |jobs|
    requires forall i :: 0 <= i < |remaining| ==> (i in done <==> remaining[i] <= 0)
    ensures Turnarounds(jobs, done, clock + d, |remaining|)
            == Turnarounds(jobs, done, clock, |remaining|) + Delay(remaining, d)
  {
    if remaining != [] {
      TurnaroundsAdvance(jobs, done, remaining[..|remaining| - 1], clock, d);
    }
  }

  lemma {:induction false} AllDone(jobs: seq<Job>, done: map<nat, int>, c1: int, c2: int, n: nat)
    requires n <= |jobs| && forall i :: 0 <= i < n ==> i in done
    ensures Turnarounds(jobs, done, c1, n) == Turnarounds(jobs, done, c2, n)
  {
    if n > 0 {
      AllDone(jobs, done, c1, c2, n - 1);
    }
  }

  lemma {:induction false} ArriveTogether(jobs: seq<Job>, s: State, a: int)
    requires Inv(jobs, s, -1) && Together(jobs, a) && s.now == a
    ensures Potential(jobs, Arrive(jobs, s), a) == Potential(jobs, s, a)
    decreases |s.pending|
  {
    if s.pending != [] {
      assert Placed(jobs, s, -1, s.pending[0]);
      AdmitKeepsInv(jobs, s, -1);
      TurnaroundsExtend(jobs, s.done, s.pending[0], a, |jobs|);
      ArriveTogether(jobs, Admit(jobs, s), a);
    }
  }

  /** Before the common arrival nothing has happened; after it nothing is pending. */
  ghost predicate Batch(jobs: seq<Job>, s: State, a: int) {
    Together(jobs, a) && (s.pending != [] ==> s.now <= a && s.ready == [])
  }

  lemma PrepareTogether(jobs: seq<Job>, s: State, a: int)
    requires Inv(jobs, s, -1) && Batch(jobs, s, a) && (s.pending != [] || s.ready != [])
    ensures var t := Prepare(jobs, s); t.pending == [] && Potential(jobs, t, a) == Potential(jobs, s, a)
  {
    if s.pending != [] {
      AwakeKeepsInv(jobs, s);
      ArriveTogether(jobs, Awake(jobs, s), a);
    }
  }

  lemma ReadyHasWork(jobs: seq<Job>, s: State)
    requires Inv(jobs, s, -1) && s.pending == []
    ensures forall k :: 0 <= k < |jobs| ==>
              s.remaining[k] >= 0 && (k in s.done <==> s.remaining[k] <= 0) && (s.remaining[k] > 0 ==> k in s.ready)
    ensures forall k :: k in s.ready ==> k < |jobs| && s.remaining[k] > 0 && jobs[k].arrival <= s.now
  {
    forall k | 0 <= k < |jobs|
      ensures s.remaining[k] >= 0 && (k in s.done <==> s.remaining[k] <= 0) && (s.remaining[k] > 0 ==> k in s.ready)
      ensures k in s.ready ==> s.remaining[k] > 0 && jobs[k].arrival <= s.now
    {
      assert Placed(jobs, s, -1, k);
    }
  }

  /** A slice of d ticks charges d to every unfinished job, the one that runs included. */
  lemma SliceTurnarounds(jobs: seq<Job>, s: State, p: nat, d: int)
    requires |s.remaining| == |jobs| && p < |s.ready| && s.ready[p] < |jobs| && s.ready[p] !in s.done
    requires forall k :: 0 <= k < |jobs| ==> (k in s.done <==> s.remaining[k] <= 0)
    ensures Turnarounds(jobs, Slice(s, p, d).done, s.now + d, |jobs|)
            == Turnarounds(jobs, s.done, s.now, |jobs|) + Delay(s.remaining, d)
  {
    TurnaroundsAdvance(jobs, s.done, s.remaining, s.now, d);
    TurnaroundsExtend(jobs, s.done, s.ready[p], s.now + d, |jobs|);
  }

  lemma TurnFields(jobs: seq<Job>, s: State, p: nat, d: int)
    requires Inv(jobs, s, -1) && s.pending == [] && p < |s.ready| && s.ready[p] < |s.remaining|
    ensures var t := Turn(jobs, s, p, d);
            && t.now == s.now + d && t.done == Slice(s, p, d).done
            && t.remaining == s.remaining[s.ready[p] := s.remaining[s.ready[p]] - d]
  {
  }

  /** Running any ready job cannot lower the potential; running a shortest one to its end keeps it. */
  lemma TurnTogether(jobs: seq<Job>, s: State, p: nat, d: int, a: int)
    requires Inv(jobs, s, -1) && Together(jobs, a) && s.pending == []
    requires p < |s.ready| && 0 < d <= s.remaining[s.ready[p]]
    ensures Potential(jobs, Turn(jobs, s, p, d), a) >= Potential(jobs, s, a)
    ensures d == s.remaining[s.ready[p]]
            && (forall k :: 0 <= k < |s.ready| ==> d <= s.remaining[s.ready[k]])
            ==> Potential(jobs, Turn(jobs, s, p, d), a) == Potential(jobs, s, a)
  {
    if forall k :: 0 <= k < |s.ready| ==> d <= s.remaining[s.ready[k]] {
      ShortestOfAll(jobs, s, p, d);
    }
    OnCpu(jobs, s, p, a);
    TurnFields(jobs, s, p, d);
    hide Turn, Slice, Turnarounds, LeastTotal, Delay, Inv, Together;
    SliceTurnarounds(jobs, s, p, d);
    SliceCost(s.remaining, s.ready[p], d);
  }

  /** A slice no longer than any ready job's rest is no longer than any unfinished job's. */
  lemma ShortestOfAll(jobs: seq<Job>, s: State, p: nat, d: int)
    requires Inv(jobs, s, -1) && s.pending == []
    requires forall k :: 0 <= k < |s.ready| ==> d <= s.remaining[s.ready[k]]
    ensures forall k :: 0 <= k < |s.remaining| && s.remaining[k] > 0 ==> s.remaining[k] >= d
  {
    forall k | 0 <= k < |s.remaining| && s.remaining[k] > 0
      ensures s.remaining[k] >= d
    {
      assert Placed(jobs, s, -1, k);
      var q :| 0 <= q < |s.ready| && s.ready[q] == k;
    }
  }

  lemma OnCpu(jobs: seq<Job>, s: State, p: nat, a: int)
    requires Inv(jobs, s, -1) && Together(jobs, a) && s.pending == [] && p < |s.ready|
    ensures s.now >= a && s.ready[p] < |jobs| == |s.remaining| && s.ready[p] !in s.done
    ensures forall k :: 0 <= k < |jobs| ==> s.remaining[k] >= 0 && (k in s.done <==> s.remaining[k] <= 0)
  {
    ReadyHasWork(jobs, s);
    assert s.ready[p] in s.ready;
  }

  lemma IterateTogether(jobs: seq<Job>, policy: Policy, quantum: int, s: State, a: int)
    requires Inv(jobs, s, -1) && Batch(jobs, s, a) && quantum > 0 && (s.pending != [] || s.ready != [])
    ensures var t := Iterate(jobs, policy, quantum, s);
            && Batch(jobs, t, a)
            && Potential(jobs, t, a) >= Potential(jobs, s, a)
            && (policy == Sjf ==> Potential(jobs, t, a) == Potential(jobs, s, a))
  {
    var b, p, d := IterateCases(jobs, policy, quantum, s);
    PrepareTogether(jobs, s, a);
    if b.ready != [] {
      TurnTogether(jobs, b, p, d, a);
    }
  }

  lemma {:induction false} RunTogether(jobs: seq<Job>, policy: Policy, quantum: int, s: State, a: int)
    requires Inv(jobs, s, -1) && Batch(jobs, s, a) && quantum > 0
    ensures var f := Run(jobs, policy, quantum, s);
            && Potential(jobs, f, a) >= Potential(jobs, s, a)
            && (policy == Sjf ==> Potential(jobs, f, a) == Potential(jobs, s, a))
    decreases Sum(s.remaining), |s.pending|
  {
    if s.pending != [] || s.ready != [] {
      IterateKeepsInv(jobs, policy, quantum, s);
      RemainingNonNegative(jobs, s);
      IterateTogether(jobs, policy, quantum, s, a);
      RunTogether(jobs, policy, quantum, Iterate(jobs, policy, quantum, s), a);
    }
  }

  lemma {:induction false} StartsAtZero(jobs: seq<Job>, a: int, n: nat)
    requires n <= |jobs| && Together(jobs, a)
    ensures Turnarounds(jobs, map[], a, n) == 0
  {
    if n > 0 {
      StartsAtZero(jobs, a, n - 1);
    }
  }

  /** The sum of turnarounds that `simulate` reports. */
  function TotalTurnaround(jobs: seq<Job>, policy: Policy, quantum: int): int
    requires ValidJobs(jobs) && quantum > 0
  {
    Turnarounds(jobs, Final(jobs, policy, quantum).done, 0, |jobs|)
  }

  lemma TotalIsPotential(jobs: seq<Job>, policy: Policy, quantum: int, a: int)
    requires ValidJobs(jobs) && quantum > 0
    ensures TotalTurnaround(jobs, policy, quantum) == Potential(jobs, Final(jobs, policy, quantum), a)
  {
    var f := Final(jobs, policy, quantum);
    forall i | 0 <= i < |jobs|
      ensures i in f.done && f.remaining[i] == 0
    {
      assert Placed(jobs, f, -1, i);
    }
    AllDone(jobs, f.done, 0, Max(f.now, a), |jobs|);
    NothingLeft(f.remaining);
  }

  /**
   With simultaneous arrivals SJF reaches the least total turnaround, which no policy and no
   quantum can beat.
   */
  lemma SjfIsOptimal(jobs: seq<Job>, a: int, policy: Policy, quantum: int, q: int)
    requires ValidJobs(jobs) && Together(jobs, a) && a >= 0 && quantum > 0 && q > 0
    ensures TotalTurnaround(jobs, Sjf, q) == LeastTotal(Services(jobs))
    ensures TotalTurnaround(jobs, Sjf, q) <= TotalTurnaround(jobs, policy, quantum)
  {
    InitInv(jobs);
    StartsAtZero(jobs, a, |jobs|);
    RunTogether(jobs, Sjf, q, Init(jobs), a);
    RunTogether(jobs, policy, quantum, Init(jobs), a);
    TotalIsPotential(jobs, Sjf, q, a);
    TotalIsPotential(jobs, policy, quantum, a);
  }
}
