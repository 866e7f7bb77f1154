/**
 What the event-driven simulator reports is what its trace shows: for each job, under every policy,
 the response is the start of its first segment, the turnaround the end of its last one, and its
 segments add up to its service.
 */
module SchedulingMetrics {
  import opened Util
  import opened Scheduling

  function RanFor(trace: seq<Segment>, i: nat): int {
    if trace == [] then 0
    else
      var g := trace[|trace| - 1];
      RanFor(trace[..|trace| - 1], i) + if g.job == i then g.end - g.start else 0
  }

  function FirstStart(trace: seq<Segment>, i: nat): Option<int> {
    if trace == [] then None
    else
      var before := FirstStart(trace[..|trace| - 1], i);
      var g := trace[|trace| - 1];
      if before.None? && g.job == i then Some(g.start) else before
  }

  function LastEnd(trace: seq<Segment>, i: nat): Option<int> {
    if trace == [] then None
    else
      var g := trace[|trace| - 1];
      if g.job == i then Some(g.end) else LastEnd(trace[..|trace| - 1], i)
  }

  /** Job i's times so far are those of its segments, or of its arrival if it needs no service. */
  ghost predicate Told(jobs: seq<Job>, s: State, i: nat)
    requires i < |jobs| == |s.remaining|
  {
    && RanFor(s.trace, i) == jobs[i].service - s.remaining[i]
    && if jobs[i].service == 0 then
         FirstStart(s.trace, i).None?
         && (i in s.first ==> s.first[i] == jobs[i].arrival) && (i in s.done ==> s.done[i] == jobs[i].arrival)
       else
         FirstStart(s.trace, i) == Lookup(s.first, i) && (i in s.done ==> LastEnd(s.trace, i) == Some(s.done[i]))
  }

  ghost predicate AllTold(jobs: seq<Job>, s: State) {
    |s.remaining| == |jobs| && forall i :: 0 <= i < |jobs| ==> Told(jobs, s, i)
  }

  lemma TraceGrows(trace: seq<Segment>, g: Segment, i: nat)
    ensures RanFor(trace + [g], i) == RanFor(trace, i) + if g.job == i then g.end - g.start else 0
    ensures FirstStart(trace + [g], i) == if FirstStart(trace, i).None? && g.job == i then Some(g.start) else FirstStart(trace, i)
    ensures LastEnd(trace + [g], i) == if g.job == i then Some(g.end) else LastEnd(trace, i)
  {
    assert (trace + [g])[..|trace|] == trace;
  }

  lemma {:induction false} ArriveTells(jobs: seq<Job>, s: State)
    requires Sorted(jobs, s.pending) && AllTold(jobs, s)
    ensures AllTold(jobs, Arrive(jobs, s))
    decreases |s.pending|
  {
    if s.pending != [] && jobs[s.pending[0]].arrival <= s.now {
      forall i | 0 <= i < |jobs|
        ensures Told(jobs, Admit(jobs, s), i)
      {
        assert Told(jobs, s, i);
      }
      ArriveTells(jobs, Admit(jobs, s));
    }
  }

  lemma SliceTells(jobs: seq<Job>, s: State, p: nat, d: int)
    requires Inv(jobs, s, -1) && AllTold(jobs, s) && p < |s.ready| && 0 < d <= s.remaining[s.ready[p]]
    ensures AllTold(jobs, Slice(s, p, d))
  {
    var i := s.ready[p];
    assert i in s.ready && Placed(jobs, s, -1, i);
    var t := Slice(s, p, d);
    forall j | 0 <= j < |jobs|
      ensures Told(jobs, t, j)
    {
      assert Told(jobs, s, j);
      TraceGrows(s.trace, Segment(i, s.now, s.now + d), j);
    }
  }

  lemma IterateTells(jobs: seq<Job>, policy: Policy, quantum: int, s: State)
    requires Inv(jobs, s, -1) && quantum > 0 && (s.pending != [] || s.ready != []) && AllTold(jobs, s)
    ensures AllTold(jobs, Iterate(jobs, policy, quantum, s))
  {
    hide Told, Slice;
    var a, p, d := IterateCases(jobs, policy, quantum, s);
    RetimeTells(jobs, s, Awake(jobs, s));
    AwakeKeepsInv(jobs, s);
    ArriveTells(jobs, Awake(jobs, s));
    if a.ready != [] {
      SliceTells(jobs, a, p, d);
      SliceKeepsInv(jobs, a, p, d);
      ArriveTells(jobs, Slice(a, p, d));
      RetimeTells(jobs, Arrive(jobs, Slice(a, p, d)), Turn(jobs, a, p, d));
    }
  }

  /** The clock and the queue are not part of the story. */
  lemma RetimeTells(jobs: seq<Job>, s: State, t: State)
    requires AllTold(jobs, s) && t == s.(now := t.now, ready := t.ready)
    ensures AllTold(jobs, t)
  {
    forall i | 0 <= i < |jobs|
      ensures Told(jobs, t, i)
    {
      assert Told(jobs, s, i);
    }
  }

  lemma InitTells(jobs: seq<Job>)
    ensures AllTold(jobs, Init(jobs))
  {
    forall i | 0 <= i < |jobs|
      ensures Told(jobs, Init(jobs), i)
    {
    }
  }

  lemma {:induction false} RunTells(jobs: seq<Job>, policy: Policy, quantum: int, s: State)
    requires Inv(jobs, s, -1) && quantum > 0 && AllTold(jobs, s)
    ensures AllTold(jobs, Run(jobs, policy, quantum, s))
    decreases Sum(s.remaining), |s.pending|
  {
    if s.pending != [] || s.ready != [] {
      IterateKeepsInv(jobs, policy, quantum, s);
      RemainingNonNegative(jobs, s);
      IterateTells(jobs, policy, quantum, s);
      RunTells(jobs, policy, quantum, Iterate(jobs, policy, quantum, s));
    }
  }

  /** Under every policy and quantum, every reported number can be read off the trace. */
  lemma ReportIsTheTrace(jobs: seq<Job>, policy: Policy, quantum: int, i: nat)
    requires ValidJobs(jobs) && quantum > 0 && i < |jobs|
    ensures var f := Final(jobs, policy, quantum);
            && i in f.first && i in f.done && RanFor(f.trace, i) == jobs[i].service
            && (jobs[i].service == 0 ==> f.first[i] == f.done[i] == jobs[i].arrival && FirstStart(f.trace, i).None?)
            && (jobs[i].service > 0 ==> FirstStart(f.trace, i) == Some(f.first[i]) && LastEnd(f.trace, i) == Some(f.done[i]))
  {
    InitInv(jobs);
    InitTells(jobs);
    RunTells(jobs, policy, quantum, Init(jobs));
    var f := Final(jobs, policy, quantum);
    assert Told(jobs, f, i) && Placed(jobs, f, -1, i);
  }

  /** Where the first segment of job i is. */
  lemma {:induction false} FirstAt(trace: seq<Segment>, i: nat) returns (k: nat)
    requires FirstStart(trace, i).Some?
    ensures k < |trace| && trace[k].job == i && trace[k].start == FirstStart(trace, i).value
    ensures forall l :: 0 <= l < k ==> trace[l].job != i
  {
    k := |trace| - 1;
    if FirstStart(trace[..k], i).Some? {
      k := FirstAt(trace[..k], i);
    } else {
      NeverRan(trace[..k], i);
    }
  }

  lemma {:induction false} NeverRan(trace: seq<Segment>, i: nat)
    ensures FirstStart(trace, i).None? <==> forall k :: 0 <= k < |trace| ==> trace[k].job != i
    ensures LastEnd(trace, i).None? <==> forall k :: 0 <= k < |trace| ==> trace[k].job != i
  {
    if trace != [] {
      NeverRan(trace[..|trace| - 1], i);
    }
  }

  /** Where the last one is. */
  lemma {:induction false} LastAt(trace: seq<Segment>, i: nat) returns (k: nat)
    requires LastEnd(trace, i).Some?
    ensures k < |trace| && trace[k].job == i && trace[k].end == LastEnd(trace, i).value
    ensures forall l :: k < l < |trace| ==> trace[l].job != i
  {
    k := |trace| - 1;
    if trace[k].job != i {
      k := LastAt(trace[..k], i);
    }
  }
}
