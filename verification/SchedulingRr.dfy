/**
 Fairness of round robin in the event-driven simulator: with n jobs and quantum q nobody waits
 longer than (n - 1) * q for a first slice or between two slices, arrivals included.
 */
module SchedulingRr {
  import opened Util
  import opened Scheduling

  /** Index b holds the next slice of the job that ran at index a. */
  ghost predicate NextRun(trace: seq<Segment>, a: int, b: int) {
    && 0 <= a < b < |trace| && trace[a].job == trace[b].job
    && forall k :: a < k < b ==> trace[k].job != trace[a].job
  }

  /** Index a holds the latest slice of job i. */
  ghost predicate LastRun(trace: seq<Segment>, i: nat, a: int) {
    0 <= a < |trace| && trace[a].job == i && forall k :: a < k < |trace| ==> trace[k].job != i
  }

  /** No job runs twice in trace[a..b). */
  ghost predicate OnceEach(trace: seq<Segment>, a: int, b: int)
    requires 0 <= a && b <= |trace|
  {
    forall k, l :: a <= k < l < b ==> trace[k].job != trace[l].job
  }

  /** The gap between two consecutive slices of a job. */
  ghost predicate FairGap(trace: seq<Segment>, a: int, b: int, bound: int)
    requires 0 <= a < b < |trace|
  {
    trace[b].start - trace[a].end <= bound && OnceEach(trace, a + 1, b)
  }

  /** The job at position p of the queue still meets the bound if everyone ahead uses a whole quantum. */
  ghost predicate OnTime(jobs: seq<Job>, q: int, s: State, p: nat)
    requires p < |s.ready| && s.ready[p] < |jobs|
  {
    && (s.ready[p] !in s.first ==> s.now - jobs[s.ready[p]].arrival + p * q <= (|jobs| - 1) * q)
    && forall a :: LastRun(s.trace, s.ready[p], a) ==> OnTimeSince(jobs, q, s, p, a)
  }

  ghost predicate OnTimeSince(jobs: seq<Job>, q: int, s: State, p: nat, a: nat)
    requires p < |s.ready| && a < |s.trace|
  {
    && s.now - s.trace[a].end + p * q <= (|jobs| - 1) * q
    && OnceEach(s.trace, a + 1, |s.trace|)
    && forall k, r :: a < k < |s.trace| && 0 <= r < p ==> s.trace[k].job != s.ready[r]
  }

  ghost predicate Fair(jobs: seq<Job>, q: int, s: State) {
    && Below(s.ready, |jobs|)
    && (forall p :: 0 <= p < |s.ready| ==> OnTime(jobs, q, s, p))
    && FairSoFar(jobs, q, s)
    && (forall k :: 0 <= k < |s.trace| ==> s.trace[k].job in s.first)
  }

  /** What has happened already: first slices and gaps within the bound. */
  ghost predicate FairSoFar(jobs: seq<Job>, q: int, s: State) {
    && (forall a, b :: NextRun(s.trace, a, b) ==> FairGap(s.trace, a, b, (|jobs| - 1) * q))
    && (forall i :: i in s.first && i < |jobs| ==> s.first[i] - jobs[i].arrival <= (|jobs| - 1) * q)
  }

  /** Job y (if any) is neither queued nor pending; arrivals are late by at most its slice. */
  ghost predicate Late(jobs: seq<Job>, q: int, s: State, y: int)
    requires Below(s.pending, |jobs|)
  {
    && -1 <= y < |jobs| && (y >= 0 ==> y !in s.ready && y !in s.pending)
    && forall k :: 0 <= k < |s.pending| ==> s.now - jobs[s.pending[k]].arrival <= if y < 0 then 0 else q
  }

  /** `OnTime` looks only at the clock, the trace, and the queue up to p. */
  lemma OnTimeFrame(jobs: seq<Job>, q: int, s: State, t: State, p: nat)
    requires p < |s.ready| && s.ready[p] < |jobs| && OnTime(jobs, q, s, p)
    requires s.ready <= t.ready && t.trace == s.trace && t.now == s.now
    requires s.ready[p] in s.first ==> s.ready[p] in t.first
    ensures OnTime(jobs, q, t, p)
  {
    forall a | LastRun(t.trace, t.ready[p], a)
      ensures OnTimeSince(jobs, q, t, p, a)
    {
      assert OnTimeSince(jobs, q, s, p, a);
    }
  }

  lemma AdmitZeroFair(jobs: seq<Job>, q: int, s: State, x: int)
    requires Inv(jobs, s, x) && Fair(jobs, q, s) && q > 0
    requires s.pending != [] && jobs[s.pending[0]].service == 0
    ensures Fair(jobs, q, Admit(jobs, s))
  {
    var i, t := s.pending[0], Admit(jobs, s);
    PigeonHole([i], |jobs|);
    assert 0 <= (|jobs| - 1) * q;
    forall p | 0 <= p < |t.ready|
      ensures OnTime(jobs, q, t, p)
    {
      OnTimeFrame(jobs, q, s, t, p);
    }
  }

  lemma AdmitReadyFair(jobs: seq<Job>, q: int, s: State, x: int, y: int)
    requires Inv(jobs, s, x) && Fair(jobs, q, s) && Late(jobs, q, s, y) && q > 0
    requires s.pending != [] && jobs[s.pending[0]].service > 0
    ensures Fair(jobs, q, Admit(jobs, s))
    ensures y >= 0 ==> y !in Admit(jobs, s).ready
  {
    var i, t := s.pending[0], Admit(jobs, s);
    assert Placed(jobs, s, x, i) && i in s.pending;
    AppendMembers(s.ready, i);
    PigeonHole(t.ready, |jobs|);
    if y >= 0 {
      AppendMembers(t.ready, y);
      PigeonHole(t.ready + [y], |jobs|);
    }
    NewcomerInTime(|s.ready|, |jobs|, q, s.now - jobs[i].arrival, y);
    forall p | 0 <= p < |t.ready|
      ensures OnTime(jobs, q, t, p)
    {
      if p < |s.ready| {
        OnTimeFrame(jobs, q, s, t, p);
      } else {
        assert forall a :: !LastRun(t.trace, i, a);
      }
    }
  }

  lemma AdmitFair(jobs: seq<Job>, q: int, s: State, x: int, y: int)
    requires Inv(jobs, s, x) && Fair(jobs, q, s) && Late(jobs, q, s, y) && q > 0
    requires s.pending != [] && jobs[s.pending[0]].arrival <= s.now
    ensures Fair(jobs, q, Admit(jobs, s)) && Late(jobs, q, Admit(jobs, s), y)
  {
    TailMembers(s.pending);
    if jobs[s.pending[0]].service == 0 {
      AdmitZeroFair(jobs, q, s, x);
    } else {
      AdmitReadyFair(jobs, q, s, x, y);
    }
  }

  lemma NewcomerInTime(p: nat, n: nat, q: int, late: int, y: int)
    requires q > 0 && (if y < 0 then late <= 0 && p + 1 <= n else late <= q && p + 2 <= n)
    ensures late + p * q <= (n - 1) * q
  {
    if y < 0 {
      assert p * q <= (n - 1) * q;
    } else {
      assert (p + 1) * q <= (n - 1) * q;
    }
  }

  lemma {:induction false} ArriveFair(jobs: seq<Job>, q: int, s: State, x: int, y: int)
    requires Inv(jobs, s, x) && Fair(jobs, q, s) && Late(jobs, q, s, y) && q > 0
    ensures Fair(jobs, q, Arrive(jobs, s))
    ensures y >= 0 ==> y !in Arrive(jobs, s).ready
    decreases |s.pending|
  {
    if s.pending != [] && jobs[s.pending[0]].arrival <= s.now {
      AdmitFair(jobs, q, s, x, y);
      AdmitKeepsInv(jobs, s, x);
      ArriveFair(jobs, q, Admit(jobs, s), x, y);
    }
  }

  /** The head of the queue runs: everyone behind moves up by one and loses at most a quantum. */
  lemma SliceOnTime(jobs: seq<Job>, q: int, s: State, d: int, p: nat)
    requires Inv(jobs, s, -1) && Fair(jobs, q, s) && 0 < d <= q && p + 1 < |s.ready|
    ensures OnTime(jobs, q, Slice(s, 0, d), p)
  {
    var i, t := s.ready[0], Slice(s, 0, d);
    assert t.ready[p] == s.ready[p + 1] != i;
    assert OnTime(jobs, q, s, p + 1);
    assert (p + 1) * q == p * q + q;
    forall a | LastRun(t.trace, t.ready[p], a)
      ensures OnTimeSince(jobs, q, t, p, a)
    {
      assert LastRun(s.trace, s.ready[p + 1], a) by {
        assert forall k :: a < k < |s.trace| ==> t.trace[k] == s.trace[k];
      }
      assert OnTimeSince(jobs, q, s, p + 1, a);
      assert forall k :: a < k < |s.trace| ==> s.trace[k].job != s.ready[0];
      forall k, r | a < k < |t.trace| && 0 <= r < p
        ensures t.trace[k].job != t.ready[r]
      {
        assert t.ready[r] == s.ready[r + 1];
      }
    }
  }

  lemma SliceFairSoFar(jobs: seq<Job>, q: int, s: State, d: int)
    requires Inv(jobs, s, -1) && Fair(jobs, q, s) && s.ready != []
    ensures FairSoFar(jobs, q, Slice(s, 0, d))
  {
    var i, t := s.ready[0], Slice(s, 0, d);
    assert OnTime(jobs, q, s, 0);
    forall a, b | NextRun(t.trace, a, b)
      ensures FairGap(t.trace, a, b, (|jobs| - 1) * q)
    {
      if b < |s.trace| {
        assert NextRun(s.trace, a, b) by {
          assert forall k :: a <= k <= b ==> t.trace[k] == s.trace[k];
        }
        assert FairGap(s.trace, a, b, (|jobs| - 1) * q);
      } else {
        assert LastRun(s.trace, i, a) by {
          assert forall k :: a < k < |s.trace| ==> t.trace[k] == s.trace[k];
        }
        assert OnTimeSince(jobs, q, s, 0, a);
      }
    }
  }

  lemma SliceFair(jobs: seq<Job>, q: int, s: State, d: int)
    requires Inv(jobs, s, -1) && Fair(jobs, q, s) && s.ready != [] && 0 < d <= q
    ensures Fair(jobs, q, Slice(s, 0, d))
  {
    var t := Slice(s, 0, d);
    forall p | 0 <= p < |t.ready|
      ensures OnTime(jobs, q, t, p)
    {
      SliceOnTime(jobs, q, s, d, p);
    }
    SliceFairSoFar(jobs, q, s, d);
  }

  /** The job that just ran goes to the back of the queue. */
  lemma RequeueFair(jobs: seq<Job>, q: int, s: State, i: nat)
    requires Fair(jobs, q, s) && q > 0 && i < |s.remaining| == |jobs| && i in s.first
    requires Distinct(s.ready) && i !in s.ready
    requires s.trace != [] && s.trace[|s.trace| - 1].job == i && s.trace[|s.trace| - 1].end == s.now
    ensures Fair(jobs, q, Requeue(s, i))
  {
    var t := Requeue(s, i);
    if s.remaining[i] != 0 {
      AppendMembers(s.ready, i);
      PigeonHole(t.ready, |jobs|);
      forall p | 0 <= p < |t.ready|
        ensures OnTime(jobs, q, t, p)
      {
        if p < |s.ready| {
          OnTimeFrame(jobs, q, s, t, p);
        } else {
          LastInQueue(jobs, q, s, t, p);
        }
      }
      hide OnTime;
    }
  }

  /** The job that just ran is on time wherever it is queued. */
  lemma LastInQueue(jobs: seq<Job>, q: int, s: State, t: State, p: nat)
    requires Fair(jobs, q, s) && q > 0 && p < |t.ready| <= |jobs| && t == s.(ready := t.ready)
    requires t.ready[p] < |jobs| && t.ready[p] in s.first
    requires s.trace != [] && s.trace[|s.trace| - 1].job == t.ready[p] && s.trace[|s.trace| - 1].end == s.now
    ensures OnTime(jobs, q, t, p)
  {
    hide FairSoFar;
    PlacesScale(p, |jobs| - 1, q);
    forall a | LastRun(t.trace, t.ready[p], a)
      ensures OnTimeSince(jobs, q, t, p, a)
    {
      assert a == |t.trace| - 1;
    }
  }

  lemma PlacesScale(p: int, m: int, q: int)
    requires p <= m && q > 0
    ensures p * q <= m * q
  {
    assert 0 <= (m - p) * q == m * q - p * q;
  }

  lemma TurnFair(jobs: seq<Job>, q: int, s: State, d: int)
    requires Inv(jobs, s, -1) && Fair(jobs, q, s) && s.ready != [] && 0 < d <= Min(q, s.remaining[s.ready[0]])
    requires s.pending == [] || jobs[s.pending[0]].arrival > s.now
    ensures Fair(jobs, q, Turn(jobs, s, 0, d))
  {
    var i, t := s.ready[0], Slice(s, 0, d);
    var x := if d == s.remaining[i] then -1 else i;
    assert Placed(jobs, s, -1, i);
    SliceKeepsInv(jobs, s, 0, d);
    SliceFair(jobs, q, s, d);
    RemoveAtMembers(s.ready, 0);
    ArriveFair(jobs, q, t, x, i);
    ArriveKeepsInv(jobs, t, x);
    ArriveKeepsFirst(jobs, t, i);
    RequeueFair(jobs, q, Arrive(jobs, t), i);
  }

  lemma {:induction false} ArriveKeepsFirst(jobs: seq<Job>, s: State, i: nat)
    requires Sorted(jobs, s.pending) && i in s.first
    ensures i in Arrive(jobs, s).first
    decreases |s.pending|
  {
    if s.pending != [] && jobs[s.pending[0]].arrival <= s.now {
      ArriveKeepsFirst(jobs, Admit(jobs, s), i);
    }
  }

  ghost predicate NotOverdue(jobs: seq<Job>, s: State)
    requires Sorted(jobs, s.pending)
  {
    forall k :: 0 <= k < |s.pending| ==> jobs[s.pending[k]].arrival >= s.now
  }

  lemma AwakeFair(jobs: seq<Job>, q: int, s: State)
    requires Inv(jobs, s, -1) && (s.pending != [] || s.ready != [])
    requires Fair(jobs, q, s) && NotOverdue(jobs, s)
    ensures Fair(jobs, q, Awake(jobs, s)) && Late(jobs, q, Awake(jobs, s), -1)
  {
  }

  lemma HeadFirst(jobs: seq<Job>, s: State)
    requires Sorted(jobs, s.pending) && (s.pending == [] || jobs[s.pending[0]].arrival > s.now)
    ensures NotOverdue(jobs, s)
  {
  }

  lemma IterateFair(jobs: seq<Job>, q: int, s: State)
    requires Inv(jobs, s, -1) && q > 0 && (s.pending != [] || s.ready != [])
    requires Fair(jobs, q, s) && NotOverdue(jobs, s)
    ensures var t := Iterate(jobs, Rr, q, s); Fair(jobs, q, t) && NotOverdue(jobs, t)
  {
    var a, p, d := IterateCases(jobs, Rr, q, s);
    AwakeKeepsInv(jobs, s);
    AwakeFair(jobs, q, s);
    ArriveFair(jobs, q, Awake(jobs, s), -1, -1);
    if a.ready != [] {
      TurnFair(jobs, q, a, d);
    }
    HeadFirst(jobs, Iterate(jobs, Rr, q, s));
  }

  lemma {:induction false} RunFair(jobs: seq<Job>, q: int, s: State)
    requires Inv(jobs, s, -1) && q > 0 && Fair(jobs, q, s) && NotOverdue(jobs, s)
    ensures Fair(jobs, q, Run(jobs, Rr, q, s))
    decreases Sum(s.remaining), |s.pending|
  {
    if s.pending != [] || s.ready != [] {
      IterateKeepsInv(jobs, Rr, q, s);
      RemainingNonNegative(jobs, s);
      IterateFair(jobs, q, s);
      RunFair(jobs, q, Iterate(jobs, Rr, q, s));
    }
  }

  /**
   For every job list and quantum: each job starts within (n - 1) * q of its arrival, waits at
   most (n - 1) * q between consecutive slices, and in between every other job runs at most once.
   */
  lemma RoundRobinIsFair(jobs: seq<Job>, q: int)
    requires ValidJobs(jobs) && q > 0
    ensures var f, bound := Final(jobs, Rr, q), (|jobs| - 1) * q;
            && (forall i :: 0 <= i < |jobs| ==> i in f.first && f.first[i] - jobs[i].arrival <= bound)
            && (forall a, b :: NextRun(f.trace, a, b) ==> FairGap(f.trace, a, b, bound))
  {
    InitInv(jobs);
    RunFair(jobs, q, Init(jobs));
    var f := Final(jobs, Rr, q);
    forall i | 0 <= i < |jobs|
      ensures i in f.first
    {
      assert Placed(jobs, f, -1, i);
    }
  }
}
