/**
 The event-driven scheduling simulator (experiments/scheduling.py): FCFS, non-preemptive
 SJF and round robin over an arbitrary job list. Time jumps over idle gaps and runs whole
 slices. Jobs are identified by their position in the input list.
 */
module Scheduling {
  import opened Util

  datatype Job = Job(name: string, arrival: int, service: int)

  datatype Policy = Fcfs | Sjf | Rr

  /** One entry of the trace: `job` ran during [start, end). */
  datatype Segment = Segment(job: nat, start: int, end: int)

  /** The local variables of `simulate`. */
  datatype State = State(
    pending: seq<nat>, ready: seq<nat>, remaining: seq<int>,
    first: map<nat, int>, done: map<nat, int>, trace: seq<Segment>, now: int)

  predicate ValidJobs(jobs: seq<Job>) {
    forall i :: 0 <= i < |jobs| ==> jobs[i].arrival >= 0 && jobs[i].service >= 0
  }

  /** The sort key of `pending`: arrival time, then input order. */
  predicate Before(jobs: seq<Job>, i: nat, j: nat)
    requires i < |jobs| && j < |jobs|
  {
    jobs[i].arrival < jobs[j].arrival || (jobs[i].arrival == jobs[j].arrival && i < j)
  }

  ghost predicate Sorted(jobs: seq<Job>, s: seq<nat>) {
    && Below(s, |jobs|)
    && (forall a, b :: 0 <= a < b < |s| ==> Before(jobs, s[a], s[b]))
  }

  lemma SortedCons(jobs: seq<Job>, h: nat, t: seq<nat>)
    requires h < |jobs| && Sorted(jobs, t) && forall k :: 0 <= k < |t| ==> Before(jobs, h, t[k])
    ensures Sorted(jobs, [h] + t)
  {
    var r := [h] + t;
    forall a, b | 0 <= a < b < |r|
      ensures Before(jobs, r[a], r[b])
    {
      assert r[b] == t[b - 1];
    }
  }

  /** Stable insertion: after every id that arrives no later. */
  function Insert(jobs: seq<Job>, s: seq<nat>, i: nat): (r: seq<nat>)
    requires i < |jobs| && Sorted(jobs, s) && Below(s, i)
    ensures Sorted(jobs, r) && (forall e :: e in r <==> e == i || e in s)
  {
    if s != [] && jobs[s[0]].arrival <= jobs[i].arrival then
      var t := Insert(jobs, s[1..], i);
      assert s == [s[0]] + s[1..];
      assert forall k :: 0 <= k < |t| ==> t[k] in t;
      SortedCons(jobs, s[0], t);
      [s[0]] + t
    else
      SortedCons(jobs, i, s);
      [i] + s
  }

  /** Ids 0..n in arrival order; ties keep the input order. */
  function ArrivalOrder(jobs: seq<Job>, n: nat): (r: seq<nat>)
    requires n <= |jobs|
    ensures Sorted(jobs, r) && (forall e :: e in r <==> 0 <= e < n)
  {
    if n == 0 then [] else
      var r := ArrivalOrder(jobs, n - 1);
      assert forall k :: 0 <= k < |r| ==> r[k] in r;
      Insert(jobs, r, n - 1)
  }

  function Services(jobs: seq<Job>): (r: seq<int>)
    ensures |r| == |jobs| && forall i :: 0 <= i < |jobs| ==> r[i] == jobs[i].service
  {
    seq(|jobs|, i requires 0 <= i < |jobs| => jobs[i].service)
  }

  function Init(jobs: seq<Job>): State {
    State(ArrivalOrder(jobs, |jobs|), [], Services(jobs), map[], map[], [], 0)
  }

  /** One round of `arrive`: the head of `pending` completes at once or becomes ready. */
  function Admit(jobs: seq<Job>, s: State): State
    requires s.pending != [] && s.pending[0] < |jobs|
  {
    var i := s.pending[0];
    var t := s.(pending := s.pending[1..]);
    if jobs[i].service == 0 then
      t.(first := s.first[i := jobs[i].arrival], done := s.done[i := jobs[i].arrival])
    else
      t.(ready := s.ready + [i])
  }

  function Arrive(jobs: seq<Job>, s: State): (r: State)
    requires Sorted(jobs, s.pending)
    ensures Sorted(jobs, r.pending) && (r.pending == [] || jobs[r.pending[0]].arrival > s.now)
    ensures r.now == s.now && r.remaining == s.remaining && r.trace == s.trace
    ensures |r.pending| <= |s.pending| && s.ready <= r.ready
    ensures s.pending != [] && jobs[s.pending[0]].arrival <= s.now ==> |r.pending| < |s.pending|
    decreases |s.pending|
  {
    if s.pending != [] && jobs[s.pending[0]].arrival <= s.now then Arrive(jobs, Admit(jobs, s)) else s
  }

  /** A pending job that is due. */
  predicate DueNow(jobs: seq<Job>, s: State, i: nat)
    requires Below(s.pending, |jobs|)
  {
    i in s.pending && jobs[i].arrival <= s.now
  }

  /** A due job leaves `pending`: with service it joins `ready`, without it is first run and done when it arrives. */
  ghost predicate Admitted(jobs: seq<Job>, s: State, r: State, i: nat)
    requires Below(s.pending, |jobs|)
  {
    var due := DueNow(jobs, s, i);
    var over := if due && jobs[i].service == 0 then Some(jobs[i].arrival) else None;
    && (i in r.pending <==> i in s.pending && !due)
    && (i in r.ready <==> i in s.ready || (due && jobs[i].service != 0))
    && Lookup(r.first, i) == (if over.Some? then over else Lookup(s.first, i))
    && Lookup(r.done, i) == (if over.Some? then over else Lookup(s.done, i))
  }

  /** Admission, job by job: exactly the due jobs are let in. */
  lemma {:induction false} ArriveAdmits(jobs: seq<Job>, s: State)
    requires Sorted(jobs, s.pending)
    ensures forall i: nat :: Admitted(jobs, s, Arrive(jobs, s), i)
    decreases |s.pending|
  {
    if s.pending != [] {
      PendingTail(jobs, s);
      if jobs[s.pending[0]].arrival <= s.now {
        ArriveAdmits(jobs, Admit(jobs, s));
        forall i: nat
          ensures Admitted(jobs, s, Arrive(jobs, s), i)
        {
          AdmittedThrough(jobs, s, Arrive(jobs, Admit(jobs, s)), i);
        }
      }
    }
  }

  lemma AdmittedThrough(jobs: seq<Job>, s: State, r: State, i: nat)
    requires Sorted(jobs, s.pending) && s.pending != [] && jobs[s.pending[0]].arrival <= s.now
    requires Admitted(jobs, Admit(jobs, s), r, i)
    ensures Admitted(jobs, s, r, i)
  {
    PendingTail(jobs, s);
    hide Sorted;
  }

  /** The head of `pending` is the only entry of its job, and no later entry arrives earlier. */
  lemma PendingTail(jobs: seq<Job>, s: State)
    requires Sorted(jobs, s.pending) && s.pending != []
    ensures s.pending[0] !in s.pending[1..]
    ensures forall i :: i in s.pending <==> i == s.pending[0] || i in s.pending[1..]
    ensures forall i :: i in s.pending ==> jobs[s.pending[0]].arrival <= jobs[i].arrival
  {
    assert s.pending == [s.pending[0]] + s.pending[1..];
  }

  /** The SJF key: least remaining service, then earliest arrival, then input order. */
  predicate Shorter(jobs: seq<Job>, remaining: seq<int>, i: nat, j: nat)
    requires i < |jobs| && j < |jobs| && |remaining| == |jobs|
  {
    remaining[i] < remaining[j] || (remaining[i] == remaining[j] && Before(jobs, i, j))
  }

  /** Position of the smallest SJF key in `ready`. */
  function Shortest(jobs: seq<Job>, remaining: seq<int>, ready: seq<nat>): (p: nat)
    requires |remaining| == |jobs| && ready != []
    requires Below(ready, |jobs|)
    ensures p < |ready|
    ensures forall k :: 0 <= k < |ready| && ready[k] != ready[p] ==> Shorter(jobs, remaining, ready[p], ready[k])
  {
    if |ready| == 1 then 0
    else
      var l := |ready| - 1;
      var p := Shortest(jobs, remaining, ready[..l]);
      assert forall k :: 0 <= k < l ==> ready[..l][k] == ready[k];
      if Shorter(jobs, remaining, ready[l], ready[p]) then l else p
  }

  function Pick(jobs: seq<Job>, policy: Policy, s: State): (p: nat)
    requires s.ready != [] && |s.remaining| == |jobs|
    requires Below(s.ready, |jobs|)
    ensures p < |s.ready| && (policy != Sjf ==> p == 0)
  {
    if policy == Sjf then Shortest(jobs, s.remaining, s.ready) else 0
  }

  function Duration(policy: Policy, quantum: int, left: int): int {
    if policy == Rr then Min(left, quantum) else left
  }

  /** Run the ready job at position p for d ticks; arrivals have not been looked at yet. */
  function Slice(s: State, p: nat, d: int): State
    requires p < |s.ready| && s.ready[p] < |s.remaining|
  {
    var i := s.ready[p];
    s.(ready := RemoveAt(s.ready, p),
       first := if i in s.first then s.first else s.first[i := s.now],
       trace := s.trace + [Segment(i, s.now, s.now + d)],
       now := s.now + d,
       remaining := s.remaining[i := s.remaining[i] - d],
       done := if s.remaining[i] == d then s.done[i := s.now + d] else s.done)
  }

  /** Run job i = ready[p] for d ticks, admit arrivals, and put i back if it is unfinished. */
  function Turn(jobs: seq<Job>, s: State, p: nat, d: int): State
    requires p < |s.ready| && s.ready[p] < |s.remaining| && Sorted(jobs, s.pending)
  {
    Requeue(Arrive(jobs, Slice(s, p, d)), s.ready[p])
  }

  function Requeue(s: State, i: nat): State
    requires i < |s.remaining|
  {
    if s.remaining[i] != 0 then s.(ready := s.ready + [i]) else s
  }

  /** Jump over an idle gap to the next arrival. */
  function Awake(jobs: seq<Job>, s: State): State
    requires Sorted(jobs, s.pending) && (s.ready != [] || s.pending != [])
  {
    if s.ready == [] then s.(now := Max(s.now, jobs[s.pending[0]].arrival)) else s
  }

  /**
   Where job i is: exactly one of pending, ready and done, except job x, which is on the CPU
   (x == -1 when no job is).
   */
  ghost predicate Placed(jobs: seq<Job>, s: State, x: int, i: nat)
    requires i < |jobs| && |s.remaining| == |jobs|
  {
    if i in s.done then
      i !in s.pending && i !in s.ready && i != x && Finished(jobs, s, i)
    else if i in s.pending then
      i !in s.ready && i != x && i !in s.first && s.remaining[i] == jobs[i].service
    else
      (i in s.ready) == (i != x) && (i == x ==> i in s.first) && Live(jobs, s, i)
  }

  /** An arrived job with service left. */
  ghost predicate Live(jobs: seq<Job>, s: State, i: nat)
    requires i < |jobs| && |s.remaining| == |jobs|
  {
    && 0 < s.remaining[i] <= jobs[i].service && jobs[i].arrival <= s.now
    && (i in s.first ==> jobs[i].arrival <= s.first[i] <= s.now)
  }

  ghost predicate Finished(jobs: seq<Job>, s: State, i: nat)
    requires i < |jobs| && |s.remaining| == |jobs| && i in s.done
  {
    s.remaining[i] == 0 && i in s.first && jobs[i].arrival <= s.first[i] <= s.done[i] <= s.now
  }

  ghost predicate Inv(jobs: seq<Job>, s: State, x: int) {
    && ValidJobs(jobs) && |s.remaining| == |jobs| && s.now >= 0 && -1 <= x < |jobs|
    && Sorted(jobs, s.pending) && Distinct(s.ready) && Below(s.ready, |jobs|)
    && (forall i :: i in s.done ==> i < |jobs|)
    && (forall i :: 0 <= i < |jobs| ==> Placed(jobs, s, x, i))
  }

  lemma InitInv(jobs: seq<Job>)
    requires ValidJobs(jobs)
    ensures Inv(jobs, Init(jobs), -1)
  {
  }

  lemma AdmitKeepsInv(jobs: seq<Job>, s: State, x: int)
    requires Inv(jobs, s, x) && s.pending != [] && jobs[s.pending[0]].arrival <= s.now
    ensures Inv(jobs, Admit(jobs, s), x)
  {
    var t := Admit(jobs, s);
    TailMembers(s.pending);
    AppendMembers(s.ready, s.pending[0]);
    assert Placed(jobs, s, x, s.pending[0]);
    forall i | 0 <= i < |jobs|
      ensures Placed(jobs, t, x, i)
    {
      assert Placed(jobs, s, x, i);
    }
  }

  lemma {:induction false} ArriveKeepsInv(jobs: seq<Job>, s: State, x: int)
    requires Inv(jobs, s, x)
    ensures Inv(jobs, Arrive(jobs, s), x)
    decreases |s.pending|
  {
    if s.pending != [] && jobs[s.pending[0]].arrival <= s.now {
      AdmitKeepsInv(jobs, s, x);
      ArriveKeepsInv(jobs, Admit(jobs, s), x);
    }
  }

  lemma SliceKeepsInv(jobs: seq<Job>, s: State, p: nat, d: int)
    requires Inv(jobs, s, -1) && p < |s.ready| && 0 < d <= s.remaining[s.ready[p]]
    requires s.pending == [] || jobs[s.pending[0]].arrival > s.now
    ensures Inv(jobs, Slice(s, p, d), if d == s.remaining[s.ready[p]] then -1 else s.ready[p])
  {
    var t := Slice(s, p, d);
    assert Placed(jobs, s, -1, s.ready[p]);
    RemoveAtMembers(s.ready, p);
    var x := if d == s.remaining[s.ready[p]] then -1 else s.ready[p];
    forall i | 0 <= i < |jobs|
      ensures Placed(jobs, t, x, i)
    {
      assert Placed(jobs, s, -1, i);
    }
  }

  lemma TurnKeepsInv(jobs: seq<Job>, s: State, p: nat, d: int)
    requires Inv(jobs, s, -1) && p < |s.ready| && 0 < d <= s.remaining[s.ready[p]]
    requires s.pending == [] || jobs[s.pending[0]].arrival > s.now
    ensures Inv(jobs, Turn(jobs, s, p, d), -1)
  {
    var i, e := s.ready[p], Slice(s, p, d);
    var x := if d == s.remaining[i] then -1 else i;
    SliceKeepsInv(jobs, s, p, d);
    ArriveKeepsInv(jobs, e, x);
    RequeueKeepsInv(jobs, Arrive(jobs, e), i, x);
  }

  lemma TurnWork(jobs: seq<Job>, s: State, p: nat, d: int)
    requires p < |s.ready| && s.ready[p] < |s.remaining| && Sorted(jobs, s.pending)
    ensures Sum(Turn(jobs, s, p, d).remaining) == Sum(s.remaining) - d
  {
    SumUpdate(s.remaining, s.ready[p], s.remaining[s.ready[p]] - d);
  }

  lemma RequeueKeepsInv(jobs: seq<Job>, s: State, i: nat, x: int)
    requires Inv(jobs, s, x) && i < |jobs| && x == if s.remaining[i] == 0 then -1 else i
    ensures Inv(jobs, Requeue(s, i), -1)
  {
    AppendMembers(s.ready, i);
    assert Placed(jobs, s, x, i);
    forall e | 0 <= e < |jobs|
      ensures Placed(jobs, Requeue(s, i), -1, e)
    {
      assert Placed(jobs, s, x, e);
    }
  }

  /** The loop body up to the selection: skip idle time, then admit what has arrived. */
  function Prepare(jobs: seq<Job>, s: State): State
    requires Sorted(jobs, s.pending) && (s.ready != [] || s.pending != [])
  {
    Arrive(jobs, Awake(jobs, s))
  }

  lemma PrepareKeepsInv(jobs: seq<Job>, s: State)
    requires Inv(jobs, s, -1) && (s.pending != [] || s.ready != [])
    ensures Inv(jobs, Prepare(jobs, s), -1)
    ensures var t := Prepare(jobs, s);
            && t.remaining == s.remaining
            && (t.ready == [] ==> |t.pending| < |s.pending|)
            && (t.pending == [] || jobs[t.pending[0]].arrival > t.now)
  {
    AwakeKeepsInv(jobs, s);
    ArriveKeepsInv(jobs, Awake(jobs, s), -1);
  }

  lemma AwakeKeepsInv(jobs: seq<Job>, s: State)
    requires Inv(jobs, s, -1) && (s.pending != [] || s.ready != [])
    ensures Inv(jobs, Awake(jobs, s), -1)
  {
    var t := Awake(jobs, s);
    forall i | 0 <= i < |jobs|
      ensures Placed(jobs, t, -1, i)
    {
      assert Placed(jobs, s, -1, i);
    }
  }

  /** One turn of the simulator's loop. */
  function Iterate(jobs: seq<Job>, policy: Policy, quantum: int, s: State): State
    requires Sorted(jobs, s.pending) && (s.pending != [] || s.ready != [])
    requires Inv(jobs, s, -1)
  {
    PrepareKeepsInv(jobs, s);
    var a := Prepare(jobs, s);
    if a.ready == [] then a
    else
      var p := Pick(jobs, policy, a);
      Turn(jobs, a, p, Duration(policy, quantum, a.remaining[a.ready[p]]))
  }

  /** What a turn does: it stops after `Prepare`, or runs the job picked, to its end or under Rr for at most a quantum. */
  lemma IterateCases(jobs: seq<Job>, policy: Policy, quantum: int, s: State) returns (a: State, p: nat, d: int)
    requires Inv(jobs, s, -1) && quantum > 0 && (s.pending != [] || s.ready != [])
    ensures a == Prepare(jobs, s) && Inv(jobs, a, -1) && a.remaining == s.remaining
    ensures a.pending == [] || jobs[a.pending[0]].arrival > a.now
    ensures a.ready == [] ==> Iterate(jobs, policy, quantum, s) == a && |a.pending| < |s.pending|
    ensures a.ready != [] ==>
              && p == Pick(jobs, policy, a) && p < |a.ready| && 0 < d <= a.remaining[a.ready[p]]
              && d == Duration(policy, quantum, a.remaining[a.ready[p]])
              && d == (if policy == Rr && a.remaining[a.ready[p]] > quantum then quantum else a.remaining[a.ready[p]])
              && Iterate(jobs, policy, quantum, s) == Turn(jobs, a, p, d)
  {
    PrepareKeepsInv(jobs, s);
    a, p, d := Prepare(jobs, s), 0, 0;
    if a.ready != [] {
      p := Pick(jobs, policy, a);
      assert Placed(jobs, a, -1, a.ready[p]);
      d := Duration(policy, quantum, a.remaining[a.ready[p]]);
    }
  }

  /** A turn keeps the invariant and shrinks (service left, arrivals left) lexicographically. */
  lemma IterateKeepsInv(jobs: seq<Job>, policy: Policy, quantum: int, s: State)
    requires Inv(jobs, s, -1) && quantum > 0 && (s.pending != [] || s.ready != [])
    ensures var t := Iterate(jobs, policy, quantum, s);
            && Inv(jobs, t, -1)
            && 0 <= Sum(t.remaining) <= Sum(s.remaining)
            && (Sum(t.remaining) < Sum(s.remaining) || |t.pending| < |s.pending|)
  {
    var a, p, d := IterateCases(jobs, policy, quantum, s);
    if a.ready != [] {
      TurnKeepsInv(jobs, a, p, d);
      TurnWork(jobs, a, p, d);
    }
    RemainingNonNegative(jobs, Iterate(jobs, policy, quantum, s));
  }

  lemma RemainingNonNegative(jobs: seq<Job>, s: State)
    requires Inv(jobs, s, -1)
    ensures Sum(s.remaining) >= 0
  {
    forall k | 0 <= k < |s.remaining|
      ensures s.remaining[k] >= 0
    {
      assert Placed(jobs, s, -1, k);
    }
    SumNonNegative(s.remaining);
  }

  /** The state in which the loop stops. */
  function Run(jobs: seq<Job>, policy: Policy, quantum: int, s: State): (r: State)
    requires Inv(jobs, s, -1) && quantum > 0
    ensures Inv(jobs, r, -1) && r.pending == [] && r.ready == []
    decreases Sum(s.remaining), |s.pending|
  {
    if s.pending == [] && s.ready == [] then s
    else
      IterateKeepsInv(jobs, policy, quantum, s);
      RemainingNonNegative(jobs, s);
      Run(jobs, policy, quantum, Iterate(jobs, policy, quantum, s))
  }

  function Final(jobs: seq<Job>, policy: Policy, quantum: int): (r: State)
    requires ValidJobs(jobs) && quantum > 0
    ensures Inv(jobs, r, -1) && r.pending == [] && r.ready == []
  {
    InitInv(jobs);
    Run(jobs, policy, quantum, Init(jobs))
  }
}
