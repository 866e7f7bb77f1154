/**
 What each policy of the event-driven simulator does, read off the trace alone: how long a segment
 lasts, and which job comes next. FCFS and SJF run every job in one piece; FCFS and RR serve a queue
 in order of entry; SJF takes the least job there is.
 */
module SchedulingPolicies {
  import opened Util
  import opened Scheduling
  import opened SchedulingMetrics

  /** The service of job i that is left after `trace`. */
  function Left(jobs: seq<Job>, trace: seq<Segment>, i: nat): int
    requires i < |jobs|
  {
    jobs[i].service - RanFor(trace, i)
  }

  /** How long a segment lasts: to the end of the job, or under Rr for one quantum if more than that is left. */
  predicate Sized(jobs: seq<Job>, policy: Policy, quantum: int, before: seq<Segment>, g: Segment)
    requires g.job < |jobs|
  {
    var left := Left(jobs, before, g.job);
    if policy == Rr && left > quantum then g.end == g.start + quantum else g.end == g.start + left
  }

  /** By service left, then arrival, then input order, no other job that had arrived and was unfinished came first. */
  ghost predicate LeastLeft(jobs: seq<Job>, before: seq<Segment>, g: Segment)
    requires g.job < |jobs|
  {
    forall j: nat :: j < |jobs| && j != g.job && jobs[j].arrival <= g.start && Left(jobs, before, j) > 0 ==>
                       var a, b := Left(jobs, before, g.job), Left(jobs, before, j);
                       || a < b
                       || (a == b && jobs[g.job].arrival < jobs[j].arrival)
                       || (a == b && jobs[g.job].arrival == jobs[j].arrival && g.job < j)
  }

  ghost predicate Explained(jobs: seq<Job>, policy: Policy, quantum: int, before: seq<Segment>, g: Segment) {
    && g.job < |jobs| && g.start < g.end && Left(jobs, before, g.job) > 0
    && Sized(jobs, policy, quantum, before, g)
    && (policy == Sjf ==> LeastLeft(jobs, before, g))
  }

  ghost predicate AllExplained(jobs: seq<Job>, policy: Policy, quantum: int, trace: seq<Segment>) {
    forall k :: 0 <= k < |trace| ==> Explained(jobs, policy, quantum, trace[..k], trace[k])
  }

  lemma OneMore(jobs: seq<Job>, policy: Policy, quantum: int, trace: seq<Segment>, g: Segment)
    requires AllExplained(jobs, policy, quantum, trace) && Explained(jobs, policy, quantum, trace, g)
    ensures AllExplained(jobs, policy, quantum, trace + [g])
  {
    forall k | 0 <= k <= |trace|
      ensures Explained(jobs, policy, quantum, (trace + [g])[..k], (trace + [g])[k])
    {
      assert (trace + [g])[..k] == trace[..k];
      if k == |trace| {
        assert trace[..k] == trace;
      }
    }
  }

  /** The segment a turn adds, when it runs job p of the queue from a. */
  lemma SegmentExplained(jobs: seq<Job>, policy: Policy, quantum: int, a: State, p: nat, d: int)
    requires Inv(jobs, a, -1) && AllTold(jobs, a) && quantum > 0 && a.ready != []
    requires a.pending == [] || jobs[a.pending[0]].arrival > a.now
    requires p == Pick(jobs, policy, a) && d == Duration(policy, quantum, a.remaining[a.ready[p]])
    ensures Explained(jobs, policy, quantum, a.trace, Segment(a.ready[p], a.now, a.now + d))
  {
    var i := a.ready[p];
    var g := Segment(i, a.now, a.now + d);
    assert Placed(jobs, a, -1, i) && Told(jobs, a, i);
    if policy == Sjf {
      forall j: nat | j < |jobs| && j != i && jobs[j].arrival <= a.now && Left(jobs, a.trace, j) > 0
        ensures Shorter(jobs, a.remaining, i, j) && Left(jobs, a.trace, j) == a.remaining[j]
      {
        assert Placed(jobs, a, -1, j) && Told(jobs, a, j);
        assert j in a.ready;
      }
      assert LeastLeft(jobs, a.trace, g);
    }
  }

  lemma IterateExplains(jobs: seq<Job>, policy: Policy, quantum: int, s: State)
    requires Inv(jobs, s, -1) && quantum > 0 && (s.pending != [] || s.ready != []) && AllTold(jobs, s)
    requires AllExplained(jobs, policy, quantum, s.trace)
    ensures AllExplained(jobs, policy, quantum, Iterate(jobs, policy, quantum, s).trace)
  {
    hide Told, Explained, AllExplained, Slice, Duration;
    var a, p, d := IterateCases(jobs, policy, quantum, s);
    RetimeTells(jobs, s, Awake(jobs, s));
    AwakeKeepsInv(jobs, s);
    ArriveTells(jobs, Awake(jobs, s));
    if a.ready != [] {
      SegmentExplained(jobs, policy, quantum, a, p, d);
      OneMore(jobs, policy, quantum, a.trace, Segment(a.ready[p], a.now, a.now + d));
      TurnTrace(jobs, a, p, d);
    }
  }

  lemma TurnTrace(jobs: seq<Job>, a: State, p: nat, d: int)
    requires p < |a.ready| && a.ready[p] < |a.remaining| && Sorted(jobs, a.pending)
    ensures Turn(jobs, a, p, d).trace == a.trace + [Segment(a.ready[p], a.now, a.now + d)]
  {
  }

  lemma {:induction false} RunExplains(jobs: seq<Job>, policy: Policy, quantum: int, s: State)
    requires Inv(jobs, s, -1) && quantum > 0 && AllTold(jobs, s) && AllExplained(jobs, policy, quantum, s.trace)
    ensures AllExplained(jobs, policy, quantum, Run(jobs, policy, quantum, s).trace)
    decreases Sum(s.remaining), |s.pending|
  {
    hide Told, Explained;
    if s.pending != [] || s.ready != [] {
      IterateKeepsInv(jobs, policy, quantum, s);
      RemainingNonNegative(jobs, s);
      IterateTells(jobs, policy, quantum, s);
      IterateExplains(jobs, policy, quantum, s);
      RunExplains(jobs, policy, quantum, Iterate(jobs, policy, quantum, s));
    }
  }

  /** Every segment of every run has the length its policy gives it, and under SJF the least job is run. */
  lemma TraceIsExplained(jobs: seq<Job>, policy: Policy, quantum: int)
    requires ValidJobs(jobs) && quantum > 0
    ensures AllExplained(jobs, policy, quantum, Final(jobs, policy, quantum).trace)
  {
    InitInv(jobs);
    InitTells(jobs);
    RunExplains(jobs, policy, quantum, Init(jobs));
  }

  /* How often a job runs. */

  lemma {:induction false} RanForGrows(jobs: seq<Job>, policy: Policy, quantum: int, trace: seq<Segment>, k: nat, l: nat, i: nat)
    requires AllExplained(jobs, policy, quantum, trace) && k <= l <= |trace|
    ensures RanFor(trace[..k], i) <= RanFor(trace[..l], i)
    decreases l
  {
    if k < l {
      RanForGrows(jobs, policy, quantum, trace, k, l - 1, i);
      assert trace[..l][..l - 1] == trace[..l - 1];
      assert Explained(jobs, policy, quantum, trace[..l - 1], trace[l - 1]);
    }
  }

  /** A segment with a later one of its job left something to do. */
  lemma LaterSegment(jobs: seq<Job>, policy: Policy, quantum: int, trace: seq<Segment>, k: nat, l: nat)
    requires AllExplained(jobs, policy, quantum, trace) && k < l < |trace| && trace[k].job == trace[l].job
    ensures policy == Rr && trace[k].end == trace[k].start + quantum
  {
    assert Explained(jobs, policy, quantum, trace[..k], trace[k]) && Explained(jobs, policy, quantum, trace[..l], trace[l]);
    RanForGrows(jobs, policy, quantum, trace, k + 1, l, trace[k].job);
    assert trace[..k + 1][..k] == trace[..k];
  }

  lemma {:induction false} RunsSomewhere(trace: seq<Segment>, i: nat) returns (k: nat)
    requires RanFor(trace, i) != 0
    ensures k < |trace| && trace[k].job == i
  {
    var l := |trace| - 1;
    if trace[l].job == i {
      k := l;
    } else {
      k := RunsSomewhere(trace[..l], i);
    }
  }

  /** Segment k is the only one of job i and serves all of it. */
  ghost predicate RunsWhole(jobs: seq<Job>, trace: seq<Segment>, i: nat, k: nat) {
    && k < |trace| && i < |jobs| && trace[k].job == i && trace[k].end == trace[k].start + jobs[i].service
    && forall l :: 0 <= l < |trace| && trace[l].job == i ==> l == k
  }

  /** FCFS and SJF: each job with service has exactly one segment, of the length of its service. */
  lemma OneSegmentEach(jobs: seq<Job>, policy: Policy, quantum: int, i: nat) returns (k: nat)
    requires ValidJobs(jobs) && quantum > 0 && policy != Rr && i < |jobs| && jobs[i].service > 0
    ensures RunsWhole(jobs, Final(jobs, policy, quantum).trace, i, k)
  {
    hide Told, Inv;
    TraceIsExplained(jobs, policy, quantum);
    ReportIsTheTrace(jobs, policy, quantum, i);
    var trace := Final(jobs, policy, quantum).trace;
    k := RunsSomewhere(trace, i);
    forall l | 0 <= l < |trace| && trace[l].job == i
      ensures l == k
    {
      if l < k {
        LaterSegment(jobs, policy, quantum, trace, l, k);
      } else if k < l {
        LaterSegment(jobs, policy, quantum, trace, k, l);
      }
    }
    assert Explained(jobs, policy, quantum, trace[..k], trace[k]);
    if RanFor(trace[..k], i) != 0 {
      var l := RunsSomewhere(trace[..k], i);
    }
  }

  /** RR: every segment of a job but its last is exactly one quantum long, and the last is no longer. */
  lemma FullQuanta(jobs: seq<Job>, quantum: int, k: nat)
    requires ValidJobs(jobs) && quantum > 0 && k < |Final(jobs, Rr, quantum).trace|
    ensures var trace := Final(jobs, Rr, quantum).trace;
            && trace[k].start < trace[k].end <= trace[k].start + quantum
            && ((exists l :: k < l < |trace| && trace[l].job == trace[k].job) ==> trace[k].end == trace[k].start + quantum)
  {
    TraceIsExplained(jobs, Rr, quantum);
    var trace := Final(jobs, Rr, quantum).trace;
    assert Explained(jobs, Rr, quantum, trace[..k], trace[k]);
    if l :| k < l < |trace| && trace[l].job == trace[k].job {
      LaterSegment(jobs, Rr, quantum, trace, k, l);
    }
  }

  /** SJF: a job that runs is least, by service, arrival and input order, among those that have arrived and not run. */
  lemma SjfTakesLeast(jobs: seq<Job>, quantum: int, k: nat, j: nat)
    requires ValidJobs(jobs) && quantum > 0 && k < |Final(jobs, Sjf, quantum).trace| && j < |jobs|
    requires var trace := Final(jobs, Sjf, quantum).trace;
             && jobs[j].arrival <= trace[k].start && jobs[j].service > 0
             && forall l :: 0 <= l <= k ==> trace[l].job != j
    ensures var i := Final(jobs, Sjf, quantum).trace[k].job;
            && i < |jobs|
            && (jobs[i].service < jobs[j].service
                || (jobs[i].service == jobs[j].service && jobs[i].arrival < jobs[j].arrival)
                || (jobs[i].service == jobs[j].service && jobs[i].arrival == jobs[j].arrival && i < j))
  {
    TraceIsExplained(jobs, Sjf, quantum);
    var trace := Final(jobs, Sjf, quantum).trace;
    assert Explained(jobs, Sjf, quantum, trace[..k], trace[k]);
    var i := trace[k].job;
    if RanFor(trace[..k], i) != 0 {
      var l := RunsSomewhere(trace[..k], i);
      LaterSegment(jobs, Sjf, quantum, trace, l, k);
    }
    if RanFor(trace[..k], j) != 0 {
      var l := RunsSomewhere(trace[..k], j);
    }
  }

  /* The order of the queue under FCFS and RR. */

  /** When a job entered the queue, whether it came back from a run, and its input position. */
  datatype Place = Place(time: int, again: bool, job: nat)

  /** The queue's order: by time, arrivals before the job that just ran, arrivals in input order. */
  predicate Earlier(a: Place, b: Place) {
    || a.time < b.time
    || (a.time == b.time && !a.again && b.again)
    || (a.time == b.time && !a.again && !b.again && a.job < b.job)
  }

  /** Job i's latest entry to the queue after `trace`: the end of its last segment, or its arrival. */
  function PlaceOf(jobs: seq<Job>, trace: seq<Segment>, i: nat): Place {
    match LastEnd(trace, i)
    case Some(end) => Place(end, true, i)
    case None => Place(if i < |jobs| then jobs[i].arrival else 0, false, i)
  }

  /** Entries of what has been served and then of what is queued. */
  function Line(jobs: seq<Job>, s: State): (r: seq<Place>)
    ensures |r| == |s.trace| + |s.ready|
    ensures forall n :: 0 <= n < |s.trace| ==> r[n] == PlaceOf(jobs, s.trace[..n], s.trace[n].job)
    ensures forall n :: |s.trace| <= n < |r| ==> r[n] == PlaceOf(jobs, s.trace, s.ready[n - |s.trace|])
  {
    seq(|s.trace|, n requires 0 <= n < |s.trace| => PlaceOf(jobs, s.trace[..n], s.trace[n].job))
    + seq(|s.ready|, n requires 0 <= n < |s.ready| => PlaceOf(jobs, s.trace, s.ready[n]))
  }

  ghost predicate Increasing(line: seq<Place>) {
    forall m, n :: 0 <= m < n < |line| ==> Earlier(line[m], line[n])
  }

  ghost predicate AllEarlier(line: seq<Place>, e: Place) {
    forall n :: 0 <= n < |line| ==> Earlier(line[n], e)
  }

  /** Everyone in line is in order, and those still to come are new and go behind. */
  ghost predicate InLine(jobs: seq<Job>, s: State) {
    && Increasing(Line(jobs, s)) && Below(s.pending, |jobs|)
    && forall q :: 0 <= q < |s.pending| ==>
                     LastEnd(s.trace, s.pending[q]).None? && AllEarlier(Line(jobs, s), PlaceOf(jobs, s.trace, s.pending[q]))
  }

  /** Nobody entered after `now`; with `strict`, nobody came back from a run just now. */
  ghost predicate Entered(line: seq<Place>, now: int, strict: bool) {
    forall n :: 0 <= n < |line| ==> line[n].time <= now && (strict && line[n].again ==> line[n].time < now)
  }

  lemma JoinLine(line: seq<Place>, e: Place)
    requires Increasing(line) && AllEarlier(line, e)
    ensures Increasing(line + [e])
  {
  }

  lemma AdmitInLine(jobs: seq<Job>, s: State)
    requires InLine(jobs, s) && Sorted(jobs, s.pending) && s.pending != [] && jobs[s.pending[0]].arrival <= s.now
    requires Entered(Line(jobs, s), s.now, true)
    ensures InLine(jobs, Admit(jobs, s)) && Entered(Line(jobs, Admit(jobs, s)), s.now, true)
  {
    var i, t := s.pending[0], Admit(jobs, s);
    if jobs[i].service == 0 {
      assert Line(jobs, t) == Line(jobs, s);
    } else {
      assert Line(jobs, t) == Line(jobs, s) + [PlaceOf(jobs, s.trace, i)];
      JoinLine(Line(jobs, s), PlaceOf(jobs, s.trace, i));
    }
    forall q | 0 <= q < |t.pending|
      ensures LastEnd(t.trace, t.pending[q]).None? && AllEarlier(Line(jobs, t), PlaceOf(jobs, t.trace, t.pending[q]))
    {
      assert t.pending[q] == s.pending[q + 1];
      assert Before(jobs, s.pending[0], s.pending[q + 1]);
    }
  }

  lemma {:induction false} ArriveInLine(jobs: seq<Job>, s: State)
    requires InLine(jobs, s) && Sorted(jobs, s.pending) && Entered(Line(jobs, s), s.now, true)
    ensures InLine(jobs, Arrive(jobs, s)) && Entered(Line(jobs, Arrive(jobs, s)), s.now, true)
    decreases |s.pending|
  {
    hide InLine, Entered;
    if s.pending != [] && jobs[s.pending[0]].arrival <= s.now {
      AdmitInLine(jobs, s);
      PendingTail(jobs, s);
      ArriveInLine(jobs, Admit(jobs, s));
    }
  }

  /** Running the head of the queue moves nobody in line. */
  lemma SliceLine(jobs: seq<Job>, s: State, d: int)
    requires Distinct(s.ready) && s.ready != [] && s.ready[0] < |s.remaining|
    ensures Line(jobs, Slice(s, 0, d)) == Line(jobs, s)
  {
    hide Slice, Line;
    assert |Line(jobs, Slice(s, 0, d))| == |Line(jobs, s)| by {
      SliceCounts(s, d);
    }
    forall n | 0 <= n < |Line(jobs, s)|
      ensures Line(jobs, Slice(s, 0, d))[n] == Line(jobs, s)[n]
    {
      SamePlace(jobs, s, d, n);
    }
  }

  lemma SliceCounts(s: State, d: int)
    requires s.ready != [] && s.ready[0] < |s.remaining|
    ensures |Slice(s, 0, d).trace| == |s.trace| + 1 && |Slice(s, 0, d).ready| == |s.ready| - 1
    ensures forall p :: 1 <= p < |s.ready| ==> Slice(s, 0, d).ready[p - 1] == s.ready[p]
    ensures Slice(s, 0, d).pending == s.pending && Slice(s, 0, d).now == s.now + d
    ensures Slice(s, 0, d).trace == s.trace + [Segment(s.ready[0], s.now, s.now + d)]
  {
  }

  /** It leaves every entry in the past. */
  lemma SliceInLine(jobs: seq<Job>, s: State, d: int)
    requires Inv(jobs, s, -1) && InLine(jobs, s) && Entered(Line(jobs, s), s.now, false) && s.ready != [] && d > 0
    ensures var t := Slice(s, 0, d);
            && InLine(jobs, t) && Entered(Line(jobs, t), t.now, true) && LastEnd(t.trace, s.ready[0]) == Some(t.now)
  {
    hide Slice, Line, Earlier, LastEnd, Increasing;
    var t, g := Slice(s, 0, d), Segment(s.ready[0], s.now, s.now + d);
    SliceLine(jobs, s, d);
    SliceCounts(s, d);
    TraceGrows(s.trace, g, s.ready[0]);
    forall q | 0 <= q < |t.pending|
      ensures LastEnd(t.trace, t.pending[q]) == LastEnd(s.trace, s.pending[q])
    {
      assert s.pending[q] in s.pending && Placed(jobs, s, -1, s.pending[q]);
      TraceGrows(s.trace, g, s.pending[q]);
    }
  }

  lemma SamePlace(jobs: seq<Job>, s: State, d: int, n: nat)
    requires Distinct(s.ready) && s.ready != [] && s.ready[0] < |s.remaining| && n < |s.trace| + |s.ready|
    ensures n < |Line(jobs, Slice(s, 0, d))| && Line(jobs, Slice(s, 0, d))[n] == Line(jobs, s)[n]
  {
    hide Slice, LastEnd;
    var t, g := Slice(s, 0, d), Segment(s.ready[0], s.now, s.now + d);
    SliceCounts(s, d);
    if n < |s.trace| {
      assert t.trace[..n] == s.trace[..n];
    } else if n == |s.trace| {
      assert t.trace[..n] == s.trace;
    } else {
      hide PlaceOf;
      OtherPlace(jobs, s.trace, g, s.ready[n - |s.trace|]);
    }
  }

  lemma OtherPlace(jobs: seq<Job>, trace: seq<Segment>, g: Segment, i: nat)
    requires g.job != i
    ensures PlaceOf(jobs, trace + [g], i) == PlaceOf(jobs, trace, i)
  {
    TraceGrows(trace, g, i);
  }

  /** The job that ran goes behind everyone who arrived meanwhile. */
  lemma RequeueInLine(jobs: seq<Job>, s: State, i: nat)
    requires i < |s.remaining| && InLine(jobs, s) && Entered(Line(jobs, s), s.now, true) && LastEnd(s.trace, i) == Some(s.now)
    requires Sorted(jobs, s.pending) && (s.pending == [] || jobs[s.pending[0]].arrival > s.now)
    ensures InLine(jobs, Requeue(s, i)) && Entered(Line(jobs, Requeue(s, i)), s.now, false)
  {
    var t := Requeue(s, i);
    if s.remaining[i] != 0 {
      assert Line(jobs, t) == Line(jobs, s) + [PlaceOf(jobs, s.trace, i)];
      JoinLine(Line(jobs, s), PlaceOf(jobs, s.trace, i));
      forall q | 0 <= q < |t.pending|
        ensures LastEnd(t.trace, t.pending[q]).None? && AllEarlier(Line(jobs, t), PlaceOf(jobs, t.trace, t.pending[q]))
      {
        assert q > 0 ==> Before(jobs, s.pending[0], s.pending[q]);
      }
    }
  }

  lemma TurnInLine(jobs: seq<Job>, s: State, d: int)
    requires Inv(jobs, s, -1) && InLine(jobs, s) && Entered(Line(jobs, s), s.now, false)
    requires s.ready != [] && 0 < d <= s.remaining[s.ready[0]]
    requires s.pending == [] || jobs[s.pending[0]].arrival > s.now
    ensures var t := Turn(jobs, s, 0, d); InLine(jobs, t) && Entered(Line(jobs, t), t.now, false)
  {
    hide Slice, InLine, Entered, Line, LastEnd, Placed;
    var t := Slice(s, 0, d);
    SliceKeepsInv(jobs, s, 0, d);
    SliceInLine(jobs, s, d);
    ArriveInLine(jobs, t);
    RequeueInLine(jobs, Arrive(jobs, t), s.ready[0]);
  }

  /** A loop head: nobody is overdue, except before the first turn. */
  ghost predicate AtHead(jobs: seq<Job>, s: State) {
    && InLine(jobs, s) && Entered(Line(jobs, s), s.now, false)
    && (s.pending == [] || jobs[s.pending[0]].arrival > s.now || Line(jobs, s) == [])
  }

  lemma PrepareInLine(jobs: seq<Job>, s: State)
    requires Sorted(jobs, s.pending) && AtHead(jobs, s) && (s.pending != [] || s.ready != [])
    ensures AtHead(jobs, Prepare(jobs, s))
  {
    var t := Awake(jobs, s);
    assert Line(jobs, t) == Line(jobs, s);
    if s.ready == [] || Line(jobs, s) == [] {
      assert Entered(Line(jobs, t), t.now, true);
      ArriveInLine(jobs, t);
    }
  }

  lemma IterateInLine(jobs: seq<Job>, policy: Policy, quantum: int, s: State)
    requires Inv(jobs, s, -1) && quantum > 0 && policy != Sjf && (s.pending != [] || s.ready != []) && AtHead(jobs, s)
    ensures AtHead(jobs, Iterate(jobs, policy, quantum, s))
  {
    hide Turn, Entered, InLine, Line;
    var a, p, d := IterateCases(jobs, policy, quantum, s);
    PrepareInLine(jobs, s);
    if a.ready != [] {
      TurnInLine(jobs, a, d);
      TurnHead(jobs, a, d);
    }
  }

  lemma TurnHead(jobs: seq<Job>, s: State, d: int)
    requires s.ready != [] && s.ready[0] < |s.remaining| && Sorted(jobs, s.pending)
    ensures var t := Turn(jobs, s, 0, d);
            Sorted(jobs, t.pending) && (t.pending == [] || jobs[t.pending[0]].arrival > t.now)
  {
  }

  lemma {:induction false} RunInLine(jobs: seq<Job>, policy: Policy, quantum: int, s: State)
    requires Inv(jobs, s, -1) && quantum > 0 && policy != Sjf && AtHead(jobs, s)
    ensures InLine(jobs, Run(jobs, policy, quantum, s))
    decreases Sum(s.remaining), |s.pending|
  {
    hide InLine, Entered, Line;
    if s.pending != [] || s.ready != [] {
      IterateKeepsInv(jobs, policy, quantum, s);
      RemainingNonNegative(jobs, s);
      IterateInLine(jobs, policy, quantum, s);
      RunInLine(jobs, policy, quantum, Iterate(jobs, policy, quantum, s));
    }
  }

  lemma StartsAtHead(jobs: seq<Job>)
    ensures AtHead(jobs, Init(jobs))
  {
  }

  /**
   FCFS and RR serve in order of entry to the queue: by time, arrivals before the job that just ran,
   arrivals at one time in input order. This fixes which job every segment belongs to.
   */
  lemma ServedInOrder(jobs: seq<Job>, policy: Policy, quantum: int, k: nat, l: nat)
    requires ValidJobs(jobs) && quantum > 0 && policy != Sjf && k < l < |Final(jobs, policy, quantum).trace|
    ensures var trace := Final(jobs, policy, quantum).trace;
            Earlier(PlaceOf(jobs, trace[..k], trace[k].job), PlaceOf(jobs, trace[..l], trace[l].job))
  {
    hide Earlier, PlaceOf;
    InitInv(jobs);
    StartsAtHead(jobs);
    RunInLine(jobs, policy, quantum, Init(jobs));
    var f := Final(jobs, policy, quantum);
    assert Earlier(Line(jobs, f)[k], Line(jobs, f)[l]);
  }

  /** FCFS: the segments follow arrival and then input order. */
  lemma FcfsFollowsArrivals(jobs: seq<Job>, quantum: int, k: nat, l: nat)
    requires ValidJobs(jobs) && quantum > 0 && k < l < |Final(jobs, Fcfs, quantum).trace|
    ensures var i, j := Final(jobs, Fcfs, quantum).trace[k].job, Final(jobs, Fcfs, quantum).trace[l].job;
            && i < |jobs| && j < |jobs|
            && (jobs[i].arrival < jobs[j].arrival || (jobs[i].arrival == jobs[j].arrival && i < j))
  {
    hide Inv;
    TraceIsExplained(jobs, Fcfs, quantum);
    ServedInOrder(jobs, Fcfs, quantum, k, l);
    var trace := Final(jobs, Fcfs, quantum).trace;
    FirstRun(jobs, quantum, trace, k);
    FirstRun(jobs, quantum, trace, l);
  }

  lemma FirstRun(jobs: seq<Job>, quantum: int, trace: seq<Segment>, k: nat)
    requires AllExplained(jobs, Fcfs, quantum, trace) && k < |trace|
    ensures trace[k].job < |jobs| && PlaceOf(jobs, trace[..k], trace[k].job) == Place(jobs[trace[k].job].arrival, false, trace[k].job)
  {
    assert Explained(jobs, Fcfs, quantum, trace[..k], trace[k]);
    forall m | 0 <= m < k
      ensures trace[m].job != trace[k].job
    {
      if trace[m].job == trace[k].job {
        LaterSegment(jobs, Fcfs, quantum, trace, m, k);
      }
    }
    NeverRan(trace[..k], trace[k].job);
  }
}
