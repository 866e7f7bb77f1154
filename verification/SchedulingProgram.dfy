/**
 `simulate` of experiments/scheduling.py as the program it is: input checks, a loop that updates
 its queues in place, and the two closing assertions, proved against the model in `Scheduling`.
 */
module SchedulingProgram {
  import opened Util
  import opened Scheduling
  import opened SchedulingWork
  import opened SchedulingMetrics

  datatype Error = InvalidPolicyOrQuantum | DuplicateJobId | NegativeArrivalOrService

  datatype Metric = Metric(response: int, turnaround: int)

  datatype Entry = Entry(name: string, start: int, end: int)

  datatype Report = Report(metrics: map<string, Metric>, trace: seq<Entry>)

  function PolicyNamed(name: string): Option<Policy> {
    match name
    case "fcfs" => Some(Fcfs)
    case "sjf" => Some(Sjf)
    case "rr" => Some(Rr)
    case _ => None
  }

  predicate UniqueNames(jobs: seq<Job>) {
    forall a, b :: 0 <= a < b < |jobs| ==> jobs[a].name != jobs[b].name
  }

  /** Total time covered by the trace: its first closing assertion compares it with all service. */
  function Executed(trace: seq<Segment>): int {
    if trace == [] then 0
    else Executed(trace[..|trace| - 1]) + trace[|trace| - 1].end - trace[|trace| - 1].start
  }

  lemma TurnExecuted(jobs: seq<Job>, s: State, p: nat, d: int)
    requires p < |s.ready| && s.ready[p] < |s.remaining| && Sorted(jobs, s.pending)
    ensures Executed(Turn(jobs, s, p, d).trace) == Executed(s.trace) + d
  {
    assert (s.trace + [Segment(s.ready[p], s.now, s.now + d)])[..|s.trace|] == s.trace;
  }

  lemma IterateKeepsExecuted(jobs: seq<Job>, policy: Policy, quantum: int, s: State)
    requires Inv(jobs, s, -1) && quantum > 0 && (s.pending != [] || s.ready != [])
    ensures var t := Iterate(jobs, policy, quantum, s);
            Executed(t.trace) + Sum(t.remaining) == Executed(s.trace) + Sum(s.remaining)
  {
    var a, p, d := IterateCases(jobs, policy, quantum, s);
    if a.ready != [] {
      TurnWork(jobs, a, p, d);
      TurnExecuted(jobs, a, p, d);
    }
  }

  lemma {:induction false} RunKeepsExecuted(jobs: seq<Job>, policy: Policy, quantum: int, s: State)
    requires Inv(jobs, s, -1) && quantum > 0
    ensures var f := Run(jobs, policy, quantum, s);
            Executed(f.trace) + Sum(f.remaining) == Executed(s.trace) + Sum(s.remaining)
    decreases Sum(s.remaining), |s.pending|
  {
    if s.pending != [] || s.ready != [] {
      IterateKeepsInv(jobs, policy, quantum, s);
      RemainingNonNegative(jobs, s);
      IterateKeepsExecuted(jobs, policy, quantum, s);
      RunKeepsExecuted(jobs, policy, quantum, Iterate(jobs, policy, quantum, s));
    }
  }

  /** All jobs have both times, in the order the second closing assertion asks for. */
  ghost predicate Reportable(jobs: seq<Job>, f: State) {
    && (forall i :: 0 <= i < |jobs| ==>
          i in f.first && i in f.done && jobs[i].arrival <= f.first[i] <= f.done[i])
    && forall k :: 0 <= k < |f.trace| ==> f.trace[k].job < |jobs|
  }

  /** Both closing assertions of `simulate` hold for every input it accepts. */
  lemma ClosingAssertions(jobs: seq<Job>, policy: Policy, quantum: int)
    requires ValidJobs(jobs) && quantum > 0
    ensures Executed(Final(jobs, policy, quantum).trace) == Sum(Services(jobs))
    ensures Reportable(jobs, Final(jobs, policy, quantum))
  {
    InitInv(jobs);
    RunKeepsExecuted(jobs, policy, quantum, Init(jobs));
    BusyTime(jobs, policy, quantum);
    var f := Final(jobs, policy, quantum);
    forall i | 0 <= i < |jobs|
      ensures i in f.first && i in f.done && jobs[i].arrival <= f.first[i] <= f.done[i] && f.remaining[i] == 0
    {
      assert Placed(jobs, f, -1, i);
    }
    forall k | 0 <= k < |f.trace|
      ensures f.trace[k].job < |jobs|
    {
      assert SegmentOk(jobs, f, f.trace[k]);
    }
    SumOfZeros(f.remaining);
  }

  function Metrics(jobs: seq<Job>, f: State): map<string, Metric>
    requires UniqueNames(jobs) && Reportable(jobs, f)
  {
    map i | 0 <= i < |jobs| :: jobs[i].name := Metric(f.first[i] - jobs[i].arrival, f.done[i] - jobs[i].arrival)
  }

  /** The value `simulate` returns, read off the final state. */
  function ReportOf(jobs: seq<Job>, f: State): Report
    requires UniqueNames(jobs) && Reportable(jobs, f)
  {
    Report(
      Metrics(jobs, f),
      seq(|f.trace|, k requires 0 <= k < |f.trace| =>
        Entry(jobs[f.trace[k].job].name, f.trace[k].start, f.trace[k].end)))
  }

  /** Entry k is the first by this name. */
  ghost predicate FirstBy(trace: seq<Entry>, name: string, k: nat) {
    k < |trace| && trace[k].name == name && forall l :: 0 <= l < k ==> trace[l].name != name
  }

  ghost predicate LastBy(trace: seq<Entry>, name: string, k: nat) {
    k < |trace| && trace[k].name == name && forall l :: k < l < |trace| ==> trace[l].name != name
  }

  /** The two metrics of a job, read off the reported trace. */
  ghost predicate ReadOff(j: Job, m: Metric, trace: seq<Entry>) {
    if j.service == 0 then
      m.response == 0 && m.turnaround == 0 && forall k :: 0 <= k < |trace| ==> trace[k].name != j.name
    else
      && (exists k: nat :: FirstBy(trace, j.name, k) && j.arrival + m.response == trace[k].start)
      && (exists k: nat :: LastBy(trace, j.name, k) && j.arrival + m.turnaround == trace[k].end)
  }

  /** The reported trace is the run's, by name. */
  ghost predicate Shows(jobs: seq<Job>, trace: seq<Segment>, shown: seq<Entry>) {
    && |shown| == |trace|
    && forall k :: 0 <= k < |trace| ==>
                     trace[k].job < |jobs| && shown[k] == Entry(jobs[trace[k].job].name, trace[k].start, trace[k].end)
  }

  /** Every name has metrics and nothing else has, and they are those of the reported trace. */
  ghost predicate Consistent(jobs: seq<Job>, r: Report) {
    && r.metrics.Keys == (set i | 0 <= i < |jobs| :: jobs[i].name)
    && forall i :: 0 <= i < |jobs| ==> jobs[i].name in r.metrics && ReadOff(jobs[i], r.metrics[jobs[i].name], r.trace)
  }

  /** Under every policy the returned report is that of the run's trace. */
  lemma ReportIsConsistent(jobs: seq<Job>, policy: Policy, quantum: int)
    requires ValidJobs(jobs) && quantum > 0 && UniqueNames(jobs)
    requires Reportable(jobs, Final(jobs, policy, quantum))
    ensures var f := Final(jobs, policy, quantum);
            Shows(jobs, f.trace, ReportOf(jobs, f).trace) && Consistent(jobs, ReportOf(jobs, f))
  {
    hide Inv, Reportable, Metrics, ReportOf;
    var f := Final(jobs, policy, quantum);
    var r := ReportOf(jobs, f);
    TraceOf(jobs, f);
    NamesOf(jobs, f);
    forall i | 0 <= i < |jobs|
      ensures ReadOff(jobs[i], r.metrics[jobs[i].name], r.trace)
    {
      MetricsOf(jobs, f, i);
      ReportIsTheTrace(jobs, policy, quantum, i);
      JobReadOff(jobs, f.trace, r.trace, i, r.metrics[jobs[i].name]);
    }
  }

  lemma JobReadOff(jobs: seq<Job>, trace: seq<Segment>, shown: seq<Entry>, i: nat, m: Metric)
    requires UniqueNames(jobs) && Shows(jobs, trace, shown) && i < |jobs|
    requires if jobs[i].service == 0 then m.response == 0 && m.turnaround == 0 && FirstStart(trace, i).None?
             else FirstStart(trace, i) == Some(jobs[i].arrival + m.response)
                  && LastEnd(trace, i) == Some(jobs[i].arrival + m.turnaround)
    ensures ReadOff(jobs[i], m, shown)
  {
    forall k | 0 <= k < |trace|
      ensures shown[k].name == jobs[i].name <==> trace[k].job == i
    {
    }
    if jobs[i].service == 0 {
      NeverRan(trace, i);
    } else {
      var first := FirstAt(trace, i);
      var last := LastAt(trace, i);
      assert FirstBy(shown, jobs[i].name, first) && LastBy(shown, jobs[i].name, last);
    }
  }

  lemma MetricsOf(jobs: seq<Job>, f: State, i: nat)
    requires UniqueNames(jobs) && Reportable(jobs, f) && i < |jobs|
    ensures var name, m := jobs[i].name, Metrics(jobs, f);
            name in m && m[name].response == f.first[i] - jobs[i].arrival && m[name].turnaround == f.done[i] - jobs[i].arrival
  {
  }

  lemma NamesOf(jobs: seq<Job>, f: State)
    requires UniqueNames(jobs) && Reportable(jobs, f)
    ensures Metrics(jobs, f).Keys == (set i | 0 <= i < |jobs| :: jobs[i].name)
  {
    hide UniqueNames, Reportable;
  }

  lemma TraceOf(jobs: seq<Job>, f: State)
    requires UniqueNames(jobs) && Reportable(jobs, f)
    ensures Shows(jobs, f.trace, ReportOf(jobs, f).trace) && ReportOf(jobs, f).metrics == Metrics(jobs, f)
  {
    hide Metrics;
  }

  class Simulator {
    const jobs: seq<Job>
    var pending: seq<nat>
    var ready: seq<nat>
    var remaining: seq<int>
    var first: map<nat, int>
    var done: map<nat, int>
    var trace: seq<Segment>
    var now: int

    function Snapshot(): State
      reads this
    {
      State(pending, ready, remaining, first, done, trace, now)
    }

    constructor (jobs: seq<Job>)
      requires ValidJobs(jobs)
      ensures this.jobs == jobs && Snapshot() == Init(jobs)
    {
      this.jobs := jobs;
      pending := ArrivalOrder(jobs, |jobs|);
      ready, remaining, first, done, trace := [], Services(jobs), map[], map[], [];
      now := 0;
    }

    /** The nested function `arrive`. */
    method ArriveNow()
      requires Sorted(jobs, pending)
      modifies this
      ensures Snapshot() == Arrive(jobs, old(Snapshot()))
    {
      while pending != [] && jobs[pending[0]].arrival <= now
        invariant Sorted(jobs, pending)
        invariant Arrive(jobs, Snapshot()) == Arrive(jobs, old(Snapshot()))
        decreases |pending|
      {
        var i := pending[0];
        pending := pending[1..];
        if jobs[i].service == 0 {
          first := first[i := jobs[i].arrival];
          done := done[i := jobs[i].arrival];
        } else {
          ready := ready + [i];
        }
      }
    }

    /** Take the job at position p of `ready` and run it for `duration` ticks. */
    method RunSlice(p: nat, duration: int)
      requires p < |ready| && ready[p] < |remaining|
      modifies this
      ensures Snapshot() == Slice(old(Snapshot()), p, duration)
    {
      var i := ready[p];
      ready := RemoveAt(ready, p);
      if i !in first {
        first := first[i := now];
      }
      trace := trace + [Segment(i, now, now + duration)];
      now := now + duration;
      remaining := remaining[i := remaining[i] - duration];
      if remaining[i] == 0 {
        done := done[i := now];
      }
    }

    /** The slice, the arrivals at its end, and then the job that ran. */
    method TakeTurn(p: nat, duration: int)
      requires p < |ready| && ready[p] < |remaining| && Sorted(jobs, pending)
      modifies this
      ensures Snapshot() == Turn(jobs, old(Snapshot()), p, duration)
    {
      hide Sorted;
      var i := ready[p];
      RunSlice(p, duration);
      ArriveNow();
      if remaining[i] != 0 {
        ready := ready + [i];
      }
    }

    /** The body of the main loop. */
    method LoopBody(policy: Policy, quantum: int)
      requires Inv(jobs, Snapshot(), -1) && quantum > 0 && (pending != [] || ready != [])
      modifies this
      ensures Snapshot() == Iterate(jobs, policy, quantum, old(Snapshot()))
    {
      ghost var a, p', d := IterateCases(jobs, policy, quantum, Snapshot());
      hide Turn;
      if ready == [] {
        now := Max(now, jobs[pending[0]].arrival);
      }
      ArriveNow();
      assert Snapshot() == a;
      if ready != [] {
        var p := Pick(jobs, policy, Snapshot());
        var i := ready[p];
        var duration := if policy == Rr then Min(remaining[i], quantum) else remaining[i];
        TakeTurn(p, duration);
      }
    }

    /** The main loop. */
    method RunToEnd(policy: Policy, quantum: int)
      requires Inv(jobs, Snapshot(), -1) && quantum > 0
      modifies this
      ensures Snapshot() == Run(jobs, policy, quantum, old(Snapshot()))
    {
      while pending != [] || ready != []
        invariant Inv(jobs, Snapshot(), -1)
        invariant Run(jobs, policy, quantum, Snapshot()) == Run(jobs, policy, quantum, old(Snapshot()))
        decreases Sum(remaining), |pending|
      {
        IterateKeepsInv(jobs, policy, quantum, Snapshot());
        RemainingNonNegative(jobs, Snapshot());
        LoopBody(policy, quantum);
      }
    }
  }

  /**
   Rejects exactly the bad inputs, in the order of the checks; otherwise runs the named policy, and the
   report shows the trace of that run and what can be read off it. Both closing assertions hold.
   */
  method Simulate(jobs: seq<Job>, policy: string, quantum: int) returns (r: Result<Report, Error>)
    ensures var good := (policy == "fcfs" || policy == "sjf" || policy == "rr") && quantum > 0;
            && (r == Err(InvalidPolicyOrQuantum) <==> !good)
            && (r == Err(DuplicateJobId) <==> good && !UniqueNames(jobs))
            && (r == Err(NegativeArrivalOrService) <==> good && UniqueNames(jobs) && !ValidJobs(jobs))
    ensures r.Ok? ==>
              var f := Final(jobs, if policy == "fcfs" then Fcfs else if policy == "sjf" then Sjf else Rr, quantum);
              && Shows(jobs, f.trace, r.value.trace) && Consistent(jobs, r.value)
              && Reportable(jobs, f) && r.value == ReportOf(jobs, f) && Executed(f.trace) == Sum(Services(jobs))
  {
    var chosen := PolicyNamed(policy);
    if chosen.None? || quantum <= 0 {
      return Err(InvalidPolicyOrQuantum);
    }
    if !UniqueNames(jobs) {
      return Err(DuplicateJobId);
    }
    if !ValidJobs(jobs) {
      return Err(NegativeArrivalOrService);
    }
    var sim := new Simulator(jobs);
    InitInv(jobs);
    sim.RunToEnd(chosen.value, quantum);
    ClosingAssertions(jobs, chosen.value, quantum);
    ReportIsConsistent(jobs, chosen.value, quantum);
    return Ok(ReportOf(jobs, sim.Snapshot()));
  }
}
