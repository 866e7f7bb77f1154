/**
 `simulate` of experiments/mlfq.py as the program it is: `states` updated in place by `for` loops
 inside the tick loop, proved against the model in `MlfqSim`.
 */
module MlfqProgram {
  import opened Util
  import opened MlfqSim
  import opened MlfqTimes
  import opened MlfqMetrics

  datatype Error = InvalidPolicyOrPeriod | InvalidWorkload

  datatype Metric = Metric(response: int, turnaround: int, maxReadyWait: int)

  datatype TraceEntry = TraceEntry(time: int, name: string, level: int)

  /** (time, 'boost', None) or (time, 'demote', name). */
  datatype EventEntry = EventEntry(time: int, kind: string, name: Option<string>)

  datatype Report = Report(metrics: map<string, Metric>, switches: nat, events: seq<EventEntry>, trace: seq<TraceEntry>)

  function PolicyNamed(name: string): Option<Policy> {
    match name
    case "rr" => Some(Rr)
    case "mlfq" => Some(Mlfq)
    case _ => None
  }

  predicate UniqueNames(jobs: seq<Job>) {
    forall a, b :: 0 <= a < b < |jobs| ==> jobs[a].name != jobs[b].name
  }

  ghost predicate Reportable(jobs: seq<Job>, f: State) {
    && |f.tasks| == |jobs|
    && (forall i :: 0 <= i < |jobs| ==> f.tasks[i].first.Some? && f.tasks[i].done.Some?)
    && TraceOfJobs(jobs, f)
  }

  function EntryOf(jobs: seq<Job>, e: Event): EventEntry
    requires e.Demoted? ==> e.job < |jobs|
  {
    match e
    case Boosted(time) => EventEntry(time, "boost", None)
    case Demoted(time, job) => EventEntry(time, "demote", Some(jobs[job].name))
  }

  function Metrics(jobs: seq<Job>, f: State): map<string, Metric>
    requires UniqueNames(jobs) && Reportable(jobs, f)
  {
    map i | 0 <= i < |jobs| :: jobs[i].name := Metric(
      f.tasks[i].first.value - jobs[i].arrival, f.tasks[i].done.value - jobs[i].arrival, f.tasks[i].maxWait)
  }

  /** The value `simulate` returns, read off the final state. */
  function ReportOf(jobs: seq<Job>, f: State): Report
    requires UniqueNames(jobs) && Reportable(jobs, f)
  {
    Report(
      Metrics(jobs, f),
      f.switches,
      seq(|f.events|, k requires 0 <= k < |f.events| => EntryOf(jobs, f.events[k])),
      seq(|f.trace|, k requires 0 <= k < |f.trace| =>
        TraceEntry(f.trace[k].time, jobs[f.trace[k].job].name, f.trace[k].level)))
  }

  /** Entry k is the first by this name. */
  ghost predicate FirstBy(trace: seq<TraceEntry>, name: string, k: nat) {
    k < |trace| && trace[k].name == name && forall l :: 0 <= l < k ==> trace[l].name != name
  }

  ghost predicate LastBy(trace: seq<TraceEntry>, name: string, k: nat) {
    k < |trace| && trace[k].name == name && forall l :: k < l < |trace| ==> trace[l].name != name
  }

  /** Response and turnaround of a job, read off the reported trace. */
  ghost predicate ReadOff(j: Job, m: Metric, trace: seq<TraceEntry>) {
    if j.service == 0 then
      m.response == 0 && m.turnaround == 0 && forall k :: 0 <= k < |trace| ==> trace[k].name != j.name
    else
      && (exists k: nat :: FirstBy(trace, j.name, k) && j.arrival + m.response == trace[k].time)
      && (exists k: nat :: LastBy(trace, j.name, k) && j.arrival + m.turnaround == trace[k].time + 1)
  }

  /** The reported trace is the run's, by name. */
  ghost predicate Shows(jobs: seq<Job>, trace: seq<Tick>, shown: seq<TraceEntry>) {
    && |shown| == |trace|
    && forall k :: 0 <= k < |trace| ==>
                     trace[k].job < |jobs| && shown[k] == TraceEntry(trace[k].time, jobs[trace[k].job].name, trace[k].level)
  }

  /** So are the events. */
  ghost predicate ShowsEvents(jobs: seq<Job>, events: seq<Event>, shown: seq<EventEntry>) {
    && |shown| == |events|
    && forall k :: 0 <= k < |events| ==>
                     match events[k]
                     case Boosted(time) => shown[k] == EventEntry(time, "boost", None)
                     case Demoted(time, i) => i < |jobs| && shown[k] == EventEntry(time, "demote", Some(jobs[i].name))
  }

  /** Every name has metrics and nothing else has, and they are those of the reported trace and of the k turns of the run. */
  ghost predicate Consistent(jobs: seq<Job>, policy: Policy, period: int, k: nat, r: Report)
    requires ValidJobs(jobs) && period > 0
  {
    && r.metrics.Keys == (set i | 0 <= i < |jobs| :: jobs[i].name)
    && forall i: nat :: i < |jobs| ==>
                          && jobs[i].name in r.metrics && ReadOff(jobs[i], r.metrics[jobs[i].name], r.trace)
                          && r.metrics[jobs[i].name].maxReadyWait == LongestWait(jobs, policy, period, k, i)
  }

  /** Under both policies the returned report is that of the run. */
  lemma ReportIsConsistent(jobs: seq<Job>, policy: Policy, period: int) returns (k: nat)
    requires ValidJobs(jobs) && period > 0 && UniqueNames(jobs)
    requires Reportable(jobs, Final(jobs, policy, period))
    ensures var f := Final(jobs, policy, period);
            && f == StateAt(jobs, policy, period, k)
            && Shows(jobs, f.trace, ReportOf(jobs, f).trace) && ShowsEvents(jobs, f.events, ReportOf(jobs, f).events)
            && ReportOf(jobs, f).switches == f.switches
            && Consistent(jobs, policy, period, k, ReportOf(jobs, f))
  {
    hide Inv, Reportable, Metrics, ReportOf, StateAt, Final, LongestWait;
    k := FinalIsReached(jobs, policy, period);
    var f := Final(jobs, policy, period);
    var r := ReportOf(jobs, f);
    TraceOf(jobs, f);
    NamesOf(jobs, f);
    forall i: nat | i < |jobs|
      ensures jobs[i].name in r.metrics && ReadOff(jobs[i], r.metrics[jobs[i].name], r.trace)
      ensures r.metrics[jobs[i].name].maxReadyWait == LongestWait(jobs, policy, period, k, i)
    {
      MetricsOf(jobs, f, i);
      ReportIsTheRun(jobs, policy, period, k, i);
      JobReadOff(jobs, f.trace, r.trace, i, r.metrics[jobs[i].name]);
    }
  }

  lemma JobReadOff(jobs: seq<Job>, trace: seq<Tick>, shown: seq<TraceEntry>, i: nat, m: Metric)
    requires UniqueNames(jobs) && Shows(jobs, trace, shown) && i < |jobs|
    requires if jobs[i].service == 0 then m.response == 0 && m.turnaround == 0 && TicksOf(trace, i) == 0
             else FirstTick(trace, i) == Some(jobs[i].arrival + m.response)
                  && LastTick(trace, i) == Some(jobs[i].arrival + m.turnaround - 1)
    ensures ReadOff(jobs[i], m, shown)
  {
    forall k | 0 <= k < |trace|
      ensures shown[k].name == jobs[i].name <==> trace[k].job == i
    {
    }
    if jobs[i].service == 0 {
      NeverRan(trace, i);
    } else {
      var first := FirstAt(trace, i);
      var last := LastAt(trace, i);
      assert FirstBy(shown, jobs[i].name, first) && LastBy(shown, jobs[i].name, last);
    }
  }

  lemma MetricsOf(jobs: seq<Job>, f: State, i: nat)
    requires UniqueNames(jobs) && Reportable(jobs, f) && i < |jobs|
    ensures |f.tasks| == |jobs| && f.tasks[i].first.Some? && f.tasks[i].done.Some?
    ensures var name, m := jobs[i].name, Metrics(jobs, f);
            && name in m && m[name].response == f.tasks[i].first.value - jobs[i].arrival
            && m[name].turnaround == f.tasks[i].done.value - jobs[i].arrival && m[name].maxReadyWait == f.tasks[i].maxWait
  {
  }

  lemma NamesOf(jobs: seq<Job>, f: State)
    requires UniqueNames(jobs) && Reportable(jobs, f)
    ensures Metrics(jobs, f).Keys == (set i | 0 <= i < |jobs| :: jobs[i].name)
  {
    hide UniqueNames, Reportable;
  }

  lemma TraceOf(jobs: seq<Job>, f: State)
    requires UniqueNames(jobs) && Reportable(jobs, f)
    ensures var r := ReportOf(jobs, f);
            && Shows(jobs, f.trace, r.trace) && ShowsEvents(jobs, f.events, r.events)
            && r.switches == f.switches && r.metrics == Metrics(jobs, f)
  {
    hide Metrics;
  }

  class Simulator {
    const jobs: seq<Job>
    const policy: Policy
    const period: int
    const states: array<Task>
    var ready: seq<nat>
    var now: int
    var nextBoost: int
    var current: Option<nat>
    var switches: nat
    var events: seq<Event>
    var trace: seq<Tick>

    function Snapshot(): State
      reads this, states
    {
      State(states[..], ready, now, nextBoost, current, switches, events, trace)
    }

    ghost predicate Valid()
      reads this, states
    {
      && states.Length == |jobs| && period > 0
      && Below(ready, |jobs|) && (current.Some? ==> current.value < |jobs|)
    }

    constructor (jobs: seq<Job>, policy: Policy, period: int)
      requires period > 0
      ensures this.jobs == jobs && this.policy == policy && this.period == period && fresh(states)
      ensures Valid() && Snapshot() == Init(jobs, period)
    {
      this.jobs, this.policy, this.period := jobs, policy, period;
      states := new Task[|jobs|](i requires 0 <= i < |jobs| => Fresh(jobs[i]));
      ready, now, nextBoost, current, switches := [], 0, period, None, 0;
      events, trace := [], [];
      new;
      assert states[..] == Init(jobs, period).tasks;
    }

    /** The `for` loop that admits arrivals and wake-ups, at the top and at the end of a tick. */
    method WakeUp()
      requires Valid()
      modifies this, states
      ensures Valid() && Snapshot() == WakeAll(old(Snapshot()))
    {
      ghost var was, queue := states[..], ready;
      for i := 0 to states.Length
        invariant now == old(now) && nextBoost == old(nextBoost) && current == old(current)
        invariant switches == old(switches) && events == old(events) && trace == old(trace)
        invariant states[..i] == Awakened(was, now)[..i] && states[i..] == was[i..]
        invariant ready == queue + Woken(was, now, i)
      {
        assert states[i] == states[i..][0] == was[i];
        if states[i].Waiting() && states[i].wake <= now {
          if states[i].left == 0 {
            states[i] := states[i].(first := Some(now), done := Some(now), phase := Done);
          } else {
            states[i] := states[i].(phase := Ready, readyAt := now);
            ready := ready + [i];
          }
        }
        assert states[i] == Awakened(was, now)[i];
      }
    }

    /** The periodic boost. */
    method BoostAll()
      requires Valid()
      modifies this, states
      ensures Valid() && Snapshot() == Boost(policy, period, old(Snapshot()))
    {
      if policy == Mlfq && now >= nextBoost {
        ghost var was := states[..];
        for i := 0 to states.Length
          invariant now == old(now) && nextBoost == old(nextBoost) && current == old(current) && ready == old(ready)
          invariant switches == old(switches) && events == old(events) && trace == old(trace)
          invariant states[..i] == Lifted(was)[..i] && states[i..] == was[i..]
        {
          assert states[i] == states[i..][0] == was[i];
          if states[i].done == None {
            states[i] := states[i].(level := 0, slice := 2, allot := 4);
          }
          assert states[i] == Lifted(was)[i];
        }
        events := events + [Boosted(now)];
        nextBoost := (now / period + 1) * period;
      }
    }

    /** Selection of the next task, when the CPU is free. */
    method Dispatch()
      requires Valid()
      modifies this, states
      ensures Valid() && Snapshot() == Select(policy, old(Snapshot()))
    {
      if current == None && ready != [] {
        var p := if policy == Mlfq then Best(LevelsOf(states[..]), ready) else 0;
        var i := ready[p];
        ready := RemoveAt(ready, p);
        current := Some(i);
        var s := states[i];
        states[i] := s.(maxWait := Max(s.maxWait, now - s.readyAt), waited := s.waited + now - s.readyAt,
                        phase := Running, first := if s.first == None then Some(now) else s.first);
        switches := switches + 1;
      }
    }

    /** One tick of the current task: accounting, demotion or a new slice, completion, blocking. */
    method Account() returns (leaves: bool)
      requires Valid() && current.Some?
      modifies this, states
      ensures Valid() && Snapshot() == Charge(jobs, policy, old(Snapshot()))
      ensures leaves == Leaves(policy, jobs[current.value], old(states[current.value]))
    {
      var i := current.value;
      var s, j := states[i], jobs[i];
      trace := trace + [Tick(now, i, s.level)];
      now := now + 1;
      s := s.(left := s.left - 1, used := s.used + 1, slice := s.slice - 1);
      if s.level != 2 {
        s := s.(allot := s.allot - 1);
      }
      var finished := s.left == 0;
      var voluntary := j.burst > 0 && s.used % j.burst == 0;
      var expired := s.slice == 0;
      if !finished && policy == Mlfq && s.level < 2 && s.allot == 0 {
        s := s.(level := s.level + 1);
        s := s.(slice := SliceOf(s.level), allot := AllotOf(s.level));
        events := events + [Demoted(now, i)];
        expired := true;
      } else if expired {
        s := s.(slice := if policy == Mlfq then SliceOf(s.level) else 2);
      }
      if finished {
        s := s.(done := Some(now), phase := Done);
      } else if voluntary && j.wait != 0 {
        s := s.(phase := Blocked, wake := now + j.wait);
      }
      states[i] := s;
      leaves := finished || voluntary || expired;
    }

    /** The end of a tick: arrivals first, then the old task. */
    method FinishTick(i: nat, leaves: bool)
      requires Valid() && i < |jobs|
      modifies this, states
      ensures Valid() && Snapshot() == Yield(policy, WakeAll(old(Snapshot())), i, leaves)
    {
      WakeUp();
      var higher := policy == Mlfq && exists k :: 0 <= k < |ready| && states[ready[k]].level < states[i].level;
      var boosted := policy == Mlfq && now >= nextBoost;
      if leaves || higher || boosted {
        if states[i].phase == Running {
          states[i] := states[i].(phase := Ready, readyAt := now);
          ready := ready + [i];
        }
        current := None;
      }
    }

    /** Nothing to run: jump to the next arrival or wake-up. */
    method JumpAhead()
      requires Valid()
      modifies this
      ensures Valid() && Snapshot() == Idle(old(Snapshot()))
    {
      var future := NextWake(states[..], states.Length);
      if future.Some? {
        now := future.value;
      }
    }

    /** The loop body; both assertions at its end hold. */
    method LoopBody()
      requires Valid() && HeadInv(jobs, policy, Snapshot())
      modifies this, states
      ensures Valid() && Snapshot() == Iterate(jobs, policy, period, old(Snapshot()))
      ensures HeadInv(jobs, policy, Snapshot())
    {
      ghost var s := Snapshot();
      IterateKeepsInv(jobs, policy, period, s);
      hide WakeAll, Boost, Select, Charge, Yield, Idle, Inv;
      WakeUp();
      BoostAll();
      Dispatch();
      if current == None {
        JumpAhead();
      } else {
        var i := current.value;
        var leaves := Account();
        FinishTick(i, leaves);
        AssertionsHold(jobs, policy, Snapshot());
        assert Distinct(ready);
        assert forall k :: 0 <= k < |ready| ==> states[ready[k]].phase == Ready;
      }
    }

    /** The main loop. */
    method RunToEnd()
      requires Valid() && HeadInv(jobs, policy, Snapshot())
      modifies this, states
      ensures Valid() && Snapshot() == Run(jobs, policy, period, old(Snapshot()))
    {
      while !AllDone(states)
        invariant Valid() && HeadInv(jobs, policy, Snapshot())
        invariant Run(jobs, policy, period, Snapshot()) == Run(jobs, policy, period, old(Snapshot()))
        decreases Sum(LeftOf(states[..])), Sum(WaitingOf(states[..])), Sum(AheadOf(states[..], now))
      {
        assert !Finished(Snapshot());
        IterateShrinks(jobs, policy, period, Snapshot());
        MeasureNonNegative(jobs, policy, Snapshot());
        LoopBody();
      }
      assert Finished(Snapshot());
    }
  }

  predicate AllDone(states: array<Task>)
    reads states
  {
    forall i :: 0 <= i < states.Length ==> states[i].done.Some?
  }

  /** The report is that of this run. */
  ghost predicate RunReported(jobs: seq<Job>, policy: Policy, period: int, r: Report) {
    && UniqueNames(jobs) && ValidJobs(jobs) && period > 0
    && var f := Final(jobs, policy, period);
       && Reportable(jobs, f) && r == ReportOf(jobs, f) && |r.trace| == Sum(S.Services(Plain(jobs)))
       && Shows(jobs, f.trace, r.trace) && ShowsEvents(jobs, f.events, r.events) && r.switches == f.switches
       && exists k: nat :: f == StateAt(jobs, policy, period, k) && Consistent(jobs, policy, period, k, r)
  }

  /**
   Rejects exactly the bad inputs, in the order of the checks; otherwise runs the named policy, and the
   report shows trace, events and dispatches of that run and what can be read off them. The trace has
   one entry per unit of service.
   */
  method Simulate(jobs: seq<Job>, policy: string, boostPeriod: int) returns (r: Result<Report, Error>)
    ensures var good := (policy == "rr" || policy == "mlfq") && boostPeriod > 0;
            && (r == Err(InvalidPolicyOrPeriod) <==> !good)
            && (r == Err(InvalidWorkload) <==> good && !(UniqueNames(jobs) && ValidJobs(jobs)))
    ensures r.Ok? ==> RunReported(jobs, if policy == "rr" then Rr else Mlfq, boostPeriod, r.value)
  {
    var chosen := PolicyNamed(policy);
    if chosen.None? || boostPeriod <= 0 {
      return Err(InvalidPolicyOrPeriod);
    }
    if !UniqueNames(jobs) || !ValidJobs(jobs) {
      return Err(InvalidWorkload);
    }
    var sim := new Simulator(jobs, chosen.value, boostPeriod);
    InitInv(jobs, chosen.value, boostPeriod);
    sim.RunToEnd();
    TraceIsTotalService(jobs, chosen.value, boostPeriod);
    FinalIsComplete(jobs, chosen.value, boostPeriod);
    var k := ReportIsConsistent(jobs, chosen.value, boostPeriod);
    r := Ok(ReportOf(jobs, sim.Snapshot()));
  }

  lemma AssertionsHold(jobs: seq<Job>, policy: Policy, s: State)
    requires Inv(jobs, policy, s)
    ensures Distinct(s.ready)
    ensures forall k :: 0 <= k < |s.ready| ==> s.ready[k] < |s.tasks| && s.tasks[s.ready[k]].phase == Ready
  {
    forall k | 0 <= k < |s.ready|
      ensures s.tasks[s.ready[k]].phase == Ready
    {
      assert s.ready[k] in s.ready && Slot(jobs, policy, s, s.ready[k]);
    }
  }
}
