/**
 The two simulators agree: for jobs without voluntary scheduling points, round robin in the
 tick-driven simulator executes tick by tick what the event-driven one does with quantum 2.
 */
module Agreement {
  import opened Util
  import S = Scheduling
  import M = MlfqSim
  import MlfqPriority

  /** The ticks of a segment, as (time, job) pairs. */
  function TicksOf(g: S.Segment): seq<(int, nat)>
    decreases g.end - g.start
  {
    if g.start >= g.end then [] else [(g.start, g.job)] + TicksOf(S.Segment(g.job, g.start + 1, g.end))
  }

  function Expand(trace: seq<S.Segment>): seq<(int, nat)> {
    if trace == [] then [] else Expand(trace[..|trace| - 1]) + TicksOf(trace[|trace| - 1])
  }

  function Strip(trace: seq<M.Tick>): (r: seq<(int, nat)>)
    ensures |r| == |trace| && forall k :: 0 <= k < |trace| ==> r[k] == (trace[k].time, trace[k].job)
  {
    seq(|trace|, k requires 0 <= k < |trace| => (trace[k].time, trace[k].job))
  }

  /** Job i looks the same to both simulators. */
  ghost predicate SameJob(e: S.State, t: M.State, i: nat)
    requires i < |t.tasks| == |e.remaining|
  {
    var u := t.tasks[i];
    && u.left == e.remaining[i] && u.first == Lookup(e.first, i) && u.done == Lookup(e.done, i)
    && (i in e.pending <==> u.phase == M.New) && u.phase != M.Blocked
    && (u.phase == M.New || u.phase == M.Ready ==> u.slice == 2)
  }

  ghost predicate Same(e: S.State, t: M.State) {
    && |t.tasks| == |e.remaining| && e.now == t.now && e.ready == t.ready
    && forall i :: 0 <= i < |t.tasks| ==> SameJob(e, t, i)
  }

  ghost predicate SameTrace(e: S.State, t: M.State) {
    Strip(t.trace) == Expand(e.trace) && t.switches == |e.trace|
  }

  /* Admission of arrivals. */

  ghost predicate NotOverdue(jobs: seq<M.Job>, e: S.State) {
    Below(e.pending, |jobs|) && forall k :: 0 <= k < |e.pending| ==> jobs[e.pending[k]].arrival >= e.now
  }

  /** What `arrive` appends to the queue. */
  function Newcomers(jobs: seq<S.Job>, pending: seq<nat>, now: int): seq<nat>
    requires Below(pending, |jobs|)
  {
    if pending == [] || jobs[pending[0]].arrival > now then []
    else (if jobs[pending[0]].service == 0 then [] else [pending[0]]) + Newcomers(jobs, pending[1..], now)
  }

  lemma {:induction false} ArriveAppends(jobs: seq<S.Job>, e: S.State)
    requires S.Sorted(jobs, e.pending)
    ensures S.Arrive(jobs, e).ready == e.ready + Newcomers(jobs, e.pending, e.now)
    decreases |e.pending|
  {
    if e.pending != [] && jobs[e.pending[0]].arrival <= e.now {
      ArriveAppends(jobs, S.Admit(jobs, e));
    }
  }

  ghost predicate Increasing(s: seq<nat>) {
    forall a, b :: 0 <= a < b < |s| ==> s[a] < s[b]
  }

  lemma ConsIncreasing(h: nat, t: seq<nat>)
    requires Increasing(t) && forall i :: i in t ==> h < i
    ensures Increasing([h] + t)
  {
    var r := [h] + t;
    forall a, b | 0 <= a < b < |r|
      ensures r[a] < r[b]
    {
      assert r[b] == t[b - 1] && t[b - 1] in t;
    }
  }

  lemma SameInstantInOrder(jobs: seq<S.Job>, pending: seq<nat>, i: nat)
    requires S.Sorted(jobs, pending) && pending != [] && i in pending[1..]
    ensures i < |jobs| && (jobs[i].arrival == jobs[pending[0]].arrival ==> pending[0] < i)
  {
    var k :| 0 <= k < |pending| - 1 && pending[1..][k] == i;
    assert S.Before(jobs, pending[0], pending[k + 1]);
  }

  /** Arrivals at the same instant are admitted in input order. */
  lemma {:induction false} NewcomersInOrder(jobs: seq<S.Job>, pending: seq<nat>, now: int)
    requires S.Sorted(jobs, pending)
    requires forall k :: 0 <= k < |pending| ==> jobs[pending[k]].arrival >= now
    ensures var r := Newcomers(jobs, pending, now);
            && Increasing(r)
            && forall i :: i in r <==> i in pending && jobs[i].arrival <= now && jobs[i].service != 0
  {
    if pending != [] {
      SortedTail(jobs, pending);
      if jobs[pending[0]].arrival <= now {
        NewcomersInOrder(jobs, pending[1..], now);
        var t := Newcomers(jobs, pending[1..], now);
        forall i | i in t
          ensures pending[0] < i
        {
          SameInstantInOrder(jobs, pending, i);
        }
        ConsIncreasing(pending[0], t);
      }
    }
  }

  lemma {:induction false} WokenInOrder(tasks: seq<M.Task>, now: int, n: nat)
    requires n <= |tasks|
    ensures Increasing(M.Woken(tasks, now, n))
  {
    if n > 0 {
      WokenInOrder(tasks, now, n - 1);
    }
  }

  /** An increasing sequence is determined by its members. */
  lemma {:induction false} SameMembers(a: seq<nat>, b: seq<nat>)
    requires Increasing(a) && Increasing(b) && forall i :: i in a <==> i in b
    ensures a == b
  {
    if a == [] || b == [] {
      NoMembers(a);
      NoMembers(b);
    } else {
      var k, l := |a| - 1, |b| - 1;
      assert a[k] in b && b[l] in a;
      assert a[k] == b[l];
      IncreasingDropLast(a);
      IncreasingDropLast(b);
      forall i
        ensures i in a[..k] <==> i in b[..l]
      {
        assert i in a <==> i in b;
      }
      SameMembers(a[..k], b[..l]);
    }
  }

  lemma IncreasingDropLast(a: seq<nat>)
    requires a != [] && Increasing(a)
    ensures Increasing(a[..|a| - 1])
    ensures forall i :: i in a[..|a| - 1] <==> i in a && i != a[|a| - 1]
  {
    assert a == a[..|a| - 1] + [a[|a| - 1]];
  }

  /** The effect of `arrive` on job i. */
  lemma {:induction false} ArriveOn(jobs: seq<S.Job>, e: S.State, i: nat)
    requires S.Sorted(jobs, e.pending) && i < |jobs|
    ensures var a, due := S.Arrive(jobs, e), i in e.pending && jobs[i].arrival <= e.now;
            && (i in a.pending <==> i in e.pending && !due)
            && Lookup(a.first, i) == (if due && jobs[i].service == 0 then Some(jobs[i].arrival) else Lookup(e.first, i))
            && Lookup(a.done, i) == (if due && jobs[i].service == 0 then Some(jobs[i].arrival) else Lookup(e.done, i))
    decreases |e.pending|
  {
    if e.pending != [] && jobs[e.pending[0]].arrival <= e.now {
      SortedTail(jobs, e.pending);
      ArriveOn(jobs, S.Admit(jobs, e), i);
    } else if i in e.pending {
      SortedTail(jobs, e.pending);
      assert jobs[i].arrival > e.now;
    }
  }

  lemma SortedTail(jobs: seq<S.Job>, pending: seq<nat>)
    requires S.Sorted(jobs, pending) && pending != []
    ensures pending[0] !in pending[1..] && (forall e :: e in pending <==> e == pending[0] || e in pending[1..])
    ensures forall e :: e in pending ==> e < |jobs| && jobs[pending[0]].arrival <= jobs[e].arrival
  {
    TailMembers(pending);
  }

  lemma SameNewcomers(jobs: seq<M.Job>, e: S.State, t: M.State, x: M.State)
    requires Same(e, t) && S.Sorted(M.Plain(jobs), e.pending) && NotOverdue(jobs, e) && |t.tasks| == |jobs|
    requires M.Inv(jobs, M.Rr, x) && x.tasks == t.tasks && x.now == t.now
    ensures Newcomers(M.Plain(jobs), e.pending, e.now) == M.Woken(t.tasks, t.now, |t.tasks|)
  {
    var p := M.Plain(jobs);
    var r, k := Newcomers(p, e.pending, e.now), M.Woken(t.tasks, t.now, |t.tasks|);
    NewcomersInOrder(p, e.pending, e.now);
    WokenInOrder(t.tasks, t.now, |t.tasks|);
    forall i
      ensures i in r <==> i in k
    {
      if 0 <= i < |jobs| {
        assert SameJob(e, t, i) && M.Slot(jobs, M.Rr, x, i);
      }
    }
    SameMembers(r, k);
  }

  /** Both simulators admit the same arrivals in the same order. */
  lemma WakeIsArrive(jobs: seq<M.Job>, e: S.State, t: M.State, x: M.State)
    requires Same(e, t) && S.Sorted(M.Plain(jobs), e.pending) && NotOverdue(jobs, e) && |t.tasks| == |jobs|
    requires M.Inv(jobs, M.Rr, x) && x.tasks == t.tasks && x.now == t.now
    ensures Same(S.Arrive(M.Plain(jobs), e), M.WakeAll(t))
  {
    var p, a, w := M.Plain(jobs), S.Arrive(M.Plain(jobs), e), M.WakeAll(t);
    ArriveAppends(p, e);
    SameNewcomers(jobs, e, t, x);
    forall i | 0 <= i < |jobs|
      ensures SameJob(a, w, i)
    {
      assert SameJob(e, t, i) && M.Slot(jobs, M.Rr, x, i);
      ArriveOn(p, e, i);
    }
  }

  /* A whole slice, one tick at a time. */

  /** The job at the head of the queue takes the CPU. */
  function Begin(e: S.State): S.State
    requires e.ready != []
  {
    var i := e.ready[0];
    e.(ready := RemoveAt(e.ready, 0), first := if i in e.first then e.first else e.first[i := e.now])
  }

  /** Job i executes one tick. */
  function Advance(e: S.State, i: nat): S.State
    requires i < |e.remaining|
  {
    e.(now := e.now + 1, remaining := e.remaining[i := e.remaining[i] - 1],
       done := if e.remaining[i] == 1 then e.done[i := e.now + 1] else e.done)
  }

  /** Equal but for the trace. */
  ghost predicate SameBut(a: S.State, b: S.State) {
    a == b.(trace := a.trace)
  }

  lemma {:induction false} ArriveIgnoresTrace(jobs: seq<S.Job>, a: S.State, b: S.State)
    requires S.Sorted(jobs, a.pending) && SameBut(a, b)
    ensures SameBut(S.Arrive(jobs, a), S.Arrive(jobs, b))
    decreases |a.pending|
  {
    if a.pending != [] && jobs[a.pending[0]].arrival <= a.now {
      ArriveIgnoresTrace(jobs, S.Admit(jobs, a), S.Admit(jobs, b));
    }
  }

  lemma AdmitThenAdvance(jobs: seq<S.Job>, e: S.State, i: nat)
    requires e.pending != [] && e.pending[0] < |jobs| && i < |e.remaining| && i != e.pending[0]
    ensures Advance(S.Admit(jobs, e), i) == S.Admit(jobs, Advance(e, i))
  {
    var k, v, w := e.pending[0], jobs[e.pending[0]].arrival, e.now + 1;
    assert e.done[k := v][i := w] == e.done[i := w][k := v];
  }

  /** Admitting arrivals before and after a tick is the same as admitting them all after it. */
  lemma {:induction false} ArriveTwice(jobs: seq<S.Job>, e: S.State, i: nat)
    requires S.Sorted(jobs, e.pending) && i < |e.remaining| && i !in e.pending
    ensures S.Arrive(jobs, Advance(S.Arrive(jobs, e), i)) == S.Arrive(jobs, Advance(e, i))
    decreases |e.pending|
  {
    if e.pending != [] && jobs[e.pending[0]].arrival <= e.now {
      TailMembers(e.pending);
      AdmitThenAdvance(jobs, e, i);
      hide S.Admit, Advance;
      ArriveTwice(jobs, S.Admit(jobs, e), i);
    }
  }

  lemma SliceIsTicks(jobs: seq<S.Job>, e: S.State)
    requires S.Sorted(jobs, e.pending) && e.ready != [] && e.ready[0] < |e.remaining| && e.ready[0] !in e.pending
    ensures var i := e.ready[0];
            var one := S.Arrive(jobs, Advance(Begin(e), i));
            && (e.remaining[i] >= 1 ==> SameBut(S.Arrive(jobs, S.Slice(e, 0, 1)), one))
            && (e.remaining[i] >= 2 ==>
                  SameBut(S.Arrive(jobs, S.Slice(e, 0, 2)), S.Arrive(jobs, Advance(one, i))))
  {
    var i := e.ready[0];
    var b := Begin(e);
    ArriveIgnoresTrace(jobs, S.Slice(e, 0, 1), Advance(b, i));
    if e.remaining[i] >= 2 {
      assert SameBut(S.Slice(e, 0, 2), Advance(Advance(b, i), i));
      ArriveIgnoresTrace(jobs, S.Slice(e, 0, 2), Advance(Advance(b, i), i));
      ArriveTwice(jobs, Advance(b, i), i);
    }
  }

  /* The steps of a tick against the steps of a slice. */

  lemma StartIsBegin(jobs: seq<M.Job>, e: S.State, t: M.State)
    requires Same(e, t) && M.Inv(jobs, M.Rr, t) && t.current == None && t.ready != []
    ensures Same(Begin(e), M.Start(t, 0))
  {
    assert t.ready[0] in t.ready && M.Slot(jobs, M.Rr, t, t.ready[0]) && SameJob(e, t, t.ready[0]);
    forall i | 0 <= i < |jobs|
      ensures SameJob(Begin(e), M.Start(t, 0), i)
    {
      assert SameJob(e, t, i);
    }
  }

  lemma ChargeIsAdvance(jobs: seq<M.Job>, e: S.State, t: M.State)
    requires Same(e, t) && M.Inv(jobs, M.Rr, t) && t.current.Some? && M.PureCpu(jobs)
    ensures Same(Advance(e, t.current.value), M.Charge(jobs, M.Rr, t))
  {
    var c := t.current.value;
    assert M.Slot(jobs, M.Rr, t, c) && SameJob(e, t, c);
    forall i | 0 <= i < |jobs|
      ensures SameJob(Advance(e, c), M.Charge(jobs, M.Rr, t), i)
    {
      assert SameJob(e, t, i);
    }
  }

  lemma TickIsAdvance(jobs: seq<M.Job>, e: S.State, t: M.State)
    requires Same(e, t) && M.Inv(jobs, M.Rr, t) && M.Quiet(t) && t.current.Some? && M.PureCpu(jobs)
    requires S.Sorted(M.Plain(jobs), e.pending)
    ensures Same(S.Arrive(M.Plain(jobs), Advance(e, t.current.value)), M.WakeAll(M.Charge(jobs, M.Rr, t)))
  {
    var c, u := t.current.value, M.Charge(jobs, M.Rr, t);
    ChargeIsAdvance(jobs, e, t);
    M.ChargeKeepsInv(jobs, M.Rr, t);
    forall k | 0 <= k < |e.pending|
      ensures jobs[e.pending[k]].arrival >= t.now + 1
    {
      assert e.pending[k] in e.pending && SameJob(e, t, e.pending[k]) && M.Slot(jobs, M.Rr, t, e.pending[k]);
    }
    WakeIsArrive(jobs, Advance(e, c), u, M.Settled(u, c));
  }

  lemma ReleaseIsRequeue(jobs: seq<M.Job>, e: S.State, t: M.State, i: nat)
    requires Same(e, t) && i < |jobs| == |t.tasks| && i !in e.pending
    requires t.tasks[i].phase == if e.remaining[i] == 0 then M.Done else M.Running
    requires t.tasks[i].phase == M.Running ==> t.tasks[i].slice == 2
    ensures Same(S.Requeue(e, i), M.Release(t, i))
  {
    forall k | 0 <= k < |jobs|
      ensures SameJob(S.Requeue(e, i), M.Release(t, i), k)
    {
      assert SameJob(e, t, k);
    }
  }

  lemma AwakeIsIdle(jobs: seq<M.Job>, e: S.State, t: M.State)
    requires Same(e, t) && M.Inv(jobs, M.Rr, t) && M.Quiet(t) && e.ready == [] && e.pending != []
    requires S.Sorted(M.Plain(jobs), e.pending)
    ensures Same(S.Awake(M.Plain(jobs), e), M.Idle(t)) && NotOverdue(jobs, S.Awake(M.Plain(jobs), e))
  {
    var h, u := e.pending[0], M.Idle(t);
    assert h in e.pending && SameJob(e, t, h) && M.Slot(jobs, M.Rr, t, h);
    SortedTail(M.Plain(jobs), e.pending);
    forall i | 0 <= i < |jobs|
      ensures SameJob(S.Awake(M.Plain(jobs), e), u, i)
      ensures t.tasks[i].Waiting() ==> t.tasks[i].wake >= jobs[h].arrival
    {
      assert SameJob(e, t, i) && M.Slot(jobs, M.Rr, t, i);
    }
    assert t.tasks[h].Waiting() && t.tasks[h].wake == jobs[h].arrival;
  }

  /** A tick after which the task keeps the CPU. */
  lemma InnerTick(jobs: seq<M.Job>, e: S.State, t: M.State)
    requires Same(e, t) && M.Inv(jobs, M.Rr, t) && M.Quiet(t) && t.current.Some? && M.PureCpu(jobs)
    requires S.Sorted(M.Plain(jobs), e.pending)
    requires t.tasks[t.current.value].left > 1 && t.tasks[t.current.value].slice == 2
    ensures var i, u := t.current.value, M.RunTick(jobs, M.Rr, t);
            && Same(S.Arrive(M.Plain(jobs), Advance(e, i)), u)
            && u.current == Some(i) && u.tasks[i].slice == 1 && u.switches == t.switches
            && Strip(u.trace) == Strip(t.trace) + [(t.now, i)]
  {
    TickIsAdvance(jobs, e, t);
    M.SettledWake(jobs, M.Rr, t);
  }

  /** A tick that completes the task or ends its slice. */
  lemma LastTick(jobs: seq<M.Job>, e: S.State, t: M.State)
    requires Same(e, t) && M.Inv(jobs, M.Rr, t) && M.Quiet(t) && t.current.Some? && M.PureCpu(jobs)
    requires S.Sorted(M.Plain(jobs), e.pending)
    requires t.tasks[t.current.value].left == 1 || t.tasks[t.current.value].slice == 1
    ensures var i, u := t.current.value, M.RunTick(jobs, M.Rr, t);
            && Same(S.Requeue(S.Arrive(M.Plain(jobs), Advance(e, i)), i), u)
            && u.current == None && u.switches == t.switches
            && Strip(u.trace) == Strip(t.trace) + [(t.now, i)]
  {
    var i, c := t.current.value, M.Charge(jobs, M.Rr, t);
    assert M.Slot(jobs, M.Rr, t, i) && SameJob(e, t, i);
    TickIsAdvance(jobs, e, t);
    M.SettledWake(jobs, M.Rr, t);
    ArriveOn(M.Plain(jobs), Advance(e, i), i);
    ReleaseIsRequeue(jobs, S.Arrive(M.Plain(jobs), Advance(e, i)), M.WakeAll(c), i);
  }

  /** Both simulators are at the same point, between two slices. */
  ghost predicate Together(jobs: seq<M.Job>, e: S.State, h: M.State) {
    && M.PureCpu(jobs) && S.Inv(M.Plain(jobs), e, -1) && M.HeadInv(jobs, M.Rr, h)
    && h.current == None && Same(e, h)
  }

  lemma StillUnfinished(jobs: seq<M.Job>, e: S.State, h: M.State)
    requires Together(jobs, e, h)
    ensures M.Finished(h) <==> e.pending == [] && e.ready == []
  {
    if e.pending != [] {
      assert e.pending[0] in e.pending && SameJob(e, h, e.pending[0]) && M.Slot(jobs, M.Rr, h, e.pending[0]);
    } else if e.ready != [] {
      assert e.ready[0] in e.ready && M.Slot(jobs, M.Rr, h, e.ready[0]);
    } else {
      forall i | 0 <= i < |jobs|
        ensures h.tasks[i].done.Some?
      {
        assert SameJob(e, h, i) && M.Slot(jobs, M.Rr, h, i);
      }
    }
  }

  /** The second tick of a slice is a turn of its own. */
  lemma SecondTick(jobs: seq<M.Job>, period: int, e: S.State, v: M.State) returns (u: M.State)
    requires Same(e, v) && M.HeadInv(jobs, M.Rr, v) && v.current.Some? && M.PureCpu(jobs) && period > 0
    requires S.Sorted(M.Plain(jobs), e.pending) && v.tasks[v.current.value].slice == 1
    ensures var i := v.current.value;
            && Same(S.Requeue(S.Arrive(M.Plain(jobs), Advance(e, i)), i), u)
            && Strip(u.trace) == Strip(v.trace) + [(v.now, i)]
            && u.switches == v.switches && u.current == None
    ensures M.HeadInv(jobs, M.Rr, u) && M.Quiet(u)
    ensures M.Run(jobs, M.Rr, period, v) == M.Run(jobs, M.Rr, period, u)
  {
    MlfqPriority.PrepareBusy(jobs, M.Rr, period, v);
    u := M.RunTick(jobs, M.Rr, v);
    assert M.Slot(jobs, M.Rr, v, v.current.value);
    assert u == M.Iterate(jobs, M.Rr, period, v);
    M.IterateKeepsInv(jobs, M.Rr, period, v);
    M.IterateShrinks(jobs, M.Rr, period, v);
    M.RunTickKeepsInv(jobs, M.Rr, v);
    hide M.RunTick;
    LastTick(jobs, e, v);
  }

  /** The dispatch that opens a slice. */
  lemma DispatchAgrees(jobs: seq<M.Job>, period: int, e: S.State, h: M.State) returns (s: M.State)
    requires S.Inv(M.Plain(jobs), e, -1) && e.ready != [] && period > 0
    requires M.HeadInv(jobs, M.Rr, h) && h.current == None && Same(e, M.WakeAll(h))
    ensures s == M.Prepare(M.Rr, period, h) && M.Inv(jobs, M.Rr, s) && M.Quiet(s)
    ensures Same(Begin(e), s) && s.current == Some(e.ready[0])
    ensures s.trace == h.trace && s.switches == h.switches + 1
    ensures s.tasks[e.ready[0]].slice == 2 && s.tasks[e.ready[0]].left == e.remaining[e.ready[0]]
  {
    var w := M.WakeAll(h);
    s := M.Start(w, 0);
    M.WakeAllKeepsInv(jobs, M.Rr, h);
    M.StartKeepsInv(jobs, M.Rr, w, 0);
    assert M.Prepare(M.Rr, period, h) == s;
    assert w.ready[0] in w.ready && SameJob(e, w, w.ready[0]) && M.Slot(jobs, M.Rr, w, w.ready[0]);
    StartIsBegin(jobs, e, w);
  }

  /** What one turn of the tick-driven loop does to its run. */
  lemma OneTurn(jobs: seq<M.Job>, period: int, h: M.State)
    requires M.HeadInv(jobs, M.Rr, h) && !M.Finished(h) && period > 0
    ensures M.HeadInv(jobs, M.Rr, M.Iterate(jobs, M.Rr, period, h))
    ensures M.Run(jobs, M.Rr, period, h) == M.Run(jobs, M.Rr, period, M.Iterate(jobs, M.Rr, period, h))
  {
    M.IterateKeepsInv(jobs, M.Rr, period, h);
    M.IterateShrinks(jobs, M.Rr, period, h);
  }

  lemma RequeueIgnoresTrace(a: S.State, b: S.State, i: nat, t: M.State)
    requires SameBut(a, b) && i < |a.remaining| && Same(S.Requeue(b, i), t)
    ensures Same(S.Requeue(a, i), t)
  {
    var x, y := S.Requeue(a, i), S.Requeue(b, i);
    forall k | 0 <= k < |t.tasks|
      ensures SameJob(x, t, k)
    {
      assert SameJob(y, t, k);
    }
  }

  /**
   One slice of the event-driven simulator from prepared state e is one or two turns of the
   tick-driven one from head h.
   */
  lemma TurnAgrees(jobs: seq<M.Job>, period: int, e: S.State, h: M.State) returns (u: M.State)
    requires M.PureCpu(jobs) && S.Inv(M.Plain(jobs), e, -1) && e.ready != [] && period > 0
    requires M.HeadInv(jobs, M.Rr, h) && h.current == None && !M.Finished(h) && Same(e, M.WakeAll(h))
    requires e.remaining[e.ready[0]] >= 1
    ensures var i := e.ready[0];
            var d := S.Duration(S.Rr, 2, e.remaining[i]);
            && Same(S.Turn(M.Plain(jobs), e, 0, d), u)
            && Strip(u.trace) == Strip(h.trace) + TicksOf(S.Segment(i, e.now, e.now + d))
            && u.switches == h.switches + 1
    ensures M.HeadInv(jobs, M.Rr, u) && M.Quiet(u) && u.current == None
    ensures M.Run(jobs, M.Rr, period, h) == M.Run(jobs, M.Rr, period, u)
  {
    hide M.Run, M.RunTick, M.Inv, M.Finished, M.Quiet, S.Inv, S.Arrive;
    var p, i := M.Plain(jobs), e.ready[0];
    var s := DispatchAgrees(jobs, period, e, h);
    NotPending(p, e);
    SliceIsTicks(p, e);
    TicksOfSlice(i, e.now);
    OneTurn(jobs, period, h);
    M.RunTickKeepsInv(jobs, M.Rr, s);
    if e.remaining[i] == 1 {
      LastTick(jobs, Begin(e), s);
      u := M.RunTick(jobs, M.Rr, s);
      RequeueIgnoresTrace(S.Arrive(p, S.Slice(e, 0, 1)), S.Arrive(p, Advance(Begin(e), i)), i, u);
    } else {
      var one := S.Arrive(p, Advance(Begin(e), i));
      u := TwoTicks(jobs, period, Begin(e), s);
      RequeueIgnoresTrace(S.Arrive(p, S.Slice(e, 0, 2)), S.Arrive(p, Advance(one, i)), i, u);
    }
  }

  lemma TwoTicks(jobs: seq<M.Job>, period: int, b: S.State, s: M.State) returns (u: M.State)
    requires Same(b, s) && M.Inv(jobs, M.Rr, s) && M.Quiet(s) && s.current.Some? && M.PureCpu(jobs)
    requires S.Sorted(M.Plain(jobs), b.pending) && period > 0
    requires s.tasks[s.current.value].left > 1 && s.tasks[s.current.value].slice == 2
    requires M.HeadInv(jobs, M.Rr, M.RunTick(jobs, M.Rr, s))
    ensures var p, i := M.Plain(jobs), s.current.value;
            && Same(S.Requeue(S.Arrive(p, Advance(S.Arrive(p, Advance(b, i)), i)), i), u)
            && Strip(u.trace) == Strip(s.trace) + ([(b.now, i)] + [(b.now + 1, i)])
            && u.switches == s.switches && u.current == None
    ensures M.HeadInv(jobs, M.Rr, u) && M.Quiet(u)
    ensures M.Run(jobs, M.Rr, period, M.RunTick(jobs, M.Rr, s)) == M.Run(jobs, M.Rr, period, u)
  {
    hide M.Run, M.RunTick, M.Quiet;
    InnerTick(jobs, b, s);
    M.RunTickKeepsInv(jobs, M.Rr, s);
    u := SecondTick(jobs, period, S.Arrive(M.Plain(jobs), Advance(b, s.current.value)), M.RunTick(jobs, M.Rr, s));
    assert Strip(u.trace) == Strip(s.trace) + ([(b.now, s.current.value)] + [(b.now + 1, s.current.value)]);
  }

  lemma TicksOfSlice(i: nat, now: int)
    ensures TicksOf(S.Segment(i, now, now + 1)) == [(now, i)]
    ensures TicksOf(S.Segment(i, now, now + 2)) == [(now, i)] + [(now + 1, i)]
  {
    assert TicksOf(S.Segment(i, now + 1, now + 2)) == [(now + 1, i)];
  }

  lemma NotPending(jobs: seq<S.Job>, e: S.State)
    requires S.Inv(jobs, e, -1) && e.ready != []
    ensures S.Sorted(jobs, e.pending) && e.ready[0] < |e.remaining| == |jobs| && e.ready[0] !in e.pending
  {
    assert S.Placed(jobs, e, -1, e.ready[0]);
  }

  /** Where the event-driven simulator's next turn starts. */
  function Ahead(jobs: seq<S.Job>, e: S.State): S.State
    requires S.Sorted(jobs, e.pending)
  {
    if e.ready == [] && e.pending == [] then e else S.Awake(jobs, e)
  }

  lemma AheadKeepsInv(jobs: seq<S.Job>, e: S.State)
    requires S.Inv(jobs, e, -1)
    ensures S.Inv(jobs, Ahead(jobs, e), -1)
  {
    if e.ready != [] || e.pending != [] {
      S.AwakeKeepsInv(jobs, e);
    }
  }

  /** The tick-driven simulator catches up with an idle jump. */
  lemma CatchUp(jobs: seq<M.Job>, period: int, e: S.State, h: M.State) returns (u: M.State)
    requires Together(jobs, e, h) && M.Quiet(h) && period > 0
    ensures Together(jobs, Ahead(M.Plain(jobs), e), u) && NotOverdue(jobs, Ahead(M.Plain(jobs), e))
    ensures u.trace == h.trace && u.switches == h.switches
    ensures M.Run(jobs, M.Rr, period, h) == M.Run(jobs, M.Rr, period, u)
  {
    AheadKeepsInv(M.Plain(jobs), e);
    forall k | 0 <= k < |e.pending|
      ensures jobs[e.pending[k]].arrival >= e.now
    {
      assert e.pending[k] in e.pending && SameJob(e, h, e.pending[k]) && M.Slot(jobs, M.Rr, h, e.pending[k]);
    }
    if e.ready == [] && e.pending != [] {
      u := IdleTurn(jobs, period, e, h);
    } else {
      u := h;
    }
  }

  lemma IdleTurn(jobs: seq<M.Job>, period: int, e: S.State, h: M.State) returns (u: M.State)
    requires Together(jobs, e, h) && M.Quiet(h) && period > 0 && e.ready == [] && e.pending != []
    ensures M.HeadInv(jobs, M.Rr, u) && u.current == None && Same(S.Awake(M.Plain(jobs), e), u)
    ensures NotOverdue(jobs, S.Awake(M.Plain(jobs), e))
    ensures u.trace == h.trace && u.switches == h.switches
    ensures M.Run(jobs, M.Rr, period, h) == M.Run(jobs, M.Rr, period, u)
  {
    StillUnfinished(jobs, e, h);
    OneTurn(jobs, period, h);
    QuietWake(h);
    u := M.Idle(h);
    assert u == M.Iterate(jobs, M.Rr, period, h);
    AwakeIsIdle(jobs, e, h);
  }

  lemma QuietWake(h: M.State)
    requires M.Quiet(h)
    ensures M.WakeAll(h) == h
  {
    NoMembers(M.Woken(h.tasks, h.now, |h.tasks|));
    assert M.Awakened(h.tasks, h.now) == h.tasks;
    assert h.ready + [] == h.ready;
  }

  /** What the two final states have in common. */
  ghost predicate Agrees(e: S.State, t: M.State) {
    Same(e, t) && SameTrace(e, t)
  }

  lemma {:induction false} RunsAgree(jobs: seq<M.Job>, period: int, e: S.State, h: M.State)
    requires S.Inv(M.Plain(jobs), e, -1) && period > 0 && SameTrace(e, h)
    requires Together(jobs, Ahead(M.Plain(jobs), e), h) && NotOverdue(jobs, Ahead(M.Plain(jobs), e))
    ensures Agrees(S.Run(M.Plain(jobs), S.Rr, 2, e), M.Run(jobs, M.Rr, period, h))
    decreases Sum(e.remaining), |e.pending|
  {
    var p := M.Plain(jobs);
    if e.pending == [] && e.ready == [] {
      StillUnfinished(jobs, e, h);
    } else {
      StillUnfinished(jobs, S.Awake(p, e), h);
      var n := S.Iterate(p, S.Rr, 2, e);
      S.IterateKeepsInv(p, S.Rr, 2, e);
      S.RemainingNonNegative(p, e);
      var u := IterateAgrees(jobs, period, e, h);
      RunsAgree(jobs, period, n, u);
    }
  }

  /** One turn of the event-driven loop against the turns of the tick-driven loop it takes. */
  lemma IterateAgrees(jobs: seq<M.Job>, period: int, e: S.State, h: M.State) returns (u: M.State)
    requires S.Inv(M.Plain(jobs), e, -1) && period > 0 && SameTrace(e, h)
    requires e.pending != [] || e.ready != []
    requires Together(jobs, S.Awake(M.Plain(jobs), e), h) && NotOverdue(jobs, S.Awake(M.Plain(jobs), e))
    ensures var p := M.Plain(jobs);
            var n := S.Iterate(p, S.Rr, 2, e);
            && S.Inv(p, n, -1)
            && Together(jobs, Ahead(p, n), u) && NotOverdue(jobs, Ahead(p, n)) && SameTrace(n, u)
    ensures M.Run(jobs, M.Rr, period, h) == M.Run(jobs, M.Rr, period, u)
  {
    var p := M.Plain(jobs);
    var a, k, d := S.IterateCases(p, S.Rr, 2, e);
    StillUnfinished(jobs, S.Awake(p, e), h);
    WakeIsArrive(jobs, S.Awake(p, e), h, h);
    S.IterateKeepsInv(p, S.Rr, 2, e);
    hide M.Run, M.Inv, M.Finished, S.Inv, S.Iterate, S.Turn;
    if a.ready == [] {
      u := IdlePastCompletions(jobs, period, a, h);
    } else {
      u := BusyTurn(jobs, period, a, h, d);
    }
  }

  lemma BusyTurn(jobs: seq<M.Job>, period: int, a: S.State, h: M.State, d: int) returns (u: M.State)
    requires M.PureCpu(jobs) && S.Inv(M.Plain(jobs), a, -1) && a.ready != [] && period > 0 && SameTrace(a, h)
    requires M.HeadInv(jobs, M.Rr, h) && h.current == None && !M.Finished(h) && Same(a, M.WakeAll(h))
    requires a.remaining[a.ready[0]] >= 1 && d == S.Duration(S.Rr, 2, a.remaining[a.ready[0]])
    requires S.Inv(M.Plain(jobs), S.Turn(M.Plain(jobs), a, 0, d), -1)
    ensures var p, n := M.Plain(jobs), S.Turn(M.Plain(jobs), a, 0, d);
            Together(jobs, Ahead(p, n), u) && NotOverdue(jobs, Ahead(p, n)) && SameTrace(n, u)
    ensures M.Run(jobs, M.Rr, period, h) == M.Run(jobs, M.Rr, period, u)
  {
    var n := S.Turn(M.Plain(jobs), a, 0, d);
    assert n.trace == a.trace + [S.Segment(a.ready[0], a.now, a.now + d)];
    hide M.Run, M.Inv, M.Finished, S.Inv, S.Turn, Same;
    var v := TurnAgrees(jobs, period, a, h);
    ExpandAppend(a.trace, S.Segment(a.ready[0], a.now, a.now + d));
    u := CatchUp(jobs, period, n, v);
  }

  lemma ExpandAppend(trace: seq<S.Segment>, g: S.Segment)
    ensures Expand(trace + [g]) == Expand(trace) + TicksOf(g)
  {
    assert (trace + [g])[..|trace|] == trace;
  }

  /** Arrivals without service complete on the spot; the clock moves on to the next arrival. */
  lemma IdlePastCompletions(jobs: seq<M.Job>, period: int, a: S.State, h: M.State) returns (u: M.State)
    requires S.Inv(M.Plain(jobs), a, -1) && a.ready == [] && period > 0 && M.PureCpu(jobs)
    requires M.HeadInv(jobs, M.Rr, h) && h.current == None && !M.Finished(h) && Same(a, M.WakeAll(h))
    ensures Together(jobs, Ahead(M.Plain(jobs), a), u) && NotOverdue(jobs, Ahead(M.Plain(jobs), a))
    ensures u.trace == h.trace && u.switches == h.switches
    ensures M.Run(jobs, M.Rr, period, h) == M.Run(jobs, M.Rr, period, u)
  {
    var w := M.WakeAll(h);
    OneTurn(jobs, period, h);
    M.WakeAllKeepsInv(jobs, M.Rr, h);
    AheadKeepsInv(M.Plain(jobs), a);
    u := M.Idle(w);
    assert u == M.Iterate(jobs, M.Rr, period, h);
    if a.pending != [] {
      AwakeIsIdle(jobs, a, w);
    } else {
      forall i | 0 <= i < |jobs|
        ensures !w.tasks[i].Waiting()
      {
        assert SameJob(a, w, i);
      }
    }
  }

  /** From the two initial states to the first arrival. */
  lemma FirstTurns(jobs: seq<M.Job>, period: int) returns (u: M.State)
    requires M.PureCpu(jobs) && period > 0
    ensures var p, e := M.Plain(jobs), S.Init(M.Plain(jobs));
            && S.Inv(p, e, -1) && SameTrace(e, u)
            && Together(jobs, Ahead(p, e), u) && NotOverdue(jobs, Ahead(p, e))
    ensures M.Final(jobs, M.Rr, period) == M.Run(jobs, M.Rr, period, u)
  {
    var p, e, h := M.Plain(jobs), S.Init(M.Plain(jobs)), M.Init(jobs, period);
    S.InitInv(p);
    M.InitInv(jobs, M.Rr, period);
    assert Same(e, h);
    if e.pending != [] && jobs[e.pending[0]].arrival == 0 {
      u := h;
    } else {
      if e.pending != [] {
        SortedTail(p, e.pending);
      }
      assert M.Quiet(h) by {
        forall i | 0 <= i < |jobs|
          ensures jobs[i].arrival > 0
        {
          assert i in e.pending;
        }
      }
      u := CatchUp(jobs, period, e, h);
    }
  }

  /**
   For every list of jobs without bursts and every boost period: the tick trace of 'rr' is the
   tick-by-tick expansion of the event-driven trace with quantum 2, first-run and completion times
   are equal, and the number of dispatches is the number of segments.
   */
  lemma SimulatorsAgree(jobs: seq<M.Job>, period: int)
    requires M.PureCpu(jobs) && period > 0
    ensures var e, t := S.Final(M.Plain(jobs), S.Rr, 2), M.Final(jobs, M.Rr, period);
            && Strip(t.trace) == Expand(e.trace)
            && t.switches == |e.trace|
            && forall i :: 0 <= i < |jobs| ==>
                 && i in e.first && t.tasks[i].first == Some(e.first[i])
                 && i in e.done && t.tasks[i].done == Some(e.done[i])
  {
    var u := FirstTurns(jobs, period);
    RunsAgree(jobs, period, S.Init(M.Plain(jobs)), u);
    var f, g := S.Final(M.Plain(jobs), S.Rr, 2), M.Final(jobs, M.Rr, period);
    forall i | 0 <= i < |jobs|
      ensures i in f.first && g.tasks[i].first == Some(f.first[i])
      ensures i in f.done && g.tasks[i].done == Some(f.done[i])
    {
      assert S.Placed(M.Plain(jobs), f, -1, i) && SameJob(f, g, i);
    }
  }
}
