/**
 Bounded waiting in the tick-driven simulator: with n jobs nobody is ready for more than
 2 * (n - 1) ticks in a row under round robin, or a boost period longer under the feedback queue.
 */
module MlfqStarvation {
  import opened Util
  import opened MlfqSim
  import opened MlfqPriority

  function Bound(policy: Policy, period: int, n: int): int {
    2 * (n - 1) + if policy == Mlfq then period else 0
  }

  /**
   The task at position p of the queue meets the bound: either everyone ahead of it (and the
   running task, with c ticks of its slice left) runs at most a two-tick slice, or the boost that
   will bring this about comes soon enough.
   */
  ghost predicate InTime(policy: Policy, period: int, s: State, c: int, p: nat)
    requires p < |s.ready| && s.ready[p] < |s.tasks|
  {
    var t := s.tasks[s.ready[p]];
    || (t.level == 0 && s.now + c + 2 * p <= t.readyAt + Bound(policy, period, |s.tasks|))
    || (policy == Mlfq && Max(s.now, s.nextBoost) <= t.readyAt + period)
  }

  ghost predicate Bounded(policy: Policy, period: int, s: State, c: int) {
    && Below(s.ready, |s.tasks|)
    && (forall p :: 0 <= p < |s.ready| ==> InTime(policy, period, s, c, p))
    && (forall i :: 0 <= i < |s.tasks| ==> s.tasks[i].maxWait <= Bound(policy, period, |s.tasks|))
  }

  /** Ticks left in the running task's slice. */
  function InHand(s: State): int {
    if s.current.Some? && s.current.value < |s.tasks| then s.tasks[s.current.value].slice else 0
  }

  /** Wake-ups join at the back; they are in time if the queue leaves room for the running task. */
  lemma WakeAllBounded(jobs: seq<Job>, policy: Policy, period: int, s: State, x: State, c: int)
    requires Inv(jobs, policy, x) && x.tasks == s.tasks && x.ready == s.ready && x.now == s.now
    requires Bounded(policy, period, s, c) && s.nextBoost <= s.now + period
    requires period > 0 && (policy == Rr ==> if x.current.Some? then c <= 2 else c <= 0)
    ensures Bounded(policy, period, WakeAll(s), c)
  {
    var t := WakeAll(s);
    WakeAllKeepsInv(jobs, policy, x);
    PigeonHole(t.ready, |jobs|);
    var w := Woken(s.tasks, s.now, |s.tasks|);
    if x.current.Some? {
      RunnerNotQueued(jobs, policy, WakeAll(x));
    }
    forall p | 0 <= p < |t.ready|
      ensures InTime(policy, period, t, c, p)
    {
      var i := t.ready[p];
      assert Slot(jobs, policy, x, i);
      if p < |s.ready| {
        assert i in s.ready && InTime(policy, period, s, c, p);
      } else {
        assert i == w[p - |s.ready|] && i in w;
      }
    }
  }

  /** While somebody runs, at most n - 1 others are queued. */
  lemma RunnerNotQueued(jobs: seq<Job>, policy: Policy, s: State)
    requires Inv(jobs, policy, s) && s.current.Some?
    ensures |s.ready| <= |jobs| - 1
  {
    var i := s.current.value;
    assert Slot(jobs, policy, s, i);
    AppendMembers(s.ready, i);
    PigeonHole(s.ready + [i], |jobs|);
  }

  /** After a boost everybody is at level 0, with at most n - 1 two-tick slices ahead. */
  lemma BoostBounded(jobs: seq<Job>, policy: Policy, period: int, s: State)
    requires Inv(jobs, policy, s) && Bounded(policy, period, s, 0) && period > 0
    ensures Bounded(policy, period, Boost(policy, period, s), 0)
  {
    var t := Boost(policy, period, s);
    PigeonHole(s.ready, |jobs|);
    forall p | 0 <= p < |t.ready|
      ensures InTime(policy, period, t, 0, p)
    {
      assert s.ready[p] in s.ready && Slot(jobs, policy, s, s.ready[p]) && InTime(policy, period, s, 0, p);
    }
  }

  /** A dispatch takes one slice out of the distance of everyone behind. */
  lemma StartBounded(jobs: seq<Job>, policy: Policy, period: int, s: State)
    requires Inv(jobs, policy, s) && s.current == None && s.ready != [] && Bounded(policy, period, s, 0)
    requires period > 0
    ensures var t := Start(s, Pick(policy, s)); Bounded(policy, period, t, InHand(t))
  {
    var k := Pick(policy, s);
    var t, i := Start(s, k), s.ready[k];
    assert i in s.ready && Slot(jobs, policy, s, i) && InTime(policy, period, s, 0, k);
    RemoveAtMembers(s.ready, k);
    forall p | 0 <= p < |t.ready|
      ensures InTime(policy, period, t, InHand(t), p)
    {
      var q := if p < k then p else p + 1;
      assert t.ready[p] == s.ready[q] && t.ready[p] != i;
      assert s.ready[q] in s.ready && Slot(jobs, policy, s, s.ready[q]) && InTime(policy, period, s, 0, q);
    }
  }

  lemma PrepareBounded(jobs: seq<Job>, policy: Policy, period: int, s: State)
    requires HeadInv(jobs, policy, s) && Orderly(policy, period, s) && period > 0
    requires Bounded(policy, period, s, InHand(s))
    ensures var t := Prepare(policy, period, s); Bounded(policy, period, t, InHand(t))
  {
    if s.current.Some? {
      PrepareBusy(jobs, policy, period, s);
    } else {
      var w := WakeAll(s);
      WakeAllBounded(jobs, policy, period, s, s, 0);
      WakeAllKeepsInv(jobs, policy, s);
      BoostBounded(jobs, policy, period, w);
      BoostKeepsInv(jobs, policy, period, w);
      var b := Boost(policy, period, w);
      if b.ready != [] {
        StartBounded(jobs, policy, period, b);
      }
    }
  }

  /** One tick: the clock advances and the running task's slice shrinks, or the CPU comes free. */
  lemma ChargeBounded(jobs: seq<Job>, policy: Policy, period: int, s: State)
    requires Inv(jobs, policy, s) && s.current.Some? && Bounded(policy, period, s, InHand(s))
    requires policy == Mlfq ==> s.now < s.nextBoost
    ensures var i := s.current.value;
            var c := if Leaves(policy, jobs[i], s.tasks[i]) then 0 else s.tasks[i].slice - 1;
            Bounded(policy, period, Charge(jobs, policy, s), c)
  {
    var i, t := s.current.value, Charge(jobs, policy, s);
    assert Slot(jobs, policy, s, i);
    var c := if Leaves(policy, jobs[i], s.tasks[i]) then 0 else s.tasks[i].slice - 1;
    forall p | 0 <= p < |t.ready|
      ensures InTime(policy, period, t, c, p)
    {
      assert s.ready[p] in s.ready && Slot(jobs, policy, s, s.ready[p]) && InTime(policy, period, s, InHand(s), p);
    }
  }

  lemma ReleaseBounded(jobs: seq<Job>, policy: Policy, period: int, s: State, i: nat)
    requires i < |s.tasks| == |jobs| && Inv(jobs, policy, Settled(s, i)) && Bounded(policy, period, s, 0)
    requires period > 0 && s.nextBoost <= s.now + period
    ensures Bounded(policy, period, Release(s, i), 0)
  {
    var t := Release(s, i);
    assert Slot(jobs, policy, Settled(s, i), i);
    ReleaseKeepsInv(jobs, policy, s, i);
    PigeonHole(t.ready, |jobs|);
    forall p | 0 <= p < |t.ready|
      ensures InTime(policy, period, t, 0, p)
    {
      if p < |s.ready| {
        assert InTime(policy, period, s, 0, p) && s.ready[p] in s.ready;
      }
    }
  }

  lemma RunTickBounded(jobs: seq<Job>, policy: Policy, period: int, s: State)
    requires Inv(jobs, policy, s) && Quiet(s) && s.current.Some? && period > 0
    requires s.nextBoost <= s.now + period && (policy == Mlfq ==> s.now < s.nextBoost)
    requires Bounded(policy, period, s, InHand(s))
    ensures var t := RunTick(jobs, policy, s); Bounded(policy, period, t, InHand(t))
  {
    var i, c := s.current.value, Charge(jobs, policy, s);
    var w, leaves := WakeAll(c), Leaves(policy, jobs[i], s.tasks[i]);
    var h := if leaves then 0 else s.tasks[i].slice - 1;
    assert Slot(jobs, policy, s, i);
    ChargeBounded(jobs, policy, period, s);
    ChargeKeepsInv(jobs, policy, s);
    WakeAllBounded(jobs, policy, period, c, Settled(c, i), h);
    if RunTick(jobs, policy, s).current == None {
      WakeAllKeepsInv(jobs, policy, Settled(c, i));
      SettledWake(jobs, policy, s);
      LessInHand(policy, period, w, h);
      ReleaseBounded(jobs, policy, period, w, i);
    }
  }

  lemma LessInHand(policy: Policy, period: int, s: State, c: int)
    requires Bounded(policy, period, s, c) && c >= 0
    ensures Bounded(policy, period, s, 0)
  {
    forall p | 0 <= p < |s.ready|
      ensures InTime(policy, period, s, 0, p)
    {
      assert InTime(policy, period, s, c, p);
    }
  }

  ghost predicate AllInTime(policy: Policy, period: int, s: State) {
    Bounded(policy, period, s, InHand(s))
  }

  lemma IterateBounded(jobs: seq<Job>, policy: Policy, period: int, s: State)
    requires HeadInv(jobs, policy, s) && Orderly(policy, period, s) && period > 0
    requires AllInTime(policy, period, s)
    ensures AllInTime(policy, period, Iterate(jobs, policy, period, s))
  {
    var p := Prepare(policy, period, s);
    PrepareBounded(jobs, policy, period, s);
    PrepareTopLevel(jobs, policy, period, s);
    PrepareKeepsInv(jobs, policy, period, s);
    if p.current.Some? {
      RunTickBounded(jobs, policy, period, p);
    }
  }

  lemma InitBounded(jobs: seq<Job>, policy: Policy, period: int)
    requires period > 0 && jobs != []
    ensures AllInTime(policy, period, Init(jobs, period))
  {
  }

  lemma {:induction false} AlwaysBounded(jobs: seq<Job>, policy: Policy, period: int, k: nat)
    requires ValidJobs(jobs) && period > 0 && jobs != []
    ensures AllInTime(policy, period, StateAt(jobs, policy, period, k))
  {
    hide Bounded, Iterate, Inv;
    if k == 0 {
      InitBounded(jobs, policy, period);
    } else {
      var s := StateAt(jobs, policy, period, k - 1);
      AlwaysBounded(jobs, policy, period, k - 1);
      if !Finished(s) {
        AlwaysOrderly(jobs, policy, period, k - 1);
        IterateBounded(jobs, policy, period, s);
      }
    }
  }

  /**
   No starvation, whatever the bursts, waits and arrivals: the reported `max_ready_wait` of each
   of n jobs is at most 2 * (n - 1) under 'rr' and boost_period + 2 * (n - 1) under 'mlfq'.
   */
  lemma NobodyStarves(jobs: seq<Job>, policy: Policy, period: int)
    requires ValidJobs(jobs) && period > 0
    ensures var f := Final(jobs, policy, period);
            forall i :: 0 <= i < |jobs| ==> f.tasks[i].maxWait <= Bound(policy, period, |jobs|)
  {
    if jobs != [] {
      var k := FinalIsReached(jobs, policy, period);
      AlwaysBounded(jobs, policy, period, k);
    }
  }
}
