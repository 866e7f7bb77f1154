/**
 No gaming in the tick-driven feedback queue: between boosts no pattern of yields and blocking
 buys a job more than 4 ticks at level 0 or 8 at level 1.
 */
module MlfqGaming {
  import opened Util
  import opened MlfqSim
  import opened MlfqPriority

  /** Ticks that job i executes at `level` during [lo, hi). */
  function Ticks(trace: seq<Tick>, lo: int, hi: int, i: nat, level: int): nat {
    if trace == [] then 0
    else
      var l := |trace| - 1;
      Ticks(trace[..l], lo, hi, i, level)
      + if lo <= trace[l].time < hi && trace[l].job == i && trace[l].level == level then 1 else 0
  }

  lemma TicksAppend(trace: seq<Tick>, e: Tick, lo: int, hi: int, i: nat, level: int)
    ensures Ticks(trace + [e], lo, hi, i, level)
            == Ticks(trace, lo, hi, i, level) + if lo <= e.time < hi && e.job == i && e.level == level then 1 else 0
  {
    assert (trace + [e])[..|trace|] == trace;
  }

  lemma {:induction false} NoTicksYet(trace: seq<Tick>, lo: int, hi: int, i: nat, level: int)
    requires forall k :: 0 <= k < |trace| ==> trace[k].time < lo
    ensures Ticks(trace, lo, hi, i, level) == 0
  {
    if trace != [] {
      NoTicksYet(trace[..|trace| - 1], lo, hi, i, level);
    }
  }

  /** No boost strictly between lo and hi. */
  ghost predicate NoBoost(events: seq<Event>, lo: int, hi: int) {
    forall k :: 0 <= k < |events| && events[k].Boosted? ==> events[k].time <= lo || events[k].time >= hi
  }

  /** No boost after lo. */
  ghost predicate NoBoostSince(events: seq<Event>, lo: int) {
    forall k :: 0 <= k < |events| && events[k].Boosted? ==> events[k].time <= lo
  }

  ghost predicate Past(s: State) {
    && (forall k :: 0 <= k < |s.trace| ==> s.trace[k].time < s.now)
    && (forall k :: 0 <= k < |s.events| && s.events[k].Boosted? ==> s.events[k].time <= s.now)
  }

  /** What job i executed since lo, if no boost came later, is what its allotments lost. */
  ghost predicate Quota(s: State, i: nat, lo: int)
    requires i < |s.tasks|
  {
    var t := s.tasks[i];
    && 0 <= t.level <= 2 && 0 <= t.allot <= AllotOf(t.level)
    && (NoBoostSince(s.events, lo) ==>
          && Ticks(s.trace, lo, s.now, i, 0) <= (if t.level == 0 then 4 - t.allot else 4)
          && Ticks(s.trace, lo, s.now, i, 1)
             <= (if t.level == 0 then 0 else if t.level == 1 then 8 - t.allot else 8))
  }

  ghost predicate WithinQuota(s: State) {
    forall i, lo :: 0 <= i < |s.tasks| ==> Quota(s, i, lo)
  }

  /** The limit on every window free of boosts. */
  ghost predicate Limited(s: State, lo: int, hi: int, i: nat) {
    NoBoost(s.events, lo, hi) ==> Ticks(s.trace, lo, hi, i, 0) <= 4 && Ticks(s.trace, lo, hi, i, 1) <= 8
  }

  ghost predicate NoGaming(s: State) {
    Past(s) && WithinQuota(s) && forall lo, hi, i: nat :: i < |s.tasks| ==> Limited(s, lo, hi, i)
  }

  /** Steps that execute nothing, boost nobody and leave budgets alone. */
  lemma NoGamingFrame(s: State, t: State)
    requires NoGaming(s) && t.trace == s.trace && t.events == s.events && t.now >= s.now
    requires |t.tasks| == |s.tasks|
    requires forall i :: 0 <= i < |s.tasks| ==>
               t.tasks[i].level == s.tasks[i].level && t.tasks[i].allot == s.tasks[i].allot
    ensures NoGaming(t)
  {
    forall i, lo | 0 <= i < |t.tasks|
      ensures Quota(t, i, lo)
    {
      assert Quota(s, i, lo);
      TicksSettled(s.trace, lo, s.now, t.now, i, 0);
      TicksSettled(s.trace, lo, s.now, t.now, i, 1);
    }
    forall lo, hi, i: nat | i < |t.tasks|
      ensures Limited(t, lo, hi, i)
    {
      assert Limited(s, lo, hi, i);
    }
  }

  lemma {:induction false} TicksSettled(trace: seq<Tick>, lo: int, now: int, later: int, i: nat, level: int)
    requires now <= later && forall k :: 0 <= k < |trace| ==> trace[k].time < now
    ensures Ticks(trace, lo, later, i, level) == Ticks(trace, lo, now, i, level)
  {
    if trace != [] {
      TicksSettled(trace[..|trace| - 1], lo, now, later, i, level);
    }
  }

  lemma BoostNoGaming(policy: Policy, period: int, s: State)
    requires NoGaming(s) && period > 0
    ensures NoGaming(Boost(policy, period, s))
  {
    var t := Boost(policy, period, s);
    if t != s {
      assert t.events[|s.events|] == Boosted(s.now);
      forall i, lo | 0 <= i < |t.tasks|
        ensures Quota(t, i, lo)
      {
        assert Quota(s, i, lo);
        if lo >= s.now {
          NoTicksYet(s.trace, lo, s.now, i, 0);
          NoTicksYet(s.trace, lo, s.now, i, 1);
        }
      }
      forall lo, hi, i: nat | i < |t.tasks|
        ensures Limited(t, lo, hi, i)
      {
        assert Limited(s, lo, hi, i);
        if NoBoost(t.events, lo, hi) {
          assert forall k :: 0 <= k < |s.events| ==> t.events[k] == s.events[k];
        }
      }
    }
  }

  /** The events and trace that one tick of task i adds. */
  lemma ChargeQuota(jobs: seq<Job>, s: State, i: nat, lo: int)
    requires Inv(jobs, Mlfq, s) && s.current.Some? && NoGaming(s) && i < |jobs|
    ensures Quota(Charge(jobs, Mlfq, s), i, lo)
  {
    var c, t := s.current.value, Charge(jobs, Mlfq, s);
    var e := Tick(s.now, c, s.tasks[c].level);
    assert Slot(jobs, Mlfq, s, c) && Quota(s, i, lo);
    TicksAppend(s.trace, e, lo, t.now, i, 0);
    TicksAppend(s.trace, e, lo, t.now, i, 1);
    TicksSettled(s.trace, lo, s.now, t.now, i, 0);
    TicksSettled(s.trace, lo, s.now, t.now, i, 1);
    if NoBoostSince(t.events, lo) {
      assert forall k :: 0 <= k < |s.events| ==> t.events[k] == s.events[k];
      assert NoBoostSince(s.events, lo);
    }
  }

  lemma ChargeNoGaming(jobs: seq<Job>, s: State)
    requires Inv(jobs, Mlfq, s) && s.current.Some? && NoGaming(s)
    ensures NoGaming(Charge(jobs, Mlfq, s))
  {
    var t := Charge(jobs, Mlfq, s);
    assert forall k :: 0 <= k < |s.events| ==> t.events[k] == s.events[k];
    assert forall k :: 0 <= k < |s.trace| ==> t.trace[k] == s.trace[k];
    forall i, lo | 0 <= i < |t.tasks|
      ensures Quota(t, i, lo)
    {
      ChargeQuota(jobs, s, i, lo);
    }
    forall lo, hi, i: nat | i < |t.tasks|
      ensures Limited(t, lo, hi, i)
    {
      assert Limited(s, lo, hi, i) && Quota(t, i, lo);
      if NoBoost(t.events, lo, hi) {
        assert NoBoost(s.events, lo, hi);
        if hi > s.now {
          assert forall k :: 0 <= k < |t.events| && t.events[k].Boosted? ==> t.events[k].time <= s.now;
          assert NoBoostSince(t.events, lo);
          LateWindow(t, lo, hi, i);
        } else {
          TicksAppend(s.trace, t.trace[|s.trace|], lo, hi, i, 0);
          TicksAppend(s.trace, t.trace[|s.trace|], lo, hi, i, 1);
        }
      }
    }
  }

  lemma LateWindow(t: State, lo: int, hi: int, i: nat)
    requires i < |t.tasks| && Past(t) && Quota(t, i, lo) && NoBoostSince(t.events, lo) && hi >= t.now
    ensures Ticks(t.trace, lo, hi, i, 0) <= 4 && Ticks(t.trace, lo, hi, i, 1) <= 8
  {
    TicksSettled(t.trace, lo, t.now, hi, i, 0);
    TicksSettled(t.trace, lo, t.now, hi, i, 1);
  }

  lemma PrepareNoGaming(jobs: seq<Job>, period: int, s: State)
    requires HeadInv(jobs, Mlfq, s) && NoGaming(s) && period > 0
    ensures NoGaming(Prepare(Mlfq, period, s))
  {
    var w := WakeAll(s);
    hide NoGaming;
    NoGamingFrame(s, w);
    BoostNoGaming(Mlfq, period, w);
    WakeAllKeepsInv(jobs, Mlfq, s);
    BoostKeepsInv(jobs, Mlfq, period, w);
    NoGamingFrame(Boost(Mlfq, period, w), Prepare(Mlfq, period, s));
  }

  lemma RunTickNoGaming(jobs: seq<Job>, p: State)
    requires Inv(jobs, Mlfq, p) && NoGaming(p) && p.current.Some?
    ensures NoGaming(RunTick(jobs, Mlfq, p))
  {
    hide NoGaming;
    ChargeNoGaming(jobs, p);
    NoGamingFrame(Charge(jobs, Mlfq, p), RunTick(jobs, Mlfq, p));
  }

  lemma IterateNoGaming(jobs: seq<Job>, period: int, s: State)
    requires HeadInv(jobs, Mlfq, s) && NoGaming(s) && period > 0
    ensures NoGaming(Iterate(jobs, Mlfq, period, s))
  {
    hide NoGaming;
    var p := Prepare(Mlfq, period, s);
    PrepareNoGaming(jobs, period, s);
    PrepareKeepsInv(jobs, Mlfq, period, s);
    if p.current == None {
      IdleMovesForward(jobs, Mlfq, p);
      NoGamingFrame(p, Idle(p));
    } else {
      hide RunTick;
      RunTickNoGaming(jobs, p);
    }
  }

  lemma InitNoGaming(jobs: seq<Job>, period: int)
    ensures NoGaming(Init(jobs, period))
  {
  }

  lemma {:induction false} AlwaysNoGaming(jobs: seq<Job>, period: int, k: nat)
    requires ValidJobs(jobs) && period > 0
    ensures NoGaming(StateAt(jobs, Mlfq, period, k))
  {
    hide NoGaming, Iterate, Inv;
    if k == 0 {
      InitNoGaming(jobs, period);
    } else {
      AlwaysNoGaming(jobs, period, k - 1);
      IterateNoGaming(jobs, period, StateAt(jobs, Mlfq, period, k - 1));
    }
  }

  /**
   In the final trace, in any window without a boost strictly inside it, every job has at most 4
   ticks at level 0 and 8 at level 1, however it yields and blocks.
   */
  lemma AllotmentsCannotBeGamed(jobs: seq<Job>, period: int, lo: int, hi: int, i: nat)
    requires ValidJobs(jobs) && period > 0 && i < |jobs|
    requires NoBoost(Final(jobs, Mlfq, period).events, lo, hi)
    ensures Ticks(Final(jobs, Mlfq, period).trace, lo, hi, i, 0) <= 4
    ensures Ticks(Final(jobs, Mlfq, period).trace, lo, hi, i, 1) <= 8
  {
    var k := FinalIsReached(jobs, Mlfq, period);
    AlwaysNoGaming(jobs, period, k);
    assert Limited(Final(jobs, Mlfq, period), lo, hi, i);
  }

  /** A demotion never cuts a slice short: whenever the allotment runs out, so does the slice. */
  lemma DemotionEndsSlice(jobs: seq<Job>, period: int, k: nat)
    requires ValidJobs(jobs) && period > 0
    ensures var p := Prepare(Mlfq, period, StateAt(jobs, Mlfq, period, k));
            p.current.Some? && p.current.value < |p.tasks| && Demotes(Mlfq, Spend(p.tasks[p.current.value])) ==>
              Spend(p.tasks[p.current.value]).slice == 0
  {
    var s := StateAt(jobs, Mlfq, period, k);
    PrepareKeepsInv(jobs, Mlfq, period, s);
    var p := Prepare(Mlfq, period, s);
    if p.current.Some? {
      assert Slot(jobs, Mlfq, p, p.current.value);
    }
  }
}
