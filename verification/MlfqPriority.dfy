/** Boost timing and strict priority in the tick-driven simulator. */
module MlfqPriority {
  import opened Util
  import opened MlfqSim

  /** The next boost is at most one period away, and is never overdue while anyone can run. */
  ghost predicate Timing(policy: Policy, period: int, s: State) {
    && s.nextBoost <= s.now + period
    && (policy == Mlfq && s.current.Some? ==> s.now < s.nextBoost)
    && (policy == Mlfq && s.ready != [] ==> s.now <= s.nextBoost)
  }

  /** No ready task has a better level than the running one. */
  ghost predicate TopLevel(policy: Policy, s: State) {
    && Below(s.ready, |s.tasks|) && (s.current.Some? ==> s.current.value < |s.tasks|)
    && (policy == Mlfq && s.current.Some? ==>
          forall r :: 0 <= r < |s.ready| ==> s.tasks[s.current.value].level <= s.tasks[s.ready[r]].level)
  }

  lemma NextMultiple(now: int, period: int)
    requires period > 0 && now >= 0
    ensures now < (now / period + 1) * period <= now + period
  {
    assert now == (now / period) * period + now % period;
    assert (now / period + 1) * period == (now / period) * period + period;
  }

  /** With nothing due, a busy turn goes straight to its tick. */
  lemma PrepareBusy(jobs: seq<Job>, policy: Policy, period: int, s: State)
    requires HeadInv(jobs, policy, s) && period > 0 && s.current.Some?
    requires policy == Mlfq ==> s.now < s.nextBoost
    ensures Prepare(policy, period, s) == s
  {
    var w := Woken(s.tasks, s.now, |s.tasks|);
    NoMembers(w);
    assert Awakened(s.tasks, s.now) == s.tasks;
    assert s.ready + w == s.ready;
  }

  /** After `Prepare` the boost lies ahead and the running task has a best level. */
  lemma PrepareTopLevel(jobs: seq<Job>, policy: Policy, period: int, s: State)
    requires HeadInv(jobs, policy, s) && Timing(policy, period, s) && TopLevel(policy, s) && period > 0
    ensures var p := Prepare(policy, period, s);
            && p.nextBoost <= p.now + period && (policy == Mlfq ==> p.now < p.nextBoost)
            && TopLevel(policy, p)
  {
    PrepareKeepsInv(jobs, policy, period, s);
    if s.current.Some? {
      PrepareBusy(jobs, policy, period, s);
    } else {
      NextMultiple(s.now, period);
      var b := Boost(policy, period, WakeAll(s));
      WakeAllKeepsInv(jobs, policy, s);
      BoostKeepsInv(jobs, policy, period, WakeAll(s));
      if b.ready != [] {
        StartTopLevel(jobs, policy, b);
      }
    }
  }

  lemma StartTopLevel(jobs: seq<Job>, policy: Policy, b: State)
    requires Inv(jobs, policy, b) && b.current == None && b.ready != []
    ensures TopLevel(policy, Select(policy, b))
  {
    var p, t := Pick(policy, b), Select(policy, b);
    RemoveAtMembers(b.ready, p);
    forall k | 0 <= k < |t.ready|
      ensures policy == Mlfq ==> t.tasks[t.ready[k]].level >= t.tasks[b.ready[p]].level
    {
      assert t.ready[k] == b.ready[if k < p then k else k + 1];
    }
  }

  lemma IdleMovesForward(jobs: seq<Job>, policy: Policy, p: State)
    requires Inv(jobs, policy, p)
    ensures Idle(p).now >= p.now
  {
    forall i | 0 <= i < |jobs|
      ensures p.tasks[i].Waiting() ==> p.tasks[i].wake >= p.now
    {
      assert Slot(jobs, policy, p, i);
    }
  }

  lemma IterateTopLevel(jobs: seq<Job>, policy: Policy, period: int, s: State)
    requires HeadInv(jobs, policy, s) && Timing(policy, period, s) && TopLevel(policy, s) && period > 0
    ensures var t := Iterate(jobs, policy, period, s); Timing(policy, period, t) && TopLevel(policy, t)
  {
    PrepareTopLevel(jobs, policy, period, s);
    PrepareKeepsInv(jobs, policy, period, s);
    var p := Prepare(policy, period, s);
    if p.current == None {
      IdleMovesForward(jobs, policy, p);
    } else {
      RunTickTopLevel(jobs, policy, period, p);
    }
  }

  lemma RunTickTopLevel(jobs: seq<Job>, policy: Policy, period: int, p: State)
    requires Inv(jobs, policy, p) && Quiet(p) && p.current.Some?
    requires p.nextBoost <= p.now + period && (policy == Mlfq ==> p.now < p.nextBoost)
    ensures var t := RunTick(jobs, policy, p); Timing(policy, period, t) && TopLevel(policy, t)
  {
    RunTickKeepsInv(jobs, policy, p);
    var i, w := p.current.value, WakeAll(Charge(jobs, policy, p));
    if policy == Mlfq && RunTick(jobs, policy, p).current.Some? {
      assert !Outranked(w, i);
    }
  }

  ghost predicate Orderly(policy: Policy, period: int, s: State) {
    Timing(policy, period, s) && TopLevel(policy, s)
  }

  /** At every turn the next boost is at most one period away and not overdue for anyone who can run. */
  lemma {:induction false} AlwaysOrderly(jobs: seq<Job>, policy: Policy, period: int, k: nat)
    requires ValidJobs(jobs) && period > 0
    ensures Orderly(policy, period, StateAt(jobs, policy, period, k))
  {
    hide Iterate, Inv, Finished;
    if k > 0 {
      var s := StateAt(jobs, policy, period, k - 1);
      AlwaysOrderly(jobs, policy, period, k - 1);
      if !Finished(s) {
        IterateTopLevel(jobs, policy, period, s);
      }
    }
  }

  /** The task about to execute a tick has a level at least as good as every ready task's. */
  lemma StrictPriority(jobs: seq<Job>, policy: Policy, period: int, k: nat)
    requires ValidJobs(jobs) && period > 0
    ensures TopLevel(policy, Prepare(policy, period, StateAt(jobs, policy, period, k)))
  {
    AlwaysOrderly(jobs, policy, period, k);
    PrepareTopLevel(jobs, policy, period, StateAt(jobs, policy, period, k));
  }
}
