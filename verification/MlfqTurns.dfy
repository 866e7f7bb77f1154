/**
 One turn of the tick-driven simulator in plain numbers: when boosts fall, where a job stands on the
 ladder of levels, who is dispatched, and whether the job that ran keeps the CPU. Nothing here is said
 through the functions that compute it.
 */
module MlfqTurns {
  import opened Util
  import opened MlfqSim
  import opened MlfqPriority
  import opened MlfqTimes

  /* The ladder of levels. */

  /** A job's level, and the ticks it has run since it got there by a boost, by a demotion or at the start. */
  datatype Rung = Rung(level: int, ran: int)

  /** The fourth tick at level 0 leads to level 1, the eighth at level 1 to level 2. */
  function Climb(r: Rung): Rung {
    if r.level == 0 && r.ran == 3 then Rung(1, 0)
    else if r.level == 1 && r.ran == 7 then Rung(2, 0)
    else Rung(r.level, r.ran + 1)
  }

  /** A boost is due in the turn that starts in s. */
  predicate Due(policy: Policy, s: State) {
    policy == Mlfq && s.now >= s.nextBoost
  }

  /** The turn from s to n has executed a tick of task i. */
  predicate Ran(s: State, n: State, i: nat) {
    |n.trace| > |s.trace| && n.trace[|n.trace| - 1].job == i
  }

  function RungAt(jobs: seq<Job>, period: int, k: nat, i: nat): Rung
    requires ValidJobs(jobs) && period > 0
  {
    if k == 0 then Rung(0, 0)
    else
      var s, n := StateAt(jobs, Mlfq, period, k - 1), StateAt(jobs, Mlfq, period, k);
      var r := if Due(Mlfq, s) && !Finished(s) then Rung(0, 0) else RungAt(jobs, period, k - 1, i);
      if Ran(s, n, i) then Climb(r) else r
  }

  /** Level, allotment and slice of a job at this rung; it has not run after a whole slice without a new one. */
  predicate OnRung(t: Task, r: Rung) {
    && t.level == r.level && r.ran >= 0
    && ((r.level == 0 && r.ran < 4 && t.allot == 4 - r.ran && t.slice == 2 - r.ran % 2)
        || (r.level == 1 && r.ran < 8 && t.allot == 8 - r.ran && t.slice == 4 - r.ran % 4)
        || (r.level == 2 && t.allot == 0 && t.slice == 8 - r.ran % 8))
  }

  predicate SameBudget(t: Task, u: Task) {
    u.level == t.level && u.slice == t.slice && u.allot == t.allot && u.used == t.used
  }

  lemma SpendClimbs(t: Task, r: Rung)
    requires OnRung(t, r) && t.left > 1
    ensures OnRung(Budget(Mlfq, Spend(t)), Climb(r))
    ensures Demotes(Mlfq, Spend(t)) <==> Climb(r).level == r.level + 1
  {
    NextOf(r.ran, 2);
    NextOf(r.ran, 4);
    NextOf(r.ran, 8);
  }

  lemma NextOf(ran: int, m: int)
    requires ran >= 0 && m in {2, 4, 8}
    ensures (ran + 1) % m == if ran % m == m - 1 then 0 else ran % m + 1
  {
  }

  /** Up to the tick, budgets change only by a boost, to level 0 with slice 2 and allotment 4. */
  lemma PrepareResets(jobs: seq<Job>, policy: Policy, period: int, s: State, i: nat)
    requires HeadInv(jobs, policy, s) && period > 0 && i < |jobs|
    ensures |s.tasks| == |Prepare(policy, period, s).tasks| == |jobs|
    ensures var t, u := s.tasks[i], Prepare(policy, period, s).tasks[i];
            && (t.done.Some? ==> u.done.Some?)
            && (u.done.None? ==>
                  if Due(policy, s) then u.level == 0 && u.slice == 2 && u.allot == 4 && u.used == t.used else SameBudget(t, u))
  {
    var w := WakeAll(s);
    WakeAllKeepsInv(jobs, policy, s);
    BoostKeepsInv(jobs, policy, period, w);
    assert w.tasks[i] == WakeTask(s.tasks[i], s.now);
    var b := Boost(policy, period, w);
    assert b.tasks[i] == if Due(policy, s) then BoostTask(w.tasks[i]) else w.tasks[i];
    SelectKeepsBudget(policy, b, i);
  }

  lemma SelectKeepsBudget(policy: Policy, b: State, i: nat)
    requires Below(b.ready, |b.tasks|) && i < |b.tasks|
    ensures var u := Select(policy, b).tasks[i]; SameBudget(b.tasks[i], u) && u.done == b.tasks[i].done
  {
  }

  /** In the tick, only the budget of the task that runs changes. */
  lemma TickBudgets(jobs: seq<Job>, policy: Policy, p: State, i: nat)
    requires Inv(jobs, policy, p) && p.current.Some? && i < |jobs|
    ensures var n, t := RunTick(jobs, policy, p), p.tasks[i];
            && |n.tasks| == |jobs|
            && SameBudget(if p.current == Some(i) then Budget(policy, Spend(t)) else t, n.tasks[i])
            && (n.tasks[i].done.None? ==> t.done.None? && (p.current == Some(i) ==> t.left > 1))
  {
    var c, g := p.current.value, Charge(jobs, policy, p);
    assert Slot(jobs, policy, p, i) && Slot(jobs, policy, p, c);
    AfterBudget(policy, jobs[c], p.tasks[c], p.now + 1);
    assert g.tasks[i] == if i == c then After(policy, jobs[c], p.tasks[c], p.now + 1) else p.tasks[i];
    hide After, Charge, Leaves, Budget;
    assert WakeAll(g).tasks[i] == WakeTask(g.tasks[i], g.now);
    YieldBudget(policy, WakeAll(g), c, Leaves(policy, jobs[c], p.tasks[c]), i);
  }

  lemma AfterBudget(policy: Policy, j: Job, t: Task, now: int)
    requires t.phase == Running && t.left > 0
    ensures var u := After(policy, j, t, now);
            && SameBudget(Budget(policy, Spend(t)), u)
            && (u.done.None? ==> t.done.None? && t.left > 1)
  {
  }

  lemma YieldBudget(policy: Policy, s: State, c: nat, leaves: bool, i: nat)
    requires c < |s.tasks| && i < |s.tasks| && Below(s.ready, |s.tasks|)
    ensures var n := Yield(policy, s, c, leaves);
            |n.tasks| == |s.tasks| && SameBudget(s.tasks[i], n.tasks[i]) && n.tasks[i].done == s.tasks[i].done
  {
    hide Outranked;
  }

  /** Whether a turn executes a tick, and what it adds to the trace. */
  lemma TurnTrace(jobs: seq<Job>, policy: Policy, period: int, s: State)
    requires HeadInv(jobs, policy, s) && period > 0
    ensures var p, n := Prepare(policy, period, s), Iterate(jobs, policy, period, s);
            && (forall i: nat :: Ran(s, n, i) <==> p.current == Some(i))
            && (p.current.None? ==> n.tasks == p.tasks && n.trace == s.trace && n.events == p.events)
            && (p.current.Some? ==> n == RunTick(jobs, policy, p))
  {
    PrepareKeepsInv(jobs, policy, period, s);
    PrepareKeepsTrace(policy, period, s);
    var p := Prepare(policy, period, s);
    if p.current.Some? {
      RunTickTrace(jobs, policy, p);
    }
    hide Prepare, RunTick;
  }

  /** One turn moves an unfinished job along the ladder. */
  lemma TurnClimbs(jobs: seq<Job>, period: int, s: State, i: nat, r: Rung)
    requires HeadInv(jobs, Mlfq, s) && period > 0 && i < |jobs|
    requires s.tasks[i].done.None? ==> OnRung(s.tasks[i], r)
    ensures var n, q := Iterate(jobs, Mlfq, period, s), if Due(Mlfq, s) then Rung(0, 0) else r;
            |n.tasks| == |jobs|
            && (n.tasks[i].done.None? ==> s.tasks[i].done.None? && OnRung(n.tasks[i], if Ran(s, n, i) then Climb(q) else q))
  {
    hide Prepare, RunTick, Slot, Budget, Spend, Iterate;
    TurnTrace(jobs, Mlfq, period, s);
    PrepareKeepsInv(jobs, Mlfq, period, s);
    PrepareResets(jobs, Mlfq, period, s, i);
    var p := Prepare(Mlfq, period, s);
    var q := if Due(Mlfq, s) then Rung(0, 0) else r;
    if p.tasks[i].done.None? {
      assert OnRung(p.tasks[i], q);
      if p.current.Some? {
        TickBudgets(jobs, Mlfq, p, i);
        if p.current == Some(i) && p.tasks[i].left > 1 {
          SpendClimbs(p.tasks[i], q);
        }
      }
    } else if p.current.Some? {
      TickBudgets(jobs, Mlfq, p, i);
    }
  }

  /** At every turn an unfinished job is where its ticks have taken it, with what is left there. */
  lemma {:induction false} AlwaysOnRung(jobs: seq<Job>, period: int, k: nat, i: nat)
    requires ValidJobs(jobs) && period > 0 && i < |jobs|
    ensures var s := StateAt(jobs, Mlfq, period, k);
            i < |s.tasks| && (s.tasks[i].done.None? ==> OnRung(s.tasks[i], RungAt(jobs, period, k, i)))
  {
    hide Iterate, Finished, OnRung, Climb, Ran, Due;
    if k == 0 {
      StartsOnRung(jobs, period, i);
    } else {
      AlwaysOnRung(jobs, period, k - 1, i);
      var s := StateAt(jobs, Mlfq, period, k - 1);
      if !Finished(s) {
        TurnClimbs(jobs, period, s, i, RungAt(jobs, period, k - 1, i));
      } else {
        StaysDone(s, i);
      }
    }
  }

  lemma StartsOnRung(jobs: seq<Job>, period: int, i: nat)
    requires i < |jobs|
    ensures OnRung(Init(jobs, period).tasks[i], Rung(0, 0))
  {
  }

  lemma StaysDone(s: State, i: nat)
    requires Finished(s) && i < |s.tasks|
    ensures s.tasks[i].done.Some?
  {
  }

  /**
   A turn resets an unfinished job's level by a boost, raises it by exactly one when the job has now run
   its fourth tick at level 0 or its eighth at level 1, and otherwise leaves it.
   */
  lemma LevelMoves(jobs: seq<Job>, period: int, k: nat, i: nat)
    requires ValidJobs(jobs) && period > 0 && i < |jobs| && !Finished(StateAt(jobs, Mlfq, period, k))
    ensures var s, n, r := StateAt(jobs, Mlfq, period, k), StateAt(jobs, Mlfq, period, k + 1), RungAt(jobs, period, k, i);
            && i < |s.tasks| == |n.tasks|
            && (n.tasks[i].done.None? ==>
                  var t, u := s.tasks[i], n.tasks[i];
                  && t.level == r.level && 0 <= r.ran && (t.level < 2 ==> t.allot == (if t.level == 0 then 4 else 8) - r.ran)
                  && if s.now >= s.nextBoost then u.level == 0
                     else if Ran(s, n, i) && t.level == 0 && r.ran + 1 == 4 then u.level == 1 && u.slice == 4 && u.allot == 8
                     else if Ran(s, n, i) && t.level == 1 && r.ran + 1 == 8 then u.level == 2 && u.slice == 8 && u.allot == 0
                     else u.level == t.level)
  {
    hide Iterate, Finished, Ran;
    AlwaysOnRung(jobs, period, k, i);
    TurnClimbs(jobs, period, StateAt(jobs, Mlfq, period, k), i, RungAt(jobs, period, k, i));
  }

  /** Under Rr everybody stays at level 0, with slices of two ticks that survive yields and waits. */
  lemma {:induction false} RrSlices(jobs: seq<Job>, period: int, k: nat, i: nat)
    requires ValidJobs(jobs) && period > 0 && i < |jobs|
    ensures var s := StateAt(jobs, Rr, period, k);
            i < |s.tasks| && (s.tasks[i].done.None? ==> s.tasks[i].level == 0 && s.tasks[i].slice == 2 - s.tasks[i].used % 2)
  {
    hide Iterate, Finished;
    if k > 0 {
      RrSlices(jobs, period, k - 1, i);
      var s := StateAt(jobs, Rr, period, k - 1);
      if !Finished(s) {
        RrTurn(jobs, period, s, i);
      } else {
        StaysDone(s, i);
      }
    }
  }

  lemma RrTurn(jobs: seq<Job>, period: int, s: State, i: nat)
    requires HeadInv(jobs, Rr, s) && period > 0 && i < |jobs|
    requires s.tasks[i].done.None? ==> s.tasks[i].level == 0 && s.tasks[i].slice == 2 - s.tasks[i].used % 2
    ensures var n := Iterate(jobs, Rr, period, s);
            |n.tasks| == |jobs| && (n.tasks[i].done.None? ==> n.tasks[i].level == 0 && n.tasks[i].slice == 2 - n.tasks[i].used % 2)
  {
    hide Prepare, RunTick, Slot, Iterate;
    TurnTrace(jobs, Rr, period, s);
    PrepareKeepsInv(jobs, Rr, period, s);
    PrepareResets(jobs, Rr, period, s, i);
    var p := Prepare(Rr, period, s);
    if p.current.Some? {
      TickBudgets(jobs, Rr, p, i);
    }
  }

  /* Boosts. */

  lemma PrepareBoosts(policy: Policy, period: int, s: State)
    requires period > 0 && s.now >= 0 && Below(s.ready, |s.tasks|)
    ensures Prepare(policy, period, s).now == s.now
    ensures var p := Prepare(policy, period, s);
            if Due(policy, s) then
              p.nextBoost % period == 0 && s.now < p.nextBoost <= s.now + period && p.events == s.events + [Boosted(s.now)]
            else p.nextBoost == s.nextBoost && p.events == s.events
  {
    NextMultiple(s.now, period);
    DivUnique((s.now / period + 1) * period, period, s.now / period + 1, 0);
  }

  /** The first boost is due after one period; after each, the next is due at the next multiple of the period. */
  lemma BoostsOnTheDot(jobs: seq<Job>, policy: Policy, period: int, k: nat)
    requires ValidJobs(jobs) && period > 0 && !Finished(StateAt(jobs, policy, period, k))
    ensures var s, n := StateAt(jobs, policy, period, k), StateAt(jobs, policy, period, k + 1);
            if policy == Mlfq && s.now >= s.nextBoost then
              n.nextBoost % period == 0 && s.now < n.nextBoost <= s.now + period && |n.events| > |s.events|
              && n.events[|s.events|] == Boosted(s.now)
            else n.nextBoost == s.nextBoost
    ensures StateAt(jobs, policy, period, 0).nextBoost == period
  {
    hide Prepare, RunTick, Finished, Slot;
    var s := StateAt(jobs, policy, period, k);
    PrepareBoosts(policy, period, s);
    PrepareKeepsInv(jobs, policy, period, s);
    var p := Prepare(policy, period, s);
    if p.current.Some? {
      RunTickTrace(jobs, policy, p);
      TickSettles(jobs, policy, p);
    }
  }

  /* Who is dispatched. */

  /** Entry p of the queue is its front, or under Mlfq the earliest of those with the least level. */
  ghost predicate IsNext(policy: Policy, tasks: seq<Task>, queue: seq<nat>, p: nat)
    requires Below(queue, |tasks|)
  {
    && p < |queue|
    && if policy == Rr then p == 0
       else
         forall q :: 0 <= q < |queue| ==>
                       if q < p then tasks[queue[p]].level < tasks[queue[q]].level
                       else tasks[queue[p]].level <= tasks[queue[q]].level
  }

  /** The CPU stays with its task; a free one goes to the next of the queue, the newly woken at its end, if there is any. */
  ghost predicate Takes(policy: Policy, queue: seq<nat>, s: State, p: State)
    requires Below(queue, |p.tasks|)
  {
    if s.current.Some? then p.current == s.current && p.ready == queue && p.switches == s.switches
    else if queue == [] then p.current.None? && p.ready == [] && p.switches == s.switches
    else
      p.switches == s.switches + 1
      && exists q: nat :: IsNext(policy, p.tasks, queue, q) && p.current == Some(queue[q]) && p.ready == RemoveAt(queue, q)
  }

  lemma PrepareTakes(jobs: seq<Job>, policy: Policy, period: int, s: State)
    requires HeadInv(jobs, policy, s) && period > 0
    ensures var p, queue := Prepare(policy, period, s), s.ready + Woken(s.tasks, s.now, |s.tasks|);
            Below(queue, |p.tasks|) && p.now == s.now && Takes(policy, queue, s, p)
  {
    hide Slot, Pick;
    WakeAllKeepsInv(jobs, policy, s);
    BoostKeepsInv(jobs, policy, period, WakeAll(s));
    var b := Boost(policy, period, WakeAll(s));
    assert b.ready == s.ready + Woken(s.tasks, s.now, |s.tasks|) && b.current == s.current && b.switches == s.switches;
    hide Boost, WakeAll, Inv;
    if b.current.None? && b.ready != [] {
      StartTakes(policy, b, Pick(policy, b));
    }
  }

  lemma StartTakes(policy: Policy, b: State, q: nat)
    requires Below(b.ready, |b.tasks|) && b.ready != [] && q == Pick(policy, b)
    ensures IsNext(policy, Start(b, q).tasks, b.ready, q)
  {
  }

  /* The end of a tick. */

  /** This tick brings the task to a scheduling point of its own. */
  predicate Voluntarily(j: Job, t: Task) {
    j.burst > 0 && (t.used + 1) % j.burst == 0
  }

  /**
   Whether the task that runs in p keeps the CPU after its tick: unless it finishes, reaches a scheduling
   point of its own, with or without a wait, uses up its slice, or under Mlfq a boost is due or somebody
   ready or just woken has a better level.
   */
  ghost predicate Keeps(policy: Policy, j: Job, t: Task, queue: seq<nat>, p: State)
    requires Below(queue, |p.tasks|)
  {
    && t.left > 1 && !Voluntarily(j, t) && t.slice > 1
    && (policy == Mlfq ==>
          p.now + 1 < p.nextBoost && forall q :: 0 <= q < |queue| ==> p.tasks[queue[q]].level >= t.level)
  }

  lemma {:induction false} WokenSame(a: seq<Task>, b: seq<Task>, now: int, n: nat)
    requires n <= |a| == |b| && forall i :: 0 <= i < n ==> (BecomesReady(a[i], now) <==> BecomesReady(b[i], now))
    ensures Woken(a, now, n) == Woken(b, now, n)
  {
    if n > 0 {
      WokenSame(a, b, now, n - 1);
    }
  }

  /** What the tick makes of the task that runs, before anybody is woken. */
  lemma RunnerSettles(policy: Policy, j: Job, t: Task, now: int)
    requires t.phase == Running && t.left > 0 && BudgetOk(policy, t) && ValidJob(j)
    ensures var u := After(policy, j, t, now);
            && (Leaves(policy, j, t) <==> t.left == 1 || Voluntarily(j, t) || t.slice == 1)
            && u.phase == (if t.left == 1 then Done else if j.wait > 0 && Voluntarily(j, t) then Blocked else Running)
            && WakeTask(u, now) == u && !BecomesReady(u, now) && (!Leaves(policy, j, t) ==> u.level == t.level)
  {
  }

  /** The tick itself and the wake-ups after it. */
  lemma TickWakes(jobs: seq<Job>, policy: Policy, p: State) returns (w: State)
    requires Inv(jobs, policy, p) && p.current.Some?
    ensures w == WakeAll(Charge(jobs, policy, p)) && |w.tasks| == |p.tasks| == |jobs| && Below(w.ready, |jobs|)
    ensures w.ready == p.ready + Woken(p.tasks, p.now + 1, |p.tasks|)
    ensures w.now == p.now + 1 && w.switches == p.switches && w.nextBoost == p.nextBoost && w.current == p.current
    ensures var i := p.current.value;
            && w.tasks[i] == After(policy, jobs[i], p.tasks[i], p.now + 1)
            && forall q :: 0 <= q < |w.ready| ==> w.ready[q] != i && w.tasks[w.ready[q]].level == p.tasks[w.ready[q]].level
  {
    hide BudgetOk, TaskOk;
    var i, g := p.current.value, Charge(jobs, policy, p);
    assert Slot(jobs, policy, p, i);
    RunnerReady(jobs, policy, p);
    w := WakeAll(g);
    assert g.tasks == p.tasks[i := After(policy, jobs[i], p.tasks[i], p.now + 1)];
    hide Slot, Charge, After, WakeTask;
    WokenSame(g.tasks, p.tasks, p.now + 1, |p.tasks|);
    forall q | 0 <= q < |w.ready|
      ensures w.ready[q] < |jobs| && w.ready[q] != i && w.tasks[w.ready[q]].level == p.tasks[w.ready[q]].level
    {
      assert w.ready[q] in p.ready || w.ready[q] in Woken(p.tasks, p.now + 1, |p.tasks|);
      LevelKept(g.tasks[w.ready[q]], g.now);
    }
  }

  lemma LevelKept(t: Task, now: int)
    ensures WakeTask(t, now).level == t.level
  {
  }

  lemma RunnerReady(jobs: seq<Job>, policy: Policy, p: State)
    requires Inv(jobs, policy, p) && p.current.Some?
    ensures var i := p.current.value;
            var u := After(policy, jobs[i], p.tasks[i], p.now + 1);
            && i !in p.ready && !BecomesReady(p.tasks[i], p.now + 1)
            && WakeTask(u, p.now + 1) == u && !BecomesReady(u, p.now + 1)
  {
    var i := p.current.value;
    assert Slot(jobs, policy, p, i);
    RunnerSettles(policy, jobs[i], p.tasks[i], p.now + 1);
  }

  /** After the tick: the clock, the phase of the task that ran, who keeps the CPU, and the order of the queue. */
  lemma TickSettles(jobs: seq<Job>, policy: Policy, p: State)
    requires Inv(jobs, policy, p) && p.current.Some?
    ensures var i, n := p.current.value, RunTick(jobs, policy, p);
            var t, j, queue := p.tasks[i], jobs[i], p.ready + Woken(p.tasks, p.now + 1, |p.tasks|);
            && |n.tasks| == |p.tasks| && Below(queue, |p.tasks|)
            && n.now == p.now + 1 && n.switches == p.switches && n.nextBoost == p.nextBoost
            && n.current == (if Keeps(policy, j, t, queue, p) then Some(i) else None)
            && n.tasks[i].phase == (if t.left == 1 then Done
                                    else if j.wait > 0 && Voluntarily(j, t) then Blocked
                                    else if Keeps(policy, j, t, queue, p) then Running
                                    else Phase.Ready)
            && n.ready == queue + if n.tasks[i].phase == Phase.Ready then [i] else []
  {
    var i := p.current.value;
    assert Slot(jobs, policy, p, i);
    RunnerSettles(policy, jobs[i], p.tasks[i], p.now + 1);
    var w := TickWakes(jobs, policy, p);
    hide Slot, Inv, Charge, After, Leaves, WakeTask, WakeAll;
  }

  lemma TickLogs(jobs: seq<Job>, policy: Policy, p: State)
    requires Inv(jobs, policy, p) && p.current.Some?
    ensures var i, n := p.current.value, RunTick(jobs, policy, p);
            && |n.tasks| == |p.tasks| && n.trace == p.trace + [Tick(p.now, i, p.tasks[i].level)]
            && n.events == p.events
                           + if n.tasks[i].done.None? && n.tasks[i].level > p.tasks[i].level then [Demoted(p.now + 1, i)] else []
  {
    hide After;
    var i := p.current.value;
    var t := p.tasks[i];
    assert Slot(jobs, policy, p, i);
    DemotesUp(policy, jobs[i], t, p.now + 1);
    var w := TickWakes(jobs, policy, p);
    hide WakeAll, Leaves;
    YieldBudget(policy, w, i, Leaves(policy, jobs[i], t), i);
    assert w.events == p.events + if Demotes(policy, Spend(t)) then [Demoted(p.now + 1, i)] else [] by {
      WakeAllLogs(Charge(jobs, policy, p));
    }
    assert w.trace == p.trace + [Tick(p.now, i, t.level)] by {
      WakeAllLogs(Charge(jobs, policy, p));
    }
    hide Demotes;
  }

  lemma WakeAllLogs(s: State)
    ensures WakeAll(s).trace == s.trace && WakeAll(s).events == s.events
  {
  }

  lemma DemotesUp(policy: Policy, j: Job, t: Task, now: int)
    requires t.phase == Running && t.left > 0 && t.done.None?
    ensures var u := After(policy, j, t, now); Demotes(policy, Spend(t)) <==> u.done.None? && u.level > t.level
  {
  }

  /** Every tick is logged with the level at which it ran; every boost and every demotion is logged, in that order. */
  lemma TurnLogs(jobs: seq<Job>, policy: Policy, period: int, k: nat, i: nat)
    requires ValidJobs(jobs) && period > 0 && !Finished(StateAt(jobs, policy, period, k))
    ensures var s, n := StateAt(jobs, policy, period, k), StateAt(jobs, policy, period, k + 1);
            var boosts := if policy == Mlfq && s.now >= s.nextBoost then [Boosted(s.now)] else [];
            && |s.tasks| == |n.tasks| == |jobs|
            && if Ran(s, n, i) then
                 i < |jobs|
                 && var level := if boosts == [] then s.tasks[i].level else 0;
                    && n.trace == s.trace + [Tick(s.now, i, level)]
                    && n.events == s.events + boosts
                                   + if n.tasks[i].done.None? && n.tasks[i].level > level then [Demoted(s.now + 1, i)] else []
               else |n.trace| == |s.trace| ==> n.trace == s.trace && n.events == s.events + boosts
  {
    hide Prepare, RunTick, Finished, Iterate;
    var s := StateAt(jobs, policy, period, k);
    PrepareBoosts(policy, period, s);
    PrepareKeepsInv(jobs, policy, period, s);
    PrepareKeepsTrace(policy, period, s);
    TurnTrace(jobs, policy, period, s);
    var p := Prepare(policy, period, s);
    if p.current.Some? {
      assert Slot(jobs, policy, p, p.current.value);
      PrepareResets(jobs, policy, period, s, p.current.value);
      TickLogs(jobs, policy, p);
    }
  }
}
