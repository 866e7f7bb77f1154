/** The management loop over whole runs: the main theorems about src/scheduler.rs. */
module KernelRun {
  import opened Util
  import opened TrapAsm
  import opened KernelQueue
  import opened Kernel
  import opened KernelSafety

  /** A loop head with nothing current and nothing queued has every task finished, with sound times. */
  predicate AllDone(c: Config, k: Loop) {
    forall i :: 0 <= i < |k.tasks| ==>
                  k.tasks[i].state == Done && k.tasks[i].first.Some?
                  && c.base <= k.tasks[i].first.value <= k.tasks[i].completion
  }

  lemma NothingLeft(c: Config, k: Loop, now: nat)
    requires Shape(c, k) && Slots(c, k, now) && k.current.None? && k.queue == []
    ensures AllDone(c, k)
  {
    forall i | 0 <= i < |k.tasks|
      ensures k.tasks[i].state == Done && k.tasks[i].first.Some? && c.base <= k.tasks[i].first.value <= k.tasks[i].completion
    {
      assert Slot(c, k, i, now);
    }
  }

  /** A finished task is left alone. */
  predicate SameIfDone(a: Task, b: Task) {
    a.state == Done ==> b == a
  }

  /**
   Up to the call of run_task no check fails; a task runs that was current or queued, the invariant
   holds, and under Mlfq nobody queued is more urgent.
   */
  lemma SelectKeeps(c: Config, k: Loop, e: Event) returns (s: Loop)
    requires Inv(c, k, k.clock) && Clocked(c, k.clock, e) && (k.current.Some? || k.queue != [])
    ensures Select(c, k, e) == Going(s) && Inv(c, s, e.armed) && s.current.Some?
    ensures |s.tasks| == |k.tasks|
    ensures if k.current.Some? then s.current == k.current else s.current.value in k.queue
    ensures c.policy == Rr ==> s.deadline == if k.current.Some? then k.deadline else e.due + c.quantum
    ensures forall j :: 0 <= j < |k.tasks| ==> SameIfDone(k.tasks[j], s.tasks[j])
    ensures c.policy == Mlfq && e.check >= k.boost ==> e.boosted < s.boost <= e.boosted + Period(c)
    ensures !(c.policy == Mlfq && e.check >= k.boost) ==> s.boost == k.boost
  {
    hide Slot, Slots, Prior, OnGrid, Conserved, Check, NextBoost, Chosen, Armed, Boosted;
    CheckHolds(c, k, k.clock);
    var b := BoostKeeps(c, k, e);
    var d := ChoiceKeeps(c, b, e, e.boosted);
    s := ArmKeeps(c, d, e, e.dispatched);
    BoostDeadline(c, k, e, b);
    forall j | 0 <= j < |k.tasks|
      ensures SameIfDone(k.tasks[j], s.tasks[j])
    {
      if Some(j) == d.current && k.current.None? {
        assert Slot(c, b, j, e.boosted) by {
          SlotOf(c, b, j, e.boosted);
        }
        QueuedIsReady(c, b, j, e.boosted);
      }
    }
  }

  lemma SlotOf(c: Config, k: Loop, j: nat, now: nat)
    requires Slots(c, k, now) && j < |k.tasks|
    ensures Slot(c, k, j, now)
  {
  }

  lemma QueuedIsReady(c: Config, k: Loop, j: nat, now: nat)
    requires j < |k.tasks| && Slot(c, k, j, now) && j in k.queue
    ensures k.tasks[j].state == Ready
  {
  }

  lemma BoostDeadline(c: Config, k: Loop, e: Event, b: Loop)
    requires c.quantum > 0 && c.base <= e.boosted && Boosted(c, k, e) == Going(b)
    ensures c.policy == Mlfq && e.check >= k.boost ==> e.boosted < b.boost <= e.boosted + Period(c)
    ensures !(c.policy == Mlfq && e.check >= k.boost) ==> b.boost == k.boost
  {
    NextBoostBounds(c, e.boosted);
  }

  /** With nothing current and nothing queued the loop ends, and every task is done. */
  lemma TurnFinishes(c: Config, k: Loop, e: Event) returns (b: Loop)
    requires Inv(c, k, k.clock) && Clocked(c, k.clock, e) && k.current.None? && k.queue == []
    ensures Turn(c, k, e) == Finished(b) && AllDone(c, b) && b.tasks == k.tasks
  {
    hide Prior, OnGrid, Conserved, Check, Boosted, Slots;
    CheckHolds(c, k, k.clock);
    b := BoostKeeps(c, k, e);
    NothingLeft(c, k, k.clock);
    assert b.tasks == k.tasks;
  }

  /**
   One iteration: it goes on with the invariant intact, or it stops, and it stops exactly when the
   task that ran ended in a way its spec does not allow.
   */
  lemma TurnKeeps(c: Config, k: Loop, e: Event) returns (s: Loop)
    requires Inv(c, k, k.clock) && Clocked(c, k.clock, e) && (k.current.Some? || k.queue != [])
    ensures Select(c, k, e) == Going(s) && s.current.Some? && s.current.value < |c.fault|
    ensures Inv(c, s, e.armed)
    ensures match Complaint(c, s.current.value, e.reason)
            case Some(why) => Turn(c, k, e) == Stopped(why)
            case None => Turn(c, k, e).Going? && Kept(c, k, e, Turn(c, k, e).loop)
  {
    hide Prior, OnGrid, Conserved, Select, Slot;
    s := SelectKeeps(c, k, e);
    SlotOf(c, s, s.current.value, e.armed);
    SlotMeans(c, s, s.current.value, e.armed);
    if Complaint(c, s.current.value, e.reason).None? {
      hide Settle;
      var r := SettleKeeps(c, s, e);
      RunningNotDone(c, k, s, r, e);
    }
  }

  lemma RunningNotDone(c: Config, k: Loop, s: Loop, r: Loop, e: Event)
    requires |k.tasks| == |s.tasks| == |r.tasks| && s.current.Some? && s.current.value < |s.tasks|
    requires s.tasks[s.current.value].state == Running
    requires forall j :: 0 <= j < |k.tasks| ==> SameIfDone(k.tasks[j], s.tasks[j])
    requires forall j :: 0 <= j < |k.tasks| && j != s.current.value ==> r.tasks[j] == s.tasks[j]
    ensures forall j :: 0 <= j < |k.tasks| ==> SameIfDone(k.tasks[j], r.tasks[j])
  {
  }

  /** What an iteration that goes on leaves behind. */
  ghost predicate Kept(c: Config, k: Loop, e: Event, n: Loop) {
    && Inv(c, n, n.clock) && n.clock == e.requeued && |n.tasks| == |k.tasks|
    && (forall j :: 0 <= j < |k.tasks| ==> SameIfDone(k.tasks[j], n.tasks[j]))
    && (n.current.Some? && k.current.Some? ==> n.current == k.current)
    && (c.policy == Rr && n.current.Some? ==>
          n.deadline == (if k.current.Some? then k.deadline else e.due + c.quantum) && e.time < n.deadline)
    && (c.policy == Mlfq && e.check >= k.boost ==> e.boosted < n.boost <= e.boosted + Period(c))
  }

  /** The task the loop is about to run, if it runs one. */
  ghost function RunsNow(c: Config, k: Loop, e: Event): Option<nat>
    requires c.quantum > 0
  {
    var s := Select(c, k, e);
    if s.Going? then s.loop.current else None
  }

  /** The loop driven by a sequence of events, until it finishes or stops. */
  ghost function RunLoop(c: Config, k: Loop, es: seq<Event>): Outcome
    requires c.quantum > 0
    decreases |es|
  {
    if es == [] then Going(k)
    else
      match Turn(c, k, es[0])
      case Going(n) => RunLoop(c, n, es[1..])
      case other => other
  }

  /** One monotone clock across the iterations. */
  ghost predicate Clocks(c: Config, now: nat, es: seq<Event>)
    decreases |es|
  {
    es == [] || (Clocked(c, now, es[0]) && Clocks(c, es[0].requeued, es[1..]))
  }

  /** Iteration j ran a task that ended in a way its spec does not allow. */
  ghost predicate Blames(c: Config, k: Loop, es: seq<Event>, j: nat, why: Stop)
    requires c.quantum > 0
  {
    && j < |es| && RunLoop(c, k, es[..j]).Going?
    && var s := Select(c, RunLoop(c, k, es[..j]).loop, es[j]);
       && s.Going? && s.loop.current.Some? && s.loop.current.value < |c.fault|
       && Complaint(c, s.loop.current.value, es[j].reason) == Some(why)
  }

  /** Everything a loop head or an end of the batch promises. */
  ghost predicate Promised(c: Config, k: Loop, es: seq<Event>, o: Outcome)
    requires c.quantum > 0
  {
    match o
    case Going(n) => Inv(c, n, n.clock) && |n.tasks| == |k.tasks|
                     && forall i :: 0 <= i < |k.tasks| ==> SameIfDone(k.tasks[i], n.tasks[i])
    case Finished(n) => AllDone(c, n) && |n.tasks| == |k.tasks|
                        && forall i :: 0 <= i < |k.tasks| ==> SameIfDone(k.tasks[i], n.tasks[i])
    case Stopped(why) => why in {BadExit, UnexpectedFault} && exists j: nat :: Blames(c, k, es, j, why)
  }

  /**
   Safety of every run: for all traps and every monotone clock, at each head the invariant holds (so
   the runtime check passes and no push fails), finished tasks never change, the loop ends only when
   every task is done with sound times, and it stops early only by the fault of a task.
   */
  lemma {:induction false} EveryRunIsSafe(c: Config, k: Loop, es: seq<Event>)
    requires Inv(c, k, k.clock) && Clocks(c, k.clock, es)
    ensures Promised(c, k, es, RunLoop(c, k, es))
    decreases |es|
  {
    hide Inv, Turn, Select, Clocked, AllDone;
    InvConfigured(c, k);
    if es != [] {
      var e := es[0];
      if k.current.None? && k.queue == [] {
        var b := TurnFinishes(c, k, e);
      } else {
        var s := TurnKeeps(c, k, e);
        if Turn(c, k, e).Going? {
          EveryRunIsSafe(c, Turn(c, k, e).loop, es[1..]);
          Later(c, k, es);
        } else {
          assert es[..0] == [];
          assert Blames(c, k, es, 0, Complaint(c, s.current.value, e.reason).value);
        }
      }
    }
  }

  lemma InvConfigured(c: Config, k: Loop)
    requires Inv(c, k, k.clock)
    ensures c.quantum > 0 && |k.tasks| == |c.fault|
  {
  }

  /** Blame in the rest of a run is blame in the whole. */
  lemma Later(c: Config, k: Loop, es: seq<Event>)
    requires c.quantum > 0 && es != [] && Turn(c, k, es[0]).Going?
    ensures forall j: nat, why :: Blames(c, Turn(c, k, es[0]).loop, es[1..], j, why) ==> Blames(c, k, es, j + 1, why)
  {
    hide Turn, Select, Complaint;
    forall j: nat, why | Blames(c, Turn(c, k, es[0]).loop, es[1..], j, why)
      ensures Blames(c, k, es, j + 1, why)
    {
      assert es[..j + 1][1..] == es[1..][..j] && es[..j + 1][0] == es[0];
    }
  }

  /** Conversely, blame stops the loop there and then. */
  lemma {:induction false} BlameStops(c: Config, k: Loop, es: seq<Event>, j: nat, why: Stop)
    requires Inv(c, k, k.clock) && Clocks(c, k.clock, es) && Blames(c, k, es, j, why)
    ensures RunLoop(c, k, es) == Stopped(why)
    decreases j
  {
    hide Inv, Turn, Select, Clocked, AllDone, Blames;
    InvConfigured(c, k);
    BlameAhead(c, k, es, j, why);
    var e := es[0];
    if k.current.None? && k.queue == [] {
      var b := TurnFinishes(c, k, e);
      SelectFinishes(c, k, e);
    } else {
      var s := TurnKeeps(c, k, e);
      if j > 0 {
        BlameStops(c, Turn(c, k, e).loop, es[1..], j - 1, why);
      }
    }
  }

  /** Blame is on the first iteration or in the rest. */
  lemma BlameAhead(c: Config, k: Loop, es: seq<Event>, j: nat, why: Stop)
    requires c.quantum > 0 && Blames(c, k, es, j, why)
    ensures es != []
    ensures if j == 0 then
              Select(c, k, es[0]).Going?
              && var s := Select(c, k, es[0]).loop;
                 s.current.Some? && s.current.value < |c.fault| && Complaint(c, s.current.value, es[0].reason) == Some(why)
            else Turn(c, k, es[0]).Going? && Blames(c, Turn(c, k, es[0]).loop, es[1..], j - 1, why)
  {
    hide Turn, Select;
    if j > 0 {
      assert es[..j][0] == es[0] && es[..j][1..] == es[1..][..j - 1];
    }
  }

  lemma SelectFinishes(c: Config, k: Loop, e: Event)
    requires c.quantum > 0 && Turn(c, k, e).Finished?
    ensures Select(c, k, e).Finished?
  {
    hide Select;
  }

  /** The same from the state `batch` starts in. */
  lemma BatchIsSafe(c: Config, frames: seq<Frame>, es: seq<Event>)
    requires Configured(c) && |frames| == |c.fault| && Clocks(c, c.base, es)
    ensures Promised(c, Start(c, frames), es, RunLoop(c, Start(c, frames), es))
  {
    StartIsSound(c, frames);
    EveryRunIsSafe(c, Start(c, frames), es);
  }

  /** Over a whole batch: the loop stops early if and only if some task ended as its spec forbids. */
  lemma StopsExactlyWhenBlamed(c: Config, frames: seq<Frame>, es: seq<Event>)
    requires Configured(c) && |frames| == |c.fault| && Clocks(c, c.base, es)
    ensures RunLoop(c, Start(c, frames), es).Stopped? <==> exists j: nat, why :: Blames(c, Start(c, frames), es, j, why)
  {
    hide RunLoop, Blames, Clocks;
    BatchIsSafe(c, frames, es);
    StartIsSound(c, frames);
    forall j: nat, why | Blames(c, Start(c, frames), es, j, why)
      ensures RunLoop(c, Start(c, frames), es).Stopped?
    {
      BlameStops(c, Start(c, frames), es, j, why);
    }
  }

  /** What the invariant says of a loop head, in the words of the source. */
  lemma HeadMeans(c: Config, k: Loop)
    requires Inv(c, k, k.clock)
    ensures Check(k.tasks, k.queue)
    ensures forall i :: 0 <= i < |k.tasks| ==> (k.tasks[i].state == Running <==> k.current == Some(i))
    ensures k.switches == Sum(Releases(k.tasks)) + Held(k)
    ensures !c.policy.OneShot? ==> |k.trace| + k.dropped == k.switches - Held(k)
    ensures k.boosts * Period(c) <= k.clock - c.base && k.clock + Period(c) >= k.boost
    ensures exists m: nat :: m >= 1 && k.boost == c.base + m * Period(c)
  {
    CheckHolds(c, k, k.clock);
    var m: nat :| BoostAt(c, k, k.clock, m);
    PeriodSign(c, m);
    Successor(m - 1, Period(c));
    assert k.boosts * Period(c) <= (m - 1) * Period(c) by {
      hide Period;
      Scaled(k.boosts, m - 1, Period(c));
    }
    forall i | 0 <= i < |k.tasks|
      ensures k.tasks[i].state == Running <==> k.current == Some(i)
    {
      assert Slot(c, k, i, k.clock);
    }
  }

  /**
   Under Mlfq a live task always has something left of its slice and of its allotment, and at levels
   0 and 1 the allotment is the full one minus all user time charged since the last boost or demotion.
   */
  lemma AlwaysSolvent(c: Config, k: Loop, i: nat)
    requires c.policy == Mlfq && Inv(c, k, k.clock) && i < |k.tasks| && k.tasks[i].state != Done
    ensures var t := k.tasks[i];
            && t.level <= 2 && 0 < t.slice <= FullSlice(c, t.level) && t.allot > 0
            && (t.level < 2 ==> t.allot == FullAllot(c, t.level) - t.charged)
  {
    assert Slot(c, k, i, k.clock);
  }

  lemma Scaled(a: int, b: int, p: int)
    requires a <= b && p > 0
    ensures a * p <= b * p
  {
  }

  /* Rr: one deadline per dispatch. */

  /** The task that runs stays current through all of these iterations. */
  ghost predicate HoldsOn(c: Config, k: Loop, es: seq<Event>)
    requires c.quantum > 0
    decreases |es|
  {
    es == [] || (Turn(c, k, es[0]).Going? && Turn(c, k, es[0]).loop.current.Some? && HoldsOn(c, Turn(c, k, es[0]).loop, es[1..]))
  }

  /**
   Under Rr every trap of a dispatch but its last precedes the deadline set when it was dispatched,
   however many system calls occur: while the task stays current, nothing moves that deadline.
   */
  lemma {:induction false} RrDeadlineStands(c: Config, k: Loop, es: seq<Event>)
    requires c.policy == Rr && Inv(c, k, k.clock) && Clocks(c, k.clock, es) && HoldsOn(c, k, es) && es != []
    ensures var deadline := if k.current.Some? then k.deadline else es[0].due + c.quantum;
            (forall j :: 0 <= j < |es| ==> es[j].time < deadline)
            && RunLoop(c, k, es).Going? && RunLoop(c, k, es).loop.deadline == deadline
    decreases |es|
  {
    hide Inv, Turn, Clocked;
    InvConfigured(c, k);
    var e := es[0];
    if k.current.None? && k.queue == [] {
      var b := TurnFinishes(c, k, e);
      assert false;
    } else {
      var s := TurnKeeps(c, k, e);
      var n := Turn(c, k, e).loop;
      if es[1..] != [] {
        RrDeadlineStands(c, n, es[1..]);
        assert forall j :: 1 <= j < |es| ==> es[j] == es[1..][j - 1];
      }
    }
  }

  /* Mlfq. */

  /** Every run under Mlfq is of a task no less urgent than any ready one, boosts and kept tasks included. */
  lemma StrictPriority(c: Config, k: Loop, e: Event)
    requires c.policy == Mlfq && Inv(c, k, k.clock) && Clocked(c, k.clock, e) && (k.current.Some? || k.queue != [])
    ensures Select(c, k, e).Going?
    ensures var s := Select(c, k, e).loop;
            s.current.Some? && s.current.value < |s.tasks|
            && forall j :: 0 <= j < |s.tasks| && s.tasks[j].state == Ready ==> s.tasks[s.current.value].level <= s.tasks[j].level
  {
    hide Select;
    var s := SelectKeeps(c, k, e);
    forall j | 0 <= j < |s.tasks| && s.tasks[j].state == Ready
      ensures s.tasks[s.current.value].level <= s.tasks[j].level
    {
      assert Slot(c, s, j, e.armed);
      var p :| 0 <= p < |s.queue| && s.queue[p] == j;
    }
  }

  /** User time of task i in one iteration, by the clock readings around run_task. */
  ghost function UserTime(c: Config, k: Loop, e: Event, i: nat): nat
    requires c.quantum > 0
  {
    var s := Select(c, k, e);
    if s.Going? && s.loop.current == Some(i) then SatSub(e.time, e.entered) else 0
  }

  ghost function UserTimes(c: Config, k: Loop, es: seq<Event>, i: nat): nat
    requires c.quantum > 0
    decreases |es|
  {
    if es == [] then 0
    else UserTime(c, k, es[0], i) + if Turn(c, k, es[0]).Going? then UserTimes(c, Turn(c, k, es[0]).loop, es[1..], i) else 0
  }

  /** Boosts and demotions only grow, and without either all user time is charged. */
  predicate ChargedBy(k: Loop, n: Loop, i: nat, time: nat)
    requires i < |k.tasks| == |n.tasks|
  {
    && n.boosts >= k.boosts && n.tasks[i].demotions >= k.tasks[i].demotions
    && (n.boosts == k.boosts && n.tasks[i].demotions == k.tasks[i].demotions ==>
          n.tasks[i].charged == k.tasks[i].charged + time)
  }

  lemma SelectCharges(c: Config, k: Loop, e: Event, s: Loop, i: nat)
    requires c.quantum > 0 && Select(c, k, e) == Going(s) && i < |k.tasks|
    ensures |s.tasks| == |k.tasks| && ChargedBy(k, s, i, 0)
  {
    hide Check, NextBoost, Front;
  }

  lemma SettleCharges(c: Config, k: Loop, e: Event, n: Loop, i: nat)
    requires c.policy == Mlfq && k.current.Some? && k.current.value < |k.tasks| == |c.fault| && k.tasks[k.current.value].level <= 2
    requires Settle(c, k, e) == Going(n) && i < |k.tasks|
    ensures |n.tasks| == |k.tasks| && ChargedBy(k, n, i, if k.current == Some(i) then SatSub(e.time, e.entered) else 0)
  {
  }

  lemma TurnCharges(c: Config, k: Loop, e: Event, i: nat)
    requires c.policy == Mlfq && c.quantum > 0 && Turn(c, k, e).Going? && i < |k.tasks|
    ensures |Turn(c, k, e).loop.tasks| == |k.tasks| && ChargedBy(k, Turn(c, k, e).loop, i, UserTime(c, k, e, i))
  {
    hide Select, Settle;
    var s := Select(c, k, e).loop;
    SelectCharges(c, k, e, s, i);
    SettleCharges(c, s, e, Turn(c, k, e).loop, i);
  }

  lemma {:induction false} RunCharges(c: Config, k: Loop, es: seq<Event>, i: nat)
    requires c.policy == Mlfq && c.quantum > 0 && RunLoop(c, k, es).Going? && i < |k.tasks|
    ensures |RunLoop(c, k, es).loop.tasks| == |k.tasks|
    ensures ChargedBy(k, RunLoop(c, k, es).loop, i, UserTimes(c, k, es, i))
    decreases |es|
  {
    hide Turn, UserTime;
    if es != [] {
      TurnCharges(c, k, es[0], i);
      RunCharges(c, Turn(c, k, es[0]).loop, es[1..], i);
    }
  }

  /**
   No gaming: between boosts, a task that is still above the lowest level and has not been demoted
   has used less than its allotment of user time, however it mixes yields and system calls.
   */
  lemma AccountingCannotBeEscaped(c: Config, k: Loop, es: seq<Event>, i: nat)
    requires c.policy == Mlfq && Inv(c, k, k.clock) && Clocks(c, k.clock, es) && i < |k.tasks|
    requires RunLoop(c, k, es).Going?
    ensures var n := RunLoop(c, k, es).loop;
            && |n.tasks| == |k.tasks|
            && (n.boosts == k.boosts && n.tasks[i].demotions == k.tasks[i].demotions && n.tasks[i].state != Done
                && n.tasks[i].level < 2 ==>
                k.tasks[i].charged + UserTimes(c, k, es, i) < FullAllot(c, n.tasks[i].level))
  {
    hide Inv, RunLoop, Turn;
    InvConfigured(c, k);
    RunCharges(c, k, es, i);
    EveryRunIsSafe(c, k, es);
    var n := RunLoop(c, k, es).loop;
    if n.tasks[i].state != Done {
      AlwaysSolvent(c, n, i);
    }
  }

  /* The task records the loop shares with the machine. */

  /** Selecting a task changes no saved frame and ends no task. */
  lemma SelectFrames(c: Config, k: Loop, e: Event, s: Loop, now: nat)
    requires c.quantum > 0 && Select(c, k, e) == Going(s) && Shape(c, k) && Slots(c, k, now)
    ensures |s.tasks| == |k.tasks|
    ensures forall j :: 0 <= j < |k.tasks| ==>
                          s.tasks[j].frame == k.tasks[j].frame && (s.tasks[j].state == Done <==> k.tasks[j].state == Done)
  {
    hide Check, NextBoost, Front;
    forall j | 0 <= j < |k.tasks|
      ensures j in k.queue ==> k.tasks[j].state == Ready
    {
      assert Slot(c, k, j, now);
    }
  }

  /** Settling stores the trap's frame, and ends the task exactly on exit and fault. */
  lemma SettleFrames(c: Config, k: Loop, e: Event, n: Loop)
    requires k.current.Some? && k.current.value < |k.tasks| == |c.fault| && k.tasks[k.current.value].level <= 2
    requires k.tasks[k.current.value].state == Running && Settle(c, k, e) == Going(n)
    ensures |n.tasks| == |k.tasks|
    ensures forall j :: 0 <= j < |k.tasks| ==>
                          if k.current == Some(j) then
                            n.tasks[j].frame == e.frame && (n.tasks[j].state == Done <==> Ending(e.reason) == 1)
                          else n.tasks[j] == k.tasks[j]
  {
  }
}
