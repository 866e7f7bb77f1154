/**
 The whole of one batch: the management loop chooses, the machine runs the chosen task through
 run_task and back, and the loop settles the trap that came out. What the two layers prove
 separately is put together here: a batch of sound specs cannot fail.
 */
module ClosedSystem {
  import opened Util
  import opened Riscv
  import opened Syscalls
  import opened TrapAsm
  import opened TrapHandler
  import opened Kernel
  import opened KernelSafety
  import opened KernelRun
  import opened Preemption
  import opened PreparedTasks

  /** The event is what the machine's run t of the chosen task reports. */
  predicate Reported(m: Machine, t: Visit, e: Event, n: Machine, reason: Reason)
    requires t.task < |n.frames|
  {
    e.reason == reason && e.frame == n.frames[t.task] && e.time == t.now
  }

  /** Iteration e of the loop runs its task on the machine as v, and sees what EXCHANGE holds afterwards. */
  ghost predicate Feeds(l: Layout, c: Config, k: Loop, m: Machine, e: Event, v: Visit)
    requires c.quantum > 0
  {
    && RunsNow(c, k, e) == Some(v.task)
    && Possible(l, m, v)
    && match RunTask(l, m, v)
       case Back(n, reason, _) => v.task < |n.frames| && Reported(m, v, e, n, reason)
       case _ => true
  }

  /** The events es come from the machine making the visits vs, one per iteration that runs a task. */
  ghost predicate Drives(l: Layout, c: Config, k: Loop, m: Machine, es: seq<Event>, vs: seq<Visit>)
    requires c.quantum > 0
    decreases |es|
  {
    if es == [] then vs == []
    else if vs == [] then Select(c, k, es[0]).Finished?
    else
      && Feeds(l, c, k, m, es[0], vs[0])
      && var r, o := RunTask(l, m, vs[0]), Turn(c, k, es[0]);
         (r.Back? && o.Going? ==> Drives(l, c, o.loop, r.machine, es[1..], vs[1..]))
  }

  /** The loop's tasks and the machine's are the same ones. */
  predicate SameTasks(k: Loop, m: Machine) {
    && |k.tasks| == |m.frames| == |m.status|
    && forall i :: 0 <= i < |k.tasks| ==>
                     k.tasks[i].frame == m.frames[i] && (k.tasks[i].state == Done <==> m.status[i].Ended?)
  }

  /** On its own the task can only end in this way. */
  ghost predicate EndsAs(code: seq<Instr>, s: Solo, verdict: Solo) {
    forall n: nat :: EndOrLive(Alone(code, s, n), verdict)
  }

  predicate EndOrLive(s: Solo, verdict: Solo) {
    s != Escaped && (s.Live? || s == verdict)
  }

  /** The loop accepts this end of a task. */
  predicate Accepts(verdict: Solo, fault: bool) {
    verdict == Exited(0) || (verdict == Faulted && fault)
  }

  lemma EndsTamely(code: seq<Instr>, s: Solo, verdict: Solo)
    requires EndsAs(code, s, verdict)
    ensures Tame(code, s)
  {
    forall n: nat
      ensures Alone(code, s, n) != Escaped
    {
      assert EndOrLive(Alone(code, s, n), verdict);
    }
  }

  lemma StillEndsAs(code: seq<Instr>, s: Solo, verdict: Solo, a: nat)
    requires EndsAs(code, s, verdict)
    ensures EndsAs(code, Alone(code, s, a), verdict) && EndOrLive(Alone(code, s, a), verdict)
  {
    forall n: nat
      ensures EndOrLive(Alone(code, Alone(code, s, a), n), verdict)
    {
      AloneCompose(code, s, a, n);
      assert EndOrLive(Alone(code, s, a + n), verdict);
    }
  }

  ghost predicate AllEndAs(l: Layout, m: Machine, verdicts: seq<Solo>)
    requires |l.cells| == |m.frames| == |m.status| == |verdicts|
  {
    forall i :: 0 <= i < |verdicts| ==> EndsAs(l.code, Image(l, m, i), verdicts[i])
  }

  /** Both layers are in order and agree. */
  ghost predicate Coupled(l: Layout, c: Config, k: Loop, m: Machine, verdicts: seq<Solo>) {
    && Inv(c, k, k.clock) && Sane(l) && |l.cells| == |l.top| == |c.fault| == |verdicts| && Sound(l, m) && SameTasks(k, m)
    && AllEndAs(l, m, verdicts)
  }

  /** How the reason of a trap shows in the machine. */
  lemma ReasonShows(l: Layout, m: Machine, t: Visit) returns (n: Machine, reason: Reason, x: Regs)
    requires Sane(l) && Sound(l, m) && Possible(l, m, t) && StaysHome(l.code, Image(l, m, t.task).user)
    ensures RunTask(l, m, t) == Back(n, reason, x) && Sound(l, n)
    ensures Image(l, n, t.task) == SoloRun(l.code, Image(l, m, t.task).user, Work(t))
    ensures forall j :: 0 <= j < |l.top| && j != t.task ==> Image(l, n, j) == Image(l, m, j) && n.frames[j] == m.frames[j] && n.status[j] == m.status[j]
    ensures n.status[t.task] == StatusAfter(reason) && |n.frames| == |n.status| == |m.frames|
    ensures reason.Fault? ==> reason.cause == 2
  {
    hide Sane, StaysHome, SoloRun, Image, RunTask;
    n, reason, x := RunTaskIsSolo(l, m, t);
    RunTaskFields(l, m, t, n, reason, x);
  }

  lemma RunTaskFields(l: Layout, m: Machine, t: Visit, n: Machine, reason: Reason, x: Regs)
    requires t.task < |l.top| == |l.cells| == |m.frames| == |m.status|
    requires RunTask(l, m, t) == Back(n, reason, x)
    ensures |n.frames| == |n.status| == |m.frames|
    ensures n.frames == m.frames[t.task := n.frames[t.task]] && n.status == m.status[t.task := StatusAfter(reason)]
  {
    hide Launch, Walk, Trap, Handle, Bridge, Entered;
  }

  /** The loop complains of a trap only if it does not accept the task's verdict. */
  lemma NoComplaint(l: Layout, c: Config, n: Machine, i: nat, reason: Reason, verdict: Solo)
    requires i < |c.fault| == |n.status| == |n.frames| == |l.cells| && n.status[i] == StatusAfter(reason)
    requires EndsAs(l.code, Image(l, n, i), verdict) && (reason.Fault? ==> reason.cause == 2)
    ensures if n.status[i].Alive? || Accepts(verdict, c.fault[i]) then Complaint(c, i, reason).None?
            else Complaint(c, i, reason).Some?
  {
    StillEndsAs(l.code, Image(l, n, i), verdict, 0);
    NoWork(l.code, Image(l, n, i));
  }

  /** One iteration of the whole system: the layers stay coupled, unless a task ends in a way the loop does not accept. */
  lemma SystemStep(l: Layout, c: Config, k: Loop, m: Machine, verdicts: seq<Solo>, e: Event, v: Visit) returns (n: Machine)
    requires Coupled(l, c, k, m, verdicts) && Clocked(c, k.clock, e) && Feeds(l, c, k, m, e, v)
    ensures RunTask(l, m, v).Back? && RunTask(l, m, v).machine == n && v.task < |c.fault|
    ensures match Turn(c, k, e)
            case Going(g) => Coupled(l, c, g, n, verdicts) && g.clock == e.requeued
            case Stopped(_) => !Accepts(verdicts[v.task], c.fault[v.task])
            case Finished(_) => false
  {
    hide Turn, Select, Image, RunTask, Inv, Sane, Sound, EndsAs, Possible, Complaint, Alone, SoloRun, Clocked, Accepts;
    var i := v.task;
    InvConfigured(c, k);
    SomethingRuns(c, k, e);
    var s := TurnKeeps(c, k, e);
    PossibleMeans(l, m, v);
    EndsTamely(l.code, Image(l, m, i), verdicts[i]);
    TameMeans(l.code, Image(l, m, i));
    var reason, x;
    n, reason, x := ReasonShows(l, m, v);
    AloneIs(l.code, Image(l, m, i), Work(v));
    StillEndsAs(l.code, Image(l, m, i), verdicts[i], Work(v));
    NoComplaint(l, c, n, i, reason, verdicts[i]);
    if Turn(c, k, e).Going? {
      SameTasksAfter(l, c, k, m, e, v, s, Turn(c, k, e).loop, n, reason);
    }
  }

  lemma AloneIs(code: seq<Instr>, s: Solo, n: nat)
    requires s.Live?
    ensures Alone(code, s, n) == SoloRun(code, s.user, n)
  {
  }

  lemma SomethingRuns(c: Config, k: Loop, e: Event)
    requires Inv(c, k, k.clock) && Clocked(c, k.clock, e) && RunsNow(c, k, e).Some?
    ensures k.current.Some? || k.queue != []
  {
    if k.current.None? && k.queue == [] {
      hide Select;
      var b := TurnFinishes(c, k, e);
      SelectFinishes(c, k, e);
    }
  }

  lemma SameTasksAfter(l: Layout, c: Config, k: Loop, m: Machine, e: Event, v: Visit, s: Loop, g: Loop, n: Machine, reason: Reason)
    requires Inv(c, k, k.clock) && SameTasks(k, m) && Select(c, k, e) == Going(s) && s.current == Some(v.task) && Inv(c, s, e.armed)
    requires Turn(c, k, e) == Going(g) && v.task < |n.frames| == |n.status| == |m.frames| && Reported(m, v, e, n, reason)
    requires forall j :: 0 <= j < |m.frames| && j != v.task ==> n.frames[j] == m.frames[j] && n.status[j] == m.status[j]
    requires n.status[v.task] == StatusAfter(reason)
    ensures SameTasks(g, n)
  {
    hide Select, Settle;
    SelectFrames(c, k, e, s, k.clock);
    assert Slot(c, s, v.task, e.armed);
    SettleFrames(c, s, e, g);
  }

  /**
   The whole system on every run: no assert of the handler fires, the loop stops early only if some
   task's own verdict is one it does not accept, and it comes to its end only if it accepts them all,
   each task then having ended with its verdict.
   */
  lemma {:induction false} SystemEndsAsTasksDo(l: Layout, c: Config, k: Loop, m: Machine, verdicts: seq<Solo>, es: seq<Event>, vs: seq<Visit>)
    returns (n: Machine)
    requires Coupled(l, c, k, m, verdicts) && Clocks(c, k.clock, es) && Drives(l, c, k, m, es, vs)
    requires forall i :: 0 <= i < |k.tasks| && k.tasks[i].state == Done ==> Accepts(verdicts[i], c.fault[i])
    ensures match RunLoop(c, k, es)
            case Going(g) => RunTasks(l, m, vs) == Some(n) && Coupled(l, c, g, n, verdicts)
            case Stopped(_) => exists i :: 0 <= i < |verdicts| && !Accepts(verdicts[i], c.fault[i])
            case Finished(g) =>
              && RunTasks(l, m, vs) == Some(n) && |n.frames| == |n.status| == |l.cells| == |verdicts| && AllDone(c, g)
              && forall i :: 0 <= i < |verdicts| ==> Image(l, n, i) == verdicts[i] && Accepts(verdicts[i], c.fault[i])
    decreases |es|
  {
    hide Turn, Select, Image, RunTask, Inv, Sane, Sound, EndsAs, Clocked, Feeds, AllDone, SameTasks, Accepts;
    InvConfigured(c, k);
    CoupledSizes(l, c, k, m, verdicts);
    n := m;
    if es != [] && vs == [] {
      SystemEnds(l, c, k, m, verdicts, es[0]);
    } else if es != [] {
      var m2 := SystemStep(l, c, k, m, verdicts, es[0], vs[0]);
      VisitInRange(l, c, k, m, es[0], vs[0]);
      if Turn(c, k, es[0]).Going? {
        var g := Turn(c, k, es[0]).loop;
        DoneAccepted(l, c, k, m, verdicts, es[0], vs[0], g, m2);
        n := SystemEndsAsTasksDo(l, c, g, m2, verdicts, es[1..], vs[1..]);
      }
    }
  }

  /** A task is let into Done only with an accepted verdict. */
  lemma DoneAccepted(l: Layout, c: Config, k: Loop, m: Machine, verdicts: seq<Solo>, e: Event, v: Visit, g: Loop, n: Machine)
    requires Coupled(l, c, k, m, verdicts) && Clocked(c, k.clock, e) && Feeds(l, c, k, m, e, v) && Turn(c, k, e) == Going(g)
    requires RunTask(l, m, v).Back? && RunTask(l, m, v).machine == n && Coupled(l, c, g, n, verdicts)
    requires forall i :: 0 <= i < |k.tasks| && k.tasks[i].state == Done ==> Accepts(verdicts[i], c.fault[i])
    ensures forall i :: 0 <= i < |g.tasks| && g.tasks[i].state == Done ==> Accepts(verdicts[i], c.fault[i])
  {
    hide Turn, Select, Image, RunTask, Inv, Sane, Sound, EndsAs, Possible, Complaint, Alone, SoloRun, Clocked, Accepts;
    InvConfigured(c, k);
    SomethingRuns(c, k, e);
    var s := TurnKeeps(c, k, e);
    PossibleMeans(l, m, v);
    EndsTamely(l.code, Image(l, m, v.task), verdicts[v.task]);
    TameMeans(l.code, Image(l, m, v.task));
    var n2, reason, x := ReasonShows(l, m, v);
    NoComplaint(l, c, n, v.task, reason, verdicts[v.task]);
  }

  lemma CoupledSizes(l: Layout, c: Config, k: Loop, m: Machine, verdicts: seq<Solo>)
    requires Coupled(l, c, k, m, verdicts)
    ensures |l.top| == |l.cells| == |m.frames| == |m.status| == |c.fault| == |verdicts|
  {
    hide Inv, Sane, AllEndAs;
  }

  lemma VisitInRange(l: Layout, c: Config, k: Loop, m: Machine, e: Event, v: Visit)
    requires c.quantum > 0 && Feeds(l, c, k, m, e, v)
    ensures v.task < |l.top|
  {
    hide RunTask, Select;
  }

  /** When the loop ends, every task has ended, and so ended with its verdict. */
  lemma SystemEnds(l: Layout, c: Config, k: Loop, m: Machine, verdicts: seq<Solo>, e: Event)
    requires Coupled(l, c, k, m, verdicts) && Clocked(c, k.clock, e) && Select(c, k, e).Finished?
    ensures Turn(c, k, e).Finished? && AllDone(c, Turn(c, k, e).loop)
    ensures forall i :: 0 <= i < |verdicts| ==> k.tasks[i].state == Done && Image(l, m, i) == verdicts[i]
  {
    hide Inv, EndsAs, Sane, Sound;
    InvConfigured(c, k);
    NothingRuns(c, k, e);
    hide Select, Turn;
    var b := TurnFinishes(c, k, e);
    forall i | 0 <= i < |verdicts|
      ensures k.tasks[i].state == Done && Image(l, m, i) == verdicts[i]
    {
      StillEndsAs(l.code, Image(l, m, i), verdicts[i], 0);
      NoWork(l.code, Image(l, m, i));
    }
  }

  lemma NothingRuns(c: Config, k: Loop, e: Event)
    requires Inv(c, k, k.clock) && Clocked(c, k.clock, e) && Select(c, k, e).Finished?
    ensures k.current.None? && k.queue == []
  {
    if k.current.Some? || k.queue != [] {
      hide Select, Inv;
      var s := SelectKeeps(c, k, e);
    }
  }

  /* There is always a next iteration. */

  /** Whatever the task, a timer interrupt may come before its first instruction. */
  lemma InterruptAtOnce(l: Layout, m: Machine, i: nat, caller: Regs, now: nat) returns (v: Visit)
    requires i < |l.top| == |l.cells| == |m.frames| == |m.status| && m.status[i].Alive?
    ensures Possible(l, m, v) && v.task == i && v.now == now && v.timer && v.steps == 0
  {
    v := Visit(i, 0, true, caller, 0, map[], caller, now);
    assert Walk(l.code, Image(l, m, i).user, 0).Next?;
  }

  lemma BoostIgnoresTrap(c: Config, k: Loop, e: Event, frame: Frame, reason: Reason)
    requires c.quantum > 0
    ensures Boosted(c, k, e.(frame := frame, reason := reason)) == Boosted(c, k, e)
  {
  }

  lemma ChoiceIgnoresTrap(c: Config, k: Loop, e: Event, frame: Frame, reason: Reason)
    requires Below(k.queue, |k.tasks|)
    ensures Chosen(c, k, e.(frame := frame, reason := reason)) == Chosen(c, k, e)
    ensures Chosen(c, k, e).Going? ==> Chosen(c, k, e).loop.current.Some?
  {
  }

  lemma ArmIgnoresTrap(c: Config, k: Loop, e: Event, frame: Frame, reason: Reason)
    requires k.current.Some? && k.current.value < |k.tasks|
    ensures Armed(c, k, e.(frame := frame, reason := reason)) == Armed(c, k, e)
  {
  }

  /** Selecting a task looks at no trap. */
  lemma SelectIgnoresTrap(c: Config, k: Loop, e: Event, frame: Frame, reason: Reason)
    requires c.quantum > 0
    ensures Select(c, k, e.(frame := frame, reason := reason)) == Select(c, k, e)
  {
    hide Check, Boosted, Chosen, Armed;
    BoostIgnoresTrap(c, k, e, frame, reason);
    if Boosted(c, k, e).Going? {
      var b := Boosted(c, k, e).loop;
      if Below(b.queue, |b.tasks|) {
        ChoiceIgnoresTrap(c, b, e, frame, reason);
        if Chosen(c, b, e).Going? {
          var d := Chosen(c, b, e).loop;
          if d.current.value < |d.tasks| {
            ArmIgnoresTrap(c, d, e, frame, reason);
          }
        }
      }
    }
  }

  /** With a task left and room on the clock the system can make an iteration: it is never stuck. */
  lemma NeverStuck(l: Layout, c: Config, k: Loop, m: Machine, verdicts: seq<Solo>, caller: Regs) returns (e: Event, v: Visit)
    requires Coupled(l, c, k, m, verdicts) && (k.current.Some? || k.queue != []) && k.clock + Period(c) <= USIZE_MAX
    ensures Clocked(c, k.clock, e) && Feeds(l, c, k, m, e, v)
  {
    hide Select, Turn, Image, RunTask, Inv, Sane, Sound, EndsAs, Possible;
    var t := k.clock;
    InvConfigured(c, k);
    CoupledSizes(l, c, k, m, verdicts);
    e := Event(t, t, t, t, t, t, t, t, t, t, Frame(caller, 0, 0, 0, 0), Syscall);
    var s := SelectKeeps(c, k, e);
    RunningIsAlive(c, k, e, s, m);
    v := InterruptAtOnce(l, m, s.current.value, caller, t);
    PossibleMeans(l, m, v);
    EndsTamely(l.code, Image(l, m, v.task), verdicts[v.task]);
    TameMeans(l.code, Image(l, m, v.task));
    var n, reason, x := ReasonShows(l, m, v);
    SelectIgnoresTrap(c, k, e, n.frames[v.task], reason);
    e := e.(frame := n.frames[v.task], reason := reason);
  }

  lemma RunningIsAlive(c: Config, k: Loop, e: Event, s: Loop, m: Machine)
    requires Inv(c, k, k.clock) && Select(c, k, e) == Going(s) && Inv(c, s, e.armed) && s.current.Some? && SameTasks(k, m)
    ensures s.current.value < |m.status| && m.status[s.current.value].Alive?
  {
    hide Select;
    SelectFrames(c, k, e, s, k.clock);
    assert Slot(c, s, s.current.value, e.armed);
  }

  /* The batches of the source. */

  function Verdicts(specs: seq<Spec>): (r: seq<Solo>)
    ensures |r| == |specs| && forall i :: 0 <= i < |specs| ==> r[i] == Verdict(specs[i], i)
  {
    seq(|specs|, i requires 0 <= i < |specs| => Verdict(specs[i], i))
  }

  /** A spec the batch survives: it faults as announced, or its program exits with code 0. */
  predicate Healthy(spec: Spec, i: nat) {
    spec.fault || ((spec.mode in {1, 2, 3} || 65 + i <= 0x7f) && UserExit.Passes(spec.iterations))
  }

  /** What batch starts from: machine and loop agree and every task will end with its verdict. */
  lemma BatchStarts(at: Symbols, start: Word, base: int, specs: seq<Spec>, hart: Hart, flag: Word, c: Config)
    requires Linked(at, start, base, c.capacity) && Configured(c) && |c.fault| == |specs|
    requires forall i :: 0 <= i < |specs| ==> specs[i].fault || specs[i].mode != 4
    ensures |specs| <= c.capacity
    ensures var m := Initial(at, start, base, c.capacity, specs, hart, flag);
            Coupled(Stacks(at, start, base, c.capacity, |specs|), c, Start(c, m.frames), m, Verdicts(specs))
  {
    hide Alone, Image, Verdict, Inv, Sane, Sound;
    var m := Initial(at, start, base, c.capacity, specs, hart, flag);
    var l := Stacks(at, start, base, c.capacity, |specs|);
    StacksAreSane(at, start, base, c.capacity, |specs|);
    StartsSound(at, start, base, c.capacity, specs, hart, flag);
    StartIsSound(c, m.frames);
    forall i | 0 <= i < |specs|
      ensures EndsAs(l.code, Image(l, m, i), Verdict(specs[i], i))
    {
      var k := ReachesVerdict(at, start, base, c.capacity, specs, hart, flag, i);
      VerdictsAreTame(specs[i], i);
    }
  }

  /**
   The exit-code assert of `batch` (and the fault assert) fires only if some spec is unhealthy, and a
   batch that comes to its end had only healthy specs: for every clock, timer pattern and schedule.
   */
  lemma HealthyBatchesNeverFail(at: Symbols, start: Word, base: int, specs: seq<Spec>, hart: Hart, flag: Word, c: Config,
                                es: seq<Event>, vs: seq<Visit>)
    requires Linked(at, start, base, c.capacity) && Configured(c) && |c.fault| == |specs|
    requires forall i :: 0 <= i < |specs| ==> c.fault[i] == specs[i].fault && (specs[i].fault || specs[i].mode != 4)
    requires var m := Initial(at, start, base, c.capacity, specs, hart, flag);
             Clocks(c, c.base, es)
             && Drives(Stacks(at, start, base, c.capacity, |specs|), c, Start(c, m.frames), m, es, vs)
    ensures var o := RunLoop(c, Start(c, Initial(at, start, base, c.capacity, specs, hart, flag).frames), es);
            && (o.Stopped? ==> exists i :: 0 <= i < |specs| && !Healthy(specs[i], i))
            && (o.Finished? ==> AllDone(c, o.loop) && forall i :: 0 <= i < |specs| ==> Healthy(specs[i], i))
  {
    hide RunLoop, Drives, Clocks, Coupled, AllDone, Start, Stacks, Initial, UserExit.Passes;
    BatchStarts(at, start, base, specs, hart, flag, c);
    var m := Initial(at, start, base, c.capacity, specs, hart, flag);
    var l := Stacks(at, start, base, c.capacity, |specs|);
    StartHead(c, m.frames);
    var n := SystemEndsAsTasksDo(l, c, Start(c, m.frames), m, Verdicts(specs), es, vs);
    forall i | 0 <= i < |specs|
      ensures Accepts(Verdicts(specs)[i], c.fault[i]) <==> Healthy(specs[i], i)
    {
    }
  }

  lemma StartHead(c: Config, frames: seq<Frame>)
    ensures |Start(c, frames).tasks| == |frames| && Start(c, frames).clock == c.base
    ensures forall i :: 0 <= i < |frames| ==> Start(c, frames).tasks[i].state == State.Ready
  {
  }
}
