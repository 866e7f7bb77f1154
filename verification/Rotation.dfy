/**
 Cooperative rotation: k tasks in mode 0 with N iterations under the cooperative policy. Trap by
 trap, the console shows the k markers in order, N times over, and nothing else.
 */
module Rotation {
  import opened Util
  import opened Riscv
  import opened Syscalls
  import opened TrapAsm
  import opened TrapHandler
  import opened Kernel
  import opened KernelSafety
  import opened KernelRun
  import opened UserProgram
  import opened UserExit
  import opened Preemption
  import opened PreparedTasks
  import opened ClosedSystem

  /* One task: marker, yield, marker, yield, ..., exit. */

  /** A mode-0 task about to make its trap number q, counted from 0: prints on even traps, yields on odd ones. */
  ghost predicate Poised(d: User, marker: Word, n: Word, q: nat) {
    if q == 2 * n then Asks(d, EXIT, 0)
    else if q % 2 == 0 then
      At(d, 4 * 22, marker, n, 0, q / 2 + 1, Wrap(Triangle(q / 2 + 1))) && Asks(d, PUTCHAR, marker)
    else
      At(d, 4 * 28, marker, n, 0, q / 2 + 1, Wrap(Triangle(q / 2 + 1))) && Do(d) == Environment && d.x[A7] == YIELD
  }

  /** The task's next trap is trap q. */
  ghost predicate Due(u: User, marker: Word, n: Word, q: nat) {
    exists d, k: nat :: Walks(u, d, k) && Poised(d, marker, n, q)
  }

  /** From the head of the loop to the marker's system call. */
  lemma HeadToMarker(u: User, marker: Word, n: Word, c: Word) returns (d: User, k: nat)
    requires At(u, LOOP, marker, n, 0, c, Wrap(Triangle(c))) && c < n
    ensures Walks(u, d, k) && Poised(d, marker, n, 2 * c)
  {
    hide Walks, Wrap;
    Small(c + 1);
    var a := Head(u, marker, n, 0, c, Wrap(Triangle(c)));
    WrapSum(Triangle(c), c + 1);
    var s := Wrap(Triangle(c + 1));
    var b, j := Choose(a, marker, n, 0, c + 1, s);
    d := ToMarker(b, marker, n, 0, c + 1, s);
    Join(a, b, d, j, 2);
    Join(u, a, d, 7, j + 2);
    k := 7 + (j + 2);
  }

  lemma FirstDue(u: User, marker: Word, n: Word)
    requires Prepared(u, marker, n, 0) && n >= 1
    ensures Due(u, marker, n, 0)
  {
    hide Walks;
    var a := Entry(u, marker, n, 0);
    assert Triangle(0) == 0;
    var d, k := HeadToMarker(a, marker, n, 0);
    Join(u, a, d, 5, k);
  }

  /** After its marker is printed a task is due to yield. */
  lemma DueToYield(d: User, marker: Word, n: Word, q: nat)
    requires Poised(d, marker, n, q) && q < 2 * n && q % 2 == 0
    ensures d.pc + 4 < 4 * LENGTH && Due(Resumed(d, 0), marker, n, q + 1)
  {
    hide Walks, Wrap;
    Fits(0);
    var c, s := q / 2 + 1, Wrap(Triangle(q / 2 + 1));
    var a := AfterMarker(Resumed(d, 0), marker, n, 0, c, s);
    var e, k := ToYield(a, marker, n, 0, c, s);
    Join(Resumed(d, 0), a, e, 1, k);
    assert Poised(e, marker, n, q + 1);
  }

  /** After a yield a task is due to print again, or after its last one to exit with 0. */
  lemma DueAfterYield(d: User, marker: Word, n: Word, q: nat)
    requires Poised(d, marker, n, q) && q < 2 * n && q % 2 == 1 && Passes(n)
    ensures d.pc + 4 < 4 * LENGTH && Due(Resumed(d, 0), marker, n, q + 1)
  {
    hide Walks, Wrap, Passes;
    Fits(0);
    var c, s := q / 2 + 1, Wrap(Triangle(q / 2 + 1));
    var r := Resumed(d, 0);
    var a := AfterYield(r, marker, n, 0, c, s);
    var b := NextRound(a, marker, n, 0, c, s);
    Join(r, a, b, 2, 1);
    var e, k;
    if c < n {
      e, k := HeadToMarker(b, marker, n, c);
    } else {
      e, k := Compare(b, marker, n, 0, c, s);
      ChecksumExact(n);
    }
    Join(r, b, e, 3, k);
    assert Poised(e, marker, n, q + 1);
  }

  lemma PoisedTraps(d: User, marker: Word, n: Word, q: nat)
    requires Poised(d, marker, n, q) && q <= 2 * n
    ensures Do(d) == Environment
  {
  }

  /** A walk can stop at its next trap in only one place. */
  lemma {:induction false} OneNextTrap(u: User, d: User, k: nat, v: User, j: nat)
    requires Walks(u, d, k) && !Do(d).Next? && Walk(Sched(), u, j) == Next(v) && !Do(v).Next?
    ensures v == d
    decreases k
  {
    if k > 0 && j > 0 {
      OneNextTrap(Step(Sched(), u).user, d, k - 1, v, j - 1);
    }
  }

  /** What trap q of a task does, alone: it prints its marker, yields, or exits with code 0. */
  lemma TrapNumber(u: User, marker: Word, n: Word, q: nat, v: User, j: nat)
    requires Due(u, marker, n, q) && q <= 2 * n && Passes(n) && marker <= 0x7f
    requires Walk(Sched(), u, j) == Next(v) && !Do(v).Next?
    ensures Printed(Sched(), v, false) == if q < 2 * n && q % 2 == 0 then [marker] else []
    ensures q < 2 * n ==> SoloStep(Sched(), v).Live? && Due(SoloStep(Sched(), v).user, marker, n, q + 1)
                          && (v.x[A7] == YIELD <==> q % 2 == 1)
    ensures q == 2 * n ==> SoloStep(Sched(), v) == Exited(0)
  {
    hide Walks, Passes, At, Due;
    var d, k := DueAt(u, marker, n, q);
    PoisedTraps(d, marker, n, q);
    OneNextTrap(u, d, k, v, j);
    if q < 2 * n {
      if q % 2 == 0 {
        DueToYield(d, marker, n, q);
      } else {
        DueAfterYield(d, marker, n, q);
      }
    }
  }

  lemma DueAt(u: User, marker: Word, n: Word, q: nat) returns (d: User, k: nat)
    requires Due(u, marker, n, q)
    ensures Walks(u, d, k) && Poised(d, marker, n, q)
  {
    d, k :| Walks(u, d, k) && Poised(d, marker, n, q);
  }

  /* One iteration under the cooperative policy. */

  /** The task at hand: the current one, or else the front of the queue. */
  function AtHand(k: Loop): nat
    requires k.current.Some? || k.queue != []
  {
    if k.current.Some? then k.current.value else k.queue[0]
  }

  /** A system call keeps the task, a yield sends it to the back, an exit removes it. */
  ghost predicate Stepped(k: Loop, e: Event, g: Loop)
    requires k.current.Some? || k.queue != []
  {
    var i := AtHand(k);
    && g.queue == (if k.current.Some? then k.queue else k.queue[1..]) + (if e.reason == Yield then [i] else [])
    && g.current == (if e.reason == Syscall then Some(i) else None)
    && g.switches == k.switches + (if k.current.Some? then 0 else 1)
    && |g.tasks| == |k.tasks|
    && forall j :: 0 <= j < |k.tasks| ==>
                     && g.tasks[j].yielded == k.tasks[j].yielded + (if j == i && e.reason == Yield then 1 else 0)
                     && g.tasks[j].syscalls == k.tasks[j].syscalls + (if j == i && e.reason == Syscall then 1 else 0)
  }

  lemma CooperativeTurn(c: Config, k: Loop, e: Event)
    requires c.policy == Cooperative && Inv(c, k, k.clock) && Clocked(c, k.clock, e) && (k.current.Some? || k.queue != [])
    requires e.reason in {Syscall, Yield, Reason.Exit(0)}
    ensures Turn(c, k, e).Going? && Stepped(k, e, Turn(c, k, e).loop) && RunsNow(c, k, e) == Some(AtHand(k))
  {
    hide Inv, Clocked, Turn, Select, Settle;
    InvConfigured(c, k);
    var s := TurnKeeps(c, k, e);
    NeverComplains(c, s.current.value, e.reason);
    CooperativeSelect(c, k, e, s);
    RunsHere(c, s, e.armed);
    TurnSettles(c, k, e, s);
    CooperativeSettle(c, s, e, Turn(c, k, e).loop);
  }

  lemma NeverComplains(c: Config, i: nat, reason: Reason)
    requires i < |c.fault| && reason in {Syscall, Yield, Reason.Exit(0)}
    ensures Complaint(c, i, reason).None?
  {
  }

  lemma RunsHere(c: Config, s: Loop, now: nat)
    requires Inv(c, s, now) && s.current.Some?
    ensures s.current.value < |s.tasks| == |c.fault| && s.tasks[s.current.value].level <= 2
    ensures s.tasks[s.current.value].state == Running
  {
    assert Slot(c, s, s.current.value, now);
  }

  lemma TurnSettles(c: Config, k: Loop, e: Event, s: Loop)
    requires c.quantum > 0 && Select(c, k, e) == Going(s) && s.current.Some? && s.current.value < |s.tasks| == |c.fault|
    requires s.tasks[s.current.value].level <= 2
    ensures Turn(c, k, e) == Settle(c, s, e)
  {
    hide Select, Settle;
  }

  lemma CooperativeSelect(c: Config, k: Loop, e: Event, s: Loop)
    requires c.policy == Cooperative && c.quantum > 0 && (k.current.Some? || k.queue != []) && Select(c, k, e) == Going(s)
    ensures s.current == Some(AtHand(k)) && |s.tasks| == |k.tasks|
    ensures s.queue == (if k.current.Some? then k.queue else k.queue[1..])
    ensures s.switches == k.switches + (if k.current.Some? then 0 else 1)
    ensures forall j :: 0 <= j < |k.tasks| ==> s.tasks[j].yielded == k.tasks[j].yielded && s.tasks[j].syscalls == k.tasks[j].syscalls
  {
    hide Check, Levels;
    if k.current.None? {
      assert RemoveAt(k.queue, 0) == k.queue[1..];
    }
  }

  lemma CooperativeSettle(c: Config, k: Loop, e: Event, g: Loop)
    requires c.policy == Cooperative && k.current.Some? && k.current.value < |k.tasks| == |c.fault|
    requires k.tasks[k.current.value].level <= 2 && k.tasks[k.current.value].state == Running
    requires e.reason in {Syscall, Yield, Reason.Exit(0)} && Settle(c, k, e) == Going(g)
    ensures g.queue == k.queue + (if e.reason == Yield then [k.current.value] else [])
    ensures g.current == (if e.reason == Syscall then k.current else None)
    ensures g.switches == k.switches && |g.tasks| == |k.tasks|
    ensures forall j :: 0 <= j < |k.tasks| ==>
                          && g.tasks[j].yielded == k.tasks[j].yielded + (if k.current == Some(j) && e.reason == Yield then 1 else 0)
                          && g.tasks[j].syscalls == k.tasks[j].syscalls + (if k.current == Some(j) && e.reason == Syscall then 1 else 0)
  {
  }

  /* The rotation. */

  function Ids(a: nat, b: nat): (r: seq<nat>)
    requires a <= b
    ensures |r| == b - a && forall k :: 0 <= k < b - a ==> r[k] == a + k
  {
    seq(b - a, (k: nat) => a + k)
  }

  /** The first a markers. */
  function Row(a: nat): (r: seq<int>)
    ensures |r| == a && forall k :: 0 <= k < a ==> r[k] == 65 + k
  {
    seq(a, (k: nat) => 65 + k)
  }

  /** All markers in order, r times. */
  function Rows(count: nat, r: nat): seq<int>
    decreases r
  {
    if r == 0 then [] else Rows(count, r - 1) + Row(count)
  }

  /** The place in the rotation: round, task, and whether that task has printed but not yet yielded. */
  datatype Place = Place(round: nat, task: nat, printed: bool)

  predicate Proper(p: Place, count: nat, n: nat) {
    && p.round <= n && p.task <= count && (p.round < n ==> p.task < count) && (p.round == n ==> !p.printed)
  }

  function Half(p: Place): nat {
    if p.printed then 1 else 0
  }

  /** The traps all tasks together have made at place p. */
  function Made(p: Place, count: nat, n: nat): nat {
    if p.round < n then 2 * (p.round * count) + 2 * p.task + Half(p) else 2 * (n * count) + p.task
  }

  /** Each place is one trap further. */
  lemma MadeAdvances(p: Place, count: nat, n: nat)
    requires Proper(p, count, n) && p.task < count
    ensures Made(Succ(p, count, n), count, n) == Made(p, count, n) + 1
  {
    Successor(p.round, count);
  }

  /** The last place lies after count * (2n + 1) traps, and no other does. */
  lemma MadeInAll(p: Place, count: nat, n: nat)
    requires Proper(p, count, n) && count > 0
    ensures Made(p, count, n) <= count * (2 * n + 1)
    ensures Made(p, count, n) == count * (2 * n + 1) <==> p.round == n && p.task == count
  {
    assert count * (2 * n + 1) == 2 * (n * count) + count;
    if p.round < n {
      Successor(p.round, count);
      Scaled(p.round + 1, n, count);
    }
  }

  /** The traps task j has made at place p. */
  function Traps(p: Place, n: nat, j: nat): nat {
    if p.round < n then 2 * p.round + if j < p.task then 2 else if j == p.task then Half(p) else 0
    else if j < p.task then 2 * n + 1 else 2 * n
  }

  /** The next place. */
  function Succ(p: Place, count: nat, n: nat): Place {
    if p.round == n then p.(task := p.task + 1)
    else if !p.printed then p.(printed := true)
    else if p.task + 1 < count then Place(p.round, p.task + 1, false)
    else Place(p.round + 1, 0, false)
  }

  /** Task j's counters and image after q traps. */
  ghost predicate Share(l: Layout, k: Loop, m: Machine, n: Word, j: nat, q: nat)
    requires j < |k.tasks| == |l.cells| == |m.frames| == |m.status| && |k.tasks| + 65 <= 0x80
  {
    && k.tasks[j].yielded == q / 2 && k.tasks[j].syscalls == Min((q + 1) / 2, n)
    && if q <= 2 * n then Image(l, m, j).Live? && Due(Image(l, m, j).user, 65 + j, n, q) else Image(l, m, j) == Exited(0)
  }

  ghost predicate Rotated(l: Layout, k: Loop, m: Machine, n: Word, p: Place) {
    var count := |k.tasks|;
    && count == |l.cells| == |m.frames| == |m.status| && count + 65 <= 0x80 && Proper(p, count, n) && count > 0
    && k.queue == QueueAt(p, count, n)
    && k.current == (if p.printed then Some(p.task) else None)
    && k.switches == p.round * count + p.task + Half(p)
    && m.output == OutputAt(p, count, n)
    && forall j :: 0 <= j < count ==> Share(l, k, m, n, j, Traps(p, n, j))
  }

  /** What the machine does with the task at hand: its next trap in the rotation. */
  lemma RotationTrap(l: Layout, c: Config, k: Loop, m: Machine, verdicts: seq<Solo>, n: Word, p: Place, e: Event, v: Visit)
    returns (x: Machine)
    requires Coupled(l, c, k, m, verdicts) && l.code == Sched() && Rotated(l, k, m, n, p) && n >= 1 && Passes(n)
    requires p.task < |k.tasks| && v.task == p.task && !v.timer && Possible(l, m, v)
    ensures RunTask(l, m, v).Back? && RunTask(l, m, v).machine == x
    ensures |x.frames| == |x.status| == |m.frames|
    ensures var q := Traps(p, n, p.task);
            && RunTask(l, m, v).reason == (if q == 2 * n then Reason.Exit(0) else if q % 2 == 0 then Syscall else Yield)
            && x.output == m.output + (if q < 2 * n && q % 2 == 0 then [65 + p.task] else [])
            && (if q < 2 * n then Image(l, x, p.task).Live? && Due(Image(l, x, p.task).user, 65 + p.task, n, q + 1)
                else Image(l, x, p.task) == Exited(0))
    ensures forall j :: 0 <= j < |k.tasks| && j != p.task ==> Image(l, x, j) == Image(l, m, j)
  {
    hide RunTask, Image, Inv, Sane, Sound, EndsAs, Possible, SoloRun, SoloStep, Due, Passes, Walk, Printed, Rows, Row, Ids;
    CoupledSizes(l, c, k, m, verdicts);
    PossibleMeans(l, m, v);
    EndsTamely(l.code, Image(l, m, v.task), verdicts[v.task]);
    TameMeans(l.code, Image(l, m, v.task));
    var u := Image(l, m, v.task).user;
    assert Share(l, k, m, n, p.task, Traps(p, n, p.task));
    var reason, regs;
    x, reason, regs := RunTaskIsSolo(l, m, v);
    RunTaskFields(l, m, v, x, reason, regs);
    WalkEnds(l, m, v);
    var w := Walk(l.code, u, v.steps).user;
    TrapNumber(u, 65 + p.task, n, Traps(p, n, p.task), w, v.steps);
    WorkIsSolo(l, u, w, v);
  }

  lemma WalkEnds(l: Layout, m: Machine, v: Visit)
    requires Possible(l, m, v) && !v.timer
    ensures Walk(l.code, Image(l, m, v.task).user, v.steps).Next?
    ensures !Step(l.code, Walk(l.code, Image(l, m, v.task).user, v.steps).user).Next?
  {
  }

  /** The trap due at p, as the loop sees it. */
  function ReasonAt(p: Place, n: nat): Reason {
    if p.round == n then Reason.Exit(0) else if p.printed then Yield else Syscall
  }

  lemma TrapsAdvance(p: Place, count: nat, n: nat, j: nat)
    requires Proper(p, count, n) && p.task < count && j < count
    ensures Proper(Succ(p, count, n), count, n)
    ensures Traps(Succ(p, count, n), n, j) == Traps(p, n, j) + if j == p.task then 1 else 0
    ensures var q := Traps(p, n, p.task);
            q <= 2 * n && ReasonAt(p, n) == (if q == 2 * n then Reason.Exit(0) else if q % 2 == 0 then Syscall else Yield)
  {
  }

  /** The queue at a place. */
  function QueueAt(p: Place, count: nat, n: nat): seq<nat>
    requires Proper(p, count, n)
  {
    Ids(p.task + Half(p), count) + if p.round < n then Ids(0, p.task) else []
  }

  lemma QueueAdvances(p: Place, count: nat, n: nat)
    requires Proper(p, count, n) && p.task < count
    ensures p.printed || (QueueAt(p, count, n) != [] && QueueAt(p, count, n)[0] == p.task)
    ensures Proper(Succ(p, count, n), count, n)
    ensures QueueAt(Succ(p, count, n), count, n)
            == (if p.printed then QueueAt(p, count, n) else QueueAt(p, count, n)[1..])
               + (if ReasonAt(p, n) == Yield then [p.task] else [])
  {
    var q := Succ(p, count, n);
    if p.printed {
      assert Ids(0, p.task) + [p.task] == Ids(0, p.task + 1);
      assert Ids(p.task + 1, count) + Ids(0, p.task) + [p.task] == Ids(p.task + 1, count) + Ids(0, p.task + 1);
      if p.task + 1 == count {
        assert Ids(p.task + 1, count) + Ids(0, p.task + 1) == Ids(0, count);
      }
    } else {
      assert Ids(p.task, count)[1..] == Ids(p.task + 1, count);
      var back := if p.round < n then Ids(0, p.task) else [];
      assert (Ids(p.task, count) + back)[1..] == Ids(p.task + 1, count) + back;
    }
  }

  /** The console output at a place. */
  function OutputAt(p: Place, count: nat, n: nat): seq<int> {
    Rows(count, p.round) + if p.round < n then Row(p.task + Half(p)) else []
  }

  lemma OutputAdvances(p: Place, count: nat, n: nat)
    requires Proper(p, count, n) && p.task < count
    ensures OutputAt(Succ(p, count, n), count, n)
            == OutputAt(p, count, n) + if ReasonAt(p, n) == Syscall then [65 + p.task] else []
  {
    var q := Succ(p, count, n);
    assert Row(p.task) + [65 + p.task] == Row(p.task + 1);
    if p.round < n && !p.printed {
      assert Rows(count, p.round) + Row(p.task) + [65 + p.task] == Rows(count, p.round) + Row(p.task + 1);
    } else if p.printed && p.task + 1 == count {
      assert Rows(count, p.round + 1) == Rows(count, p.round) + Row(count);
      assert Row(0) == [];
    }
  }

  lemma SwitchesAdvance(p: Place, count: nat, n: nat)
    requires Proper(p, count, n) && p.task < count
    ensures var q := Succ(p, count, n);
            q.round * count + q.task + Half(q) == p.round * count + p.task + Half(p) + if p.printed then 0 else 1
  {
    Successor(p.round, count);
  }

  /** One iteration moves the rotation to its next place. */
  lemma RotationStep(l: Layout, c: Config, k: Loop, m: Machine, verdicts: seq<Solo>, n: Word, p: Place, e: Event, v: Visit)
    returns (x: Machine)
    requires Coupled(l, c, k, m, verdicts) && l.code == Sched() && Rotated(l, k, m, n, p) && n >= 1 && Passes(n)
    requires c.policy == Cooperative && Clocked(c, k.clock, e) && Feeds(l, c, k, m, e, v) && !v.timer
    ensures RunTask(l, m, v).Back? && RunTask(l, m, v).machine == x && v.task < |c.fault|
    ensures Turn(c, k, e).Going? && Turn(c, k, e).loop.clock == e.requeued
    ensures Coupled(l, c, Turn(c, k, e).loop, x, verdicts)
    ensures Rotated(l, Turn(c, k, e).loop, x, n, Succ(p, |k.tasks|, n))
  {
    hide RunTask, Image, Inv, Sane, Sound, EndsAs, Possible, Due, Passes, Select, Turn, Clocked, Rows, Row, Ids, Accepts;
    CoupledSizes(l, c, k, m, verdicts);
    InvConfigured(c, k);
    SomethingRuns(c, k, e);
    x := SystemStep(l, c, k, m, verdicts, e, v);
    var count := |k.tasks|;
    IdsEnd(count);
    QueueAdvances(p, count, n);
    NextAtHand(c, k, e);
    assert v.task == p.task;
    var y := RotationTrap(l, c, k, m, verdicts, n, p, e, v);
    TrapsAdvance(p, count, n, p.task);
    assert e.reason == ReasonAt(p, n);
    CooperativeTurn(c, k, e);
    OutputAdvances(p, count, n);
    SwitchesAdvance(p, count, n);
    var g := Turn(c, k, e).loop;
    forall j | 0 <= j < count
      ensures Share(l, g, x, n, j, Traps(Succ(p, count, n), n, j))
    {
      TrapsAdvance(p, count, n, j);
      assert Share(l, k, m, n, j, Traps(p, n, j));
      ShareAdvances(l, k, m, g, x, n, j, Traps(p, n, j), p.task, ReasonAt(p, n));
    }
  }

  lemma IdsEnd(count: nat)
    ensures Ids(count, count) == []
  {
  }

  lemma NextAtHand(c: Config, k: Loop, e: Event)
    requires Inv(c, k, k.clock) && Clocked(c, k.clock, e) && RunsNow(c, k, e).Some? && (k.current.Some? || k.queue != [])
    requires c.policy == Cooperative
    ensures RunsNow(c, k, e) == Some(AtHand(k))
  {
    InvConfigured(c, k);
    hide Select, Inv;
    CooperativeSelect(c, k, e, Select(c, k, e).loop);
  }

  lemma ShareAdvances(l: Layout, k: Loop, m: Machine, g: Loop, x: Machine, n: Word, j: nat, q: nat, i: nat, reason: Reason)
    requires j < |k.tasks| == |g.tasks| == |l.cells| == |m.frames| == |m.status| == |x.frames| == |x.status|
    requires |k.tasks| + 65 <= 0x80 && Share(l, k, m, n, j, q)
    requires j == i ==> q <= 2 * n && reason == (if q == 2 * n then Reason.Exit(0) else if q % 2 == 0 then Syscall else Yield)
    requires g.tasks[j].yielded == k.tasks[j].yielded + (if j == i && reason == Yield then 1 else 0)
    requires g.tasks[j].syscalls == k.tasks[j].syscalls + (if j == i && reason == Syscall then 1 else 0)
    requires if j != i then Image(l, x, j) == Image(l, m, j)
             else if q < 2 * n then Image(l, x, j).Live? && Due(Image(l, x, j).user, 65 + j, n, q + 1)
             else Image(l, x, j) == Exited(0)
    ensures Share(l, g, x, n, j, q + if j == i then 1 else 0)
  {
    hide Image, Due;
  }

  /** An iteration with nothing left to run ends the loop as it stands. */
  lemma CooperativeEnd(c: Config, k: Loop, e: Event)
    requires c.policy == Cooperative && Inv(c, k, k.clock) && Clocked(c, k.clock, e) && Select(c, k, e).Finished?
    ensures Turn(c, k, e) == Finished(k) && k.current.None? && k.queue == []
  {
    InvConfigured(c, k);
    NothingRuns(c, k, e);
    CheckHolds(c, k, k.clock);
  }

  /** The end of the rotation. */
  ghost predicate RotationDone(k: Loop, x: Machine, n: nat) {
    && x.output == Rows(|k.tasks|, n)
    && k.switches == |k.tasks| * (n + 1)
    && forall j :: 0 <= j < |k.tasks| ==> k.tasks[j].yielded == n && k.tasks[j].syscalls == n
  }

  /** Nothing is left to run exactly at the last place. */
  lemma RotationLeft(l: Layout, k: Loop, m: Machine, n: Word, p: Place)
    requires Rotated(l, k, m, n, p)
    ensures |k.tasks| > 0 && Proper(p, |k.tasks|, n)
    ensures k.current.None? && k.queue == [] <==> p.round == n && p.task == |k.tasks|
  {
  }

  lemma RotatedToTheEnd(l: Layout, k: Loop, m: Machine, n: Word, p: Place)
    requires Rotated(l, k, m, n, p) && k.current.None? && k.queue == []
    ensures RotationDone(k, m, n)
  {
    hide Image, Due;
    var count := |k.tasks|;
    assert p.round == n && p.task == count;
    assert n * count + count == count * (n + 1);
    forall j | 0 <= j < count
      ensures k.tasks[j].yielded == n && k.tasks[j].syscalls == n
    {
      assert Share(l, k, m, n, j, Traps(p, n, j));
    }
  }

  /** Every run without timer interrupts goes through the places in order, to the end of the last round. */
  lemma {:induction false} RotationGoesOn(l: Layout, c: Config, k: Loop, m: Machine, verdicts: seq<Solo>, n: Word, p: Place,
                                          es: seq<Event>, vs: seq<Visit>)
    returns (x: Machine, q: Place)
    requires Coupled(l, c, k, m, verdicts) && l.code == Sched() && Rotated(l, k, m, n, p) && n >= 1 && Passes(n)
    requires c.policy == Cooperative && Clocks(c, k.clock, es) && Drives(l, c, k, m, es, vs)
    requires forall j :: 0 <= j < |vs| ==> !vs[j].timer
    ensures RunTasks(l, m, vs) == Some(x)
    ensures match RunLoop(c, k, es)
            case Going(g) => |g.tasks| == |k.tasks| && Coupled(l, c, g, x, verdicts) && Rotated(l, g, x, n, q)
                             && Made(q, |k.tasks|, n) == Made(p, |k.tasks|, n) + |vs|
            case Finished(g) => |g.tasks| == |k.tasks| && RotationDone(g, x, n)
                                && |k.tasks| * (2 * n + 1) == Made(p, |k.tasks|, n) + |vs|
            case Stopped(_) => false
    decreases |es|
  {
    hide Rotated, Turn, Made, Select, Image, RunTask, Inv, Sane, Sound, EndsAs, Clocked, Feeds, SameTasks, Passes;
    InvConfigured(c, k);
    CoupledSizes(l, c, k, m, verdicts);
    x, q := m, p;
    if es != [] && vs == [] {
      CooperativeEnd(c, k, es[0]);
      RotatedToTheEnd(l, k, m, n, p);
      RotationLeft(l, k, m, n, p);
      MadeInAll(p, |k.tasks|, n);
    } else if es != [] {
      var y := RotationStep(l, c, k, m, verdicts, n, p, es[0], vs[0]);
      VisitInRange(l, c, k, m, es[0], vs[0]);
      var g := Turn(c, k, es[0]).loop;
      CoupledSizes(l, c, g, y, verdicts);
      SameCount(l, c, k, m, g, y, verdicts);
      RotationLeft(l, k, m, n, p);
      FeedsNeedsWork(l, c, k, m, es[0], vs[0]);
      MadeAdvances(p, |k.tasks|, n);
      x, q := RotationGoesOn(l, c, g, y, verdicts, n, Succ(p, |k.tasks|, n), es[1..], vs[1..]);
    }
  }

  lemma FeedsNeedsWork(l: Layout, c: Config, k: Loop, m: Machine, e: Event, v: Visit)
    requires Inv(c, k, k.clock) && Clocked(c, k.clock, e) && c.quantum > 0 && Feeds(l, c, k, m, e, v)
    ensures k.current.Some? || k.queue != []
  {
    hide Inv, RunsNow, RunTask;
    SomethingRuns(c, k, e);
  }

  lemma SameCount(l: Layout, c: Config, k: Loop, m: Machine, g: Loop, y: Machine, verdicts: seq<Solo>)
    requires Coupled(l, c, k, m, verdicts) && Coupled(l, c, g, y, verdicts)
    ensures |g.tasks| == |k.tasks|
  {
    hide Sane, Sound, AllEndAs;
  }

  /** The prepared tasks are at the first place of the rotation. */
  lemma RotationStarts(at: Symbols, start: Word, base: int, specs: seq<Spec>, hart: Hart, flag: Word, c: Config, n: Word)
    requires Linked(at, start, base, c.capacity) && Configured(c) && |c.fault| == |specs| && |specs| + 65 <= 0x80
    requires n >= 1 && forall i :: 0 <= i < |specs| ==> specs[i] == Spec(0, n, false)
    ensures var m := Initial(at, start, base, c.capacity, specs, hart, flag);
            Rotated(Stacks(at, start, base, c.capacity, |specs|), Start(c, m.frames), m, n, Place(0, 0, false))
  {
    hide Image, Due, First;
    var m := Initial(at, start, base, c.capacity, specs, hart, flag);
    var l := Stacks(at, start, base, c.capacity, |specs|);
    var k := Start(c, m.frames);
    assert k.queue == Ids(0, |specs|) + [];
    assert Rows(|specs|, 0) + Row(0) == [];
    forall j | 0 <= j < |specs|
      ensures Share(l, k, m, n, j, 0)
    {
      var u := FirstImage(at, start, base, c.capacity, specs, hart, flag, j);
      StackBounds(base, c.capacity, j);
      FirstDue(u, 65 + j, n);
    }
  }

  /**
   Cooperative rotation. For every number of tasks whose markers are ASCII and every iteration count
   that passes the checksum, all in mode 0 under the cooperative policy: the batch never fails, and when
   it is over the console shows exactly the markers in order, n times over, each task has yielded and
   called the kernel n times, and there were tasks * (n + 1) switches. It is over after exactly
   tasks * (2n + 1) runs of a task: no sooner, and then at the very next iteration.
   */
  lemma CooperativeRotation(at: Symbols, start: Word, base: int, specs: seq<Spec>, hart: Hart, flag: Word, c: Config, n: Word,
                            es: seq<Event>, vs: seq<Visit>)
    returns (x: Machine)
    requires Linked(at, start, base, c.capacity) && Configured(c) && |c.fault| == |specs| && |specs| + 65 <= 0x80
    requires n >= 1 && Passes(n) && forall i :: 0 <= i < |specs| ==> specs[i] == Spec(0, n, false)
    requires c.policy == Cooperative && forall j :: 0 <= j < |vs| ==> !vs[j].timer
    requires var m := Initial(at, start, base, c.capacity, specs, hart, flag);
             Clocks(c, c.base, es)
             && Drives(Stacks(at, start, base, c.capacity, |specs|), c, Start(c, m.frames), m, es, vs)
    ensures var m := Initial(at, start, base, c.capacity, specs, hart, flag);
            var o := RunLoop(c, Start(c, m.frames), es);
            && RunTasks(Stacks(at, start, base, c.capacity, |specs|), m, vs) == Some(x)
            && !o.Stopped?
            && (o.Finished? ==> |o.loop.tasks| == |specs| && RotationDone(o.loop, x, n) && |vs| == |specs| * (2 * n + 1))
            && (o.Going? ==> |vs| <= |specs| * (2 * n + 1))
            && (o.Going? && |vs| == |specs| * (2 * n + 1) ==>
                  |o.loop.tasks| == |specs| && RotationDone(o.loop, x, n)
                  && forall e :: Clocked(c, o.loop.clock, e) ==> Turn(c, o.loop, e) == Finished(o.loop))
  {
    hide RunLoop, RunTasks, Drives, Clocks, Coupled, Start, Stacks, Initial, Passes, Rotated, RotationDone;
    BatchStarts(at, start, base, specs, hart, flag, c);
    RotationStarts(at, start, base, specs, hart, flag, c, n);
    var m := Initial(at, start, base, c.capacity, specs, hart, flag);
    StartHead(c, m.frames);
    var l := Stacks(at, start, base, c.capacity, |specs|);
    var first := Place(0, 0, false);
    var q;
    x, q := RotationGoesOn(l, c, Start(c, m.frames), m, Verdicts(specs), n, first, es, vs);
    RotationLeft(l, Start(c, m.frames), m, n, first);
    var o := RunLoop(c, Start(c, m.frames), es);
    if o.Going? {
      RotationLeft(l, o.loop, x, n, q);
      MadeInAll(q, |specs|, n);
      if q.round == n && q.task == |specs| {
        RotatedToTheEnd(l, o.loop, x, n, q);
        RotationEnds(l, c, o.loop, x, Verdicts(specs));
      }
    }
  }

  /** With nothing left to run, the next iteration is the last. */
  lemma RotationEnds(l: Layout, c: Config, k: Loop, m: Machine, verdicts: seq<Solo>)
    requires Coupled(l, c, k, m, verdicts) && c.policy == Cooperative && k.current.None? && k.queue == []
    requires c.quantum > 0
    ensures forall e :: Clocked(c, k.clock, e) ==> Turn(c, k, e) == Finished(k)
  {
    hide Turn, Inv, Sane, Sound, AllEndAs, SameTasks, Clocked;
    InvConfigured(c, k);
    forall e | Clocked(c, k.clock, e)
      ensures Turn(c, k, e) == Finished(k)
    {
      var b := TurnFinishes(c, k, e);
      SelectFinishes(c, k, e);
      CooperativeEnd(c, k, e);
    }
  }
}
