/**
 The tasks `batch` prepares (src/scheduler.rs): the stacks, the first frames, and the consequence of
 preemption being invisible: no pattern of timer interrupts makes a task of a sound batch fail.
 */
module PreparedTasks {
  import opened Util
  import opened Riscv
  import opened Syscalls
  import opened TrapAsm
  import opened TrapHandler
  import opened UserProgram
  import opened UserExit
  import opened Preemption

  const STACK: int := 16384

  datatype Spec = Spec(mode: Word, iterations: Word, fault: bool)

  /** STACKS: first every user stack, then every trap stack. */
  function UserTop(base: int, i: nat): int {
    base + (i + 1) * STACK
  }

  function TrapTop(base: int, capacity: nat, i: nat): int {
    base + (capacity + i + 1) * STACK
  }

  /** The linker put STACKS, the code and the kernel's cells apart. */
  predicate Linked(at: Symbols, start: Word, base: int, capacity: nat) {
    && 0 <= base && base % 16 == 0 && base + 2 * capacity * STACK < MODULUS
    && start + 4 * LENGTH + 4 <= MODULUS
    && Outside(at.gp, 8, base, capacity) && Outside(at.tp, 8, base, capacity) && Outside(at.context, 128, base, capacity)
    && at.context + 128 < MODULUS && at.gp != at.tp
    && (at.gp < at.context || at.gp >= at.context + 128) && (at.tp < at.context || at.tp >= at.context + 128)
  }

  predicate Outside(a: int, size: int, base: int, capacity: nat) {
    a + size <= base || a >= base + 2 * capacity * STACK
  }

  function Cells(base: int, i: nat): set<Word> {
    set a: Word | UserTop(base, i) - STACK <= a < UserTop(base, i) && a % 8 == 0
  }

  function Stacks(at: Symbols, start: Word, base: int, capacity: nat, count: nat): (l: Layout)
    requires Linked(at, start, base, capacity) && count <= capacity
    ensures |l.cells| == |l.top| == count && l.code == Sched()
  {
    Layout(at, start, Sched(), seq(count, (i: nat) => Cells(base, i)), seq(count, (i: nat) => TopWord(base, capacity, i)))
  }

  function TopWord(base: int, capacity: nat, i: nat): Word {
    Wrap(TrapTop(base, capacity, i))
  }

  lemma StackOrder(base: int, capacity: nat, i: nat, j: nat)
    requires i < j
    ensures UserTop(base, i) <= UserTop(base, j) - STACK
    ensures TrapTop(base, capacity, i) <= TrapTop(base, capacity, j) - STACK
  {
  }

  lemma StackBounds(base: int, capacity: nat, i: nat)
    requires i < capacity && 0 <= base
    ensures base <= UserTop(base, i) - STACK && UserTop(base, i) <= base + capacity * STACK
    ensures base + capacity * STACK <= TrapTop(base, capacity, i) - STACK
    ensures TrapTop(base, capacity, i) <= base + 2 * capacity * STACK
  {
  }

  /** stack_top's arithmetic gives every task memory of its own. */
  lemma StacksAreSane(at: Symbols, start: Word, base: int, capacity: nat, count: nat)
    requires Linked(at, start, base, capacity) && count <= capacity
    ensures Sane(Stacks(at, start, base, capacity, count))
  {
    hide UserTop, TrapTop;
    var l := Stacks(at, start, base, capacity, count);
    forall i | 0 <= i < count
      ensures Home(l, i)
    {
      HomeHolds(at, start, base, capacity, count, i);
    }
    forall i, j | 0 <= i < j < count
      ensures l.cells[i] !! l.cells[j]
    {
      StackOrder(base, capacity, i, j);
    }
  }

  lemma HomeHolds(at: Symbols, start: Word, base: int, capacity: nat, count: nat, i: nat)
    requires Linked(at, start, base, capacity) && i < count <= capacity
    ensures Home(Stacks(at, start, base, capacity, count), i)
  {
    hide UserTop, TrapTop;
    var l := Stacks(at, start, base, capacity, count);
    StackBounds(base, capacity, i);
    Fits(TrapTop(base, capacity, i));
    forall a, j | a in l.cells[i] && 0 <= j < count
      ensures a < l.top[j] - FRAME_SIZE || a >= l.top[j]
    {
      StackBounds(base, capacity, j);
      Fits(TrapTop(base, capacity, j));
    }
  }

  function Zero(): (x: Regs)
    ensures forall k :: 0 <= k < 32 ==> x[k] == 0
  {
    seq(32, _ => 0)
  }

  /** The first frame of task i: stack, marker, iterations, mode and the address of the timer flag. */
  function FirstFrame(start: Word, userTop: Word, i: nat, spec: Spec, status: Word, flag: Word): Frame
    requires i + 65 < MODULUS && userTop >= 16 && start + FAULT < MODULUS
  {
    Frame(Zero()[SP := userTop - 16][S0 := 65 + i][S1 := spec.iterations][S4 := spec.mode][S5 := flag],
          Quiet(status), start + if spec.fault then FAULT else 0, 0, 0)
  }

  function Initial(at: Symbols, start: Word, base: int, capacity: nat, specs: seq<Spec>, hart: Hart, flag: Word): (m: Machine)
    requires Linked(at, start, base, capacity) && |specs| <= capacity
    ensures |m.frames| == |m.status| == |specs|
  {
    Machine(hart, seq(|specs|, i requires 0 <= i < |specs| => First(start, base, capacity, specs, hart, flag, i)),
            seq(|specs|, _ => Alive), [])
  }

  function First(start: Word, base: int, capacity: nat, specs: seq<Spec>, hart: Hart, flag: Word, i: nat): Frame
    requires i < |specs| <= capacity && 0 <= base && base + 2 * capacity * STACK < MODULUS && start + FAULT < MODULUS
  {
    StackBounds(base, capacity, i);
    FirstFrame(start, UserTop(base, i), i, specs[i], hart.sstatus, flag)
  }

  /** What a task does on its own, given its marker and its spec: the whole verdict of the run. */
  function Verdict(spec: Spec, i: nat): Solo {
    if spec.fault then Faulted
    else if (spec.mode in {1, 2, 3} || 65 + i <= 0x7f) && Passes(spec.iterations) then Exited(0)
    else Exited(99)
  }

  /** Once ended, always ended the same way; and never ended another way before. */
  lemma EndsOnce(u: User, k: nat, j: nat)
    requires !SoloRun(Sched(), u, k).Live?
    ensures var e := SoloRun(Sched(), u, j); if j >= k then e == SoloRun(Sched(), u, k) else e.Live? || e == SoloRun(Sched(), u, k)
  {
    if j >= k {
      SoloRunCompose(Sched(), u, k, j - k);
    } else {
      SoloRunCompose(Sched(), u, j, k - j);
    }
  }

  /** A prepared task reaches its verdict, and no other, after some number of its own instructions. */
  lemma ReachesVerdict(at: Symbols, start: Word, base: int, capacity: nat, specs: seq<Spec>, hart: Hart, flag: Word, i: nat)
    returns (k: nat)
    requires Linked(at, start, base, capacity) && i < |specs| <= capacity
    requires specs[i].fault || specs[i].mode != 4
    ensures var s := Image(Stacks(at, start, base, capacity, |specs|), Initial(at, start, base, capacity, specs, hart, flag), i);
            forall j: nat :: var e := Alone(Sched(), s, j);
                             if j >= k then e == Verdict(specs[i], i) else e.Live? || e == Verdict(specs[i], i)
  {
    hide SoloRun, Verdict, Alone, Image, Stacks, Initial, Cells, Linked;
    var s := Image(Stacks(at, start, base, capacity, |specs|), Initial(at, start, base, capacity, specs, hart, flag), i);
    var u := FirstImage(at, start, base, capacity, specs, hart, flag, i);
    LinkedBase(at, start, base, capacity);
    k := FirstUserEnds(base, capacity, i, specs[i], u);
    VerdictsAreTame(specs[i], i);
    forall j: nat
      ensures var e := Alone(Sched(), s, j);
              if j >= k then e == Verdict(specs[i], i) else e.Live? || e == Verdict(specs[i], i)
    {
      EndsOnce(u, k, j);
      AliveAlone(u, j);
    }
  }

  lemma AliveAlone(u: User, j: nat)
    ensures Alone(Sched(), Live(u), j) == SoloRun(Sched(), u, j)
  {
  }

  lemma LinkedBase(at: Symbols, start: Word, base: int, capacity: nat)
    requires Linked(at, start, base, capacity)
    ensures 0 <= base && base % 16 == 0 && base + 2 * capacity * STACK < MODULUS
  {
  }

  /** The user state of task i before its first run. */
  lemma FirstImage(at: Symbols, start: Word, base: int, capacity: nat, specs: seq<Spec>, hart: Hart, flag: Word, i: nat)
    returns (u: User)
    requires Linked(at, start, base, capacity) && i < |specs| <= capacity
    ensures Image(Stacks(at, start, base, capacity, |specs|), Initial(at, start, base, capacity, specs, hart, flag), i) == Live(u)
    ensures u.stack.Keys == Cells(base, i) && u.pc == if specs[i].fault then FAULT else 0
    ensures u.x[SP] == UserTop(base, i) - 16 && u.x[S0] == 65 + i && u.x[S1] == specs[i].iterations && u.x[S4] == specs[i].mode
    ensures u.x[S5] == flag && forall r: Reg :: r !in {SP, S0, S1, S4, S5} ==> u.x[r] == 0
  {
    hide UserTop, Cells, Quiet;
    u := Image(Stacks(at, start, base, capacity, |specs|), Initial(at, start, base, capacity, specs, hart, flag), i).user;
  }

  lemma FirstUserEnds(base: int, capacity: nat, i: nat, spec: Spec, u: User) returns (k: nat)
    requires 0 <= base && base % 16 == 0 && i < capacity && base + 2 * capacity * STACK < MODULUS
    requires spec.fault || spec.mode != 4
    requires u.stack.Keys == Cells(base, i) && u.pc == if spec.fault then FAULT else 0
    requires u.x[SP] == UserTop(base, i) - 16 && u.x[S0] == 65 + i && u.x[S1] == spec.iterations && u.x[S4] == spec.mode
    ensures SoloRun(Sched(), u, k) == Verdict(spec, i)
  {
    hide SoloRun, Passes;
    if spec.fault {
      k := FaultsAtOnce(u);
    } else {
      assert u.x[SP] in Cells(base, i) by {
        assert u.x[SP] % 8 == 0;
      }
      k := AlwaysExits(u, 65 + i, spec.iterations, spec.mode);
    }
  }

  lemma FaultsAtOnce(u: User) returns (k: nat)
    requires u.pc == FAULT
    ensures SoloRun(Sched(), u, k) == Faulted
  {
    k := 1;
    assert Fetch(Sched(), u.pc) == Some(Illegal);
    OneStep(Sched(), u);
  }

  /**
   The batch's tasks under any scheduler: for every sequence of runs and every timer pattern no
   handler assert fires, each task that has ended has ended with its own verdict, and a task given
   enough instructions has ended.
   */
  lemma TasksReachTheirVerdicts(at: Symbols, start: Word, base: int, capacity: nat, specs: seq<Spec>, hart: Hart,
                                flag: Word, visits: seq<Visit>)
    returns (n: Machine, enough: seq<nat>)
    requires Linked(at, start, base, capacity) && |specs| <= capacity
    requires forall i :: 0 <= i < |specs| ==> specs[i].fault || specs[i].mode != 4
    requires Feasible(Stacks(at, start, base, capacity, |specs|), Initial(at, start, base, capacity, specs, hart, flag), visits)
    ensures var l := Stacks(at, start, base, capacity, |specs|);
            && RunTasks(l, Initial(at, start, base, capacity, specs, hart, flag), visits) == Some(n)
            && |enough| == |specs| && |n.frames| == |n.status| == |specs|
            && forall i :: 0 <= i < |specs| ==>
                             && (Image(l, n, i).Live? || Image(l, n, i) == Verdict(specs[i], i))
                             && (WorkOf(visits, i) >= enough[i] ==> Image(l, n, i) == Verdict(specs[i], i))
  {
    hide RunTasks, Feasible, Image, Alone, Verdict, Sane, WorkOf, First;
    var l := Stacks(at, start, base, capacity, |specs|);
    var m := Initial(at, start, base, capacity, specs, hart, flag);
    StacksAreSane(at, start, base, capacity, |specs|);
    StartsSound(at, start, base, capacity, specs, hart, flag);
    enough := [];
    while |enough| < |specs|
      invariant |enough| <= |specs|
      invariant forall i, j: nat :: 0 <= i < |enough| ==>
                                      var e := Alone(l.code, Image(l, m, i), j);
                                      if j >= enough[i] then e == Verdict(specs[i], i) else e.Live? || e == Verdict(specs[i], i)
    {
      var k := ReachesVerdict(at, start, base, capacity, specs, hart, flag, |enough|);
      enough := enough + [k];
    }
    forall i | 0 <= i < |specs|
      ensures Tame(l.code, Image(l, m, i))
    {
      VerdictsAreTame(specs[i], i);
    }
    n := PreemptionIsInvisible(l, m, visits);
  }

  lemma VerdictsAreTame(spec: Spec, i: nat)
    ensures Verdict(spec, i) != Escaped && !Verdict(spec, i).Live?
  {
  }

  lemma StartsSound(at: Symbols, start: Word, base: int, capacity: nat, specs: seq<Spec>, hart: Hart, flag: Word)
    requires Linked(at, start, base, capacity) && |specs| <= capacity
    ensures Sound(Stacks(at, start, base, capacity, |specs|), Initial(at, start, base, capacity, specs, hart, flag))
  {
  }
}
