/**
 The user program of src/user_scheduler.S, line by line, and what it computes on a machine of its
 own: for every 64-bit iteration count, the exact condition under which it exits with code 0.
 */
module UserProgram {
  import opened Riscv
  import opened Syscalls

  const SENTINEL: int := 0x12345678

  const LOOP: int := 4 * 5
  const YIELD_BURST: int := 4 * 24
  const SYSCALL_BURST: int := 4 * 31
  const NEXT: int := 4 * 38
  const TIMER_WAIT: int := 4 * 47
  const FAIL: int := 4 * 57
  const FAULT: int := 4 * 61

  const LENGTH: int := 63

  /** The assembler line in slot k, counted from sched_entry. */
  function Line(k: int): Instr {
    match k
    case 0 => Li(A3, SENTINEL)
    case 1 => Add(T0, A3, S0)
    case 2 => Sd(T0, SP)
    case 3 => Li(S2, 0)
    case 4 => Li(S3, 0)
    // sched_loop
    case 5 => Li(T0, SENTINEL)
    case 6 => Bne(A3, T0, FAIL)
    case 7 => Add(T0, A3, S0)
    case 8 => Ld(T1, SP)
    case 9 => Bne(T0, T1, FAIL)
    case 10 => Addi(S2, S2, 1)
    case 11 => Add(S3, S3, S2)
    case 12 => Li(T0, 1)
    case 13 => Beq(S4, T0, NEXT)
    case 14 => Li(T0, 4)
    case 15 => Beq(S4, T0, TIMER_WAIT)
    case 16 => Li(T0, 3)
    case 17 => Beq(S4, T0, SYSCALL_BURST)
    case 18 => Li(T0, 2)
    case 19 => Beq(S4, T0, YIELD_BURST)
    case 20 => Addi(A0, S0, 0)
    case 21 => Li(A7, 1)
    case 22 => Ecall
    case 23 => Bne(A0, 0, FAIL)
    // sched_yield
    case 24 => Li(T2, 10000)
    case 25 => Addi(T2, T2, -1)
    case 26 => Bne(T2, 0, 4 * 25)
    case 27 => Li(A7, 3)
    case 28 => Ecall
    case 29 => Bne(A0, 0, FAIL)
    case 30 => J(NEXT)
    // sched_syscall
    case 31 => Li(T2, 1000)
    case 32 => Addi(T2, T2, -1)
    case 33 => Bne(T2, 0, 4 * 32)
    case 34 => Li(A7, 999)
    case 35 => Ecall
    case 36 => Li(T0, -1)
    case 37 => Bne(A0, T0, FAIL)
    // sched_next
    case 38 => Bltu(S2, S1, LOOP)
    case 39 => Addi(T0, S1, 1)
    case 40 => Mul(T0, T0, S1)
    case 41 => Srli1(T0, T0)
    case 42 => Bne(S3, T0, FAIL)
    case 43 => Li(A0, 0)
    case 44 => Li(A7, 2)
    case 45 => Ecall
    case 46 => J(FAIL)
    // sched_timer_wait
    case 47 => Ld(T0, S5)
    case 48 => Beq(T0, 0, LOOP)
    case 49 => Li(T0, SENTINEL)
    case 50 => Bne(A3, T0, FAIL)
    case 51 => Add(T0, A3, S0)
    case 52 => Ld(T1, SP)
    case 53 => Bne(T0, T1, FAIL)
    case 54 => Li(A0, 0)
    case 55 => Li(A7, 2)
    case 56 => Ecall
    // sched_fail
    case 57 => Li(A0, 99)
    case 58 => Li(A7, 2)
    case 59 => Ecall
    case 60 => J(FAIL)
    // sched_fault
    case 61 => Illegal
    case _ => J(FAIL)
  }

  function Sched(): (code: seq<Instr>)
    ensures |code| == LENGTH && forall k :: 0 <= k < LENGTH ==> code[k] == Line(k)
  {
    seq(LENGTH, k => Line(k))
  }

  /** The frame `batch` prepares: stack top, marker, iterations and mode; sp points into the stack. */
  ghost predicate Prepared(u: User, marker: Word, iterations: Word, mode: Word) {
    && u.pc == 0 && u.x[SP] in u.stack && u.x[S0] == marker && u.x[S1] == iterations && u.x[S4] == mode
  }

  /** u walks to v in k instructions without a trap of its own. */
  ghost predicate Walks(u: User, v: User, k: nat) {
    Walk(Sched(), u, k) == Next(v)
  }

  lemma Join(u: User, v: User, w: User, j: nat, k: nat)
    requires Walks(u, v, j) && Walks(v, w, k)
    ensures Walks(u, w, j + k)
  {
    WalkCompose(Sched(), u, j, k);
  }

  function Do(u: User): Effect {
    Step(Sched(), u)
  }

  /** The instruction at slot k is the one executed there. */
  lemma DoLine(u: User, k: nat)
    requires u.pc == 4 * k && k < LENGTH
    ensures Do(u) == Execute(Sched(), u, Line(k))
  {
  }

  lemma Path1(a: User, b: User)
    requires Do(a) == Next(b)
    ensures Walks(a, b, 1)
  {
    assert Walk(Sched(), b, 0) == Next(b);
  }

  lemma Path2(a: User, b: User, c: User)
    requires Do(a) == Next(b) && Do(b) == Next(c)
    ensures Walks(a, c, 2)
  {
    Path1(a, b);
    Path1(b, c);
    Join(a, b, c, 1, 1);
  }

  lemma Path4(a: User, b: User, c: User, d: User, e: User)
    requires Do(a) == Next(b) && Do(b) == Next(c) && Do(c) == Next(d) && Do(d) == Next(e)
    ensures Walks(a, e, 4)
  {
    Path2(a, b, c);
    Path2(c, d, e);
    Join(a, c, e, 2, 2);
  }

  /** The sentinels and inputs that the loop checks and never changes. */
  ghost predicate Intact(u: User, marker: Word, iterations: Word, mode: Word) {
    && u.x[A3] == SENTINEL && u.x[SP] in u.stack && u.stack[u.x[SP]] == Wrap(SENTINEL + marker)
    && u.x[S0] == marker && u.x[S1] == iterations && u.x[S4] == mode
  }

  /** A point of the loop: position, count and running sum. */
  ghost predicate At(u: User, pc: int, marker: Word, iterations: Word, mode: Word, count: int, sum: int) {
    u.pc == pc && Intact(u, marker, iterations, mode) && u.x[S2] == count && u.x[S3] == sum
  }

  /** The register assignment a line makes, and the step to the next line. */
  function Put(u: User, r: Reg, v: Word): User
    requires r != 0 && u.pc + 4 < MODULUS
  {
    u.(x := u.x[r := v], pc := u.pc + 4)
  }

  function Skip(u: User): User
    requires u.pc + 4 < MODULUS
  {
    u.(pc := u.pc + 4)
  }

  lemma Entry(u: User, marker: Word, iterations: Word, mode: Word) returns (v: User)
    requires Prepared(u, marker, iterations, mode)
    ensures Walks(u, v, 5) && At(v, LOOP, marker, iterations, mode, 0, 0)
    ensures v.x[S5] == u.x[S5] && v.x[SP] == u.x[SP] && v.stack == u.stack[u.x[SP] := Wrap(SENTINEL + marker)]
  {
    hide Walks;
    var a := Put(u, A3, SENTINEL);
    var b := Put(a, T0, Wrap(SENTINEL + marker));
    var c := Skip(b.(stack := b.stack[b.x[SP] := b.x[T0]]));
    var d := Put(c, S2, 0);
    v := Put(d, S3, 0);
    Path4(u, a, b, c, d);
    Path1(d, v);
    Join(u, d, v, 4, 1);
  }

  /** The stack and the two registers that address memory are as before. */
  ghost predicate SameCells(u: User, v: User) {
    v.stack == u.stack && v.x[SP] == u.x[SP] && v.x[S5] == u.x[S5]
  }

  /** The sentinel checks at the head of the loop, and the next summand, in 64-bit arithmetic. */
  lemma Head(u: User, marker: Word, n: Word, mode: Word, count: Word, sum: Word) returns (v: User)
    requires At(u, LOOP, marker, n, mode, count, sum)
    ensures Walks(u, v, 7) && At(v, 4 * 12, marker, n, mode, Wrap(count + 1), Wrap(sum + Wrap(count + 1)))
    ensures SameCells(u, v)
  {
    hide Walks, Do, Wrap;
    var d := HeadChecks(u, marker, n, mode, count, sum);
    var e := Skip(d);
    var f := Put(e, S2, Wrap(count + 1));
    v := Put(f, S3, Wrap(sum + Wrap(count + 1)));
    DoLine(d, 9);
    DoLine(e, 10);
    DoLine(f, 11);
    Path2(d, e, f);
    Path1(f, v);
    Join(u, d, f, 4, 2);
    Join(u, f, v, 6, 1);
  }

  lemma Small(w: Word)
    ensures Wrap(w) == w
  {
  }

  lemma HeadChecks(u: User, marker: Word, n: Word, mode: Word, count: Word, sum: Word) returns (d: User)
    requires At(u, LOOP, marker, n, mode, count, sum)
    ensures Walks(u, d, 4) && At(d, 4 * 9, marker, n, mode, count, sum) && d.x[T0] == d.x[T1] && SameCells(u, d)
  {
    hide Walks, Do, Wrap;
    var a := Put(u, T0, SENTINEL);
    var b := Skip(a);
    var c := Put(b, T0, Wrap(SENTINEL + marker));
    d := Put(c, T1, Wrap(SENTINEL + marker));
    Small(SENTINEL);
    Small(Wrap(SENTINEL + marker));
    DoLine(u, 5);
    DoLine(a, 6);
    DoLine(b, 7);
    DoLine(c, 8);
    Path4(u, a, b, c, d);
  }

  /** The busy loops: t2 counts down to zero. */
  lemma {:induction false} CountDown(u: User, p: int) returns (v: User)
    requires p == 4 * 25 || p == 4 * 32
    requires u.pc == p && u.x[T2] > 0
    ensures v == u.(x := u.x[T2 := 0], pc := p + 8) && Walks(u, v, 2 * u.x[T2] as int)
    decreases u.x[T2]
  {
    hide Walks, Do;
    var a := Put(u, T2, u.x[T2] - 1);
    DoLine(u, p / 4);
    DoLine(a, p / 4 + 1);
    var b := if u.x[T2] == 1 then Skip(a) else a.(pc := p);
    Path2(u, a, b);
    if u.x[T2] == 1 {
      v := b;
    } else {
      v := CountDown(b, p);
      Join(u, b, v, 2, 2 * b.x[T2] as int);
    }
  }

  /** Where the mode sends the loop body. */
  function Target(mode: Word): int {
    if mode == 1 then NEXT else if mode == 4 then TIMER_WAIT else if mode == 3 then SYSCALL_BURST else if mode == 2 then YIELD_BURST else 4 * 20
  }

  lemma Choose(u: User, marker: Word, n: Word, mode: Word, count: Word, sum: Word) returns (v: User, k: nat)
    requires At(u, 4 * 12, marker, n, mode, count, sum)
    ensures Walks(u, v, k) && At(v, Target(mode), marker, n, mode, count, sum)
  {
    hide Walks, At;
    if mode == 4 {
      v := ChooseTimer(u, marker, n, mode, count, sum);
      k := 4;
    } else if mode == 1 {
      v := ChooseNext(u, marker, n, mode, count, sum);
      k := 2;
    } else {
      var d := ChooseEarly(u, marker, n, mode, count, sum);
      if mode == 3 {
        v := ChooseBurst(d, marker, n, mode, count, sum);
        k := 6;
        Join(u, d, v, 4, 2);
      } else {
        v := ChooseLate(d, marker, n, mode, count, sum);
        k := 8;
        Join(u, d, v, 4, 4);
      }
    }
  }

  lemma ChooseNext(u: User, marker: Word, n: Word, mode: Word, count: Word, sum: Word) returns (v: User)
    requires At(u, 4 * 12, marker, n, mode, count, sum) && mode == 1
    ensures Walks(u, v, 2) && At(v, NEXT, marker, n, mode, count, sum)
  {
    hide Walks;
    var a := Put(u, T0, 1);
    v := a.(pc := NEXT);
    Path2(u, a, v);
  }

  lemma ChooseTimer(u: User, marker: Word, n: Word, mode: Word, count: Word, sum: Word) returns (v: User)
    requires At(u, 4 * 12, marker, n, mode, count, sum) && mode == 4
    ensures Walks(u, v, 4) && At(v, TIMER_WAIT, marker, n, mode, count, sum) && SameCells(u, v)
  {
    hide Walks, Do;
    var a := Put(u, T0, 1);
    var b := Skip(a);
    var c := Put(b, T0, 4);
    v := c.(pc := TIMER_WAIT);
    DoLine(u, 12);
    DoLine(a, 13);
    DoLine(b, 14);
    DoLine(c, 15);
    Path4(u, a, b, c, v);
  }

  lemma ChooseEarly(u: User, marker: Word, n: Word, mode: Word, count: Word, sum: Word) returns (d: User)
    requires At(u, 4 * 12, marker, n, mode, count, sum) && mode != 1 && mode != 4
    ensures Walks(u, d, 4) && At(d, 4 * 16, marker, n, mode, count, sum)
  {
    hide Walks;
    var a := Put(u, T0, 1);
    var b := Skip(a);
    var c := Put(b, T0, 4);
    d := Skip(c);
    Path4(u, a, b, c, d);
  }

  lemma ChooseBurst(d: User, marker: Word, n: Word, mode: Word, count: Word, sum: Word) returns (v: User)
    requires At(d, 4 * 16, marker, n, mode, count, sum) && mode == 3
    ensures Walks(d, v, 2) && At(v, SYSCALL_BURST, marker, n, mode, count, sum)
  {
    hide Walks;
    var e := Put(d, T0, 3);
    v := e.(pc := SYSCALL_BURST);
    Path2(d, e, v);
  }

  lemma ChooseLate(d: User, marker: Word, n: Word, mode: Word, count: Word, sum: Word) returns (v: User)
    requires At(d, 4 * 16, marker, n, mode, count, sum) && mode != 3
    ensures Walks(d, v, 4)
    ensures At(v, if mode == 2 then YIELD_BURST else 4 * 20, marker, n, mode, count, sum)
  {
    hide Walks, At;
    var f := ChooseThird(d, marker, n, mode, count, sum);
    v := ChooseFourth(f, marker, n, mode, count, sum);
    Join(d, f, v, 2, 2);
  }

  lemma ChooseThird(d: User, marker: Word, n: Word, mode: Word, count: Word, sum: Word) returns (f: User)
    requires At(d, 4 * 16, marker, n, mode, count, sum) && mode != 3
    ensures Walks(d, f, 2) && At(f, 4 * 18, marker, n, mode, count, sum)
  {
    hide Walks, Do;
    var e := Put(d, T0, 3);
    f := Skip(e);
    DoLine(d, 16);
    DoLine(e, 17);
    Path2(d, e, f);
  }

  lemma ChooseFourth(f: User, marker: Word, n: Word, mode: Word, count: Word, sum: Word) returns (v: User)
    requires At(f, 4 * 18, marker, n, mode, count, sum)
    ensures Walks(f, v, 2)
    ensures At(v, if mode == 2 then YIELD_BURST else 4 * 20, marker, n, mode, count, sum)
  {
    hide Walks, Do;
    var g := Put(f, T0, 2);
    v := if mode == 2 then g.(pc := YIELD_BURST) else Skip(g);
    DoLine(f, 18);
    DoLine(g, 19);
    Path2(f, g, v);
  }

  /** A task about to trap with a system call. */
  ghost predicate Asks(u: User, number: int, arg: int) {
    Do(u) == Environment && u.x[A7] == number && u.x[A0] == arg
  }

  /** The task after a system call that returned `value`. */
  function Resumed(u: User, value: int): User
    requires u.pc + 4 < MODULUS
  {
    u.(x := u.x[A0 := Wrap(value)], pc := u.pc + 4)
  }

  lemma ToMarker(u: User, marker: Word, n: Word, mode: Word, count: Word, sum: Word) returns (v: User)
    requires At(u, 4 * 20, marker, n, mode, count, sum)
    ensures Walks(u, v, 2) && At(v, 4 * 22, marker, n, mode, count, sum) && Asks(v, PUTCHAR, marker)
  {
    hide Walks;
    var a := Put(u, A0, marker);
    v := Put(a, A7, 1);
    Path2(u, a, v);
  }

  lemma ToYield(u: User, marker: Word, n: Word, mode: Word, count: Word, sum: Word) returns (v: User, k: nat)
    requires At(u, YIELD_BURST, marker, n, mode, count, sum)
    ensures Walks(u, v, k) && At(v, 4 * 28, marker, n, mode, count, sum) && Do(v) == Environment && v.x[A7] == YIELD
  {
    hide Walks;
    var a := Put(u, T2, 10000);
    Path1(u, a);
    var b := CountDown(a, 4 * 25);
    v, k := Put(b, A7, 3), 20002;
    Path1(b, v);
    Join(u, a, b, 1, 20000);
    Join(u, b, v, 20001, 1);
  }

  lemma ToUnknown(u: User, marker: Word, n: Word, mode: Word, count: Word, sum: Word) returns (v: User, k: nat)
    requires At(u, SYSCALL_BURST, marker, n, mode, count, sum)
    ensures Walks(u, v, k) && At(v, 4 * 35, marker, n, mode, count, sum) && Do(v) == Environment && v.x[A7] == 999
  {
    hide Walks;
    var a := Put(u, T2, 1000);
    Path1(u, a);
    var b := CountDown(a, 4 * 32);
    v, k := Put(b, A7, 999), 2002;
    Path1(b, v);
    Join(u, a, b, 1, 2000);
    Join(u, b, v, 2001, 1);
  }

  lemma AfterMarker(u: User, marker: Word, n: Word, mode: Word, count: Word, sum: Word) returns (v: User)
    requires At(u, 4 * 23, marker, n, mode, count, sum) && u.x[A0] == 0
    ensures Walks(u, v, 1) && At(v, YIELD_BURST, marker, n, mode, count, sum)
  {
    hide Walks;
    v := Skip(u);
    Path1(u, v);
  }

  lemma AfterYield(u: User, marker: Word, n: Word, mode: Word, count: Word, sum: Word) returns (v: User)
    requires At(u, 4 * 29, marker, n, mode, count, sum) && u.x[A0] == 0
    ensures Walks(u, v, 2) && At(v, NEXT, marker, n, mode, count, sum)
  {
    hide Walks;
    var a := Skip(u);
    v := a.(pc := NEXT);
    Path2(u, a, v);
  }

  lemma AfterUnknown(u: User, marker: Word, n: Word, mode: Word, count: Word, sum: Word) returns (v: User)
    requires At(u, 4 * 36, marker, n, mode, count, sum) && u.x[A0] == MODULUS - 1
    ensures Walks(u, v, 2) && At(v, NEXT, marker, n, mode, count, sum)
  {
    hide Walks;
    var a := Put(u, T0, MODULUS - 1);
    v := Skip(a);
    Path2(u, a, v);
  }

  /** The sentinel failure path. */
  lemma Failure(u: User) returns (v: User)
    requires u.pc == FAIL
    ensures Walks(u, v, 2) && Asks(v, EXIT, 99)
  {
    hide Walks;
    var a := Put(u, A0, 99);
    v := Put(a, A7, 2);
    Path2(u, a, v);
  }

  lemma NextRound(u: User, marker: Word, n: Word, mode: Word, count: Word, sum: Word) returns (v: User)
    requires At(u, NEXT, marker, n, mode, count, sum)
    ensures Walks(u, v, 1) && At(v, if count < n then LOOP else 4 * 39, marker, n, mode, count, sum)
  {
    hide Walks;
    v := u.(pc := if count < n then LOOP else 4 * 39);
    Path1(u, v);
  }

  /** The closed form the program compares its running sum with, in 64-bit arithmetic. */
  function ClosedForm(n: Word): Word {
    Wrap(Wrap(n + 1) as int * n as int) / 2
  }

  lemma HalfFits(w: Word)
    ensures Wrap(w / 2) == w / 2
  {
  }

  lemma Checksum(u: User, marker: Word, n: Word, mode: Word, count: Word, sum: Word) returns (v: User)
    requires At(u, 4 * 39, marker, n, mode, count, sum)
    ensures Walks(u, v, 4) && v.pc == if sum == ClosedForm(n) then 4 * 43 else FAIL
  {
    hide Walks, Wrap, Do;
    HalfFits(Wrap(Wrap(n + 1) as int * n as int));
    var a := Put(u, T0, Wrap(n + 1));
    var b := Put(a, T0, Wrap(Wrap(n + 1) as int * n as int));
    var c := Put(b, T0, ClosedForm(n));
    DoLine(u, 39);
    DoLine(a, 40);
    DoLine(b, 41);
    Path2(u, a, b);
    hide ClosedForm;
    v := Verify(b, c, sum, ClosedForm(n));
    Join(u, b, v, 2, 2);
  }

  lemma Verify(b: User, c: User, sum: Word, expected: Word) returns (v: User)
    requires Do(b) == Riscv.Next(c) && c.pc == 4 * 42 && c.x[T0] == expected && c.x[S3] == sum
    ensures Walks(b, v, 2) && v.pc == if sum == expected then 4 * 43 else FAIL
  {
    hide Walks, Do;
    v := if sum == expected then Skip(c) else c.(pc := FAIL);
    DoLine(c, 42);
    Path2(b, c, v);
  }

  lemma Success(u: User) returns (v: User)
    requires u.pc == 4 * 43
    ensures Walks(u, v, 2) && Asks(v, EXIT, 0)
  {
    hide Walks;
    var a := Put(u, A0, 0);
    v := Put(a, A7, 2);
    Path2(u, a, v);
  }

  lemma Compare(u: User, marker: Word, n: Word, mode: Word, count: Word, sum: Word) returns (v: User, k: nat)
    requires At(u, 4 * 39, marker, n, mode, count, sum)
    ensures Walks(u, v, k) && Asks(v, EXIT, if sum == ClosedForm(n) then 0 else 99)
  {
    hide Walks, Do, At, ClosedForm;
    var d := Checksum(u, marker, n, mode, count, sum);
    if sum == ClosedForm(n) {
      v := Success(d);
    } else {
      v := Failure(d);
    }
    k := 6;
    Join(u, d, v, 4, 2);
  }
}
