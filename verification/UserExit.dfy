/**
 How the user program ends: for every 64-bit iteration count and every mode but the timer mode it
 exits, with code 0 exactly when its two checksums agree in 64-bit arithmetic.
 */
module UserExit {
  import opened Util
  import opened Riscv
  import opened Syscalls
  import opened UserProgram

  /** 1 + 2 + ... + c. */
  function Triangle(c: nat): nat {
    if c == 0 then 0 else Triangle(c - 1) + c
  }

  lemma {:induction false} TriangleClosed(c: nat)
    ensures 2 * Triangle(c) == c * (c + 1)
  {
    if c > 0 {
      TriangleClosed(c - 1);
      assert c * (c + 1) == (c - 1) * c + 2 * c;
    }
  }

  lemma WrapShift(a: int, q: int)
    ensures Wrap(a + q * MODULUS) == Wrap(a)
  {
  }

  lemma WrapSum(a: int, b: int)
    ensures Wrap(Wrap(a) + b) == Wrap(a + b)
  {
    var q := a / MODULUS;
    assert a == Wrap(a) + q * MODULUS;
    WrapShift(Wrap(a) + b, q);
  }

  lemma WrapProduct(a: int, b: int)
    ensures Wrap(Wrap(a) * b) == Wrap(a * b)
  {
    var q := a / MODULUS;
    assert a == Wrap(a) + q * MODULUS;
    assert a * b == Wrap(a) * b + (q * b) * MODULUS;
    WrapShift(Wrap(a) * b, q * b);
  }

  /** Halving after a wrapped doubling loses exactly the top bit. */
  lemma HalfOfDouble(t: nat)
    ensures Wrap(2 * t) / 2 == Wrap(t) <==> Wrap(t) < MODULUS / 2
  {
    var q, r := t / MODULUS, Wrap(t);
    assert 2 * t == 2 * r + (2 * q) * MODULUS;
    WrapShift(2 * r, 2 * q);
  }

  /** The condition, checkable before the run, under which the two checksums agree. */
  predicate Passes(n: Word) {
    n >= 1 && Wrap(Triangle(n)) < MODULUS / 2
  }

  /** The do-while loop sums at least one term, so n == 0 fails; large n can lose the top bit. */
  lemma ChecksumExact(n: Word)
    ensures Wrap(Triangle(Max(n, 1))) == ClosedForm(n) <==> Passes(n)
  {
    if n == 0 {
      assert Triangle(1) == Triangle(0) + 1;
    } else {
      TriangleClosed(n);
      WrapProduct(n + 1, n);
      assert (n + 1) * n == 2 * Triangle(n);
      HalfOfDouble(Triangle(n));
    }
  }

  /** Every count from 1 up to 2^32 - 1 passes; 2^32 does not. */
  lemma SmallCountsPass(n: Word)
    requires 1 <= n <= 0x1_0000_0000
    ensures Passes(n) <==> n < 0x1_0000_0000
  {
    TriangleClosed(n);
    if n < 0x1_0000_0000 {
      assert n * (n + 1) <= 0xffff_ffff * 0x1_0000_0000 by {
        SmallProduct(n, n + 1);
      }
      hide Triangle;
    }
  }

  lemma SmallProduct(a: nat, b: nat)
    requires a <= 0xffff_ffff && b <= 0x1_0000_0000
    ensures a * b <= 0xffff_ffff * 0x1_0000_0000
  {
    var m := 0xffff_ffff;
    assert 0 <= (m - a) * b == m * b - a * b;
  }

  lemma SoloJoin(u: User, v: User, w: Solo, j: nat, k: nat)
    requires SoloRun(Sched(), u, j) == Live(v) && SoloRun(Sched(), v, k) == w
    ensures SoloRun(Sched(), u, j + k) == w
  {
    SoloRunCompose(Sched(), u, j, k);
  }

  lemma WalkThen(u: User, v: User, w: Solo, j: nat, k: nat)
    requires Walks(u, v, j) && SoloRun(Sched(), v, k) == w
    ensures SoloRun(Sched(), u, j + k) == w
  {
    WalkIsSolo(Sched(), u, j);
    SoloJoin(u, v, w, j, k);
  }

  /** A system call that returns is one solo step. */
  lemma Call(u: User, value: int)
    requires Do(u) == Environment && u.pc + 4 < 4 * LENGTH
    requires if u.x[A7] == YIELD then value == 0
             else Dispatch(u.x[A7], u.x[A0]).Return? && Dispatch(u.x[A7], u.x[A0]).value == value
    ensures SoloRun(Sched(), u, 1) == Live(Resumed(u, value))
  {
    assert SoloRun(Sched(), Resumed(u, value), 0) == Live(Resumed(u, value));
  }

  lemma Leave(u: User, code: nat)
    requires Asks(u, EXIT, code) && code <= 0xff
    ensures SoloRun(Sched(), u, 1) == Exited(code)
  {
  }

  /** One round of the loop for a task that may write its marker. */
  lemma Round(u: User, marker: Word, n: Word, mode: Word, count: Word, sum: Word) returns (v: User, k: nat)
    requires At(u, LOOP, marker, n, mode, count, sum) && count + 1 < MODULUS && mode != 4
    requires mode in {1, 2, 3} || marker <= 0x7f
    ensures SoloRun(Sched(), u, k) == Live(v) && At(v, NEXT, marker, n, mode, count + 1, Wrap(sum + count + 1))
  {
    hide Walks, SoloRun, Wrap;
    var c, s: Word := count + 1, Wrap(sum + count + 1);
    Small(count + 1);
    var a := Head(u, marker, n, mode, count, sum);
    var b, j := Choose(a, marker, n, mode, c, s);
    var tail: nat;
    if mode == 1 {
      v, tail := b, 0;
      StandStill(v);
    } else if mode == 3 {
      v, tail := UnknownRound(b, marker, n, mode, c, s);
    } else if mode == 2 {
      v, tail := YieldRound(b, marker, n, mode, c, s);
    } else {
      v, tail := MarkerRound(b, marker, n, mode, c, s);
    }
    WalkThen(a, b, Live(v), j, tail);
    WalkThen(u, a, Live(v), 7, j + tail);
    k := 7 + (j + tail);
  }

  lemma StandStill(u: User)
    ensures SoloRun(Sched(), u, 0) == Live(u)
  {
  }

  lemma UnknownRound(b: User, marker: Word, n: Word, mode: Word, c: Word, s: Word) returns (v: User, k: nat)
    requires At(b, SYSCALL_BURST, marker, n, mode, c, s)
    ensures SoloRun(Sched(), b, k) == Live(v) && At(v, NEXT, marker, n, mode, c, s)
  {
    hide Walks, SoloRun;
    var d, j := ToUnknown(b, marker, n, mode, c, s);
    var e := Resumed(d, -1);
    Call(d, -1);
    v := AfterUnknown(e, marker, n, mode, c, s);
    StandStill(v);
    WalkThen(e, v, Live(v), 2, 0);
    SoloJoin(d, e, Live(v), 1, 2);
    WalkThen(b, d, Live(v), j, 3);
    k := j + 3;
  }

  lemma YieldRound(b: User, marker: Word, n: Word, mode: Word, c: Word, s: Word) returns (v: User, k: nat)
    requires At(b, YIELD_BURST, marker, n, mode, c, s)
    ensures SoloRun(Sched(), b, k) == Live(v) && At(v, NEXT, marker, n, mode, c, s)
  {
    hide Walks, SoloRun;
    var d, j := ToYield(b, marker, n, mode, c, s);
    var e := Resumed(d, 0);
    Call(d, 0);
    v := AfterYield(e, marker, n, mode, c, s);
    StandStill(v);
    WalkThen(e, v, Live(v), 2, 0);
    SoloJoin(d, e, Live(v), 1, 2);
    WalkThen(b, d, Live(v), j, 3);
    k := j + 3;
  }

  lemma MarkerRound(b: User, marker: Word, n: Word, mode: Word, c: Word, s: Word) returns (v: User, k: nat)
    requires At(b, 4 * 20, marker, n, mode, c, s) && marker <= 0x7f
    ensures SoloRun(Sched(), b, k) == Live(v) && At(v, NEXT, marker, n, mode, c, s)
  {
    hide Walks, SoloRun;
    var d := ToMarker(b, marker, n, mode, c, s);
    var e := Resumed(d, 0);
    Call(d, 0);
    var f := AfterMarker(e, marker, n, mode, c, s);
    var tail: nat;
    v, tail := YieldRound(f, marker, n, mode, c, s);
    WalkThen(e, f, Live(v), 1, tail);
    SoloJoin(d, e, Live(v), 1, 1 + tail);
    WalkThen(b, d, Live(v), 2, 1 + (1 + tail));
    k := 2 + (1 + (1 + tail));
  }

  /** A marker outside ASCII is refused by the first call, and the task reports failure. */
  lemma BadMarker(u: User, marker: Word, n: Word, mode: Word) returns (k: nat)
    requires At(u, LOOP, marker, n, mode, 0, 0) && mode !in {1, 2, 3, 4} && marker > 0x7f
    ensures SoloRun(Sched(), u, k) == Exited(99)
  {
    hide Walks, SoloRun;
    Small(1);
    var a := Head(u, marker, n, mode, 0, 0);
    var b, j := Choose(a, marker, n, mode, 1, 1);
    var d := ToMarker(b, marker, n, mode, 1, 1);
    var e := Resumed(d, ERR_INVALID_ARGUMENT);
    Call(d, ERR_INVALID_ARGUMENT);
    var f := e.(pc := FAIL);
    Path1(e, f);
    var g := Failure(f);
    Leave(g, 99);
    WalkThen(f, g, Exited(99), 2, 1);
    WalkThen(e, f, Exited(99), 1, 3);
    SoloJoin(d, e, Exited(99), 1, 4);
    WalkThen(b, d, Exited(99), 2, 5);
    WalkThen(a, b, Exited(99), j, 7);
    WalkThen(u, a, Exited(99), 7, j + 7);
    k := 7 + (j + 7);
  }

  /** From the head of the loop, with the running sum correct so far, to the exit. */
  lemma {:induction false} LoopToExit(u: User, marker: Word, n: Word, mode: Word, count: Word) returns (k: nat)
    requires At(u, LOOP, marker, n, mode, count, Wrap(Triangle(count))) && mode != 4
    requires count < n || (n == 0 && count == 0)
    requires mode in {1, 2, 3} || marker <= 0x7f
    ensures SoloRun(Sched(), u, k) == Exited(if Passes(n) then 0 else 99)
    decreases n - count
  {
    hide Walks, SoloRun, Wrap, Passes;
    var v, j := Round(u, marker, n, mode, count, Wrap(Triangle(count)));
    WrapSum(Triangle(count), count + 1);
    assert Triangle(count + 1) == Triangle(count) + (count + 1);
    var s := Wrap(Triangle(count + 1));
    var w := NextRound(v, marker, n, mode, count + 1, s);
    var rest: nat;
    if count + 1 < n {
      rest := LoopToExit(w, marker, n, mode, count + 1);
    } else {
      var x, m := Compare(w, marker, n, mode, count + 1, s);
      ChecksumExact(n);
      Leave(x, if Passes(n) then 0 else 99);
      WalkThen(w, x, Exited(if Passes(n) then 0 else 99), m, 1);
      rest := m + 1;
    }
    WalkThen(v, w, Exited(if Passes(n) then 0 else 99), 1, rest);
    SoloJoin(u, v, Exited(if Passes(n) then 0 else 99), j, 1 + rest);
    k := j + (1 + rest);
  }

  /**
   On a machine of its own the program ends for every marker, iteration count and mode but 4, with
   code 0 if and only if the marker is printable where it is printed and the count passes.
   */
  lemma AlwaysExits(u: User, marker: Word, n: Word, mode: Word) returns (k: nat)
    requires Prepared(u, marker, n, mode) && mode != 4
    ensures SoloRun(Sched(), u, k)
            == Exited(if (mode in {1, 2, 3} || marker <= 0x7f) && Passes(n) then 0 else 99)
  {
    hide Walks, SoloRun, Passes;
    var v := Entry(u, marker, n, mode);
    var j: nat;
    if mode in {1, 2, 3} || marker <= 0x7f {
      assert Triangle(0) == 0;
      j := LoopToExit(v, marker, n, mode, 0);
    } else {
      j := BadMarker(v, marker, n, mode);
    }
    WalkThen(u, v, Exited(if (mode in {1, 2, 3} || marker <= 0x7f) && Passes(n) then 0 else 99), 5, j);
    k := 5 + j;
  }
}
