/**
 Mode 4 of the user program, which waits for the timer flag: what it does as a function of the flag's
 value, for a task that can read the flag's cell and while the kernel leaves the cell alone.
 */
module UserTimer {
  import opened Riscv
  import opened Syscalls
  import opened UserProgram
  import opened UserExit

  /** The cell register s5 points to is not the task's sentinel slot, and holds this value. */
  ghost predicate FlagIs(u: User, value: Word) {
    u.x[S5] in u.stack && u.x[S5] != u.x[SP] && u.stack[u.x[S5]] == value
  }

  lemma SameFlag(u: User, v: User, value: Word)
    requires SameCells(u, v) && FlagIs(u, value)
    ensures FlagIs(v, value)
  {
  }

  /** From sched_timer_wait back to the loop while the flag is zero. */
  lemma FlagClear(u: User, marker: Word, n: Word, count: Word, sum: Word) returns (v: User)
    requires At(u, TIMER_WAIT, marker, n, 4, count, sum) && FlagIs(u, 0)
    ensures Walks(u, v, 2) && At(v, LOOP, marker, n, 4, count, sum) && SameCells(u, v)
  {
    hide Walks, Do;
    var a := Put(u, T0, 0);
    v := a.(pc := LOOP);
    DoLine(u, 47);
    DoLine(a, 48);
    Path2(u, a, v);
  }

  /** Once the flag is set: the sentinel checks pass again, and the task asks to exit with code 0. */
  lemma FlagSet(u: User, marker: Word, n: Word, count: Word, sum: Word, value: Word) returns (v: User)
    requires At(u, TIMER_WAIT, marker, n, 4, count, sum) && FlagIs(u, value) && value != 0
    ensures Walks(u, v, 9) && Asks(v, EXIT, 0)
  {
    hide Walks, At, FlagIs, Asks;
    var b := FlagRead(u, marker, n, count, sum, value);
    var d := RegisterCheck(b, marker, n, count, sum);
    var g := SlotCheck(d, marker, n, count, sum);
    v := AskToExit(g);
    Join(u, b, d, 2, 2);
    Join(u, d, g, 4, 3);
    Join(u, g, v, 7, 2);
  }

  lemma FlagRead(u: User, marker: Word, n: Word, count: Word, sum: Word, value: Word) returns (b: User)
    requires At(u, TIMER_WAIT, marker, n, 4, count, sum) && FlagIs(u, value) && value != 0
    ensures Walks(u, b, 2) && At(b, 4 * 49, marker, n, 4, count, sum)
  {
    hide Walks, Do, Wrap;
    var a := Put(u, T0, value);
    b := Skip(a);
    Small(value);
    DoLine(u, 47);
    DoLine(a, 48);
    Path2(u, a, b);
  }

  lemma RegisterCheck(b: User, marker: Word, n: Word, count: Word, sum: Word) returns (d: User)
    requires At(b, 4 * 49, marker, n, 4, count, sum)
    ensures Walks(b, d, 2) && At(d, 4 * 51, marker, n, 4, count, sum)
  {
    hide Walks, Do, Wrap;
    var c := Put(b, T0, SENTINEL);
    d := Skip(c);
    Small(SENTINEL);
    DoLine(b, 49);
    DoLine(c, 50);
    Path2(b, c, d);
  }

  lemma SlotCheck(d: User, marker: Word, n: Word, count: Word, sum: Word) returns (g: User)
    requires At(d, 4 * 51, marker, n, 4, count, sum)
    ensures Walks(d, g, 3) && g.pc == 4 * 54
  {
    hide Walks, Do, Wrap;
    var e := Put(d, T0, Wrap(SENTINEL + marker));
    var f := Put(e, T1, Wrap(SENTINEL + marker));
    g := Skip(f);
    Small(Wrap(SENTINEL + marker));
    DoLine(d, 51);
    DoLine(e, 52);
    DoLine(f, 53);
    Path2(d, e, f);
    Path1(f, g);
    Join(d, f, g, 2, 1);
  }

  lemma AskToExit(g: User) returns (v: User)
    requires g.pc == 4 * 54
    ensures Walks(g, v, 2) && Asks(v, EXIT, 0)
  {
    hide Walks, Do, Wrap;
    var h := Put(g, A0, 0);
    v := Put(h, A7, 2);
    Small(0);
    Small(2);
    DoLine(g, 54);
    DoLine(h, 55);
    DoLine(v, 56);
    Path2(g, h, v);
  }

  /** From the head of the loop to the reading of the flag. */
  lemma ToFlag(u: User, marker: Word, n: Word, count: Word, sum: Word, value: Word) returns (v: User, c: Word, s: Word)
    requires At(u, LOOP, marker, n, 4, count, sum) && FlagIs(u, value)
    ensures Walks(u, v, 11) && At(v, TIMER_WAIT, marker, n, 4, c, s) && FlagIs(v, value)
  {
    hide Walks, At, Wrap, FlagIs, SameCells;
    c, s := Wrap(count + 1), Wrap(sum + Wrap(count + 1));
    var a := Head(u, marker, n, 4, count, sum);
    v := ChooseTimer(a, marker, n, 4, c, s);
    SameFlag(u, a, value);
    SameFlag(a, v, value);
    Join(u, a, v, 7, 4);
  }

  lemma TimerExits(u: User, marker: Word, n: Word, count: Word, sum: Word, value: Word) returns (k: nat)
    requires At(u, LOOP, marker, n, 4, count, sum) && FlagIs(u, value) && value != 0
    ensures SoloRun(Sched(), u, k) == Exited(0)
  {
    hide Walks, At, FlagIs, SoloRun;
    var v, c, s := ToFlag(u, marker, n, count, sum, value);
    var w := FlagSet(v, marker, n, c, s, value);
    Leave(w, 0);
    WalkThen(v, w, Exited(0), 9, 1);
    WalkThen(u, v, Exited(0), 11, 10);
    k := 21;
  }

  /** One round with the flag clear is thirteen instructions. */
  lemma Round(u: User, marker: Word, n: Word, count: Word, sum: Word) returns (w: User, c: Word, s: Word)
    requires At(u, LOOP, marker, n, 4, count, sum) && FlagIs(u, 0)
    ensures SoloRun(Sched(), u, 13) == Live(w) && At(w, LOOP, marker, n, 4, c, s) && FlagIs(w, 0)
  {
    hide Walks, At, FlagIs, SoloRun, SameCells;
    var v;
    v, c, s := ToFlag(u, marker, n, count, sum, 0);
    w := FlagClear(v, marker, n, c, s);
    SameFlag(v, w, 0);
    Join(u, v, w, 11, 2);
    WalkMeans(u, w, 13);
    WalkIsSolo(Sched(), u, 13);
  }

  /** While the flag stays zero the task goes round and round, whatever its counters do. */
  lemma {:induction false} TimerSpins(u: User, marker: Word, n: Word, count: Word, sum: Word, j: nat)
    requires At(u, LOOP, marker, n, 4, count, sum) && FlagIs(u, 0)
    ensures SoloRun(Sched(), u, j).Live?
    decreases j
  {
    hide At, FlagIs, SoloRun, Sched;
    var w, c, s := Round(u, marker, n, count, sum);
    if j > 13 {
      TimerSpins(w, marker, n, c, s, j - 13);
    }
    LiveBeyond(u, w, 13, j);
  }

  /** Live after k steps in state w, and live from there on: live after j steps. */
  lemma LiveBeyond(u: User, w: User, k: nat, j: nat)
    requires SoloRun(Sched(), u, k) == Live(w) && (j > k ==> SoloRun(Sched(), w, j - k).Live?)
    ensures SoloRun(Sched(), u, j).Live?
  {
    hide Sched, SoloRun;
    if j > k {
      SoloRunCompose(Sched(), u, k, j - k);
    } else {
      SoloRunCompose(Sched(), u, j, k - j);
    }
  }

  lemma WalkMeans(u: User, v: User, k: nat)
    requires Walks(u, v, k)
    ensures Walk(Sched(), u, k) == Next(v)
  {
  }

  /**
   Mode 4 alone: it ends if and only if the flag is set, and then with code 0, whatever its marker and
   its iteration count.
   */
  lemma TimerMode(u: User, marker: Word, n: Word, value: Word) returns (k: nat)
    requires Prepared(u, marker, n, 4) && FlagIs(u, value)
    ensures if value != 0 then SoloRun(Sched(), u, k) == Exited(0)
            else forall j: nat :: SoloRun(Sched(), u, j).Live?
  {
    hide Walks, At, SoloRun;
    var v := Entry(u, marker, n, 4);
    assert FlagIs(v, value);
    hide FlagIs;
    k := 0;
    if value != 0 {
      var j := TimerExits(v, marker, n, 0, 0, value);
      WalkThen(u, v, Exited(0), 5, j);
      k := 5 + j;
    } else {
      WalkMeans(u, v, 5);
      WalkIsSolo(Sched(), u, 5);
      forall j: nat
        ensures SoloRun(Sched(), u, j).Live?
      {
        if j > 5 {
          TimerSpins(v, marker, n, 0, 0, j - 5);
        }
        LiveBeyond(u, v, 5, j);
      }
    }
  }
}
