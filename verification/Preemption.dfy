/**
 One machine shared by several tasks: the frame write of `batch`, run_task, restore, sret, some
 user instructions, a timer interrupt or a trap of the task's own, trap entry, handler, return
 bridge. The theorem: whatever is interleaved with whatever, every task sees its solo execution.
 */
module Preemption {
  import opened Util
  import opened Riscv
  import opened Syscalls
  import opened TrapAsm
  import opened TrapHandler

  /** Addresses: linker symbols, user code, and per task the cells of its user stack and its trap-stack top. */
  datatype Layout = Layout(at: Symbols, start: Word, code: seq<Instr>, cells: seq<set<Word>>, top: seq<Word>)

  /** Whether a task can still run, or why it ended. */
  datatype Status = Alive | Ended(reason: Reason)

  /** Between two runs: the hart in the management loop, the saved frames, and the console output. */
  datatype Machine = Machine(hart: Hart, frames: seq<Frame>, status: seq<Status>, output: seq<int>)

  /**
   What the outside world decides about one run of a task: how many user instructions complete,
   whether the timer fires then, the kernel's registers at the call, and everything the kernel's own
   code does to memory and to the registers the handler need not keep.
   */
  datatype Visit = Visit(task: nat, steps: nat, timer: bool, caller: Regs, tval: Word, noise: Memory, clobbered: Regs, now: nat)

  /** A run that came back to the management loop with registers x, or did not. */
  datatype Fate = Back(machine: Machine, reason: Reason, x: Regs) | Panicked(why: Panic) | Astray

  ghost predicate Sane(l: Layout) {
    && |l.cells| == |l.top| && l.start + 4 * |l.code| + 4 <= MODULUS
    && (forall i :: 0 <= i < |l.top| ==> Home(l, i))
    && (forall i, j :: 0 <= i < j < |l.top| ==> l.cells[i] !! l.cells[j])
  }

  /** Task i's cells are its own: no trap frame and no cell of the saved kernel context among them. */
  ghost predicate Home(l: Layout, i: nat)
    requires i < |l.top| == |l.cells|
  {
    && l.top[i] >= FRAME_SIZE && Apart(l.at, l.top[i] - FRAME_SIZE)
    && (forall a :: a in l.cells[i] ==> !Saved(l.at, a))
    && (forall a, j :: a in l.cells[i] && 0 <= j < |l.top| ==> a < l.top[j] - FRAME_SIZE || a >= l.top[j])
  }

  function FrameAddress(l: Layout, i: nat): Word
    requires i < |l.top|
  {
    Wrap(l.top[i] - FRAME_SIZE)
  }

  /** The word of slot k. */
  function SlotOf(frame: Frame, k: nat): Word
    requires k < 36
  {
    if k < 32 then frame.x[k] else if k == 32 then frame.sstatus else if k == 33 then frame.sepc
    else if k == 34 then frame.scause else frame.stval
  }

  /** `frame_ptr.write(frame)`, slot by slot. */
  function WriteSlots(mem: Memory, f: int, frame: Frame, n: nat): Memory
    requires n <= 36
    decreases n
  {
    if n == 0 then mem else WriteSlots(mem, f, frame, n - 1)[Wrap(f + SLOT * (n - 1)) := SlotOf(frame, n - 1)]
  }

  function ReadFrame(mem: Memory, f: int): Frame {
    Frame(seq(32, k => if k == 0 then 0 else Read(mem, f + SLOT * k)), Read(mem, f + SSTATUS), Read(mem, f + SEPC),
          Read(mem, f + SCAUSE), Read(mem, f + STVAL))
  }

  lemma {:induction false} WriteSlotsReads(mem: Memory, f: int, frame: Frame, n: nat)
    requires n <= 36 && 0 <= f && f + FRAME_SIZE <= MODULUS
    ensures var r := WriteSlots(mem, f, frame, n);
            && (forall k :: 0 <= k < n ==> Read(r, f + SLOT * k) == SlotOf(frame, k))
            && SameOutside(mem, r, f, f + SLOT * n)
    decreases n
  {
    if n > 0 {
      hide Read, SlotOf, Wrap;
      WriteSlotsReads(mem, f, frame, n - 1);
      var m := WriteSlots(mem, f, frame, n - 1);
      Fits(f + SLOT * (n - 1));
      ReadStore(m, f + SLOT * (n - 1), SlotOf(frame, n - 1));
    }
  }

  /** Writing a frame makes memory hold it, and touches nothing else. */
  lemma WriteHolds(mem: Memory, f: int, frame: Frame)
    requires 0 <= f && f + FRAME_SIZE <= MODULUS
    ensures Holds(WriteSlots(mem, f, frame, 36), f, frame)
    ensures SameOutside(mem, WriteSlots(mem, f, frame, 36), f, f + FRAME_SIZE)
  {
    hide Read, SlotOf, WriteSlots;
    WriteSlotsReads(mem, f, frame, 36);
    var r := WriteSlots(mem, f, frame, 36);
    assert forall k :: 0 <= k < 36 ==> Read(r, f + SLOT * k) == SlotOf(frame, k);
    SlotNames(frame);
  }

  lemma SlotNames(frame: Frame)
    ensures forall k :: 0 <= k < 32 ==> SlotOf(frame, k) == frame.x[k]
    ensures SlotOf(frame, 32) == frame.sstatus && SlotOf(frame, 33) == frame.sepc
    ensures SlotOf(frame, 34) == frame.scause && SlotOf(frame, 35) == frame.stval
  {
  }

  lemma ReadBack(mem: Memory, f: int, frame: Frame)
    requires Holds(mem, f, frame)
    ensures ReadFrame(mem, f) == frame
  {
    hide Read;
    assert ReadFrame(mem, f).x == frame.x;
  }

  function StackOf(l: Layout, mem: Memory, i: nat): map<Word, Word>
    requires i < |l.cells|
  {
    map a | a in l.cells[i] :: Read(mem, a)
  }

  /** sret to user mode: SIE takes SPIE, SPIE becomes 1, SPP becomes U (section 3.3.2). */
  function SretStatus(w: Word): Word {
    Wrap(Quiet(w) + 32 + 2 * Bit(w, 32))
  }

  /** A trap from user mode: SPP is U, SPIE takes SIE, SIE is cleared. */
  function TrapStatus(w: Word): (r: Word)
    ensures Bit(r, 256) == 0
  {
    var q := Quiet(w);
    AddSpie(q);
    if Bit(w, 2) == 1 then q + 32 else q
  }

  lemma AddSpie(q: Word)
    requires Bit(q, 32) == 0 && Bit(q, 256) == 0
    ensures q + 32 < MODULUS && Bit(q + 32, 256) == 0
  {
    var h, low := q / 64, q % 64;
    assert low < 32;
    assert (q + 32) / 64 == h;
    assert (q + 32) / 256 == h / 4 && q / 256 == h / 4;
  }

  /** Memory after kernel code that may do anything except to user stacks and the saved context. */
  function Noisy(l: Layout, mem: Memory, noise: Memory): Memory {
    mem + map a | a in noise && Free(l, a) :: noise[a]
  }

  predicate Free(l: Layout, a: Word) {
    !Saved(l.at, a) && forall i :: 0 <= i < |l.cells| ==> a !in l.cells[i]
  }

  /** The user state sret enters. */
  function Entered(l: Layout, h: Hart, i: nat): User
    requires i < |l.cells|
  {
    User(h.x, Wrap(h.sepc - l.start), StackOf(l, h.mem, i))
  }

  /** The batch loop's frame write, then run_task and restore_user_frame up to sret. */
  function Launch(l: Layout, h: Hart, i: nat, frame: Frame, caller: Regs): Hart
    requires i < |l.top|
  {
    var f := FrameAddress(l, i);
    var h0 := h.(x := caller[A0 := f], mem := WriteSlots(h.mem, f, frame, 36));
    Run(l.at, Run(l.at, h0, EnterCode()), RestoreCode())
  }

  /** The cause of the trap that ends a run in user state v. */
  function Cause(l: Layout, v: User, timer: bool): Option<Word> {
    if timer then Some(TIMER_INTERRUPT)
    else
      match Step(l.code, v)
      case Environment => Some(USER_ECALL)
      case IllegalInstruction => Some(ILLEGAL_INSTRUCTION)
      case _ => None
  }

  /** The hardware's part of the trap: the user's registers stay, sepc, scause, stval and sstatus are set. */
  function Trapped(l: Layout, h: Hart, v: User, cause: Word, tval: Word): Hart {
    h.(x := v.x, mem := h.mem + v.stack, sepc := Wrap(l.start + v.pc), scause := cause, stval := tval,
       sstatus := TrapStatus(SretStatus(h.sstatus)))
  }

  function Trap(l: Layout, h: Hart, v: User, cause: Word, tval: Word): Hart {
    Run(l.at, Trapped(l, h, v, cause, tval), EntryCode())
  }

  /** The handler has returned 1: terminate_process takes the management loop's registers back. */
  function Bridge(l: Layout, h: Hart, frame: Frame, t: Visit): Hart {
    var h1 := h.(x := t.clobbered[A0 := 1], mem := Noisy(l, WriteSlots(h.mem, h.x[A0], frame, 36), t.noise));
    Run(l.at, h1, TerminateCode())
  }

  function StatusAfter(reason: Reason): Status {
    if reason.Exit? || reason.Fault? then Ended(reason) else Alive
  }

  /** One run of a task, from the management loop and back. */
  function RunTask(l: Layout, m: Machine, t: Visit): Fate
    requires t.task < |l.top| == |l.cells| == |m.frames| == |m.status|
  {
    var i := t.task;
    var h := Launch(l, m.hart, i, m.frames[i], t.caller);
    if Bit(h.sstatus, 256) != 0 || !(l.start <= h.sepc < l.start + 4 * |l.code|) then Astray
    else
      match Walk(l.code, Entered(l, h, i), t.steps)
      case Next(v) => (
        match Cause(l, v, t.timer)
        case None => Astray
        case Some(cause) =>
          if h.stvec != l.at.userTrapEntry then Astray
          else
            var h2 := Trap(l, h, v, cause, t.tval);
            match Handle(ReadFrame(h2.mem, h2.x[A0]), h2.x[A0], FrameAddress(l, i), l.start, l.start + 4 * |l.code|, t.now)
            case Err(why) => Panicked(why)
            case Ok(e) =>
              var h3 := Bridge(l, h2, e.frame, t);
              Back(Machine(h3, m.frames[i := e.frame], m.status[i := StatusAfter(e.reason)], m.output + e.output),
                   e.reason, h3.x))
      case _ => Astray
  }

  /** What task i would look like on a machine of its own. */
  function Image(l: Layout, m: Machine, i: nat): Solo
    requires i < |l.cells| == |m.frames| == |m.status|
  {
    match m.status[i]
    case Alive => Live(User(m.frames[i].x, Wrap(m.frames[i].sepc - l.start), StackOf(l, m.hart.mem, i)))
    case Ended(Exit(code)) => Exited(code)
    case Ended(_) => Faulted
  }

  /** Every frame that can still be entered returns to user mode inside the code. */
  ghost predicate Sound(l: Layout, m: Machine) {
    && |m.frames| == |m.status| == |l.top|
    && forall i :: 0 <= i < |l.top| && m.status[i].Alive? ==>
                     Bit(m.frames[i].sstatus, 256) == 0 && l.start <= m.frames[i].sepc < l.start + 4 * |l.code|
  }

  /* Stage by stage. */

  lemma AddressFits(l: Layout, i: nat)
    requires Sane(l) && i < |l.top|
    ensures FrameAddress(l, i) == l.top[i] - FRAME_SIZE && Apart(l.at, FrameAddress(l, i))
  {
    assert Home(l, i);
  }

  /** A user cell is in no trap frame and is no cell of the saved context. */
  lemma CellElsewhere(l: Layout, j: nat, i: nat, a: Word)
    requires Sane(l) && j < |l.top| && i < |l.top| && a in l.cells[j]
    ensures !Saved(l.at, a) && (a < l.top[i] - FRAME_SIZE || a >= l.top[i])
  {
    assert Home(l, j);
  }

  lemma LaunchRestores(l: Layout, h: Hart, i: nat, frame: Frame, caller: Regs) returns (r: Hart)
    requires Sane(l) && i < |l.top|
    ensures r == Launch(l, h, i, frame, caller)
    ensures r.x == frame.x && r.sepc == frame.sepc && r.sstatus == frame.sstatus
    ensures r.sscratch == l.top[i] && r.stvec == l.at.userTrapEntry
    ensures ContextSaved(l.at, r.mem, caller[A0 := FrameAddress(l, i)])
    ensures forall a :: !Saved(l.at, a) && (a < l.top[i] - FRAME_SIZE || a >= l.top[i]) ==> Read(r.mem, a) == Read(h.mem, a)
  {
    hide Run, Exec, Read, WriteSlots, ContextSaved, Home;
    AddressFits(l, i);
    var f := FrameAddress(l, i);
    var h0 := h.(x := caller[A0 := f], mem := WriteSlots(h.mem, f, frame, 36));
    WriteHolds(h.mem, f, frame);
    var h1 := EnterSaves(l.at, h0, f);
    HoldsStill(l.at, h0.mem, h1.mem, f, frame);
    r := RestoreLoads(l.at, h1, f, frame);
  }

  /** What run_task writes is not in any frame. */
  lemma HoldsStill(at: Symbols, m: Memory, r: Memory, f: Word, frame: Frame)
    requires Apart(at, f) && Holds(m, f, frame)
    requires forall a :: !Saved(at, a) ==> Read(r, a) == Read(m, a)
    ensures Holds(r, f, frame)
  {
    hide Read;
    assert forall a :: f <= a < f + FRAME_SIZE ==> !Saved(at, a);
  }

  lemma MergeRead(mem: Memory, s: Memory, a: int)
    ensures Read(mem + s, a) == if 0 <= a < MODULUS && a as Word in s then s[a as Word] else Read(mem, a)
  {
  }

  lemma TrappedFields(l: Layout, h: Hart, v: User, cause: Word, tval: Word)
    requires l.start + v.pc < MODULUS
    ensures var r := Trapped(l, h, v, cause, tval);
            && r.mem == h.mem + v.stack && r.sscratch == h.sscratch
            && Frame(r.x, r.sstatus, r.sepc, r.scause, r.stval)
               == Frame(v.x, TrapStatus(SretStatus(h.sstatus)), l.start + v.pc, cause, tval)
  {
    hide SretStatus, TrapStatus, Wrap;
    Fits(l.start + v.pc);
  }

  lemma TrapSaves(l: Layout, h: Hart, i: nat, v: User, cause: Word, tval: Word) returns (r: Hart)
    requires Sane(l) && i < |l.top| && h.sscratch == l.top[i] && l.start + v.pc < MODULUS
    ensures r == Trap(l, h, v, cause, tval)
    ensures r.x[A0] == FrameAddress(l, i)
    ensures Holds(r.mem, FrameAddress(l, i), Frame(v.x, TrapStatus(SretStatus(h.sstatus)), l.start + v.pc, cause, tval))
    ensures forall a :: a < l.top[i] - FRAME_SIZE || a >= l.top[i] ==> Read(r.mem, a) == Read(h.mem + v.stack, a)
  {
    AddressFits(l, i);
    hide Run, Read, Sane, SretStatus, TrapStatus, Holds, Apart, FrameAddress, Trapped, EntryCode;
    TrappedFields(l, h, v, cause, tval);
    r := EntrySaves(l.at, Trapped(l, h, v, cause, tval), FrameAddress(l, i));
  }

  lemma NoiseRead(l: Layout, mem: Memory, noise: Memory, a: int)
    requires 0 <= a < MODULUS ==> !Free(l, a)
    ensures Read(Noisy(l, mem, noise), a) == Read(mem, a)
  {
    MergeRead(mem, map b | b in noise && Free(l, b) :: noise[b], a);
  }

  lemma BridgeRestores(l: Layout, h: Hart, i: nat, frame: Frame, t: Visit, caller: Regs) returns (r: Hart)
    requires Sane(l) && i < |l.top| && h.x[A0] == FrameAddress(l, i) && ContextSaved(l.at, h.mem, caller)
    ensures r == Bridge(l, h, frame, t) && r.x[A0] == 1
    ensures forall q: Reg :: ContextSlot(q) >= 0 ==> r.x[q] == caller[q]
    ensures forall j, a :: 0 <= j < |l.cells| && a in l.cells[j] ==> Read(r.mem, a) == Read(h.mem, a)
  {
    hide Run, Exec, Read, WriteSlots, Noisy, Free;
    AddressFits(l, i);
    var w := WriteSlots(h.mem, h.x[A0], frame, 36);
    WriteHolds(h.mem, h.x[A0], frame);
    var h1 := h.(x := t.clobbered[A0 := 1], mem := Noisy(l, w, t.noise));
    ContextQuiet(l, i, h.mem, w, t.noise, caller);
    r := TerminateRestores(l.at, h1, caller);
    forall j, a | 0 <= j < |l.cells| && a in l.cells[j]
      ensures Read(r.mem, a) == Read(h.mem, a)
    {
      CellElsewhere(l, j, i, a);
      NotFree(l, j, a);
      NoiseRead(l, w, t.noise, a);
    }
  }

  lemma NotFree(l: Layout, j: nat, a: Word)
    requires j < |l.cells| && a in l.cells[j]
    ensures !Free(l, a)
  {
  }

  /** Neither the handler's edit of the frame nor the rest of the kernel disturbs the saved context. */
  lemma ContextQuiet(l: Layout, i: nat, mem: Memory, w: Memory, noise: Memory, caller: Regs)
    requires Sane(l) && i < |l.top| && ContextSaved(l.at, mem, caller)
    requires SameOutside(mem, w, FrameAddress(l, i), FrameAddress(l, i) + FRAME_SIZE)
    ensures ContextSaved(l.at, Noisy(l, w, noise), caller)
  {
    hide Read, Noisy, ContextReg;
    AddressFits(l, i);
    var r := Noisy(l, w, noise);
    forall a | Saved(l.at, a)
      ensures Read(r, a) == Read(mem, a)
    {
      NoiseRead(l, w, noise, a);
    }
    forall k | 0 <= k < 16
      ensures Read(r, l.at.context + SLOT * k) == caller[ContextReg(k)]
    {
      assert Read(r, l.at.context + SLOT * k) == Read(mem, l.at.context + SLOT * k);
    }
  }

  /* One run. */

  /** The user instructions of a run, counting the one that traps on its own account. */
  function Work(t: Visit): nat {
    t.steps + if t.timer then 0 else 1
  }

  /** The machine can do what t says: the steps complete, and without a timer the next one traps. */
  predicate Possible(l: Layout, m: Machine, t: Visit) {
    && t.task < |l.top| == |l.cells| == |m.frames| == |m.status|
    && Image(l, m, t.task).Live?
    && var w := Walk(l.code, Image(l, m, t.task).user, t.steps);
       w.Next? && (t.timer || !Step(l.code, w.user).Next?)
  }

  /** On its own, the task never leaves its code and stack. */
  ghost predicate StaysHome(code: seq<Instr>, u: User) {
    forall n: nat :: SoloRun(code, u, n) != Escaped
  }

  lemma {:induction false} WalkStaysHome(code: seq<Instr>, u: User, n: nat)
    requires Walk(code, u, n).Next?
    ensures Walk(code, u, n).user.stack.Keys == u.stack.Keys
    ensures u.pc < 4 * |code| ==> Walk(code, u, n).user.pc < 4 * |code|
    decreases n
  {
    if n > 0 {
      StepStaysHome(code, u);
      WalkStaysHome(code, Step(code, u).user, n - 1);
    }
  }

  /** What the handler makes of the trap of v: exactly v's next solo step, or no step for the timer. */
  lemma HandlesAsSolo(l: Layout, v: User, f: Word, timer: bool, cause: Word, status: Word, tval: Word, now: nat)
    returns (e: Exchange)
    requires l.start + 4 * |l.code| + 4 <= MODULUS && v.pc < 4 * |l.code| && Bit(status, 256) == 0
    requires Cause(l, v, timer) == Some(cause)
    requires !timer ==> SoloStep(l.code, v) != Escaped
    ensures Handle(Frame(v.x, status, l.start + v.pc, cause, tval), f, f, l.start, l.start + 4 * |l.code|, now) == Ok(e)
    ensures Matches(l, v, timer, e) && e.time == now
  {
    e := Handle(Frame(v.x, status, l.start + v.pc, cause, tval), f, f, l.start, l.start + 4 * |l.code|, now).value;
  }

  /** Cells read the same if every read inside them is the same. */
  lemma StackSame(l: Layout, m1: Memory, m2: Memory, j: nat)
    requires j < |l.cells|
    requires forall a :: a in l.cells[j] ==> Read(m1, a) == Read(m2, a)
    ensures StackOf(l, m1, j) == StackOf(l, m2, j)
  {
    hide Read;
  }

  /** The memory a run leaves behind, cell by cell. */
  lemma StacksAfter(l: Layout, i: nat, j: nat, m0: Memory, m1: Memory, stack: map<Word, Word>, m2: Memory, m3: Memory)
    requires Sane(l) && i < |l.top| && j < |l.top| && stack.Keys == l.cells[i]
    requires forall a :: !Saved(l.at, a) && (a < l.top[i] - FRAME_SIZE || a >= l.top[i]) ==> Read(m1, a) == Read(m0, a)
    requires forall a :: a < l.top[i] - FRAME_SIZE || a >= l.top[i] ==> Read(m2, a) == Read(m1 + stack, a)
    requires forall k, a :: 0 <= k < |l.cells| && a in l.cells[k] ==> Read(m3, a) == Read(m2, a)
    ensures StackOf(l, m3, j) == if j == i then stack else StackOf(l, m0, j)
  {
    hide Read, Saved;
    forall a | a in l.cells[j]
      ensures Read(m3, a) == if j == i then stack[a] else Read(m0, a)
    {
      CellElsewhere(l, j, i, a);
      MergeRead(m1, stack, a);
      if j != i {
        assert l.cells[i] !! l.cells[j] by {
          assert j < i || i < j;
        }
      }
    }
    if j != i {
      StackSame(l, m3, m0, j);
    } else {
      assert StackOf(l, m3, j) == stack;
    }
  }

  lemma StackKeys(l: Layout, mem: Memory, i: nat)
    requires i < |l.cells|
    ensures StackOf(l, mem, i).Keys == l.cells[i]
  {
  }

  /** The user state a launch enters is the task's image. */
  lemma LaunchesImage(l: Layout, m: Machine, i: nat, h: Hart)
    requires Sane(l) && Sound(l, m) && i < |l.top| && m.status[i].Alive?
    requires h.x == m.frames[i].x && h.sepc == m.frames[i].sepc
    requires forall a :: !Saved(l.at, a) && (a < l.top[i] - FRAME_SIZE || a >= l.top[i]) ==> Read(h.mem, a) == Read(m.hart.mem, a)
    ensures Live(Entered(l, h, i)) == Image(l, m, i)
  {
    hide Read, Saved;
    forall a | a in l.cells[i]
      ensures Read(h.mem, a) == Read(m.hart.mem, a)
    {
      CellElsewhere(l, i, i, a);
    }
    StackSame(l, h.mem, m.hart.mem, i);
  }

  /** The console output of the trap of v. */
  function Printed(code: seq<Instr>, v: User, timer: bool): seq<int> {
    if timer || Step(code, v) != Environment || v.x[A7] == YIELD then []
    else
      match Syscalls.Dispatch(v.x[A7], v.x[A0])
      case Return(_, output) => output
      case Exit(_) => []
  }

  /** The outcome of the handler matches the solo step of the state that trapped. */
  predicate Matches(l: Layout, v: User, timer: bool, e: Exchange) {
    && Bit(e.frame.sstatus, 256) == 0 && e.output == Printed(l.code, v, timer)
    && if timer then e.reason == Timer && e.frame.x == v.x && e.frame.sepc == l.start + v.pc && v.pc < 4 * |l.code|
       else
         match SoloStep(l.code, v)
         case Live(w) => e.frame.x == w.x && e.frame.sepc == l.start + w.pc && w.pc < 4 * |l.code| && w.stack == v.stack
                         && e.reason == if v.x[A7] == YIELD then Yield else Syscall
         case Exited(c) => e.reason == Reason.Exit(c)
         case Faulted => e.reason == Fault(2)
         case Escaped => false
  }

  /** From the call of run_task to its return: the machine does not go astray and no assert fires. */
  lemma RunTaskReturns(l: Layout, m: Machine, t: Visit) returns (v: User, e: Exchange, h: Hart)
    requires Sane(l) && Sound(l, m) && Possible(l, m, t) && StaysHome(l.code, Image(l, m, t.task).user)
    ensures Walk(l.code, Image(l, m, t.task).user, t.steps) == Next(v)
    ensures Matches(l, v, t.timer, e)
    ensures RunTask(l, m, t)
            == Back(Machine(h, m.frames[t.task := e.frame], m.status[t.task := StatusAfter(e.reason)], m.output + e.output),
                    e.reason, h.x)
    ensures h.x[A0] == 1 && forall q: Reg :: ContextSlot(q) >= 0 ==> h.x[q] == t.caller[q]
    ensures forall j :: 0 <= j < |l.top| ==>
                          StackOf(l, h.mem, j) == if j == t.task then v.stack else StackOf(l, m.hart.mem, j)
  {
    hide Launch, Trap, Bridge, Handle, Walk, Sane, Run, Read, StackOf, StaysHome, Saved, Holds, ContextSlot,
         ContextSaved, SretStatus, TrapStatus, SoloStep, Step, ReadFrame;
    var i := t.task;
    var f := FrameAddress(l, i);
    AddressFits(l, i);
    SaneBounds(l);
    var h1 := LaunchRestores(l, m.hart, i, m.frames[i], t.caller);
    LaunchesImage(l, m, i, h1);
    v := Walk(l.code, Entered(l, h1, i), t.steps).user;
    StackKeys(l, h1.mem, i);
    WalkStaysHome(l.code, Entered(l, h1, i), t.steps);
    StepsHome(l.code, Entered(l, h1, i), t.steps);
    var cause := CauseKnown(l, v, t.timer);
    var h2 := TrapSaves(l, h1, i, v, cause, t.tval);
    var frame := Frame(v.x, TrapStatus(SretStatus(h1.sstatus)), l.start + v.pc, cause, t.tval);
    ReadBack(h2.mem, f, frame);
    e := HandlesAsSolo(l, v, f, t.timer, cause, frame.sstatus, t.tval, t.now);
    ContextThrough(l, i, h1.mem, v.stack, h2.mem, t.caller[A0 := f]);
    h := BridgeRestores(l, h2, i, e.frame, t, t.caller[A0 := f]);
    ContextRegs();
    forall j | 0 <= j < |l.top|
      ensures StackOf(l, h.mem, j) == if j == i then v.stack else StackOf(l, m.hart.mem, j)
    {
      StacksAfter(l, i, j, m.hart.mem, h1.mem, v.stack, h2.mem, h.mem);
    }
  }

  lemma CauseKnown(l: Layout, v: User, timer: bool) returns (cause: Word)
    requires timer || (!Step(l.code, v).Next? && SoloStep(l.code, v) != Escaped)
    ensures Cause(l, v, timer) == Some(cause)
  {
    cause := Cause(l, v, timer).value;
  }

  /** The images after a run whose handler outcome matches. */
  lemma ImagesAfter(l: Layout, m: Machine, t: Visit, v: User, e: Exchange, n: Machine)
    requires Sane(l) && Sound(l, m) && t.task < |l.top| && m.status[t.task].Alive? && Matches(l, v, t.timer, e)
    requires n.frames == m.frames[t.task := e.frame] && n.status == m.status[t.task := StatusAfter(e.reason)]
    requires forall j :: 0 <= j < |l.top| ==>
                           StackOf(l, n.hart.mem, j) == if j == t.task then v.stack else StackOf(l, m.hart.mem, j)
    ensures Sound(l, n)
    ensures Image(l, n, t.task) == if t.timer then Live(v) else SoloStep(l.code, v)
    ensures forall j :: 0 <= j < |l.top| && j != t.task ==> Image(l, n, j) == Image(l, m, j)
  {
    hide StackOf, SoloStep;
    if t.timer {
      assert Image(l, n, t.task) == Live(v);
    }
  }

  /**
   One run. None of the handler's asserts fires; run_task returns 1 with the caller's ra, sp, gp, tp
   and s0..s11 intact; the task advances by its own solo steps and every other task stands still.
   */
  lemma RunTaskIsSolo(l: Layout, m: Machine, t: Visit) returns (n: Machine, reason: Reason, x: Regs)
    requires Sane(l) && Sound(l, m) && Possible(l, m, t) && StaysHome(l.code, Image(l, m, t.task).user)
    ensures RunTask(l, m, t) == Back(n, reason, x)
    ensures x[A0] == 1 && forall q: Reg :: ContextSlot(q) >= 0 ==> x[q] == t.caller[q]
    ensures Sound(l, n)
    ensures Image(l, n, t.task) == SoloRun(l.code, Image(l, m, t.task).user, Work(t))
    ensures forall j :: 0 <= j < |l.top| && j != t.task ==> Image(l, n, j) == Image(l, m, j)
    ensures t.timer <==> reason == Timer
    ensures reason.Fault? ==> reason.cause == 2
    ensures Walk(l.code, Image(l, m, t.task).user, t.steps).Next?
    ensures var v := Walk(l.code, Image(l, m, t.task).user, t.steps).user;
            n.output == m.output + Printed(l.code, v, t.timer)
            && (!t.timer && SoloStep(l.code, v).Live? ==> reason == if v.x[A7] == YIELD then Yield else Syscall)
            && (!t.timer && SoloStep(l.code, v).Exited? ==> reason == Reason.Exit(SoloStep(l.code, v).code))
  {
    hide RunTask, Printed, Image, Sane, SoloRun, SoloStep, Walk, StackOf, StaysHome, ContextSlot;
    var v, e, h := RunTaskReturns(l, m, t);
    reason, x := e.reason, h.x;
    n := Machine(h, m.frames[t.task := e.frame], m.status[t.task := StatusAfter(reason)], m.output + e.output);
    LiveIsAlive(l, m, t.task);
    ImagesAfter(l, m, t, v, e, n);
    WorkIsSolo(l, Image(l, m, t.task).user, v, t);
    FaultCause(l, v, t.timer, e);
  }

  lemma FaultCause(l: Layout, v: User, timer: bool, e: Exchange)
    requires Matches(l, v, timer, e)
    ensures e.reason.Fault? ==> e.reason.cause == 2
  {
  }

  lemma LiveIsAlive(l: Layout, m: Machine, i: nat)
    requires i < |l.cells| == |m.frames| == |m.status|
    ensures Image(l, m, i).Live? <==> m.status[i].Alive?
  {
  }

  lemma SaneBounds(l: Layout)
    requires Sane(l)
    ensures |l.cells| == |l.top| && l.start + 4 * |l.code| + 4 <= MODULUS
  {
  }

  lemma ContextRegs()
    ensures forall q: Reg :: ContextSlot(q) >= 0 ==> q != A0
  {
  }

  /** After steps within the walk, the next solo step does not escape either. */
  lemma StepsHome(code: seq<Instr>, u: User, n: nat)
    requires StaysHome(code, u) && Walk(code, u, n).Next?
    ensures SoloStep(code, Walk(code, u, n).user) != Escaped
  {
    WalkIsSolo(code, u, n);
    SoloRunCompose(code, u, n, 1);
    var v := Walk(code, u, n).user;
    assert SoloRun(code, u, n + 1) == SoloRun(code, v, 1);
    OneStep(code, v);
  }

  lemma OneStep(code: seq<Instr>, v: User)
    ensures SoloRun(code, v, 1) == SoloStep(code, v)
  {
    if SoloStep(code, v).Live? {
      assert SoloRun(code, SoloStep(code, v).user, 0) == SoloStep(code, v);
    }
  }

  lemma WorkIsSolo(l: Layout, u: User, v: User, t: Visit)
    requires Walk(l.code, u, t.steps) == Next(v)
    ensures SoloRun(l.code, u, Work(t)) == if t.timer then Live(v) else SoloStep(l.code, v)
  {
    WalkIsSolo(l.code, u, t.steps);
    if !t.timer {
      SoloRunCompose(l.code, u, t.steps, 1);
      OneStep(l.code, v);
    }
  }

  /** The saved context survives the user's run and the trap entry. */
  lemma ContextThrough(l: Layout, i: nat, m1: Memory, stack: map<Word, Word>, m2: Memory, caller: Regs)
    requires Sane(l) && i < |l.top| && stack.Keys == l.cells[i] && ContextSaved(l.at, m1, caller)
    requires forall a :: a < l.top[i] - FRAME_SIZE || a >= l.top[i] ==> Read(m2, a) == Read(m1 + stack, a)
    ensures ContextSaved(l.at, m2, caller)
  {
    hide Read, ContextReg;
    AddressFits(l, i);
    forall a | Saved(l.at, a)
      ensures Read(m2, a) == Read(m1, a)
    {
      assert a < l.top[i] - FRAME_SIZE || a >= l.top[i];
      assert Home(l, i);
      MergeRead(m1, stack, a);
    }
    forall k | 0 <= k < 16
      ensures Read(m2, l.at.context + SLOT * k) == caller[ContextReg(k)]
    {
      assert Saved(l.at, l.at.context + SLOT * k);
    }
  }

  /* Whole runs. */

  /** The machine after a sequence of runs, if every one of them comes back. */
  function RunTasks(l: Layout, m: Machine, visits: seq<Visit>): Option<Machine>
    requires |l.top| == |l.cells| == |m.frames| == |m.status|
    decreases |visits|
  {
    if visits == [] then Some(m)
    else if visits[0].task >= |l.top| then None
    else
      match RunTask(l, m, visits[0])
      case Back(n, _, _) => RunTasks(l, n, visits[1..])
      case _ => None
  }

  /** Every visit is one the machine can make when its time comes. */
  predicate Feasible(l: Layout, m: Machine, visits: seq<Visit>)
    requires |l.top| == |l.cells| == |m.frames| == |m.status|
    decreases |visits|
  {
    if visits == [] then true
    else
      Possible(l, m, visits[0])
      && match RunTask(l, m, visits[0])
         case Back(n, _, _) => Feasible(l, n, visits[1..])
         case _ => true
  }

  /** The user instructions task i completes in these visits. */
  function WorkOf(visits: seq<Visit>, i: nat): nat {
    if visits == [] then 0 else (if visits[0].task == i then Work(visits[0]) else 0) + WorkOf(visits[1..], i)
  }

  /** n solo steps from an image. */
  function Alone(code: seq<Instr>, s: Solo, n: nat): Solo {
    match s
    case Live(u) => SoloRun(code, u, n)
    case ended => ended
  }

  ghost predicate Tame(code: seq<Instr>, s: Solo) {
    forall n: nat :: Alone(code, s, n) != Escaped
  }

  lemma AloneCompose(code: seq<Instr>, s: Solo, a: nat, b: nat)
    ensures Alone(code, s, a + b) == Alone(code, Alone(code, s, a), b)
  {
    if s.Live? {
      SoloRunCompose(code, s.user, a, b);
    }
  }

  lemma TameStays(code: seq<Instr>, s: Solo, a: nat)
    requires Tame(code, s)
    ensures Tame(code, Alone(code, s, a))
  {
    forall n: nat
      ensures Alone(code, Alone(code, s, a), n) != Escaped
    {
      AloneCompose(code, s, a, n);
      assert Alone(code, s, a + n) != Escaped;
    }
  }

  /**
   Preemption is invisible: for every interleaving, every timer pattern and every behaviour of the
   kernel's own code, each task ends where its solo execution of the same number of instructions
   ends: registers, program counter and stack, or the same exit code, or the same fault.
   */
  lemma {:induction false} PreemptionIsInvisible(l: Layout, m: Machine, visits: seq<Visit>) returns (n: Machine)
    requires Sane(l) && Sound(l, m) && |l.cells| == |l.top| && Feasible(l, m, visits)
    requires forall i :: 0 <= i < |l.top| ==> Tame(l.code, Image(l, m, i))
    ensures RunTasks(l, m, visits) == Some(n) && Sound(l, n)
    ensures forall i :: 0 <= i < |l.top| ==> Image(l, n, i) == Alone(l.code, Image(l, m, i), WorkOf(visits, i))
    ensures forall i :: 0 <= i < |l.top| ==> Tame(l.code, Image(l, n, i))
    decreases |visits|
  {
    hide RunTask, Image, Sane, SoloRun, Tame, Possible;
    if visits == [] {
      n := m;
      forall i | 0 <= i < |l.top|
        ensures Image(l, n, i) == Alone(l.code, Image(l, m, i), 0)
      {
        NoWork(l.code, Image(l, m, i));
      }
    } else {
      var t := visits[0];
      PossibleMeans(l, m, t);
      TameMeans(l.code, Image(l, m, t.task));
      var k, reason, x := RunTaskIsSolo(l, m, t);
      forall i | 0 <= i < |l.top|
        ensures Image(l, k, i) == Alone(l.code, Image(l, m, i), if t.task == i then Work(t) else 0)
        ensures Tame(l.code, Image(l, k, i))
      {
        NoWork(l.code, Image(l, m, i));
        TameStays(l.code, Image(l, m, i), if t.task == i then Work(t) else 0);
      }
      n := PreemptionIsInvisible(l, k, visits[1..]);
      forall i | 0 <= i < |l.top|
        ensures Image(l, n, i) == Alone(l.code, Image(l, m, i), WorkOf(visits, i))
      {
        AloneCompose(l.code, Image(l, m, i), if t.task == i then Work(t) else 0, WorkOf(visits[1..], i));
      }
    }
  }

  lemma PossibleMeans(l: Layout, m: Machine, t: Visit)
    requires Possible(l, m, t)
    ensures t.task < |l.top| == |l.cells| == |m.frames| == |m.status| && Image(l, m, t.task).Live?
  {
  }

  lemma TameMeans(code: seq<Instr>, s: Solo)
    requires Tame(code, s) && s.Live?
    ensures StaysHome(code, s.user)
  {
    forall n: nat
      ensures SoloRun(code, s.user, n) != Escaped
    {
      assert Alone(code, s, n) != Escaped;
    }
  }

  lemma NoWork(code: seq<Instr>, s: Solo)
    ensures Alone(code, s, 0) == s
  {
  }
}
