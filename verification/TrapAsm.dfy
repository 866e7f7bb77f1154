/**
 The supervisor-mode assembly around a user task, as data: `run_task` (src/user.S), and
 `user_trap_entry`, `restore_user_frame` and `terminate_process` (src/trap.S), with the frame layout
 of src/trap.rs. Memory is a map from cell addresses to words.
 */
module TrapAsm {
  import opened Riscv

  const RA: Reg := 1
  const GP: Reg := 3
  const TP: Reg := 4

  const SLOT: int := 8
  const FRAME_SIZE: int := 36 * 8
  const SSTATUS: int := 32 * 8
  const SEPC: int := 33 * 8
  const SCAUSE: int := 34 * 8
  const STVAL: int := 35 * 8

  datatype Csr = Sscratch | Sepc | Sstatus | Scause | Stval | Stvec

  datatype Symbol = TrapEntry | UserTrapEntry | KernelGp | KernelTp | KernelContext

  datatype Asm =
    | Store(src: Reg, off: int, base: Reg)
    | Load(dst: Reg, off: int, base: Reg)
    | AddImm(dst: Reg, src: Reg, imm: int)
    | Move(dst: Reg, src: Reg)
    | ReadCsr(dst: Reg, csr: Csr)
    | WriteCsr(csr: Csr, src: Reg)
    | SwapScratch(r: Reg)
    | Address(dst: Reg, symbol: Symbol)

  type Memory = map<Word, Word>

  /** The hart in supervisor mode. */
  datatype Hart = Hart(
    x: Regs, sscratch: Word, sepc: Word, sstatus: Word, scause: Word, stval: Word, stvec: Word, mem: Memory)

  /** Where the linker put things. */
  datatype Symbols = Symbols(trapEntry: Word, userTrapEntry: Word, gp: Word, tp: Word, context: Word)

  function Resolve(at: Symbols, s: Symbol): Word {
    match s
    case TrapEntry => at.trapEntry
    case UserTrapEntry => at.userTrapEntry
    case KernelGp => at.gp
    case KernelTp => at.tp
    case KernelContext => at.context
  }

  function Read(mem: Memory, a: int): Word {
    if 0 <= a < MODULUS && a as Word in mem then mem[a as Word] else 0
  }

  function GetCsr(h: Hart, c: Csr): Word {
    match c
    case Sscratch => h.sscratch
    case Sepc => h.sepc
    case Sstatus => h.sstatus
    case Scause => h.scause
    case Stval => h.stval
    case Stvec => h.stvec
  }

  function PutCsr(h: Hart, c: Csr, v: Word): Hart {
    match c
    case Sscratch => h.(sscratch := v)
    case Sepc => h.(sepc := v)
    case Sstatus => h.(sstatus := v)
    case Scause => h.(scause := v)
    case Stval => h.(stval := v)
    case Stvec => h.(stvec := v)
  }

  function PutReg(h: Hart, r: Reg, v: Word): Hart {
    h.(x := Set(h.x, r, v))
  }

  /** One instruction. */
  function Exec(at: Symbols, h: Hart, i: Asm): Hart {
    match i
    case Store(src, off, base) => h.(mem := h.mem[Wrap(h.x[base] + off) := h.x[src]])
    case Load(dst, off, base) => PutReg(h, dst, Read(h.mem, Wrap(h.x[base] + off)))
    case AddImm(dst, src, imm) => PutReg(h, dst, Wrap(h.x[src] + imm))
    case Move(dst, src) => PutReg(h, dst, h.x[src])
    case ReadCsr(dst, csr) => PutReg(h, dst, GetCsr(h, csr))
    case WriteCsr(csr, src) => PutCsr(h, csr, h.x[src])
    case SwapScratch(r) => PutReg(h.(sscratch := h.x[r]), r, h.sscratch)
    case Address(dst, symbol) => PutReg(h, dst, Resolve(at, symbol))
  }

  function Run(at: Symbols, h: Hart, code: seq<Asm>): Hart
    decreases |code|
  {
    if code == [] then h else Run(at, Exec(at, h, code[0]), code[1..])
  }

  lemma {:induction false} RunAppend(at: Symbols, h: Hart, a: seq<Asm>, b: seq<Asm>)
    ensures Run(at, h, a + b) == Run(at, Run(at, h, a), b)
    decreases |a|
  {
    if a == [] {
      assert a + b == b;
    } else {
      assert (a + b)[1..] == a[1..] + b;
      RunAppend(at, Exec(at, h, a[0]), a[1..], b);
    }
  }

  /** `sd xk, 8k(sp)` for k from a up to but not including b. */
  function SaveSlots(a: nat, b: nat): seq<Asm>
    requires a <= b <= 32
    decreases b - a
  {
    if a == b then [] else [Store(a, SLOT * a, SP)] + SaveSlots(a + 1, b)
  }

  /** `ld xk, 8k(sp)` for k from a up to but not including b. */
  function LoadSlots(a: nat, b: nat): seq<Asm>
    requires a <= b <= 32
    decreases b - a
  {
    if a == b then [] else [Load(a, SLOT * a, SP)] + LoadSlots(a + 1, b)
  }

  /** `user_trap_entry` up to the registers that are saved in numerical order. */
  const ENTRY_HEAD: seq<Asm> := [
    SwapScratch(SP),
    AddImm(SP, SP, -FRAME_SIZE),
    Store(T0, SLOT * 5, SP),
    Store(GP, SLOT * 3, SP),
    Store(TP, SLOT * 4, SP),
    ReadCsr(T0, Sscratch),
    Store(T0, SLOT * 2, SP),
    Address(T0, TrapEntry),
    WriteCsr(Stvec, T0),
    Address(T0, KernelGp),
    Load(GP, 0, T0),
    Address(T0, KernelTp),
    Load(TP, 0, T0),
    Store(0, 0, SP),
    Store(RA, SLOT * 1, SP)
  ]

  const ENTRY_TAIL: seq<Asm> := [
    ReadCsr(T0, Sstatus),
    Store(T0, SSTATUS, SP),
    ReadCsr(T0, Sepc),
    Store(T0, SEPC, SP),
    ReadCsr(T0, Scause),
    Store(T0, SCAUSE, SP),
    ReadCsr(T0, Stval),
    Store(T0, STVAL, SP),
    Move(A0, SP)
  ]

  /** `user_trap_entry` up to the call of the handler. */
  function EntryCode(): seq<Asm> {
    ENTRY_HEAD + (SaveSlots(6, 32) + ENTRY_TAIL)
  }

  const RESTORE_HEAD: seq<Asm> := [
    Load(T0, SEPC, SP),
    WriteCsr(Sepc, T0),
    Load(T0, SSTATUS, SP),
    WriteCsr(Sstatus, T0),
    Load(T0, SLOT * 2, SP),
    WriteCsr(Sscratch, T0),
    Load(RA, SLOT * 1, SP),
    Load(GP, SLOT * 3, SP),
    Load(TP, SLOT * 4, SP)
  ]

  const RESTORE_TAIL: seq<Asm> := [
    Address(T0, UserTrapEntry),
    WriteCsr(Stvec, T0),
    Load(T0, SLOT * 5, SP),
    AddImm(SP, SP, FRAME_SIZE),
    SwapScratch(SP)
  ]

  /** `restore_user_frame` up to `sret`. */
  function RestoreCode(): seq<Asm> {
    RESTORE_HEAD + (LoadSlots(6, 32) + RESTORE_TAIL)
  }

  /** The registers of KernelContext in slot order: ra, sp, gp, tp, s0..s11. */
  function ContextReg(k: nat): (r: Reg)
    requires k < 16
    ensures r != 0 && r != T0 && r != T1 && r != A0
  {
    if k < 4 then k + 1 else if k < 6 then k + 4 else k + 12
  }

  /** `sd` of context register k into slot k of the structure t0 points to. */
  function SaveContext(a: nat, b: nat): seq<Asm>
    requires a <= b <= 16
    decreases b - a
  {
    if a == b then [] else [Store(ContextReg(a), SLOT * a, T0)] + SaveContext(a + 1, b)
  }

  function LoadContext(a: nat, b: nat): seq<Asm>
    requires a <= b <= 16
    decreases b - a
  {
    if a == b then [] else [Load(ContextReg(a), SLOT * a, T0)] + LoadContext(a + 1, b)
  }

  const ENTER_TAIL: seq<Asm> := [
    Address(T0, KernelGp),
    Store(GP, 0, T0),
    Address(T0, KernelTp),
    Store(TP, 0, T0),
    Move(SP, A0)
  ]

  /** `run_task` up to its jump to `restore_user_frame`. */
  function EnterCode(): seq<Asm> {
    [Address(T0, KernelContext)] + (SaveContext(0, 16) + ENTER_TAIL)
  }

  /** `terminate_process` up to `ret`: sp last, through t1. */
  function TerminateCode(): seq<Asm> {
    [WriteCsr(Sscratch, 0), Address(T0, KernelContext), Load(RA, 0, T0)]
    + (LoadContext(2, 16) + [Load(T1, SLOT * 1, T0), Move(SP, T1)])
  }

  /** A TrapFrame as a value (src/trap.rs). */
  datatype Frame = Frame(x: Regs, sstatus: Word, sepc: Word, scause: Word, stval: Word)

  /** The frame in memory at address f holds `frame`. */
  ghost predicate Holds(mem: Memory, f: int, frame: Frame) {
    && (forall k :: 0 <= k < 32 ==> Read(mem, f + SLOT * k) == frame.x[k])
    && Read(mem, f + SSTATUS) == frame.sstatus && Read(mem, f + SEPC) == frame.sepc
    && Read(mem, f + SCAUSE) == frame.scause && Read(mem, f + STVAL) == frame.stval
  }

  /** The two memories agree outside [lo, hi). */
  ghost predicate SameOutside(m1: Memory, m2: Memory, lo: int, hi: int) {
    forall a :: a < lo || a >= hi ==> Read(m1, a) == Read(m2, a)
  }

  lemma Fits(v: int)
    requires 0 <= v < MODULUS
    ensures Wrap(v) == v
  {
  }

  lemma ReadStore(mem: Memory, a: Word, v: Word)
    ensures forall b :: Read(mem[a := v], b) == if b == a then v else Read(mem, b)
  {
    forall b
      ensures Read(mem[a := v], b) == if b == a then v else Read(mem, b)
    {
      if 0 <= b < MODULUS && b != a {
        assert b as Word in mem[a := v] <==> b as Word in mem;
      }
    }
  }

  /** The saves touch exactly slots a..b of the frame. */
  lemma {:induction false} SavesSlots(at: Symbols, h: Hart, f: int, a: nat, b: nat)
    requires a <= b <= 32 && h.x[SP] == f && f + FRAME_SIZE <= MODULUS
    ensures var r := Run(at, h, SaveSlots(a, b));
            && r == h.(mem := r.mem)
            && (forall k :: a <= k < b ==> Read(r.mem, f + SLOT * k) == h.x[k])
            && SameOutside(h.mem, r.mem, f + SLOT * a, f + SLOT * b)
    decreases b - a
  {
    if a < b {
      hide Run, Read, SaveSlots;
      var g := SaveSlotsStep(at, h, f, a, b);
      SavesSlots(at, g, f, a + 1, b);
      var r := Run(at, g, SaveSlots(a + 1, b));
      assert Read(r.mem, f + SLOT * a) == Read(g.mem, f + SLOT * a);
    } else {
      hide Read;
    }
  }

  lemma SaveSlotsStep(at: Symbols, h: Hart, f: int, a: nat, b: nat) returns (g: Hart)
    requires a < b <= 32 && h.x[SP] == f && f + FRAME_SIZE <= MODULUS
    ensures Run(at, h, SaveSlots(a, b)) == Run(at, g, SaveSlots(a + 1, b))
    ensures g == h.(mem := g.mem) && Read(g.mem, f + SLOT * a) == h.x[a]
    ensures SameOutside(h.mem, g.mem, f + SLOT * a, f + SLOT * a + 8)
  {
    hide Wrap, Read;
    Fits(f + SLOT * a);
    ReadStore(h.mem, f + SLOT * a, h.x[a]);
    g := h.(mem := h.mem[f + SLOT * a := h.x[a]]);
    assert g == Exec(at, h, Store(a, SLOT * a, SP));
    assert SaveSlots(a, b)[1..] == SaveSlots(a + 1, b);
  }

  /** The loads set exactly registers a..b, from their slots. */
  lemma {:induction false} LoadsSlots(at: Symbols, h: Hart, f: int, a: nat, b: nat)
    requires 3 <= a <= b <= 32 && h.x[SP] == f && f + FRAME_SIZE <= MODULUS
    ensures var r := Run(at, h, LoadSlots(a, b));
            && r == h.(x := r.x)
            && (forall k :: 0 <= k < 32 ==> r.x[k] == if a <= k < b then Read(h.mem, f + SLOT * k) else h.x[k])
    decreases b - a
  {
    if a < b {
      hide Read, Wrap;
      Fits(f + SLOT * a);
      var g := Exec(at, h, Load(a, SLOT * a, SP));
      assert LoadSlots(a, b)[1..] == LoadSlots(a + 1, b);
      LoadsSlots(at, g, f, a + 1, b);
    }
  }

  lemma Run1(at: Symbols, h: Hart, a: Asm)
    ensures Run(at, h, [a]) == Exec(at, h, a)
  {
    assert [a][1..] == [];
  }

  lemma Run3(at: Symbols, h: Hart, a: Asm, b: Asm, c: Asm)
    ensures Run(at, h, [a, b, c]) == Exec(at, Exec(at, Exec(at, h, a), b), c)
  {
    Run1(at, h, a);
    Run1(at, Exec(at, h, a), b);
    Run1(at, Exec(at, Exec(at, h, a), b), c);
    assert [a, b, c] == [a] + ([b] + [c]);
    RunAppend(at, h, [a], [b] + [c]);
    RunAppend(at, Exec(at, h, a), [b], [c]);
  }

  /** Five instructions at a time. */
  lemma Run5(at: Symbols, h: Hart, a: Asm, b: Asm, c: Asm, d: Asm, e: Asm)
    ensures Run(at, h, [a, b, c, d, e]) == Exec(at, Exec(at, Exec(at, Exec(at, Exec(at, h, a), b), c), d), e)
  {
    var g := Exec(at, Exec(at, h, a), b);
    Run3(at, g, c, d, e);
    Run1(at, h, a);
    Run1(at, Exec(at, h, a), b);
    assert [a, b, c, d, e] == [a] + ([b] + [c, d, e]);
    RunAppend(at, h, [a], [b] + [c, d, e]);
    RunAppend(at, Exec(at, h, a), [b], [c, d, e]);
  }

  /** A frame address and the cells the trap path reads besides the frame. */
  ghost predicate Apart(at: Symbols, f: int) {
    && 0 <= f && f + FRAME_SIZE < MODULUS
    && (at.gp < f || at.gp >= f + FRAME_SIZE) && (at.tp < f || at.tp >= f + FRAME_SIZE)
    && (at.context + 128 <= f || at.context >= f + FRAME_SIZE) && at.context + 128 < MODULUS
    && (at.gp < at.context || at.gp >= at.context + 128) && (at.tp < at.context || at.tp >= at.context + 128)
    && at.gp != at.tp
  }

  /** sp moves to the frame; t0, gp and tp are saved before anything else uses them. */
  lemma EntryFirst(at: Symbols, h: Hart, f: Word) returns (r: Hart)
    requires Apart(at, f) && h.sscratch == f + FRAME_SIZE
    ensures r == Run(at, h, ENTRY_HEAD[..5])
    ensures r == h.(sscratch := h.x[SP], x := h.x[SP := f],
                    mem := h.mem[f + SLOT * 5 := h.x[T0]][f + SLOT * 3 := h.x[GP]][f + SLOT * 4 := h.x[TP]])
  {
    hide Wrap;
    Fits(f);
    Fits(f + SLOT * 5);
    Fits(f + SLOT * 3);
    Fits(f + SLOT * 4);
    var c := ENTRY_HEAD;
    r := h.(sscratch := h.x[SP], x := h.x[SP := f],
            mem := h.mem[f + SLOT * 5 := h.x[T0]][f + SLOT * 3 := h.x[GP]][f + SLOT * 4 := h.x[TP]]);
    assert c[..5] == [c[0], c[1], c[2], c[3], c[4]];
    Run5(at, h, c[0], c[1], c[2], c[3], c[4]);
  }

  /** The user's sp is saved through t0; then t0 is free. */
  lemma EntrySecond(at: Symbols, h: Hart, f: Word) returns (r: Hart)
    requires Apart(at, f) && h.x[SP] == f
    ensures r == Run(at, h, ENTRY_HEAD[5..10])
    ensures r == h.(x := h.x[T0 := at.gp], mem := h.mem[f + SLOT * 2 := h.sscratch], stvec := at.trapEntry)
  {
    hide Wrap;
    Fits(f + SLOT * 2);
    var c := ENTRY_HEAD;
    r := h.(x := h.x[T0 := at.gp], mem := h.mem[f + SLOT * 2 := h.sscratch], stvec := at.trapEntry);
    assert c[5..10] == [c[5], c[6], c[7], c[8], c[9]];
    Run5(at, h, c[5], c[6], c[7], c[8], c[9]);
  }

  /** gp and tp are the kernel's again. */
  lemma EntryThird(at: Symbols, h: Hart, f: Word) returns (r: Hart)
    requires Apart(at, f) && h.x[SP] == f && h.x[T0] == at.gp
    ensures r == Run(at, h, ENTRY_HEAD[10..])
    ensures r == h.(x := h.x[GP := Read(h.mem, at.gp)][T0 := at.tp][TP := Read(h.mem, at.tp)],
                    mem := h.mem[f := 0][f + SLOT * 1 := h.x[RA]])
  {
    hide Read, Wrap;
    Fits(f);
    Fits(f + SLOT * 1);
    Fits(at.gp);
    Fits(at.tp);
    var c := ENTRY_HEAD;
    r := h.(x := h.x[GP := Read(h.mem, at.gp)][T0 := at.tp][TP := Read(h.mem, at.tp)],
            mem := h.mem[f := 0][f + SLOT * 1 := h.x[RA]]);
    assert c[10..] == [c[10], c[11], c[12], c[13], c[14]];
    Run5(at, h, c[10], c[11], c[12], c[13], c[14]);
  }

  /** The entry's first six stores, in its order, land in six different slots. */
  lemma SixStores(m: Memory, f: Word, t0: Word, gp: Word, tp: Word, sp: Word, ra: Word)
    requires f + 48 <= MODULUS
    ensures var r := m[f + 40 := t0][f + 24 := gp][f + 32 := tp][f + 16 := sp][f := 0][f + 8 := ra];
            && Read(r, f) == 0 && Read(r, f + 8) == ra && Read(r, f + 16) == sp
            && Read(r, f + 24) == gp && Read(r, f + 32) == tp && Read(r, f + 40) == t0
            && SameOutside(m, r, f, f + 48)
    ensures SameOutside(m, m[f + 40 := t0][f + 24 := gp][f + 32 := tp][f + 16 := sp], f, f + 48)
  {
  }

  /** After the first fifteen instructions slots 0..5 are saved and t0, gp, tp and sp belong to the kernel. */
  lemma EntryHead(at: Symbols, h: Hart, f: Word) returns (r: Hart)
    requires Apart(at, f) && h.sscratch == f + FRAME_SIZE
    ensures r == Run(at, h, ENTRY_HEAD)
    ensures r == h.(x := r.x, mem := r.mem, sscratch := h.x[SP], stvec := at.trapEntry)
    ensures r.x[SP] == f && r.x[GP] == Read(h.mem, at.gp) && r.x[TP] == Read(h.mem, at.tp)
    ensures forall k :: 6 <= k < 32 ==> r.x[k] == h.x[k]
    ensures forall k :: 0 <= k < 6 ==> Read(r.mem, f + SLOT * k) == h.x[k]
    ensures SameOutside(h.mem, r.mem, f, f + SLOT * 6)
  {
    hide Run, Read, Wrap, Exec;
    var c := ENTRY_HEAD;
    assert c == c[..5] + (c[5..10] + c[10..]);
    RunAppend(at, h, c[..5], c[5..10] + c[10..]);
    var h1 := EntryFirst(at, h, f);
    RunAppend(at, h1, c[5..10], c[10..]);
    var h2 := EntrySecond(at, h1, f);
    r := EntryThird(at, h2, f);
    assert h2.mem == h.mem[f + 40 := h.x[T0]][f + 24 := h.x[GP]][f + 32 := h.x[TP]][f + 16 := h.x[SP]];
    assert r.mem == h.mem[f + 40 := h.x[T0]][f + 24 := h.x[GP]][f + 32 := h.x[TP]][f + 16 := h.x[SP]][f := 0][f + 8 := h.x[RA]];
    SixStores(h.mem, f, h.x[T0], h.x[GP], h.x[TP], h.x[SP], h.x[RA]);
    forall k | 0 <= k < 6
      ensures Read(r.mem, f + SLOT * k) == h.x[k]
    {
      assert k in {0, 1, 2, 3, 4, 5};
    }
  }

  lemma FourStores(m: Memory, f: Word, status: Word, pc: Word, cause: Word, value: Word)
    requires f + FRAME_SIZE <= MODULUS
    ensures var r := m[f + SSTATUS := status][f + SEPC := pc][f + SCAUSE := cause][f + STVAL := value];
            && Read(r, f + SSTATUS) == status && Read(r, f + SEPC) == pc
            && Read(r, f + SCAUSE) == cause && Read(r, f + STVAL) == value
            && SameOutside(m, r, f + SSTATUS, f + FRAME_SIZE)
  {
  }

  /** The CSRs go into the last four slots; a0 is the handler's argument. */
  lemma EntryTail(at: Symbols, h: Hart, f: Word) returns (r: Hart)
    requires Apart(at, f) && h.x[SP] == f
    ensures r == Run(at, h, ENTRY_TAIL)
    ensures r == h.(x := h.x[T0 := h.stval][A0 := f], mem := r.mem)
    ensures Read(r.mem, f + SSTATUS) == h.sstatus && Read(r.mem, f + SEPC) == h.sepc
    ensures Read(r.mem, f + SCAUSE) == h.scause && Read(r.mem, f + STVAL) == h.stval
    ensures SameOutside(h.mem, r.mem, f + SSTATUS, f + FRAME_SIZE)
  {
    hide Read, Wrap;
    Fits(f + SSTATUS);
    Fits(f + SEPC);
    Fits(f + SCAUSE);
    Fits(f + STVAL);
    var c := ENTRY_TAIL;
    assert c == [c[0], c[1], c[2]] + ([c[3], c[4], c[5]] + [c[6], c[7], c[8]]);
    RunAppend(at, h, [c[0], c[1], c[2]], [c[3], c[4], c[5]] + [c[6], c[7], c[8]]);
    Run3(at, h, c[0], c[1], c[2]);
    var h1 := Run(at, h, [c[0], c[1], c[2]]);
    RunAppend(at, h1, [c[3], c[4], c[5]], [c[6], c[7], c[8]]);
    Run3(at, h1, c[3], c[4], c[5]);
    var h2 := Run(at, h1, [c[3], c[4], c[5]]);
    Run3(at, h2, c[6], c[7], c[8]);
    r := Run(at, h2, [c[6], c[7], c[8]]);
    assert h1.mem == h.mem[f + SSTATUS := h.sstatus];
    assert h2.mem == h.mem[f + SSTATUS := h.sstatus][f + SEPC := h.sepc][f + SCAUSE := h.scause];
    assert r.mem == h2.mem[f + STVAL := h.stval];
    FourStores(h.mem, f, h.sstatus, h.sepc, h.scause, h.stval);
  }

  /**
   The whole trap entry, with every user register and the trap CSRs intact in the frame, nothing
   else in memory changed, and the frame's address passed to the handler.
   */
  lemma EntrySaves(at: Symbols, h: Hart, f: Word) returns (r: Hart)
    requires Apart(at, f) && h.sscratch == f + FRAME_SIZE
    ensures r == Run(at, h, EntryCode())
    ensures Holds(r.mem, f, Frame(h.x, h.sstatus, h.sepc, h.scause, h.stval))
    ensures SameOutside(h.mem, r.mem, f, f + FRAME_SIZE)
    ensures r.x[A0] == f && r.x[SP] == f && r.x[GP] == Read(h.mem, at.gp) && r.x[TP] == Read(h.mem, at.tp)
    ensures r.stvec == at.trapEntry && r.sscratch == h.x[SP]
  {
    hide Run, Read, Exec;
    RunAppend(at, h, ENTRY_HEAD, SaveSlots(6, 32) + ENTRY_TAIL);
    var h1 := EntryHead(at, h, f);
    RunAppend(at, h1, SaveSlots(6, 32), ENTRY_TAIL);
    SavesSlots(at, h1, f, 6, 32);
    var h2 := Run(at, h1, SaveSlots(6, 32));
    r := EntryTail(at, h2, f);
  }

  /* Restoring. */

  lemma RestoreHead(at: Symbols, h: Hart, f: Word, frame: Frame) returns (r: Hart)
    requires Apart(at, f) && h.x[SP] == f && Holds(h.mem, f, frame)
    ensures r == Run(at, h, RESTORE_HEAD)
    ensures r == h.(x := r.x, sepc := frame.sepc, sstatus := frame.sstatus, sscratch := frame.x[SP])
    ensures r.x[SP] == f && r.x[RA] == frame.x[RA] && r.x[GP] == frame.x[GP] && r.x[TP] == frame.x[TP]
  {
    hide Read, Wrap;
    Fits(f + SEPC);
    Fits(f + SSTATUS);
    Fits(f + SLOT * 1);
    Fits(f + SLOT * 2);
    Fits(f + SLOT * 3);
    Fits(f + SLOT * 4);
    var c := RESTORE_HEAD;
    assert c == [c[0], c[1], c[2]] + ([c[3], c[4], c[5]] + [c[6], c[7], c[8]]);
    RunAppend(at, h, [c[0], c[1], c[2]], [c[3], c[4], c[5]] + [c[6], c[7], c[8]]);
    Run3(at, h, c[0], c[1], c[2]);
    var h1 := Run(at, h, [c[0], c[1], c[2]]);
    RunAppend(at, h1, [c[3], c[4], c[5]], [c[6], c[7], c[8]]);
    Run3(at, h1, c[3], c[4], c[5]);
    var h2 := Run(at, h1, [c[3], c[4], c[5]]);
    Run3(at, h2, c[6], c[7], c[8]);
    r := Run(at, h2, [c[6], c[7], c[8]]);
  }

  lemma RestoreTail(at: Symbols, h: Hart, f: Word) returns (r: Hart)
    requires Apart(at, f) && h.x[SP] == f
    ensures r == Run(at, h, RESTORE_TAIL)
    ensures r == h.(x := h.x[T0 := Read(h.mem, f + SLOT * 5)][SP := h.sscratch],
                    stvec := at.userTrapEntry, sscratch := f + FRAME_SIZE)
  {
    hide Read, Wrap;
    Fits(f + SLOT * 5);
    Fits(f + FRAME_SIZE);
    var c := RESTORE_TAIL;
    assert c == [c[0], c[1], c[2], c[3], c[4]];
    Run5(at, h, c[0], c[1], c[2], c[3], c[4]);
    r := Run(at, h, c);
  }

  /**
   The whole restore: registers and sepc of the frame, and sscratch again the top of the stack the
   frame lies on.
   */
  lemma RestoreLoads(at: Symbols, h: Hart, f: Word, frame: Frame) returns (r: Hart)
    requires Apart(at, f) && h.x[SP] == f && Holds(h.mem, f, frame)
    ensures r == Run(at, h, RestoreCode())
    ensures r == h.(x := frame.x, sepc := frame.sepc, sstatus := frame.sstatus,
                    sscratch := f + FRAME_SIZE, stvec := at.userTrapEntry)
  {
    hide Run, Read, Exec;
    RunAppend(at, h, RESTORE_HEAD, LoadSlots(6, 32) + RESTORE_TAIL);
    var h1 := RestoreHead(at, h, f, frame);
    RunAppend(at, h1, LoadSlots(6, 32), RESTORE_TAIL);
    LoadsSlots(at, h1, f, 6, 32);
    var h2 := Run(at, h1, LoadSlots(6, 32));
    r := RestoreTail(at, h2, f);
    forall k | 0 <= k < 32
      ensures r.x[k] == frame.x[k]
    {
      assert h2.x[k] == if 6 <= k then Read(h1.mem, f + SLOT * k) else h1.x[k];
    }
    assert r.x == frame.x;
  }

  /**
   Trap entry then restore is the identity: with the frame as the entry left it, and whatever the
   handler did to the other registers, all of x0..x31, sepc, sstatus and sscratch come back, so the
   next trap of the task will use the same frame address.
   */
  lemma EntryThenRestore(at: Symbols, h: Hart, f: Word, clobbered: Regs) returns (entered: Hart, r: Hart)
    requires Apart(at, f) && h.sscratch == f + FRAME_SIZE && clobbered[SP] == f
    ensures entered == Run(at, h, EntryCode()) && r == Run(at, entered.(x := clobbered), RestoreCode())
    ensures r.x == h.x && r.sepc == h.sepc && r.sstatus == h.sstatus && r.sscratch == h.sscratch
    ensures r.stvec == at.userTrapEntry && SameOutside(h.mem, r.mem, f, f + FRAME_SIZE)
  {
    hide Run, Read, Exec;
    entered := EntrySaves(at, h, f);
    r := RestoreLoads(at, entered.(x := clobbered), f, Frame(h.x, h.sstatus, h.sepc, h.scause, h.stval));
  }

  /* The kernel's own registers around a run. */

  /** The slot of KernelContext that belongs to register q, or -1. */
  function ContextSlot(q: Reg): (k: int)
    ensures -1 <= k < 16 && (k >= 0 ==> ContextReg(k) == q)
    ensures forall j :: 0 <= j < 16 && ContextReg(j) == q ==> j == k
  {
    if 1 <= q <= 4 then q - 1 else if 8 <= q <= 9 then q - 4 else if 18 <= q <= 27 then q - 12 else -1
  }

  /** The saved kernel context in memory is that of the registers x. */
  ghost predicate ContextSaved(at: Symbols, mem: Memory, x: Regs) {
    && (forall k :: 0 <= k < 16 ==> Read(mem, at.context + SLOT * k) == x[ContextReg(k)])
    && Read(mem, at.gp) == x[GP] && Read(mem, at.tp) == x[TP]
  }

  /** The cells run_task writes. */
  predicate Saved(at: Symbols, a: int) {
    at.context <= a < at.context + 128 || a == at.gp || a == at.tp
  }

  lemma {:induction false} SavesContext(at: Symbols, h: Hart, c: int, a: nat, b: nat)
    requires a <= b <= 16 && h.x[T0] == c && c + 128 <= MODULUS
    ensures var r := Run(at, h, SaveContext(a, b));
            && r == h.(mem := r.mem)
            && (forall k :: a <= k < b ==> Read(r.mem, c + SLOT * k) == h.x[ContextReg(k)])
            && SameOutside(h.mem, r.mem, c + SLOT * a, c + SLOT * b)
    decreases b - a
  {
    if a < b {
      hide Run, Read, ContextReg, SaveContext;
      var g := SaveContextStep(at, h, c, a, b);
      SavesContext(at, g, c, a + 1, b);
      var r := Run(at, g, SaveContext(a + 1, b));
      assert Read(r.mem, c + SLOT * a) == Read(g.mem, c + SLOT * a);
    }
  }

  lemma SaveContextStep(at: Symbols, h: Hart, c: int, a: nat, b: nat) returns (g: Hart)
    requires a < b <= 16 && h.x[T0] == c && c + 128 <= MODULUS
    ensures Run(at, h, SaveContext(a, b)) == Run(at, g, SaveContext(a + 1, b))
    ensures g == h.(mem := g.mem) && Read(g.mem, c + SLOT * a) == h.x[ContextReg(a)]
    ensures SameOutside(h.mem, g.mem, c + SLOT * a, c + SLOT * a + 8)
  {
    hide Wrap, ContextReg;
    Fits(c + SLOT * a);
    g := h.(mem := h.mem[c + SLOT * a := h.x[ContextReg(a)]]);
    assert g == Exec(at, h, Store(ContextReg(a), SLOT * a, T0));
    assert SaveContext(a, b)[1..] == SaveContext(a + 1, b);
  }

  lemma {:induction false} LoadsContext(at: Symbols, h: Hart, c: int, a: nat, b: nat)
    requires a <= b <= 16 && h.x[T0] == c && c + 128 <= MODULUS
    ensures var r := Run(at, h, LoadContext(a, b));
            && r == h.(x := r.x)
            && (forall q: Reg :: r.x[q] == if a <= ContextSlot(q) < b then Read(h.mem, c + SLOT * ContextSlot(q))
                                           else h.x[q])
    decreases b - a
  {
    if a < b {
      hide Read, Wrap;
      Fits(c + SLOT * a);
      var g := Exec(at, h, Load(ContextReg(a), SLOT * a, T0));
      assert g.x[T0] == c;
      assert LoadContext(a, b)[1..] == LoadContext(a + 1, b);
      LoadsContext(at, g, c, a + 1, b);
    }
  }

  lemma EnterTail(at: Symbols, h: Hart) returns (r: Hart)
    requires at.gp != at.tp
    ensures r == Run(at, h, ENTER_TAIL)
    ensures r == h.(x := h.x[T0 := at.tp][SP := h.x[A0]], mem := h.mem[at.gp := h.x[GP]][at.tp := h.x[TP]])
  {
    hide Wrap;
    Fits(at.gp);
    Fits(at.tp);
    var c := ENTER_TAIL;
    assert c == [c[0], c[1], c[2], c[3], c[4]];
    Run5(at, h, c[0], c[1], c[2], c[3], c[4]);
    r := Run(at, h, c);
  }

  /** The two copies go to cells of their own. */
  lemma CopiesKept(at: Symbols, f: Word, m0: Memory, m: Memory, x: Regs)
    requires Apart(at, f) && SameOutside(m0, m, at.context, at.context + 128)
    requires forall k :: 0 <= k < 16 ==> Read(m, at.context + SLOT * k) == x[ContextReg(k)]
    ensures ContextSaved(at, m[at.gp := x[GP]][at.tp := x[TP]], x)
    ensures forall a :: !Saved(at, a) ==> Read(m[at.gp := x[GP]][at.tp := x[TP]], a) == Read(m0, a)
  {
    var r := m[at.gp := x[GP]][at.tp := x[TP]];
    assert forall a :: a != at.gp && a != at.tp ==> Read(r, a) == Read(m, a);
    hide Read, ContextReg;
    forall k | 0 <= k < 16
      ensures Read(r, at.context + SLOT * k) == x[ContextReg(k)]
    {
    }
  }

  lemma Point(at: Symbols, h: Hart) returns (r: Hart)
    ensures r == Run(at, h, [Address(T0, KernelContext)]) == h.(x := h.x[T0 := at.context])
  {
    Run1(at, h, Address(T0, KernelContext));
    r := Exec(at, h, Address(T0, KernelContext));
  }

  /** run_task saves the caller's context, copies gp and tp, and moves onto the task's trap stack. */
  lemma EnterSaves(at: Symbols, h: Hart, f: Word) returns (r: Hart)
    requires Apart(at, f) && h.x[A0] == f
    ensures r == Run(at, h, EnterCode())
    ensures r == h.(x := r.x, mem := r.mem) && r.x[SP] == f
    ensures ContextSaved(at, r.mem, h.x)
    ensures forall a :: !Saved(at, a) ==> Read(r.mem, a) == Read(h.mem, a)
  {
    hide Run, Exec, Read, ContextSaved, Saved, SameOutside, ContextReg, SaveContext;
    var head := [Address(T0, KernelContext)];
    RunAppend(at, h, head, SaveContext(0, 16) + ENTER_TAIL);
    var h1 := Point(at, h);
    RunAppend(at, h1, SaveContext(0, 16), ENTER_TAIL);
    SavesContext(at, h1, at.context, 0, 16);
    var h2 := Run(at, h1, SaveContext(0, 16));
    r := EnterTail(at, h2);
    CopiesKept(at, f, h.mem, h2.mem, h.x);
  }

  lemma TerminateHead(at: Symbols, h: Hart) returns (r: Hart)
    requires at.context + 128 <= MODULUS
    ensures r == Run(at, h, [WriteCsr(Sscratch, 0), Address(T0, KernelContext), Load(RA, 0, T0)])
    ensures r == h.(sscratch := 0, x := h.x[T0 := at.context][RA := Read(h.mem, at.context)])
  {
    hide Wrap, Read;
    Fits(at.context);
    Run3(at, h, WriteCsr(Sscratch, 0), Address(T0, KernelContext), Load(RA, 0, T0));
    r := h.(sscratch := 0, x := h.x[T0 := at.context][RA := Read(h.mem, at.context)]);
  }

  lemma TerminateTail(at: Symbols, h: Hart) returns (r: Hart)
    requires at.context + 128 <= MODULUS && h.x[T0] == at.context
    ensures r == Run(at, h, [Load(T1, SLOT * 1, T0), Move(SP, T1)])
    ensures var v := Read(h.mem, at.context + SLOT); r == h.(x := h.x[T1 := v][SP := v])
  {
    hide Wrap, Read;
    Fits(at.context + SLOT);
    var a, b := Load(T1, SLOT * 1, T0), Move(SP, T1);
    assert [a, b] == [a] + [b];
    RunAppend(at, h, [a], [b]);
    Run1(at, h, a);
    Run1(at, Exec(at, h, a), b);
    r := Run(at, h, [a, b]);
  }

  /** terminate_process gives the caller of run_task its context back and leaves a0 alone. */
  lemma TerminateRestores(at: Symbols, h: Hart, caller: Regs) returns (r: Hart)
    requires at.context + 128 <= MODULUS && ContextSaved(at, h.mem, caller)
    ensures r == Run(at, h, TerminateCode())
    ensures r == h.(x := r.x, sscratch := 0) && r.x[A0] == h.x[A0]
    ensures forall q: Reg :: ContextSlot(q) >= 0 ==> r.x[q] == caller[q]
  {
    hide Run, Exec, Read;
    var head := [WriteCsr(Sscratch, 0), Address(T0, KernelContext), Load(RA, 0, T0)];
    var tail := [Load(T1, SLOT * 1, T0), Move(SP, T1)];
    RunAppend(at, h, head, LoadContext(2, 16) + tail);
    var h1 := TerminateHead(at, h);
    RunAppend(at, h1, LoadContext(2, 16), tail);
    LoadsContext(at, h1, at.context, 2, 16);
    var h2 := Run(at, h1, LoadContext(2, 16));
    r := TerminateTail(at, h2);
    assert ContextReg(0) == RA && ContextReg(1) == SP;
    forall q: Reg | ContextSlot(q) >= 0
      ensures r.x[q] == caller[q]
    {
      assert Read(h.mem, at.context + SLOT * ContextSlot(q)) == caller[ContextReg(ContextSlot(q))];
    }
  }
}
