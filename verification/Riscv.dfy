/**
 The part of RV64 that user tasks need: 64-bit words, registers, a private stack and the
 instructions of src/user_scheduler.S. Program counters are byte offsets from the start of the code,
 with one four-byte slot per assembler line.
 */
module Riscv {
  import opened Util

  const MODULUS: int := 0x1_0000_0000_0000_0000

  type Word = w: int | 0 <= w < 0x1_0000_0000_0000_0000

  function Wrap(v: int): Word {
    v % MODULUS
  }

  /** x0..x31; x0 reads as zero because nothing writes it. */
  type Regs = x: seq<Word> | |x| == 32 && x[0] == 0 witness seq(32, i => 0)

  type Reg = r: int | 0 <= r < 32

  function Set(x: Regs, r: Reg, v: Word): Regs {
    if r == 0 then x else x[r := v]
  }

  const SP: Reg := 2
  const T0: Reg := 5
  const T1: Reg := 6
  const T2: Reg := 7
  const S0: Reg := 8
  const S1: Reg := 9
  const A0: Reg := 10
  const A3: Reg := 13
  const A7: Reg := 17
  const S2: Reg := 18
  const S3: Reg := 19
  const S4: Reg := 20
  const S5: Reg := 21

  datatype Instr =
    | Li(rd: Reg, imm: int)
    | Addi(rd: Reg, rs: Reg, imm: int)
    | Add(rd: Reg, a: Reg, b: Reg)
    | Mul(rd: Reg, a: Reg, b: Reg)
    | Srli1(rd: Reg, rs: Reg)
    | Sd(src: Reg, base: Reg)
    | Ld(rd: Reg, base: Reg)
    | Beq(a: Reg, b: Reg, target: int)
    | Bne(a: Reg, b: Reg, target: int)
    | Bltu(a: Reg, b: Reg, target: int)
    | J(target: int)
    | Ecall
    | Illegal

  /** What a task owns: registers, program counter and the cells of its own stack. */
  datatype User = User(x: Regs, pc: Word, stack: map<Word, Word>)

  /** One instruction: it completes, asks for the kernel, or leaves the task's own code and stack. */
  datatype Effect = Next(user: User) | Environment | IllegalInstruction | Escape

  function Fetch(code: seq<Instr>, pc: Word): Option<Instr> {
    if pc % 4 == 0 && pc / 4 < |code| then Some(code[pc / 4]) else None
  }

  /** Go on at pc if that is inside the code. */
  function Goto(code: seq<Instr>, u: User, pc: int): Effect {
    if 0 <= pc < 4 * |code| && 4 * |code| <= MODULUS then Next(u.(pc := pc)) else Escape
  }

  function Write(code: seq<Instr>, u: User, r: Reg, v: int): Effect {
    Goto(code, u.(x := Set(u.x, r, Wrap(v))), u.pc + 4)
  }

  function Execute(code: seq<Instr>, u: User, i: Instr): Effect {
    match i
    case Li(rd, imm) => Write(code, u, rd, imm)
    case Addi(rd, rs, imm) => Write(code, u, rd, u.x[rs] + imm)
    case Add(rd, a, b) => Write(code, u, rd, u.x[a] as int + u.x[b] as int)
    case Mul(rd, a, b) => Write(code, u, rd, u.x[a] as int * u.x[b] as int)
    case Srli1(rd, rs) => Write(code, u, rd, u.x[rs] / 2)
    case Sd(src, base) =>
      if u.x[base] in u.stack then Goto(code, u.(stack := u.stack[u.x[base] := u.x[src]]), u.pc + 4) else Escape
    case Ld(rd, base) => if u.x[base] in u.stack then Write(code, u, rd, u.stack[u.x[base]]) else Escape
    case Beq(a, b, target) => Goto(code, u, if u.x[a] == u.x[b] then target else u.pc + 4)
    case Bne(a, b, target) => Goto(code, u, if u.x[a] != u.x[b] then target else u.pc + 4)
    case Bltu(a, b, target) => Goto(code, u, if u.x[a] < u.x[b] then target else u.pc + 4)
    case J(target) => Goto(code, u, target)
    case Ecall => Environment
    case Illegal => IllegalInstruction
  }

  function Step(code: seq<Instr>, u: User): Effect {
    match Fetch(code, u.pc)
    case None => Escape
    case Some(i) => Execute(code, u, i)
  }

  /** No instruction creates or destroys a stack cell or moves the counter off the code. */
  lemma StepStaysHome(code: seq<Instr>, u: User)
    ensures Step(code, u).Next? ==>
              Step(code, u).user.stack.Keys == u.stack.Keys && Step(code, u).user.pc < 4 * |code|
  {
    var f := Fetch(code, u.pc);
    if f.Some? && f.value.Sd? && u.x[f.value.base] in u.stack {
      assert u.stack[u.x[f.value.base] := u.x[f.value.src]].Keys == u.stack.Keys;
    }
  }

  /** n instructions in a row, none of which involves the kernel. */
  function Walk(code: seq<Instr>, u: User, n: nat): Effect
    decreases n
  {
    if n == 0 then Next(u)
    else
      match Step(code, u)
      case Next(v) => Walk(code, v, n - 1)
      case other => other
  }

  lemma {:induction false} WalkCompose(code: seq<Instr>, u: User, m: nat, n: nat)
    ensures Walk(code, u, m + n) == match Walk(code, u, m) case Next(v) => Walk(code, v, n) case other => other
    decreases m
  {
    if m > 0 && Step(code, u).Next? {
      WalkCompose(code, Step(code, u).user, m - 1, n);
    }
  }
}
