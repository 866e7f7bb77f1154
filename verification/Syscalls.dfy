/** System calls: the dispatch table of src/syscall.rs and what a task sees of a trap it asked for. */
module Syscalls {
  import opened Riscv

  const PUTCHAR: int := 1
  const EXIT: int := 2
  const YIELD: int := 3
  const ERR_UNKNOWN_SYSCALL: int := -1
  const ERR_INVALID_ARGUMENT: int := -2

  /** `output` is the byte written to the console, if any. */
  datatype Outcome = Return(value: int, output: seq<int>) | Exit(code: nat)

  function Dispatch(number: Word, arg0: Word): (r: Outcome)
    ensures r.Exit? <==> number == EXIT && arg0 <= 0xff
    ensures r.Exit? ==> r.code == arg0
    ensures r.Return? && r.output != [] <==> number == PUTCHAR && arg0 <= 0x7f
    ensures r.Return? && r.output != [] ==> r.output == [arg0]
    ensures r.Return? ==>
              && (r.value == 0 <==> number == PUTCHAR && arg0 <= 0x7f)
              && (r.value == ERR_UNKNOWN_SYSCALL <==> number != PUTCHAR && number != EXIT)
              && r.value in {0, ERR_UNKNOWN_SYSCALL, ERR_INVALID_ARGUMENT}
  {
    if number == PUTCHAR then
      if arg0 > 0x7f then Return(ERR_INVALID_ARGUMENT, []) else Return(0, [arg0])
    else if number == EXIT then
      if arg0 > 0xff then Return(ERR_INVALID_ARGUMENT, []) else Exit(arg0)
    else Return(ERR_UNKNOWN_SYSCALL, [])
  }

  /** A task on a machine of its own: still running, or ended by exit, by fault, or by leaving home. */
  datatype Solo = Live(user: User) | Exited(code: nat) | Faulted | Escaped

  /** The result register and the counter after a system call that returns. */
  function Resume(code: seq<Instr>, u: User, value: int): Solo {
    match Goto(code, u.(x := u.x[A0 := Wrap(value)]), u.pc + 4)
    case Next(v) => Live(v)
    case _ => Escaped
  }

  /** One instruction of a task that never shares the machine; a system call is one step. */
  function SoloStep(code: seq<Instr>, u: User): Solo {
    match Step(code, u)
    case Next(v) => Live(v)
    case IllegalInstruction => Faulted
    case Escape => Escaped
    case Environment =>
      if u.x[A7] == YIELD then Resume(code, u, 0)
      else
        match Dispatch(u.x[A7], u.x[A0])
        case Return(value, _) => Resume(code, u, value)
        case Exit(c) => Exited(c)
  }

  /** The solo run: n steps from u, stopping early when the task ends. */
  function SoloRun(code: seq<Instr>, u: User, n: nat): Solo
    decreases n
  {
    if n == 0 then Live(u)
    else
      match SoloStep(code, u)
      case Live(v) => SoloRun(code, v, n - 1)
      case ended => ended
  }

  lemma {:induction false} SoloRunCompose(code: seq<Instr>, u: User, m: nat, n: nat)
    ensures SoloRun(code, u, m + n)
            == match SoloRun(code, u, m) case Live(v) => SoloRun(code, v, n) case ended => ended
    decreases m
  {
    if m > 0 && SoloStep(code, u).Live? {
      SoloRunCompose(code, SoloStep(code, u).user, m - 1, n);
    }
  }

  lemma {:induction false} WalkIsSolo(code: seq<Instr>, u: User, n: nat)
    requires Walk(code, u, n).Next?
    ensures SoloRun(code, u, n) == Live(Walk(code, u, n).user)
    decreases n
  {
    if n > 0 {
      WalkIsSolo(code, Step(code, u).user, n - 1);
    }
  }
}
