/**
 The trap handler of the scheduler: `handle` of src/scheduler.rs. Its runtime asserts are error
 results. The frame it edits in memory and the copy it leaves in EXCHANGE are the same value.
 */
module TrapHandler {
  import opened Util
  import opened Riscv
  import opened Syscalls
  import opened TrapAsm

  const TOP_BIT: int := 0x8000_0000_0000_0000

  /* scause values of the RISC-V Privileged Architecture (20211203), section 4.1.8. */
  const ILLEGAL_INSTRUCTION: int := 2
  const USER_ECALL: int := 8
  const TIMER_INTERRUPT: int := 0x8000_0000_0000_0005

  datatype Reason = Syscall | Yield | Timer | Exit(code: nat) | Fault(cause: nat)

  datatype Panic = WrongStack | KernelFault | PcEscaped | UnexpectedInterrupt | PcOverflow | UnexpectedException

  /** EXCHANGE after a trap, with the bytes the call wrote to the console. */
  datatype Exchange = Exchange(expected: Word, frame: Frame, reason: Reason, time: nat, output: seq<int>)

  function Bit(w: Word, weight: int): (b: int)
    requires weight > 0
    ensures 0 <= b <= 1
  {
    w / weight % 2
  }

  function ClearSpp(w: Word): (r: Word)
    ensures r == w - 256 * Bit(w, 256) && Bit(r, 256) == 0 && r / 512 == w / 512
  {
    w / 512 * 512 + w % 256
  }

  function ClearSpie(w: Word): (r: Word)
    ensures r == w - 32 * Bit(w, 32) && Bit(r, 32) == 0 && r / 64 == w / 64
  {
    w / 64 * 64 + w % 32
  }

  function ClearSie(w: Word): (r: Word)
    ensures r == w - 2 * Bit(w, 2) && Bit(r, 2) == 0 && r / 4 == w / 4
  {
    w / 4 * 4 + w % 2
  }

  /** Taking a multiple of 64 off a word changes nothing below bit 6, so not SPIE nor SIE. */
  lemma LowBitsKept(w: Word, r: Word, n: nat)
    requires w == r + 64 * n
    ensures Bit(w, 32) == Bit(r, 32) && Bit(w, 2) == Bit(r, 2)
  {
    var q, c := r / 64, r % 64;
    assert w == 64 * (q + n) + c;
    assert w / 32 == 2 * (q + n) + c / 32 && r / 32 == 2 * q + c / 32;
    SieKept(w, r, 2 * n);
  }

  /** Taking SPIE off changes nothing below bit 5. */
  lemma SieKept(w: Word, r: Word, b: nat)
    requires w == r + 32 * b
    ensures Bit(w, 2) == Bit(r, 2)
  {
    var q, f, c := r / 4, r / 2 % 2, r % 2;
    assert r == 4 * q + 2 * f + c;
    SecondDigit(q, f, c);
    SecondDigit(q + 8 * b, f, c);
  }

  lemma SecondDigit(q: nat, f: int, c: int)
    requires 0 <= f <= 1 && 0 <= c <= 1
    ensures (4 * q + 2 * f + c) / 2 % 2 == f
  {
    assert (4 * q + 2 * f + c) / 2 == 2 * q + f;
  }

  /** Clears SPP, SPIE and SIE, and nothing else: what is taken away is just those three bits. */
  function Quiet(w: Word): (r: Word)
    ensures Bit(r, 256) == 0 && Bit(r, 32) == 0 && Bit(r, 2) == 0
    ensures w == r + 256 * Bit(w, 256) + 32 * Bit(w, 32) + 2 * Bit(w, 2)
  {
    var a := ClearSpp(w);
    var b := ClearSpie(a);
    var c := ClearSie(b);
    assert b / 256 == b / 64 / 4 && a / 256 == a / 64 / 4;
    assert c / 256 == c / 4 / 64 && b / 256 == b / 4 / 64;
    assert c / 32 == c / 4 / 8 && b / 32 == b / 4 / 8;
    LowBitsKept(w, a, 4 * Bit(w, 256));
    SieKept(a, b, Bit(a, 32));
    c
  }

  /** a0 and the advanced sepc of a system call that returns. */
  function Answer(frame: Frame, value: int): Result<Frame, Panic> {
    if frame.sepc + 4 >= MODULUS then Err(PcOverflow)
    else Ok(frame.(x := frame.x[A0 := Wrap(value)], sepc := frame.sepc + 4))
  }

  /** The frame as edited, why the task stopped, and what it printed. */
  function Classify(frame: Frame): Result<(Frame, Reason, seq<int>), Panic> {
    if frame.scause >= TOP_BIT then
      if frame.scause - TOP_BIT != 5 then Err(UnexpectedInterrupt) else Ok((frame, Timer, []))
    else if frame.scause == USER_ECALL then
      if frame.x[A7] == YIELD then
        match Answer(frame, 0)
        case Ok(f) => Ok((f, Yield, []))
        case Err(p) => Err(p)
      else
        match Dispatch(frame.x[A7], frame.x[A0])
        case Return(value, output) => (
          match Answer(frame, value)
          case Ok(f) => Ok((f, Syscall, output))
          case Err(p) => Err(p))
        case Exit(code) => Ok((frame, Reason.Exit(code), []))
    else if frame.scause != ILLEGAL_INSTRUCTION then Err(UnexpectedException)
    else Ok((frame, Fault(frame.scause), []))
  }

  function Handle(frame: Frame, at: Word, expected: Word, start: int, end: int, now: nat): Result<Exchange, Panic> {
    if at != expected then Err(WrongStack)
    else if Bit(frame.sstatus, 256) != 0 then Err(KernelFault)
    else if !(start <= frame.sepc < end) then Err(PcEscaped)
    else
      match Classify(frame)
      case Err(p) => Err(p)
      case Ok((f, reason, output)) =>
        Ok(Exchange(expected, f.(sstatus := Quiet(f.sstatus)), reason, now, output))
  }

  /** This trap is a call of exit with a byte; any other call resumes the task. */
  predicate Leaves(frame: Frame) {
    frame.scause == 8 && frame.x[17] == 2 && frame.x[10] <= 255
  }

  /** The result register after a call that resumes the task, in two's complement. */
  function ResultOf(number: Word, arg: Word): Word {
    if number == 3 || (number == 1 && arg <= 127) then 0
    else if number == 1 || number == 2 then 0xffff_ffff_ffff_fffe
    else 0xffff_ffff_ffff_ffff
  }

  lemma DispatchMeans(number: Word, arg: Word)
    requires number != 3
    ensures match Dispatch(number, arg)
            case Exit(code) => number == 2 && arg <= 255 && code == arg
            case Return(value, output) =>
              && !(number == 2 && arg <= 255) && Wrap(value) == ResultOf(number, arg)
              && output == if number == 1 && arg <= 127 then [arg] else []
  {
  }

  /** The reason for each kind of trap that is accepted. */
  function ReasonOf(frame: Frame): Reason {
    if frame.scause == 0x8000_0000_0000_0005 then Timer
    else if frame.scause == 2 then Fault(2)
    else if Leaves(frame) then Reason.Exit(frame.x[10])
    else if frame.x[17] == 3 then Yield
    else Syscall
  }

  /** The frame of a call that resumes has a result and goes on behind the ecall. */
  function CallAnswered(frame: Frame): Frame
    requires frame.sepc + 4 < MODULUS
  {
    frame.(sepc := frame.sepc + 4, x := frame.x[10 := ResultOf(frame.x[17], frame.x[10])])
  }

  lemma ClassifyMeans(frame: Frame)
    ensures var r, resumes := Classify(frame), frame.scause == 8 && !Leaves(frame);
            && (r.Ok? <==> frame.scause in {2, 8, 0x8000_0000_0000_0005} && (resumes ==> frame.sepc < 0xffff_ffff_ffff_fffc))
            && (r.Ok? ==>
                  && r.value.0 == (if resumes then CallAnswered(frame) else frame) && r.value.1 == ReasonOf(frame)
                  && r.value.2 == if frame.scause == 8 && frame.x[17] == 1 && frame.x[10] <= 127 then [frame.x[10]] else [])
  {
    if frame.x[17] != 3 {
      DispatchMeans(frame.x[17], frame.x[10]);
    }
    hide Dispatch, ResultOf;
  }

  /** Exactly which traps `handle` accepts, why the task stopped, and what its frame looks like then. */
  lemma HandleMeans(frame: Frame, at: Word, expected: Word, start: int, end: int, now: nat)
    ensures var r, resumes := Handle(frame, at, expected, start, end, now), frame.scause == 8 && !Leaves(frame);
            && (r.Ok? <==> at == expected && Bit(frame.sstatus, 256) == 0 && start <= frame.sepc < end
                           && frame.scause in {2, 8, 0x8000_0000_0000_0005} && (resumes ==> frame.sepc < 0xffff_ffff_ffff_fffc))
            && (r.Ok? ==>
                  && r.value.expected == expected && r.value.time == now && r.value.reason == ReasonOf(frame)
                  && r.value.frame == (if resumes then CallAnswered(frame) else frame).(sstatus := Quiet(frame.sstatus))
                  && r.value.output == if frame.scause == 8 && frame.x[17] == 1 && frame.x[10] <= 127 then [frame.x[10]] else [])
  {
    hide Classify, Quiet, Bit, ResultOf, Leaves, ReasonOf;
    ClassifyMeans(frame);
  }

  /** The frame on the trap stack and the EXCHANGE cell, which `handle` edits in place. */
  class TrapCell {
    var frame: Frame
    var exchange: Exchange

    constructor (frame: Frame, expected: Word)
      ensures this.frame == frame && exchange.expected == expected
    {
      this.frame := frame;
      exchange := Exchange(expected, frame, Syscall, 0, []);
    }

    /** Returns 1, with the edited frame also in EXCHANGE; on a failed assert EXCHANGE is untouched. */
    method HandleTrap(at: Word, start: int, end: int, now: nat) returns (r: Result<nat, Panic>)
      modifies this
      ensures match Handle(old(frame), at, old(exchange.expected), start, end, now)
              case Ok(e) => r == Ok(1) && exchange == e && frame == e.frame
              case Err(why) => r == Err(why) && exchange == old(exchange)
    {
      var expected := exchange.expected;
      if at != expected {
        return Err(WrongStack);
      }
      if Bit(frame.sstatus, 256) != 0 {
        return Err(KernelFault);
      }
      if frame.sepc < start || frame.sepc >= end {
        return Err(PcEscaped);
      }
      var reason, output := Syscall, [];
      if frame.scause >= TOP_BIT {
        if frame.scause - TOP_BIT != 5 {
          return Err(UnexpectedInterrupt);
        }
        reason := Timer;
      } else if frame.scause == USER_ECALL {
        var resumes := true;
        if frame.x[A7] == YIELD {
          frame := frame.(x := frame.x[A0 := 0]);
          reason := Yield;
        } else {
          match Dispatch(frame.x[A7], frame.x[A0])
          case Return(value, bytes) =>
            frame := frame.(x := frame.x[A0 := Wrap(value)]);
            output := bytes;
          case Exit(code) =>
            reason := Reason.Exit(code);
            resumes := false;
        }
        if resumes {
          if frame.sepc + 4 >= MODULUS {
            return Err(PcOverflow);
          }
          frame := frame.(sepc := frame.sepc + 4);
        }
      } else {
        if frame.scause != ILLEGAL_INSTRUCTION {
          return Err(UnexpectedException);
        }
        reason := Fault(frame.scause);
      }
      frame := frame.(sstatus := Quiet(frame.sstatus));
      exchange := Exchange(expected, frame, reason, now, output);
      return Ok(1);
    }
  }
}
