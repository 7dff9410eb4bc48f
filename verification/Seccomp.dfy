/** The seccomp filter of the voice decoder: a small compiler to classic BPF with
    back-patched 8-bit jumps, and the machine that runs what it emits. */
module Seccomp {
  type Word = bv32

  /** Offsets into `struct seccomp_data`. */
  const NR_AT := 0
  const ARCH_AT := 4
  const ARGS_AT := 16
  const NR_WORD: Word := 0
  const ARCH_WORD: Word := 4

  const RET_KILL: Word := 0
  const RET_ALLOW: Word := 0x7fff_0000
  const RET_ERRNO: Word := 0x0005_0000
  const RET_DATA: Word := 0x0000_ffff
  const EPERM: Word := 1
  const REFUSE: Word := RET_ERRNO | (EPERM & RET_DATA)
  /** The longest program the decoder installs. */
  const LIMIT := 250

  datatype Code = LdAbs | JmpEq | JmpSet | Ret

  /** `struct sock_filter`: the jump offsets are unsigned bytes. */
  datatype Insn = Insn(code: Code, jt: int, jf: int, k: Word)

  type Program = seq<Insn>

  function Stmt(code: Code, k: Word): Insn { Insn(code, 0, 0, k) }

  function Jump(code: Code, k: Word, jt: int, jf: int): Insn { Insn(code, jt, jf, k) }

  /** `static_cast<unsigned char>`. */
  function Byte(n: int): (b: int)
    ensures 0 <= b < 256
    ensures 0 <= n < 256 ==> b == n
  {
    n % 256
  }

  // ------------------------------------------------ the machine

  /** What a system call shows the filter. `args` are the six 64-bit arguments. */
  datatype Call = Call(nr: Word, arch: Word, ip: bv64, args: seq<bv64>)

  predicate Genuine(c: Call) { |c.args| == 6 }

  /** The word at `at`, little-endian as on all three architectures. */
  function Load(c: Call, at: nat): Word
    requires Genuine(c)
  {
    if at == NR_AT then c.nr
    else if at == ARCH_AT then c.arch
    else if at == 8 then Low(c.ip)
    else if at == 12 then High(c.ip)
    else if ARGS_AT <= at < ARGS_AT + 48 && at % 8 == 0 then Low(c.args[(at - ARGS_AT) / 8])
    else if ARGS_AT <= at < ARGS_AT + 48 && at % 8 == 4 then High(c.args[(at - ARGS_AT) / 8])
    else 0
  }

  function Low(x: bv64): Word { (x & 0xffff_ffff) as bv32 }

  function High(x: bv64): Word { (x >> 32) as bv32 }

  /** The bit test of a JSET. */
  predicate Meets(w: Word, mask: Word) { w & mask != 0 }

  datatype Outcome = Verdict(ret: Word) | Fault

  /** Runs from `pc`; leaving the program is a fault. */
  function Run(p: Program, c: Call, pc: nat, acc: Word): Outcome
    requires Genuine(c)
    requires forall i :: 0 <= i < |p| ==> 0 <= p[i].jt && 0 <= p[i].jf
    decreases |p| - pc
  {
    if pc >= |p| then Fault
    else
      var i := p[pc];
      match i.code
      case Ret => Verdict(i.k)
      case LdAbs => Run(p, c, pc + 1, Load(c, i.k as int))
      case JmpEq => Run(p, c, pc + 1 + (if acc == i.k then i.jt else i.jf), acc)
      case JmpSet => Run(p, c, pc + 1 + (if Meets(acc, i.k) then i.jt else i.jf), acc)
  }

  /** Every jump goes forward, stays inside and fits its byte. */
  ghost predicate JumpsFit(p: Program) {
    forall i :: 0 <= i < |p| ==>
      && 0 <= p[i].jt < 256 && 0 <= p[i].jf < 256
      && (p[i].code == JmpEq || p[i].code == JmpSet ==> i + 1 + p[i].jt < |p| && i + 1 + p[i].jf < |p|)
  }

  // ------------------------------------------------ what the lists say

  /** A call that opens files, and which argument holds its flags. */
  datatype Opener = Opener(nr: Word, flagsArg: nat)

  /** Some flag of the mask is in the lower word of an argument. */
  predicate Writes(flags: bv64, mask: Word) { (flags & 0xffff_ffff) as bv32 & mask != 0 }

  /** The refusals the decoder asks for, in words a reader of the lists would use. */
  function Wanted(c: Call, own: Word, denied: seq<Word>, openers: seq<Opener>, mask: Word): Word
    requires Genuine(c)
    requires forall o :: o in openers ==> o.flagsArg < 6
  {
    if c.arch != own then 0
    else if c.nr in denied then 0x0005_0001
    else if FirstOpener(c.nr, openers) < |openers| then
      if Writes(c.args[openers[FirstOpener(c.nr, openers)].flagsArg], mask)
      then 0x0005_0001 else 0x7fff_0000
    else 0x7fff_0000
  }

  /** The kernel's words: EPERM for what is refused. */
  lemma KernelWords()
    ensures RET_KILL == 0 && REFUSE == 0x0005_0001 && RET_ALLOW == 0x7fff_0000
  {
  }

  /** The first opener for `nr`, or their number when there is none. */
  function FirstOpener(nr: Word, openers: seq<Opener>): (i: nat)
    ensures i <= |openers|
    ensures i < |openers| ==> openers[i].nr == nr
    ensures forall h :: 0 <= h < i ==> openers[h].nr != nr
  {
    if openers == [] || openers[0].nr == nr then 0 else 1 + FirstOpener(nr, openers[1..])
  }

  // ------------------------------------------------ the layout of an emitted program

  function DeniedAt(i: nat): nat { 4 + i }

  function OpenerAt(nd: nat, i: nat): nat { 4 + nd + i }

  function AllowAt(nd: nat, no: nat): nat { 4 + nd + no }

  function CheckAt(nd: nat, no: nat, i: nat): nat { 5 + nd + no + 3 * i }

  function ErrnoAt(nd: nat, no: nat): nat { 5 + nd + 4 * no }

  function FlagsAt(o: Opener): Word
    requires o.flagsArg < 6
  {
    (ARGS_AT + o.flagsArg * 8) as bv32
  }

  /** A program that tests each list in turn and whose jumps meet their targets. */
  ghost predicate Laid(p: Program, own: Word, denied: seq<Word>, openers: seq<Opener>, mask: Word)
    requires forall o :: o in openers ==> o.flagsArg < 6
  {
    var nd, no := |denied|, |openers|;
    && |p| == ErrnoAt(nd, no) + 1
    && p[0] == Stmt(LdAbs, ARCH_WORD)
    && p[1] == Jump(JmpEq, own, 1, 0)
    && p[2] == Stmt(Ret, RET_KILL)
    && p[3] == Stmt(LdAbs, NR_WORD)
    && (forall i :: 0 <= i < nd ==>
          p[DeniedAt(i)] == Jump(JmpEq, denied[i], ErrnoAt(nd, no) - DeniedAt(i) - 1, 0))
    && (forall i :: 0 <= i < no ==>
          p[OpenerAt(nd, i)] == Jump(JmpEq, openers[i].nr, CheckAt(nd, no, i) - OpenerAt(nd, i) - 1, 0))
    && p[AllowAt(nd, no)] == Stmt(Ret, RET_ALLOW)
    && (forall i :: 0 <= i < no ==>
          && p[CheckAt(nd, no, i)] == Stmt(LdAbs, FlagsAt(openers[i]))
          && p[CheckAt(nd, no, i) + 1]
             == Jump(JmpSet, mask, ErrnoAt(nd, no) - CheckAt(nd, no, i) - 2, 0)
          && p[CheckAt(nd, no, i) + 2] == Stmt(Ret, RET_ALLOW))
    && p[ErrnoAt(nd, no)] == Stmt(Ret, REFUSE)
  }

  lemma LaidFits(p: Program, own: Word, denied: seq<Word>, openers: seq<Opener>, mask: Word)
    requires forall o :: o in openers ==> o.flagsArg < 6
    requires Laid(p, own, denied, openers, mask) && |p| <= LIMIT
    ensures JumpsFit(p)
  {
    var nd, no := |denied|, |openers|;
    forall i | 0 <= i < |p|
      ensures 0 <= p[i].jt < 256 && p[i].jf == 0
      ensures p[i].code == JmpEq || p[i].code == JmpSet ==> i + 1 + p[i].jt < |p|
    {
      if 4 <= i < 4 + nd {
        assert i == DeniedAt(i - 4);
      } else if 4 + nd <= i < 4 + nd + no {
        assert i == OpenerAt(nd, i - 4 - nd);
      } else if CheckAt(nd, no, 0) <= i < ErrnoAt(nd, no) {
        var h := (i - CheckAt(nd, no, 0)) / 3;
        assert i == CheckAt(nd, no, h) || i == CheckAt(nd, no, h) + 1 || i == CheckAt(nd, no, h) + 2;
      }
    }
  }

  /** The parts of a layout, one at a time. */
  lemma LaidParts(p: Program, own: Word, denied: seq<Word>, openers: seq<Opener>, mask: Word)
    requires forall o :: o in openers ==> o.flagsArg < 6
    requires Laid(p, own, denied, openers, mask)
    ensures var nd, no := |denied|, |openers|;
      && |p| == ErrnoAt(nd, no) + 1
      && p[0] == Stmt(LdAbs, ARCH_WORD) && p[1] == Jump(JmpEq, own, 1, 0)
      && p[2] == Stmt(Ret, RET_KILL) && p[3] == Stmt(LdAbs, NR_WORD)
      && p[AllowAt(nd, no)] == Stmt(Ret, RET_ALLOW) && p[ErrnoAt(nd, no)] == Stmt(Ret, REFUSE)
  {
  }

  lemma LaidDenied(p: Program, own: Word, denied: seq<Word>, openers: seq<Opener>, mask: Word, i: nat)
    requires forall o :: o in openers ==> o.flagsArg < 6
    requires Laid(p, own, denied, openers, mask) && i < |denied|
    ensures |p| == ErrnoAt(|denied|, |openers|) + 1
    ensures p[DeniedAt(i)] == Jump(JmpEq, denied[i], ErrnoAt(|denied|, |openers|) - DeniedAt(i) - 1, 0)
  {
  }

  lemma LaidOpener(p: Program, own: Word, denied: seq<Word>, openers: seq<Opener>, mask: Word, i: nat)
    requires forall o :: o in openers ==> o.flagsArg < 6
    requires Laid(p, own, denied, openers, mask) && i < |openers|
    ensures var nd, no := |denied|, |openers|;
      var at := CheckAt(nd, no, i);
      && |p| == ErrnoAt(nd, no) + 1
      && p[OpenerAt(nd, i)] == Jump(JmpEq, openers[i].nr, at - OpenerAt(nd, i) - 1, 0)
      && p[at] == Stmt(LdAbs, FlagsAt(openers[i]))
      && p[at + 1] == Jump(JmpSet, mask, ErrnoAt(nd, no) - at - 2, 0)
      && p[at + 2] == Stmt(Ret, RET_ALLOW)
  {
  }

  /** One instruction of the machine. */
  lemma Step(p: Program, c: Call, pc: nat, acc: Word)
    requires Genuine(c) && JumpsFit(p) && pc < |p|
    ensures var i := p[pc];
      Run(p, c, pc, acc) == match i.code
        case Ret => Verdict(i.k)
        case LdAbs => Run(p, c, pc + 1, Load(c, i.k as int))
        case JmpEq => Run(p, c, pc + 1 + (if acc == i.k then i.jt else i.jf), acc)
        case JmpSet => Run(p, c, pc + 1 + (if Meets(acc, i.k) then i.jt else i.jf), acc)
  {
  }

  /** From the i-th denied test on: errno if the rest of the list names the call. */
  lemma {:induction false} RunDenied(p: Program, c: Call, own: Word, denied: seq<Word>, openers: seq<Opener>,
                                     mask: Word, i: nat)
    requires Genuine(c) && forall o :: o in openers ==> o.flagsArg < 6
    requires Laid(p, own, denied, openers, mask) && JumpsFit(p) && i <= |denied|
    ensures Run(p, c, DeniedAt(i), c.nr)
         == if c.nr in denied[i..] then Verdict(REFUSE) else Run(p, c, OpenerAt(|denied|, 0), c.nr)
    decreases |denied| - i
  {
    hide Run, Laid, JumpsFit;
    LaidParts(p, own, denied, openers, mask);
    if i < |denied| {
      LaidDenied(p, own, denied, openers, mask, i);
      Step(p, c, DeniedAt(i), c.nr);
      Step(p, c, ErrnoAt(|denied|, |openers|), c.nr);
      RunDenied(p, c, own, denied, openers, mask, i + 1);
    }
  }

  /** From the i-th opener test on, none before it naming the call. */
  lemma {:induction false} RunOpeners(p: Program, c: Call, own: Word, denied: seq<Word>, openers: seq<Opener>,
                                      mask: Word, i: nat)
    requires Genuine(c) && forall o :: o in openers ==> o.flagsArg < 6
    requires Laid(p, own, denied, openers, mask) && JumpsFit(p)
    requires i <= FirstOpener(c.nr, openers)
    ensures Run(p, c, OpenerAt(|denied|, i), c.nr)
         == var f := FirstOpener(c.nr, openers);
            if f == |openers| then Verdict(RET_ALLOW)
            else Verdict(if Meets(Low(c.args[openers[f].flagsArg]), mask) then REFUSE else RET_ALLOW)
    decreases |openers| - i
  {
    hide Run, Laid, FirstOpener, Load, Low, FlagsAt, JumpsFit, Meets;
    var f, nd, no := FirstOpener(c.nr, openers), |denied|, |openers|;
    LaidParts(p, own, denied, openers, mask);
    if i < no {
      LaidOpener(p, own, denied, openers, mask, i);
    }
    Step(p, c, OpenerAt(nd, i), c.nr);
    if i < f {
      RunOpeners(p, c, own, denied, openers, mask, i + 1);
    } else if f < no {
      RunCheck(p, c, own, denied, openers, mask, f, c.nr);
    }
  }

  /** An opener's own check: its flags word against the mask. */
  lemma RunCheck(p: Program, c: Call, own: Word, denied: seq<Word>, openers: seq<Opener>,
                 mask: Word, f: nat, acc: Word)
    requires Genuine(c) && forall o :: o in openers ==> o.flagsArg < 6
    requires Laid(p, own, denied, openers, mask) && JumpsFit(p) && f < |openers|
    ensures Run(p, c, CheckAt(|denied|, |openers|, f), acc)
         == Verdict(if Meets(Low(c.args[openers[f].flagsArg]), mask) then REFUSE else RET_ALLOW)
  {
    hide Run, Laid, Load, Low, FlagsAt, JumpsFit, Meets;
    var nd, no, flags := |denied|, |openers|, Low(c.args[openers[f].flagsArg]);
    var at := CheckAt(nd, no, f);
    LaidParts(p, own, denied, openers, mask);
    LaidOpener(p, own, denied, openers, mask, f);
    LoadFlags(c, openers[f]);
    Step(p, c, at, acc);
    Step(p, c, at + 1, flags);
    Step(p, c, at + 2, flags);
    Step(p, c, ErrnoAt(nd, no), flags);
  }

  lemma LoadFlags(c: Call, o: Opener)
    requires Genuine(c) && o.flagsArg < 6
    ensures Load(c, FlagsAt(o) as int) == Low(c.args[o.flagsArg])
  {
    assert (ARGS_AT + o.flagsArg * 8) % 8 == 0;
  }

  /** The emitted program means what the lists say, for every call. */
  lemma Meaning(p: Program, c: Call, own: Word, denied: seq<Word>, openers: seq<Opener>, mask: Word)
    requires Genuine(c) && forall o :: o in openers ==> o.flagsArg < 6
    requires Laid(p, own, denied, openers, mask) && JumpsFit(p)
    ensures Run(p, c, 0, 0) == Verdict(Wanted(c, own, denied, openers, mask))
  {
    hide Run, Laid, JumpsFit, FirstOpener, Meets, Low, Writes;
    KernelWords();
    LaidParts(p, own, denied, openers, mask);
    Step(p, c, 0, 0);
    Step(p, c, 1, c.arch);
    Step(p, c, 2, c.arch);
    Step(p, c, 3, c.arch);
    if c.arch == own {
      RunDenied(p, c, own, denied, openers, mask, 0);
      assert denied[0..] == denied;
      RunOpeners(p, c, own, denied, openers, mask, 0);
      var f := FirstOpener(c.nr, openers);
      if f < |openers| {
        FlagsMeet(c.args[openers[f].flagsArg], mask);
      }
    }
  }

  lemma FlagsMeet(x: bv64, mask: Word)
    ensures Meets(Low(x), mask) <==> Writes(x, mask)
  {
    assert Low(x) == (x & 0xffff_ffff) as bv32;
    hide Low;
  }

  // ------------------------------------------------ the generator

  /** `program[at].jt = static_cast<unsigned char>(target - at - 1)`. */
  function Patched(p: Program, at: nat, target: nat): (q: Program)
    requires at < |p|
    ensures |q| == |p|
  {
    p[at := p[at].(jt := Byte(target - at - 1))]
  }

  /** The layout with the first `a`, `b` and `d` jumps of the three kinds patched, each cut to its byte. */
  ghost predicate Drafted(p: Program, own: Word, denied: seq<Word>, openers: seq<Opener>, mask: Word,
                          a: nat, b: nat, d: nat)
    requires forall o :: o in openers ==> o.flagsArg < 6
  {
    var nd, no := |denied|, |openers|;
    && |p| == ErrnoAt(nd, no) + 1
    && p[0] == Stmt(LdAbs, ARCH_WORD)
    && p[1] == Jump(JmpEq, own, 1, 0)
    && p[2] == Stmt(Ret, RET_KILL)
    && p[3] == Stmt(LdAbs, NR_WORD)
    && (forall i :: 0 <= i < nd ==>
          p[DeniedAt(i)] == Jump(JmpEq, denied[i], if i < a then Byte(ErrnoAt(nd, no) - DeniedAt(i) - 1) else 0, 0))
    && (forall i :: 0 <= i < no ==>
          p[OpenerAt(nd, i)] == Jump(JmpEq, openers[i].nr,
                                     if i < b then Byte(CheckAt(nd, no, i) - OpenerAt(nd, i) - 1) else 0, 0))
    && p[AllowAt(nd, no)] == Stmt(Ret, RET_ALLOW)
    && (forall i :: 0 <= i < no ==>
          && p[CheckAt(nd, no, i)] == Stmt(LdAbs, FlagsAt(openers[i]))
          && p[CheckAt(nd, no, i) + 1]
             == Jump(JmpSet, mask, if i < d then Byte(ErrnoAt(nd, no) - CheckAt(nd, no, i) - 2) else 0, 0)
          && p[CheckAt(nd, no, i) + 2] == Stmt(Ret, RET_ALLOW))
    && p[ErrnoAt(nd, no)] == Stmt(Ret, REFUSE)
  }

  /** The tests in front, every patchable jump still 0. */
  ghost predicate Tests(p: Program, own: Word, denied: seq<Word>, openers: seq<Opener>) {
    var nd, no := |denied|, |openers|;
    && |p| == AllowAt(nd, no) + 1
    && p[..4] == [Stmt(LdAbs, ARCH_WORD), Jump(JmpEq, own, 1, 0), Stmt(Ret, RET_KILL), Stmt(LdAbs, NR_WORD)]
    && (forall i :: 0 <= i < nd ==> p[DeniedAt(i)] == Jump(JmpEq, denied[i], 0, 0))
    && (forall i :: 0 <= i < no ==> p[OpenerAt(nd, i)] == Jump(JmpEq, openers[i].nr, 0, 0))
    && p[AllowAt(nd, no)] == Stmt(Ret, RET_ALLOW)
  }

  method EmitTests(own: Word, denied: seq<Word>, openers: seq<Opener>)
    returns (program: Program, toErrno: seq<nat>, toCheck: seq<nat>)
    ensures Tests(program, own, denied, openers)
    ensures toErrno == seq(|denied|, i requires i >= 0 => DeniedAt(i))
    ensures toCheck == seq(|openers|, i requires i >= 0 => OpenerAt(|denied|, i))
  {
    var nd, no := |denied|, |openers|;
    program := [Stmt(LdAbs, ARCH_WORD)];
    program := program + [Jump(JmpEq, own, 1, 0)];
    program := program + [Stmt(Ret, RET_KILL)];
    program := program + [Stmt(LdAbs, NR_WORD)];
    ghost var head := program;
    toErrno := [];
    for i := 0 to nd
      invariant |toErrno| == i && forall h :: 0 <= h < i ==> toErrno[h] == DeniedAt(h)
      invariant |program| == DeniedAt(i) && program[..4] == head
      invariant forall h :: 0 <= h < i ==> program[DeniedAt(h)] == Jump(JmpEq, denied[h], 0, 0)
    {
      toErrno := toErrno + [|program|];
      program := program + [Jump(JmpEq, denied[i], 0, 0)];
    }
    toCheck := [];
    for i := 0 to no
      invariant |toCheck| == i && forall h :: 0 <= h < i ==> toCheck[h] == OpenerAt(nd, h)
      invariant |program| == OpenerAt(nd, i) && program[..4] == head
      invariant forall h :: 0 <= h < nd ==> program[DeniedAt(h)] == Jump(JmpEq, denied[h], 0, 0)
      invariant forall h :: 0 <= h < i ==> program[OpenerAt(nd, h)] == Jump(JmpEq, openers[h].nr, 0, 0)
    {
      toCheck := toCheck + [|program|];
      program := program + [Jump(JmpEq, openers[i].nr, 0, 0)];
    }
    program := program + [Stmt(Ret, RET_ALLOW)];
  }

  /** The appends, every patchable jump still 0. */
  method Emit(own: Word, denied: seq<Word>, openers: seq<Opener>, mask: Word)
    returns (program: Program, toErrno: seq<nat>, toCheck: seq<nat>, checks: seq<nat>, toErrnoFromCheck: seq<nat>)
    requires forall o :: o in openers ==> o.flagsArg < 6
    ensures Drafted(program, own, denied, openers, mask, 0, 0, 0)
    ensures toErrno == seq(|denied|, i requires i >= 0 => DeniedAt(i))
    ensures toCheck == seq(|openers|, i requires i >= 0 => OpenerAt(|denied|, i))
    ensures checks == seq(|openers|, i requires i >= 0 => CheckAt(|denied|, |openers|, i))
    ensures toErrnoFromCheck == seq(|openers|, i requires i >= 0 => CheckAt(|denied|, |openers|, i) + 1)
  {
    hide FlagsAt, Tests, Drafted;
    var nd, no := |denied|, |openers|;
    program, toErrno, toCheck := EmitTests(own, denied, openers);
    ghost var tests := program;
    assert |program| == CheckAt(nd, no, 0) by { TestsSize(tests, own, denied, openers); }
    checks := [];
    toErrnoFromCheck := [];
    for i := 0 to no
      invariant |checks| == |toErrnoFromCheck| == i
      invariant forall h :: 0 <= h < i ==>
        checks[h] == CheckAt(nd, no, h) && toErrnoFromCheck[h] == CheckAt(nd, no, h) + 1
      invariant |program| == CheckAt(nd, no, i) && program[..5 + nd + no] == tests
      invariant forall h :: 0 <= h < i ==> CheckOf(program, CheckAt(nd, no, h), openers[h], mask)
    {
      checks := checks + [|program|];
      program := program + [Stmt(LdAbs, FlagsAt(openers[i]))];
      toErrnoFromCheck := toErrnoFromCheck + [|program|];
      program := program + [Jump(JmpSet, mask, 0, 0)];
      program := program + [Stmt(Ret, RET_ALLOW)];
    }
    program := program + [Stmt(Ret, REFUSE)];
    assert program[..5 + nd + no] == tests;
    EmittedIsDrafted(program, own, denied, openers, mask);
  }

  /** One opener's check, its jump still 0. */
  ghost predicate CheckOf(p: Program, at: nat, o: Opener, mask: Word)
    requires o.flagsArg < 6
  {
    && at + 2 < |p| && p[at] == Stmt(LdAbs, FlagsAt(o))
    && p[at + 1] == Jump(JmpSet, mask, 0, 0) && p[at + 2] == Stmt(Ret, RET_ALLOW)
  }

  lemma TestsSize(p: Program, own: Word, denied: seq<Word>, openers: seq<Opener>)
    requires Tests(p, own, denied, openers)
    ensures |p| == CheckAt(|denied|, |openers|, 0)
  {
  }

  lemma EmittedIsDrafted(p: Program, own: Word, denied: seq<Word>, openers: seq<Opener>, mask: Word)
    requires forall o :: o in openers ==> o.flagsArg < 6
    requires |p| == ErrnoAt(|denied|, |openers|) + 1
    requires Tests(p[..5 + |denied| + |openers|], own, denied, openers)
    requires forall h :: 0 <= h < |openers| ==> CheckOf(p, CheckAt(|denied|, |openers|, h), openers[h], mask)
    requires p[ErrnoAt(|denied|, |openers|)] == Stmt(Ret, REFUSE)
    ensures Drafted(p, own, denied, openers, mask, 0, 0, 0)
  {
    hide FlagsAt, Byte;
    var t := p[..5 + |denied| + |openers|];
    assert forall i :: 0 <= i < 4 ==> p[i] == t[..4][i];
    assert forall i :: 0 <= i < |t| ==> p[i] == t[i];
  }

  lemma DraftedSize(p: Program, own: Word, denied: seq<Word>, openers: seq<Opener>, mask: Word, a: nat, b: nat, d: nat)
    requires forall o :: o in openers ==> o.flagsArg < 6
    requires Drafted(p, own, denied, openers, mask, a, b, d)
    ensures |p| == ErrnoAt(|denied|, |openers|) + 1
  {
  }

  lemma PatchDenied(p: Program, own: Word, denied: seq<Word>, openers: seq<Opener>, mask: Word, i: nat)
    requires forall o :: o in openers ==> o.flagsArg < 6
    requires i < |denied| && Drafted(p, own, denied, openers, mask, i, 0, 0)
    ensures Drafted(Patched(p, DeniedAt(i), ErrnoAt(|denied|, |openers|)), own, denied, openers, mask, i + 1, 0, 0)
  {
    hide FlagsAt, Byte;
  }

  lemma PatchOpener(p: Program, own: Word, denied: seq<Word>, openers: seq<Opener>, mask: Word, i: nat)
    requires forall o :: o in openers ==> o.flagsArg < 6
    requires i < |openers| && Drafted(p, own, denied, openers, mask, |denied|, i, 0)
    ensures var nd := |denied|;
      Drafted(Patched(p, OpenerAt(nd, i), CheckAt(nd, |openers|, i)), own, denied, openers, mask, nd, i + 1, 0)
  {
    hide FlagsAt, Byte;
  }

  lemma PatchCheck(p: Program, own: Word, denied: seq<Word>, openers: seq<Opener>, mask: Word, i: nat)
    requires forall o :: o in openers ==> o.flagsArg < 6
    requires i < |openers| && Drafted(p, own, denied, openers, mask, |denied|, |openers|, i)
    ensures var nd, no := |denied|, |openers|;
      Drafted(Patched(p, CheckAt(nd, no, i) + 1, ErrnoAt(nd, no)), own, denied, openers, mask, nd, no, i + 1)
  {
    hide FlagsAt, Byte;
  }

  /** Builds the program and has it installed; `locked` and `installed` are the kernel's
      answers to giving up privileges and to the filter. Not ok is a program too long to
      install, or a refusal of either. */
  method Confine(own: Word, denied: seq<Word>, openers: seq<Opener>, mask: Word, locked: bool, installed: bool)
    returns (ok: bool, program: Program)
    requires forall o :: o in openers ==> o.flagsArg < 6
    ensures ok <==> 6 + |denied| + 4 * |openers| <= LIMIT && locked && installed
    ensures |program| == 6 + |denied| + 4 * |openers|
    ensures |program| <= LIMIT ==> JumpsFit(program)
    ensures |program| <= LIMIT ==> forall c :: Genuine(c) ==>
      Run(program, c, 0, 0) == Verdict(Wanted(c, own, denied, openers, mask))
  {
    hide FlagsAt, Byte, Run, JumpsFit, Laid, Wanted, Drafted, Patched;
    var nd, no := |denied|, |openers|;
    var toErrno, toCheck, checks, toErrnoFromCheck;
    program, toErrno, toCheck, checks, toErrnoFromCheck := Emit(own, denied, openers, mask);
    DraftedSize(program, own, denied, openers, mask, 0, 0, 0);
    var errnoAt := |program| - 1;
    for i := 0 to |toErrno|
      invariant Drafted(program, own, denied, openers, mask, i, 0, 0)
    {
      DraftedSize(program, own, denied, openers, mask, i, 0, 0);
      PatchDenied(program, own, denied, openers, mask, i);
      program := Patched(program, toErrno[i], errnoAt);
    }
    for i := 0 to |toCheck|
      invariant Drafted(program, own, denied, openers, mask, nd, i, 0)
    {
      DraftedSize(program, own, denied, openers, mask, nd, i, 0);
      PatchOpener(program, own, denied, openers, mask, i);
      program := Patched(program, toCheck[i], checks[i]);
    }
    for i := 0 to |toErrnoFromCheck|
      invariant Drafted(program, own, denied, openers, mask, nd, no, i)
    {
      DraftedSize(program, own, denied, openers, mask, nd, no, i);
      PatchCheck(program, own, denied, openers, mask, i);
      program := Patched(program, toErrnoFromCheck[i], errnoAt);
    }
    DraftedSize(program, own, denied, openers, mask, nd, no, no);
    ok := false;
    if |program| <= LIMIT {
      ok := locked && installed;
      DraftedIsLaid(program, own, denied, openers, mask);
      LaidFits(program, own, denied, openers, mask);
      forall c | Genuine(c)
        ensures Run(program, c, 0, 0) == Verdict(Wanted(c, own, denied, openers, mask))
      {
        Meaning(program, c, own, denied, openers, mask);
      }
    }
  }

  /** Within the limit no offset was cut. */
  lemma DraftedIsLaid(p: Program, own: Word, denied: seq<Word>, openers: seq<Opener>, mask: Word)
    requires forall o :: o in openers ==> o.flagsArg < 6
    requires Drafted(p, own, denied, openers, mask, |denied|, |openers|, |openers|) && |p| <= LIMIT
    ensures Laid(p, own, denied, openers, mask)
  {
    hide FlagsAt;
  }
}
