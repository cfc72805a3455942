/**
 The seccomp filter of confined processes: a list of denied system calls is
 compiled to classic BPF with relative jumps. The compiler, an interpreter for
 the instructions it uses, the kernel's static check of a filter, and the proof
 that running the compiled filter gives the declared policy on every call.
 */
module Seccomp {

  // Instruction classes and modes, as struct sock_filter encodes them.
  const BPF_LD: bv16 := 0x00
  const BPF_JMP: bv16 := 0x05
  const BPF_RET: bv16 := 0x06
  const BPF_W: bv16 := 0x00
  const BPF_ABS: bv16 := 0x20
  const BPF_JEQ: bv16 := 0x10
  const BPF_JSET: bv16 := 0x40
  const BPF_K: bv16 := 0x00

  const LOAD: bv16 := BPF_LD | BPF_W | BPF_ABS
  const JEQ: bv16 := BPF_JMP | BPF_JEQ | BPF_K
  const JSET: bv16 := BPF_JMP | BPF_JSET | BPF_K
  const RET: bv16 := BPF_RET | BPF_K

  const RET_ALLOW: bv32 := 0x7fff0000
  const RET_ERRNO: bv32 := 0x00050000
  const EPERM: bv32 := 1
  const ENOSYS: bv32 := 38
  const REFUSE: bv32 := RET_ERRNO | EPERM
  const NO_SUCH_CALL: bv32 := RET_ERRNO | ENOSYS

  const OFF_NR: bv32 := 0
  const OFF_ARCH: bv32 := 4
  const OFF_ARG0: bv32 := 16

  // CLONE_NEWNS, NEWUTS, NEWIPC, NEWUSER, NEWPID, NEWNET and NEWCGROUP.
  const NAMESPACE_FLAGS: bv32 :=
    0x00020000 | 0x04000000 | 0x08000000 | 0x10000000 | 0x20000000 | 0x40000000 | 0x02000000

  const X32_BIT: bv32 := 0x40000000

  datatype Insn = Insn(code: bv16, jt: nat, jf: nat, k: bv32)

  /** The part of struct seccomp_data the filter reads. */
  datatype Call = Call(nr: bv32, arch: bv32, arg0: bv32)

  datatype Platform = Amd64 | Arm64

  function NativeArch(p: Platform): bv32 {
    match p case Amd64 => 0xc000003e case Arm64 => 0xc00000b7
  }

  function SysClone(p: Platform): bv32 {
    match p case Amd64 => 56 case Arm64 => 220
  }

  const SYS_CLONE3: bv32 := 435

  function Jump(code: bv16, k: bv32, jt: nat, jf: nat): Insn { Insn(code, jt, jf, k) }
  function Load(off: bv32): Insn { Insn(LOAD, 0, 0, off) }
  function Return(k: bv32): Insn { Insn(RET, 0, 0, k) }

  // ---------------------------------------------------------------- machine

  datatype Outcome = Returned(verdict: bv32) | Fault

  predicate KnownOffset(off: bv32) { off == OFF_NR || off == OFF_ARCH || off == OFF_ARG0 }

  function Fetch(c: Call, off: bv32): bv32
    requires KnownOffset(off)
  {
    if off == OFF_NR then c.nr else if off == OFF_ARCH then c.arch else c.arg0
  }

  function Target(i: Insn, acc: bv32): nat {
    if (if i.code == JEQ then acc == i.k else acc & i.k != 0) then i.jt else i.jf
  }

  /** Runs a filter from pc with the accumulator acc; leaving the program, an
      unknown instruction or a load outside the call data is a fault. */
  function Run(p: seq<Insn>, c: Call, pc: nat, acc: bv32): Outcome
    decreases |p| - pc
  {
    if pc >= |p| then Fault
    else
      var i := p[pc];
      if i.code == LOAD then
        if KnownOffset(i.k) then Run(p, c, pc + 1, Fetch(c, i.k)) else Fault
      else if i.code == JEQ || i.code == JSET then Run(p, c, pc + 1 + Target(i, acc), acc)
      else if i.code == RET then Returned(i.k)
      else Fault
  }

  /** BPF_MAXINSNS. */
  const MAX_INSNS: nat := 4096

  /** What the kernel checks before it accepts a filter: its length, and that it
      is well formed. */
  ghost predicate Accepted(p: seq<Insn>) { |p| <= MAX_INSNS && WellFormed(p) }

  /** Known instructions, jumps that land inside the program, a return at the
      end. */
  ghost predicate WellFormed(p: seq<Insn>) {
    && |p| > 0 && p[|p| - 1].code == RET
    && forall i | 0 <= i < |p| :: InsnFits(p[i], |p| - 1 - i)
  }

  predicate InsnFits(i: Insn, left: nat) {
    || (i.code == LOAD && KnownOffset(i.k))
    || ((i.code == JEQ || i.code == JSET) && i.jt < left && i.jf < left)
    || i.code == RET
  }

  /** A well-formed filter always returns a verdict, whatever the call. */
  lemma {:induction false} WellFormedNeverFaults(p: seq<Insn>, c: Call, pc: nat, acc: bv32)
    requires WellFormed(p) && pc < |p|
    ensures Run(p, c, pc, acc).Returned?
    decreases |p| - pc
  {
    var i := p[pc];
    assert InsnFits(i, |p| - 1 - pc);
    if i.code == LOAD {
      if pc + 1 == |p| {
        assert false;
      } else {
        WellFormedNeverFaults(p, c, pc + 1, Fetch(c, i.k));
      }
    } else if i.code == JEQ || i.code == JSET {
      WellFormedNeverFaults(p, c, pc + 1 + Target(i, acc), acc);
    }
  }

  // --------------------------------------------------------------- compiler

  function ExtraRules(p: Platform): seq<Insn> {
    match p
    case Amd64 => [Jump(JSET, X32_BIT, 0, 1), Return(REFUSE)]
    case Arm64 => []
  }

  function ArchRules(p: Platform): seq<Insn> {
    [Load(OFF_ARCH), Jump(JEQ, NativeArch(p), 1, 0), Return(REFUSE), Load(OFF_NR)]
  }

  function Clone3Rules(): seq<Insn> { [Jump(JEQ, SYS_CLONE3, 0, 1), Return(NO_SUCH_CALL)] }

  function CloneRules(p: Platform): seq<Insn> {
    [Jump(JEQ, SysClone(p), 0, 3), Load(OFF_ARG0), Jump(JSET, NAMESPACE_FLAGS, 0, 1), Return(REFUSE),
     Load(OFF_NR)]
  }

  function DeniedRules(denied: seq<bv32>): seq<Insn> {
    if denied == [] then []
    else DeniedRules(denied[..|denied| - 1]) + [Jump(JEQ, denied[|denied| - 1], 0, 1), Return(REFUSE)]
  }

  function Program(p: Platform, denied: seq<bv32>): seq<Insn> {
    ArchRules(p) + (ExtraRules(p) + (Clone3Rules() + (CloneRules(p) + (DeniedRules(denied) + [Return(RET_ALLOW)]))))
  }

  // ----------------------------------------------------------------- policy

  predicate CreatesNamespace(p: Platform, c: Call) {
    c.nr == SysClone(p) && c.arg0 & NAMESPACE_FLAGS != 0
  }

  predicate IsX32(p: Platform, c: Call) { p == Amd64 && c.nr & X32_BIT != 0 }

  /** The declared policy, independent of any instruction. */
  function Policy(p: Platform, denied: seq<bv32>, c: Call): bv32 {
    if c.arch != NativeArch(p) || IsX32(p, c) then REFUSE
    else if c.nr == SYS_CLONE3 then NO_SUCH_CALL
    else if CreatesNamespace(p, c) || c.nr in denied then REFUSE
    else RET_ALLOW
  }

  // ------------------------------------------------------------ correctness

  /** Jumps are relative: code runs the same wherever it is placed. */
  lemma {:induction false} Relocate(a: seq<Insn>, b: seq<Insn>, c: Call, pc: nat, acc: bv32)
    ensures Run(a + b, c, |a| + pc, acc) == Run(b, c, pc, acc)
    decreases |b| - pc
  {
    if pc < |b| {
      var i := b[pc];
      assert (a + b)[|a| + pc] == i;
      if i.code == LOAD {
        if KnownOffset(i.k) { Relocate(a, b, c, pc + 1, Fetch(c, i.k)); }
      } else if i.code == JEQ || i.code == JSET {
        Relocate(a, b, c, pc + 1 + Target(i, acc), acc);
      }
    }
  }

  lemma {:induction false} DeniedCorrect(denied: seq<bv32>, tail: seq<Insn>, c: Call, acc: bv32)
    ensures Run(DeniedRules(denied) + tail, c, 0, acc) ==
            if acc in denied then Returned(REFUSE) else Run(tail, c, 0, acc)
  {
    if denied == [] {
      assert DeniedRules(denied) + tail == tail;
    } else {
      var last := denied[|denied| - 1];
      var rest := denied[..|denied| - 1];
      var rule := [Jump(JEQ, last, 0, 1), Return(REFUSE)];
      assert denied == rest + [last];
      assert DeniedRules(denied) + tail == DeniedRules(rest) + (rule + tail);
      DeniedCorrect(rest, rule + tail, c, acc);
      assert (rule + tail)[0] == rule[0] && (rule + tail)[1] == rule[1];
      if acc != last { Relocate(rule, tail, c, 0, acc); }
    }
  }

  lemma Clone3Correct(tail: seq<Insn>, c: Call)
    ensures Run(Clone3Rules() + tail, c, 0, c.nr) ==
            if c.nr == SYS_CLONE3 then Returned(NO_SUCH_CALL) else Run(tail, c, 0, c.nr)
  {
    var q := Clone3Rules() + tail;
    assert q[0] == Clone3Rules()[0] && q[1] == Clone3Rules()[1];
    Relocate(Clone3Rules(), tail, c, 0, c.nr);
  }

  /** After the clone rules the accumulator holds the call number again,
      whether or not the flags were loaded. */
  lemma CloneCorrect(p: Platform, tail: seq<Insn>, c: Call)
    ensures Run(CloneRules(p) + tail, c, 0, c.nr) ==
            if CreatesNamespace(p, c) then Returned(REFUSE) else Run(tail, c, 0, c.nr)
  {
    var q := CloneRules(p) + tail;
    assert q[0] == CloneRules(p)[0] && q[1] == CloneRules(p)[1] && q[2] == CloneRules(p)[2];
    assert q[3] == CloneRules(p)[3] && q[4] == CloneRules(p)[4];
    Relocate(CloneRules(p), tail, c, 0, c.nr);
    assert forall acc :: Run(q, c, 4, acc) == Run(q, c, 5, c.nr);
    assert Run(q, c, 2, c.arg0) ==
           if c.arg0 & NAMESPACE_FLAGS != 0 then Returned(REFUSE) else Run(q, c, 4, c.arg0);
    assert forall acc :: Run(q, c, 1, acc) == Run(q, c, 2, c.arg0);
  }

  lemma ExtraCorrect(p: Platform, tail: seq<Insn>, c: Call)
    ensures Run(ExtraRules(p) + tail, c, 0, c.nr) ==
            if IsX32(p, c) then Returned(REFUSE) else Run(tail, c, 0, c.nr)
  {
    var q := ExtraRules(p) + tail;
    if p == Amd64 {
      assert q[0] == ExtraRules(p)[0] && q[1] == ExtraRules(p)[1];
      Relocate(ExtraRules(p), tail, c, 0, c.nr);
    } else {
      assert q == tail;
    }
  }

  lemma ArchCorrect(p: Platform, tail: seq<Insn>, c: Call)
    ensures Run(ArchRules(p) + tail, c, 0, 0) ==
            if c.arch != NativeArch(p) then Returned(REFUSE) else Run(tail, c, 0, c.nr)
  {
    var q := ArchRules(p) + tail;
    assert forall i | 0 <= i < 4 :: q[i] == ArchRules(p)[i];
    assert Run(q, c, 0, 0) == Run(q, c, 1, c.arch);
    if c.arch == NativeArch(p) {
      assert Run(q, c, 1, c.arch) == Run(q, c, 3, c.arch) == Run(q, c, 4, c.nr);
      Relocate(ArchRules(p), tail, c, 0, c.nr);
    } else {
      assert Run(q, c, 1, c.arch) == Run(q, c, 2, c.arch);
    }
  }

  /** The compiled filter decides every call exactly as the policy declares. */
  lemma FilterImplementsPolicy(p: Platform, denied: seq<bv32>, c: Call)
    ensures Run(Program(p, denied), c, 0, 0) == Returned(Policy(p, denied, c))
  {
    var allow := [Return(RET_ALLOW)];
    var body := CloneRules(p) + (DeniedRules(denied) + allow);
    ArchCorrect(p, ExtraRules(p) + (Clone3Rules() + body), c);
    ExtraCorrect(p, Clone3Rules() + body, c);
    Clone3Correct(body, c);
    CloneCorrect(p, DeniedRules(denied) + allow, c);
    DeniedCorrect(denied, allow, c, c.nr);
  }

  /** Read backwards: a call goes through only when nothing in the policy is
      against it, so no denied call and no namespace is ever reached. */
  lemma AllowedIff(p: Platform, denied: seq<bv32>, c: Call)
    ensures Run(Program(p, denied), c, 0, 0) == Returned(RET_ALLOW) <==>
            && c.arch == NativeArch(p) && !IsX32(p, c) && c.nr != SYS_CLONE3
            && !CreatesNamespace(p, c) && c.nr !in denied
  {
    FilterImplementsPolicy(p, denied, c);
  }

  lemma {:induction false} DeniedRulesFit(denied: seq<bv32>, left: nat)
    requires left >= 1
    ensures |DeniedRules(denied)| == 2 * |denied|
    ensures forall i | 0 <= i < 2 * |denied| ::
              InsnFits(DeniedRules(denied)[i], 2 * |denied| - 1 - i + left)
  {
    if denied != [] {
      DeniedRulesFit(denied[..|denied| - 1], left + 2);
    }
  }

  /** The filter is well formed for every list: each jump lands inside. */
  lemma FilterIsWellFormed(p: Platform, denied: seq<bv32>)
    ensures WellFormed(Program(p, denied))
    ensures |Program(p, denied)| == 12 + |ExtraRules(p)| + 2 * |denied|
  {
    var f := Program(p, denied);
    DeniedRulesFit(denied, 1);
    var x := ExtraRules(p);
    forall i | 0 <= i < |f| ensures InsnFits(f[i], |f| - 1 - i) {
      if i < 4 {
        assert f[i] == ArchRules(p)[i];
      } else if i < 4 + |x| {
        assert f[i] == x[i - 4];
      } else if i < 6 + |x| {
        assert f[i] == Clone3Rules()[i - 4 - |x|];
      } else if i < 11 + |x| {
        assert f[i] == CloneRules(p)[i - 6 - |x|];
      } else if i < 11 + |x| + 2 * |denied| {
        assert f[i] == DeniedRules(denied)[i - 11 - |x|];
      }
    }
  }

  /** How many instructions a list compiles to. */
  function Length(p: Platform, denied: seq<bv32>): nat { 12 + |ExtraRules(p)| + 2 * |denied| }

  /** The kernel is handed a pointer and a 16-bit length, so it reads no more of
      the filter than that length says. */
  function Handed(f: seq<Insn>): seq<Insn> { f[..|f| % 0x1_0000] }

  lemma {:induction false} DeniedRulesAlternate(denied: seq<bv32>)
    ensures |DeniedRules(denied)| == 2 * |denied|
    ensures forall i | 0 <= i < |denied| ::
              && DeniedRules(denied)[2 * i].code == JEQ && DeniedRules(denied)[2 * i].jf == 1
              && DeniedRules(denied)[2 * i + 1].code == RET
  {
    if denied != [] { DeniedRulesAlternate(denied[..|denied| - 1]); }
  }

  /** Every return but the last stands behind a jump over it. */
  lemma ReturnIsJumpedOver(p: Platform, denied: seq<bv32>, i: nat)
    requires i < Length(p, denied) - 1 && i < |Program(p, denied)| && Program(p, denied)[i].code == RET
    ensures i > 0 && !InsnFits(Program(p, denied)[i - 1], 1)
  {
    var f, x := Program(p, denied), ExtraRules(p);
    FilterIsWellFormed(p, denied);
    hide DeniedRules;
    if i < 4 {
      assert f[i] == ArchRules(p)[i] && (i > 0 ==> f[i - 1] == ArchRules(p)[i - 1]);
    } else if i < 4 + |x| {
      assert f[i] == x[i - 4] && (i > 4 ==> f[i - 1] == x[i - 5]);
    } else if i < 6 + |x| {
      assert f[i] == Clone3Rules()[i - 4 - |x|] && (i > 4 + |x| ==> f[i - 1] == Clone3Rules()[i - 5 - |x|]);
    } else if i < 11 + |x| {
      assert f[i] == CloneRules(p)[i - 6 - |x|] && (i > 6 + |x| ==> f[i - 1] == CloneRules(p)[i - 7 - |x|]);
    } else {
      var k := i - 11 - |x|;
      DeniedRulesFit(denied, 1);
      assert f[i] == DeniedRules(denied)[k] && (k > 0 ==> f[i - 1] == DeniedRules(denied)[k - 1]);
      DeniedReturn(denied, k);
    }
  }

  lemma DeniedReturn(denied: seq<bv32>, k: nat)
    requires k < 2 * |denied| == |DeniedRules(denied)| && DeniedRules(denied)[k].code == RET
    ensures k > 0 && DeniedRules(denied)[k - 1].code == JEQ && DeniedRules(denied)[k - 1].jf == 1
  {
    DeniedRulesAlternate(denied);
    hide DeniedRules;
    var h := k / 2;
    assert DeniedRules(denied)[2 * h].code == JEQ && JEQ != RET && (k == 2 * h || k == 2 * h + 1);
  }

  /** The kernel takes what it is handed if and only if the filter has no more
      instructions than it allows; a filter whose length does not fit the field
      is refused as well, never taken in part. */
  lemma FilterAccepted(p: Platform, denied: seq<bv32>)
    ensures Accepted(Handed(Program(p, denied))) <==> Length(p, denied) <= MAX_INSNS
    ensures Accepted(Program(p, denied)) <==> Length(p, denied) <= MAX_INSNS
    ensures Accepted(Handed(Program(p, denied))) ==> Handed(Program(p, denied)) == Program(p, denied)
  {
    var f := Program(p, denied);
    FilterIsWellFormed(p, denied);
    var n := |f| % 0x1_0000;
    if |f| < 0x1_0000 {
      assert f[..n] == f;
    } else if n > 0 && f[n - 1].code == RET {
      ReturnIsJumpedOver(p, denied, n - 1);
      assert f[..n][n - 2] == f[n - 2];
    }
  }

  lemma ProgramParts(p: Platform, denied: seq<bv32>)
    ensures Program(p, denied) == ArchRules(p) + (ExtraRules(p) + (Clone3Rules() + CloneRules(p))) +
                                  (DeniedRules(denied) + [Return(RET_ALLOW)])
  {
    hide DeniedRules;
  }

  /** The builder as the service runs it: it appends to a slice, two
      instructions for each denied call. */
  method Seccomp(p: Platform, denied: seq<bv32>) returns (f: seq<Insn>)
    ensures WellFormed(f) && (Accepted(Handed(f)) <==> Length(p, denied) <= MAX_INSNS)
    ensures forall c :: Run(f, c, 0, 0) == Returned(Policy(p, denied, c))
  {
    hide Run, Policy, WellFormed, Accepted, Handed, Length;
    f := [Load(OFF_ARCH), Jump(JEQ, NativeArch(p), 1, 0), Return(REFUSE), Load(OFF_NR)];
    f := f + ExtraRules(p);
    f := f + [Jump(JEQ, SYS_CLONE3, 0, 1), Return(NO_SUCH_CALL),
              Jump(JEQ, SysClone(p), 0, 3), Load(OFF_ARG0), Jump(JSET, NAMESPACE_FLAGS, 0, 1), Return(REFUSE),
              Load(OFF_NR)];
    ghost var head := f;
    assert head == ArchRules(p) + (ExtraRules(p) + (Clone3Rules() + CloneRules(p)));
    for i := 0 to |denied|
      invariant f == head + DeniedRules(denied[..i])
    {
      assert denied[..i + 1][..i] == denied[..i];
      f := f + [Jump(JEQ, denied[i], 0, 1), Return(REFUSE)];
    }
    assert denied[..|denied|] == denied;
    ghost var rest := DeniedRules(denied);
    f := f + [Return(RET_ALLOW)];
    ProgramParts(p, denied);
    assert f == head + (rest + [Return(RET_ALLOW)]);
    FilterIsWellFormed(p, denied);
    FilterAccepted(p, denied);
    forall c ensures Run(f, c, 0, 0) == Returned(Policy(p, denied, c)) {
      FilterImplementsPolicy(p, denied, c);
    }
  }
}
