/** The bytes of a thunk: instructions with displacements to be patched, and
    the layout that places the sequence, its jump back and its constants. */
module Layout {
  import opened Common
  import opened Words
  import Mvex
  import Card

  type Constant = c: seq<byte> | |c| == 64 witness seq(64, _ => 0)

  /** What a displacement points at: a constant, or an address of the program. */
  datatype Target = Const(index: nat) | Rip(address: int)

  /** A displacement at `dispAt`, of the instruction ending at `insnEnd`. */
  datatype Fixup = Fixup(dispAt: nat, insnEnd: nat, what: Target)

  predicate InWindow(f: Fixup, p: int) {
    f.dispAt <= p < f.dispAt + 4
  }

  datatype Thunk = Thunk(code: seq<byte>, fixups: seq<Fixup>, consts: seq<Constant>) {
    /** Windows in range, one after another, each in its own instruction. */
    ghost predicate Sound() {
      && (forall i :: 0 <= i < |fixups| ==> FixupOk(fixups[i]))
      && (forall i, j :: 0 <= i < j < |fixups| ==> fixups[i].insnEnd <= fixups[j].dispAt)
    }

    ghost predicate FixupOk(f: Fixup) {
      f.dispAt + 4 <= f.insnEnd <= |code| && (f.what.Const? ==> f.what.index < |consts|)
    }
  }

  // ---- instructions ----

  /** The r/m operand: a register, memory, the scratch area, a constant. */
  datatype Operand = Reg(r: nat) | Mem(a: Card.MemOp) | Fs(off: int) | Pool(index: nat) {
    predicate Ok() {
      match this
      case Reg(r) => r < 32
      case Mem(a) => a.Ok()
      case _ => true
    }

    function X(): (x: nat)
      requires Ok()
      ensures x < 2
    {
      match this
      case Reg(r) => r / 16
      case Mem(a) => if a.index.Some? then a.index.value / 8 else 0
      case _ => 0
    }

    function B(): (b: nat)
      requires Ok()
      ensures b < 2
    {
      match this
      case Reg(r) => r / 8 % 2
      case Mem(a) => if a.base.Some? then a.base.value / 8 else 0
      case _ => 0
    }

    /** The operand is reached from the instruction's end. */
    predicate Relative() {
      Pool? || (Mem? && a.rip.Some?)
    }

    function Target(): Target
      requires Relative()
    {
      if Pool? then Const(index) else Rip(a.rip.value)
    }
  }

  /** ModRM and SIB of a based, indexed or absolute operand; the 32-bit
      displacement follows. */
  function MemBytes(r3: nat, a: Card.MemOp): seq<byte>
    requires r3 < 8 && a.Ok()
  {
    match (a.base, a.index)
    case (Some(b), None) => if b % 8 != 4 then [128 + 8 * r3 + b % 8] else [132 + 8 * r3, 36]
    case (Some(b), Some(i)) => [132 + 8 * r3, 64 * a.scale + 8 * (i % 8) + b % 8]
    case (None, Some(i)) => [4 + 8 * r3, 64 * a.scale + 8 * (i % 8) + 5]
    case (None, None) => [4 + 8 * r3, 37]
  }

  function OperandBytes(reg: nat, rm: Operand, scratch: int): seq<byte>
    requires reg < 32 && rm.Ok()
  {
    var r3 := reg % 8;
    if rm.Relative() then [5 + 8 * r3, 0, 0, 0, 0]
    else if rm.Reg? then [192 + 8 * r3 + rm.r % 8]
    else if rm.Fs? then [4 + 8 * r3, 37] + ToLe(scratch + rm.off)
    else MemBytes(r3, rm.a) + ToLe(rm.a.disp)
  }

  function Opening(mm: nat, pp: nat, w: nat, op: byte, reg: nat, vvvv: nat, rm: Operand, k: nat, sss: nat): seq<byte>
    requires mm < 4 && pp < 4 && w < 2 && reg < 32 && vvvv < 32 && rm.Ok() && k < 8 && sss < 8
  {
    (if rm.Fs? then [0x64] else [])
    + [0x62, Mvex.P0(reg, rm.X(), rm.B(), mm), Mvex.P1(w, vvvv, pp), Mvex.P2(0, sss, vvvv, k), op]
  }

  function ImmBytes(imm: Option<byte>): seq<byte> {
    if imm.Some? then [imm.value] else []
  }

  class Assembler {
    var t: Thunk
    const scratch: int

    constructor (scratch: int)
      ensures t == Thunk([], [], []) && t.Sound() && this.scratch == scratch
    {
      t := Thunk([], [], []);
      this.scratch := scratch;
    }

    /** Bytes with nothing to patch. */
    method Raw(b: seq<byte>)
      requires t.Sound()
      modifies this`t
      ensures t.Sound() && t == old(t).(code := old(t).code + b)
    {
      t := t.(code := t.code + b);
    }

    /** One MVEX instruction; a relative operand leaves a window of zeroes. */
    method Instruction(mm: nat, pp: nat, w: nat, op: byte, reg: nat, vvvv: nat, rm: Operand, k: nat, sss: nat,
                       imm: Option<byte>)
      requires t.Sound() && mm < 4 && pp < 4 && w < 2 && reg < 32 && vvvv < 32 && rm.Ok() && k < 8 && sss < 8
      requires rm.Pool? ==> rm.index < |t.consts|
      modifies this`t
      ensures t.Sound() && t.consts == old(t).consts
      ensures t.code
              == old(t).code + Opening(mm, pp, w, op, reg, vvvv, rm, k, sss)
                 + OperandBytes(reg, rm, scratch) + ImmBytes(imm)
      ensures t.fixups == if rm.Relative()
              then old(t).fixups + [Fixup(|old(t).code| + 6, |t.code|, rm.Target())] else old(t).fixups
    {
      var code := t.code + Opening(mm, pp, w, op, reg, vvvv, rm, k, sss);
      var at := |code| + 1;
      code := code + OperandBytes(reg, rm, scratch) + ImmBytes(imm);
      t := t.(code := code);
      if rm.Relative() {
        t := t.(fixups := t.fixups + [Fixup(at, |code|, rm.Target())]);
      }
    }

    /** The operand of a scalar instruction whose opcode is already out. */
    method MemModrm(reg: nat, a: Card.MemOp)
      requires t.Sound() && reg < 16 && a.Ok()
      modifies this`t
      ensures t.Sound() && t.consts == old(t).consts && t.code == old(t).code + OperandBytes(reg, Mem(a), scratch)
      ensures t.fixups == if a.rip.Some?
              then old(t).fixups + [Fixup(|old(t).code| + 1, |t.code|, Rip(a.rip.value))] else old(t).fixups
    {
      var code := t.code + OperandBytes(reg, Mem(a), scratch);
      var at := |t.code| + 1;
      t := t.(code := code);
      if a.rip.Some? {
        t := t.(fixups := t.fixups + [Fixup(at, |code|, Rip(a.rip.value))]);
      }
    }

    /** The index of a constant, added if it is not there yet. */
    method Constant(c: Constant) returns (i: nat)
      requires t.Sound()
      modifies this`t
      ensures t.Sound() && t.code == old(t).code && t.fixups == old(t).fixups
      ensures i < |t.consts| && t.consts[i] == c
      ensures t.consts == if c in old(t).consts then old(t).consts else old(t).consts + [c]
    {
      i := 0;
      while i < |t.consts|
        invariant 0 <= i <= |t.consts| && t == old(t) && forall j :: 0 <= j < i ==> t.consts[j] != c
      {
        if t.consts[i] == c { return; }
        i := i + 1;
      }
      t := t.(consts := t.consts + [c]);
    }
  }

  // ---- layout ----

  /** Four bytes that spell the distance from `from` to `target`, the lowest
      byte first and modulo 2^32. */
  predicate Points(b: seq<byte>, from: int, target: int) {
    Spells(b, target - from)
  }

  /** The card reaches the target exactly when the distance fits 32 bits. */
  lemma PointsExactly(b: seq<byte>, from: int, target: int)
    requires Points(b, from, target)
    ensures from + FromLe(b) == target <==> -0x8000_0000 <= target - from < 0x8000_0000
  {
    assert |b| == 4;
    hide Spells, FromLe, Low32;
    FromLeSpells(b, FromLe(b));
    SpellsOnce(b, FromLe(b), target - from);
    LowFits(FromLe(b), target - from);
  }

  lemma PointsLe(from: int, target: int)
    ensures Points(ToLe(target - from), from, target)
  {
    ToLeSpells(target - from);
  }

  /** Constant `c` stands at address `w`, on a 64-byte boundary. */
  ghost predicate Stands(t: seq<byte>, at: nat, start: nat, c: Constant, w: nat) {
    w % 64 == 0 && at + start <= w && w + 64 <= at + |t| && t[w - at..w - at + 64] == c
  }

  /** The constants stand on their boundaries, in order and apart. */
  ghost predicate Pooled(t: seq<byte>, at: nat, start: nat, consts: seq<Constant>, where: seq<nat>) {
    && |where| <= |consts|
    && (forall i :: 0 <= i < |where| ==> Stands(t, at, start, consts[i], where[i]))
    && (forall i, j :: 0 <= i < j < |where| ==> where[i] + 64 <= where[j])
  }

  lemma StandsOn(t: seq<byte>, u: seq<byte>, at: nat, start: nat, c: Constant, w: nat)
    requires Stands(t, at, start, c, w) && t <= u
    ensures Stands(u, at, start, c, w)
  {
    assert u[w - at..w - at + 64] == t[w - at..w - at + 64];
  }

  lemma PooledGrow(t: seq<byte>, u: seq<byte>, at: nat, start: nat, consts: seq<Constant>, where: seq<nat>)
    requires Pooled(t, at, start, consts, where) && t <= u
    ensures Pooled(u, at, start, consts, where)
  {
    hide Stands;
    forall i | 0 <= i < |where| ensures Stands(u, at, start, consts[i], where[i]) {
      StandsOn(t, u, at, start, consts[i], where[i]);
    }
  }

  lemma PooledPush(t: seq<byte>, at: nat, start: nat, consts: seq<Constant>, where: seq<nat>)
    requires Pooled(t, at, start, consts, where) && |where| < |consts| && start <= |t| && (at + |t|) % 64 == 0
    ensures Pooled(t + consts[|where|], at, start, consts, where + [at + |t|])
  {
    var u, n := t + consts[|where|], at + |t|;
    assert u[|t|..|t| + 64] == consts[|where|];
    assert Stands(u, at, start, consts[|where|], n);
    PooledGrow(t, u, at, start, consts, where);
    forall i | 0 <= i < |where| ensures where[i] + 64 <= n { assert Stands(t, at, start, consts[i], where[i]); }
    hide Stands;
  }

  /** How far an address is from the next boundary. */
  function Short(x: nat): nat {
    (64 - x % 64) % 64
  }

  lemma ShortIs(x: nat)
    ensures Short(x) < 64 && (Short(x) == 0 <==> x % 64 == 0)
  {
  }

  lemma ShortStep(x: nat)
    requires x % 64 != 0
    ensures Short(x) > 0 && Short(x + 1) == Short(x) - 1
  {
  }

  /** Padding to the next boundary. */
  method Pad(code: seq<byte>, at: nat) returns (t: seq<byte>)
    ensures code <= t && (at + |t|) % 64 == 0 && |t| < |code| + 64 && forall p :: |code| <= p < |t| ==> t[p] == 0xcc
  {
    hide Short;
    t := code;
    while (at + |t|) % 64 != 0
      invariant code <= t && forall p :: |code| <= p < |t| ==> t[p] == 0xcc
      invariant Short(at + |t|) + |t| == Short(at + |code|) + |code|
      decreases Short(at + |t|)
    {
      ShortStep(at + |t|);
      t := t + [0xcc];
    }
    ShortIs(at + |t|);
    ShortIs(at + |code|);
  }

  /** The constants, each after padding to the next boundary. */
  method Pool(code: seq<byte>, consts: seq<Constant>, at: nat) returns (t: seq<byte>, where: seq<nat>)
    ensures code <= t && |where| == |consts| && Pooled(t, at, |code|, consts, where)
  {
    t, where := code, [];
    for n := 0 to |consts|
      invariant code <= t && |where| == n && Pooled(t, at, |code|, consts, where)
    {
      hide Pooled;
      var u := Pad(t, at);
      PooledGrow(t, u, at, |code|, consts, where);
      PooledPush(u, at, |code|, consts, where);
      where := where + [at + |u|];
      t := u + consts[n];
    }
  }

  function Address(f: Fixup, where: seq<nat>): int
    requires f.what.Const? ==> f.what.index < |where|
  {
    match f.what case Const(i) => where[i] case Rip(a) => a
  }

  /** Every byte outside the windows of the first `n` fixups is as it was,
      and those windows point at their targets. */
  ghost predicate PatchedTo(th: Thunk, was: seq<byte>, t: seq<byte>, at: nat, where: seq<nat>, n: nat)
    requires th.Sound() && n <= |th.fixups| && |where| == |th.consts| && |th.code| <= |was|
  {
    && |t| == |was|
    && (forall p :: 0 <= p < |t| && (forall j :: 0 <= j < n ==> !InWindow(th.fixups[j], p)) ==> t[p] == was[p])
    && (forall j :: 0 <= j < n ==>
                      var f := th.fixups[j];
                      Points(t[f.dispAt..f.dispAt + 4], at + f.insnEnd, Address(f, where)))
  }

  /** Position `p` is in no window. */
  ghost predicate Unpatched(th: Thunk, p: int) {
    forall j :: 0 <= j < |th.fixups| ==> !InWindow(th.fixups[j], p)
  }

  method Patch(th: Thunk, was: seq<byte>, at: nat, where: seq<nat>) returns (t: seq<byte>)
    requires th.Sound() && |where| == |th.consts| && |th.code| <= |was|
    ensures PatchedTo(th, was, t, at, where, |th.fixups|)
  {
    t := was;
    for n := 0 to |th.fixups|
      invariant PatchedTo(th, was, t, at, where, n)
    {
      var f := th.fixups[n];
      var b := ToLe(Address(f, where) - (at + f.insnEnd));
      PatchOne(th, was, t, at, where, n, b);
      t := t[..f.dispAt] + b + t[f.dispAt + 4..];
    }
  }

  lemma PatchOne(th: Thunk, was: seq<byte>, t: seq<byte>, at: nat, where: seq<nat>, n: nat, b: seq<byte>)
    requires th.Sound() && n < |th.fixups| && |where| == |th.consts| && |th.code| <= |was|
    requires PatchedTo(th, was, t, at, where, n)
    requires b == ToLe(Address(th.fixups[n], where) - (at + th.fixups[n].insnEnd))
    ensures var f := th.fixups[n];
            PatchedTo(th, was, t[..f.dispAt] + b + t[f.dispAt + 4..], at, where, n + 1)
  {
    hide ToLe, Points;
    var f := th.fixups[n];
    var u := t[..f.dispAt] + b + t[f.dispAt + 4..];
    PointsLe(at + f.insnEnd, Address(f, where));
    assert u[f.dispAt..f.dispAt + 4] == b;
    forall j | 0 <= j < n
      ensures var g := th.fixups[j];
              Points(u[g.dispAt..g.dispAt + 4], at + g.insnEnd, Address(g, where))
    {
      var g := th.fixups[j];
      assert u[g.dispAt..g.dispAt + 4] == t[g.dispAt..g.dispAt + 4];
    }
    forall p | 0 <= p < |u| && (forall j :: 0 <= j < n + 1 ==> !InWindow(th.fixups[j], p)) ensures u[p] == was[p] {
      assert !InWindow(f, p);
      assert u[p] == t[p];
    }
  }

  /** A jump at the front of `b`, placed at `at`, to `target`. */
  predicate Jumps(b: seq<byte>, at: int, target: int) {
    |b| >= 5 && b[0] == 0xe9 && Points(b[1..5], at + 5, target)
  }

  method Jump(at: int, target: int) returns (b: seq<byte>)
    ensures |b| == 5 && Jumps(b, at, target)
  {
    hide ToLe;
    b := [0xe9] + ToLe(target - (at + 5));
    PointsLe(at + 5, target);
    assert b[1..5] == ToLe(target - (at + 5));
  }

  /** The site's replacement: a jump to the thunk, then NOPs. */
  method SiteBytes(at: nat, site: nat, len: nat) returns (s: seq<byte>)
    ensures |s| == Max(len, 5) && Jumps(s, site, at) && forall p :: 5 <= p < |s| ==> s[p] == 0x90
  {
    s := Jump(site, at);
    ghost var jump := s;
    while |s| < len
      invariant 5 <= |s| <= Max(len, 5) && jump <= s && forall p :: 5 <= p < |s| ==> s[p] == 0x90
    {
      s := s + [0x90];
    }
    assert s[1..5] == jump[1..5];
  }

  /** The thunk laid out at `at`: its code with every displacement pointing
      at its constant or address and no other byte changed, the jump to the
      next instruction, the constants aligned and intact. */
  method ThunkBytes(th: Thunk, at: nat, site: nat, len: nat, next: nat)
    returns (t: seq<byte>, s: seq<byte>, where: seq<nat>)
    requires th.Sound()
    ensures |where| == |th.consts| && |th.code| + 5 <= |t|
    ensures forall p :: 0 <= p < |th.code| && Unpatched(th, p) ==> t[p] == th.code[p]
    ensures forall j :: 0 <= j < |th.fixups| ==>
                          var f := th.fixups[j];
                          Points(t[f.dispAt..f.dispAt + 4], at + f.insnEnd, Address(f, where))
    ensures Jumps(t[|th.code|..], at + |th.code|, next)
    ensures Pooled(t, at, |th.code| + 5, th.consts, where)
    ensures |s| == Max(len, 5) && Jumps(s, site, at) && forall p :: 5 <= p < |s| ==> s[p] == 0x90
  {
    hide Points, ToLe;
    var n := |th.code|;
    var back := Jump(at + n, next);
    var u: seq<byte>;
    u, where := Pool(th.code + back, th.consts, at);
    t := Patch(th, u, at, where);
    s := SiteBytes(at, site, len);
    Beyond(th, u, t, at, where);
    assert t[n..][..5] == u[n..][..5] == back;
    assert t[n..][1..5] == back[1..5];
    forall p | 0 <= p < n && Unpatched(th, p)
      ensures t[p] == th.code[p]
    {
      assert t[p] == u[p];
    }
    forall i | 0 <= i < |where| ensures Stands(t, at, n + 5, th.consts[i], where[i]) {
      assert Stands(u, at, n + 5, th.consts[i], where[i]);
      assert t[where[i] - at..where[i] - at + 64] == u[where[i] - at..where[i] - at + 64];
    }
  }

  /** Patching leaves everything behind the code. */
  lemma Beyond(th: Thunk, was: seq<byte>, t: seq<byte>, at: nat, where: seq<nat>)
    requires th.Sound() && |where| == |th.consts| && |th.code| <= |was| && PatchedTo(th, was, t, at, where, |th.fixups|)
    ensures |t| == |was| && forall p :: |th.code| <= p < |t| ==> t[p] == was[p]
  {
    hide Points;
    forall p | |th.code| <= p < |t| ensures t[p] == was[p] {
      assert forall j :: 0 <= j < |th.fixups| ==> !InWindow(th.fixups[j], p);
    }
  }

  /** An instruction with a constant operand reads that constant, in any
      thunk below 2 GiB. */
  lemma ConstantRead(th: Thunk, t: seq<byte>, at: nat, where: seq<nat>, f: Fixup)
    requires th.FixupOk(f) && f.what.Const? && |th.code| <= |t| < 0x8000_0000
    requires |where| == |th.consts| && Pooled(t, at, |th.code| + 5, th.consts, where)
    requires Points(t[f.dispAt..f.dispAt + 4], at + f.insnEnd, Address(f, where))
    ensures var read := at + f.insnEnd + FromLe(t[f.dispAt..f.dispAt + 4]);
            && read % 64 == 0 && at <= read <= at + |t| - 64
            && t[read - at..read - at + 64] == th.consts[f.what.index]
  {
    assert Stands(t, at, |th.code| + 5, th.consts[f.what.index], where[f.what.index]);
    PointsExactly(t[f.dispAt..f.dispAt + 4], at + f.insnEnd, Address(f, where));
  }
}
