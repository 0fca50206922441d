/** The emitted instructions as bytes, and a decoder of the encodings they
    use: the thunk's bytes and references give the sequence back. */
module Encoding {
  import opened Common
  import opened Words
  import opened Shifts
  import opened Card
  import Lanes
  import Layout
  import Masks
  import Mvex
  import Operands

  // ---- vector instructions ----

  /** A vector instruction's fields. */
  datatype Line = Line(mm: nat, pp: nat, w: nat, opc: byte, reg: nat, vvvv: nat, rm: Layout.Operand, k: nat,
                       imm: Option<byte>) {
    predicate Ok() {
      mm < 4 && pp < 4 && w < 2 && reg < 32 && vvvv < 32 && rm.Ok() && k < 8
    }
  }

  predicate IsVector(op: Op) {
    op.VMov? || op.VBool? || op.VAdd? || op.VSub? || op.VShift? || op.VShufD? || op.VCmp? || op.FCmp?
    || op.Spill? || op.Fill? || op.LoadLo? || op.LoadHi? || op.StoreLo? || op.StoreHi? || op.Broadcast?
  }

  function BoolCode(op: BoolOp): byte {
    match op case AndB => 0xdb case AndnB => 0xdf case OrB => 0xeb case XorB => 0xef
  }

  function ShiftCode(kind: ShiftKind): nat {
    match kind case Left => 6 case Right => 2 case Arith => 4
  }

  /** A register, or the thunk's constant `pool`. */
  function SrcOperand(s: Src, pool: nat): Layout.Operand {
    match s case R(r) => Layout.Reg(r) case C(_) => Layout.Pool(pool)
  }

  /** Between registers, a constant among them. */
  predicate OnRegisters(op: Op) {
    op.VMov? || op.VBool? || op.VAdd? || op.VSub? || op.VShift? || op.VShufD? || op.VCmp? || op.FCmp?
  }

  function RegisterLine(op: Op, pool: nat): Line
    requires OnRegisters(op) && Encodable(op)
  {
    match op
    case VMov(d, src, k, w) => Line(1, w, w, 0x28, d, 0, SrcOperand(src, pool), k, None)
    case VBool(b, d, s1, src, k, w) => Line(1, 1, w, BoolCode(b), d, s1, SrcOperand(src, pool), k, None)
    case VAdd(d, s1, src, k) => Line(1, 1, 0, 0xfe, d, s1, SrcOperand(src, pool), k, None)
    case VSub(d, s1, src, k) => Line(1, 1, 0, 0xfa, d, s1, SrcOperand(src, pool), k, None)
    case VShift(kind, d, s, n, k) => Line(1, 1, 0, 0x72, ShiftCode(kind), d, Layout.Reg(s), k, Some(n))
    case VShufD(d, s, imm, k) => Line(1, 1, 0, 0x70, d, 0, Layout.Reg(s), k, Some(imm))
    case VCmp(cmp, kd, s1, s2) =>
      if cmp.EqD? then Line(1, 1, 0, 0x76, kd, s1, Layout.Reg(s2), 0, None)
      else Line(3, 1, 0, if cmp.LtU? then 0x1e else 0x1f, kd, s1, Layout.Reg(s2), 0, Some(1))
    case FCmp(kd, s1, s2, pred, k, w) => Line(1, w, w, 0xc2, kd, s1, Layout.Reg(s2), k, Some(pred))
  }

  function MemoryLine(op: Op): Line
    requires IsVector(op) && !OnRegisters(op) && Encodable(op)
  {
    match op
    case Spill(z, slot) => Line(1, 0, 0, 0x29, z, 0, Layout.Fs(64 * slot), 0, None)
    case Fill(z, slot) => Line(1, 0, 0, 0x28, z, 0, Layout.Fs(64 * slot), 0, None)
    case LoadLo(d, a, k) => Line(2, 0, 0, 0xd0, d, 0, Layout.Mem(a), k, None)
    case LoadHi(d, a, k) => Line(2, 0, 0, 0xd4, d, 0, Layout.Mem(a), k, None)
    case StoreLo(a, s, k) => Line(2, 1, 0, 0xd0, s, 0, Layout.Mem(a), k, None)
    case StoreHi(a, s, k) => Line(2, 1, 0, 0xd4, s, 0, Layout.Mem(a), k, None)
    case Broadcast(d, a, w) => Line(2, 1, w, 0x18 + w, d, 0, Layout.Mem(a), 0, None)
  }

  function LineOf(op: Op, pool: nat): Line
    requires IsVector(op) && Encodable(op)
  {
    if OnRegisters(op) then RegisterLine(op, pool) else MemoryLine(op)
  }

  lemma LineOk(op: Op, pool: nat)
    requires IsVector(op) && Encodable(op)
    ensures var l := LineOf(op, pool);
            l.Ok() && (l.rm.Mem? ==> Direct(l.rm.a)) && (l.imm.Some? <==> HasImm(l.mm, l.opc))
  {
  }

  /** The opcodes an immediate follows. */
  predicate HasImm(mm: nat, opc: byte) {
    mm == 3 || (mm == 1 && (opc == 0x70 || opc == 0x72 || opc == 0xc2))
  }

  function LineBytes(l: Line, scratch: int): seq<byte>
    requires l.Ok()
  {
    Layout.Opening(l.mm, l.pp, l.w, l.opc, l.reg, l.vvvv, l.rm, l.k, 0)
    + Layout.OperandBytes(l.reg, l.rm, scratch) + Layout.ImmBytes(l.imm)
  }

  // ---- the others ----

  function CellAt(c: Cell): nat {
    match c
    case RaxCell => 384
    case RcxCell => 392
    case KCell => 400
    case FlagsCell => 416
    case XferCell => 448
    case Xfer8Cell => 456
  }

  /** A mask instruction: two mask registers, or one and a general register. */
  function MaskBytes(op: byte, reg: nat, rm: nat): seq<byte>
    requires reg < 16 && rm < 16
  {
    if reg < 8 && rm < 8 then [0xc5, 0xf8, op, 192 + 8 * reg + rm]
    else [0xc4, 128 * (1 - reg / 8) + 64 + 32 * (1 - rm / 8) + 1, 0x78, op, 192 + 8 * (reg % 8) + rm % 8]
  }

  /** A general register to or from the scratch area. The high bit of the
      register goes where the prefix extends a base. */
  function CellBytes(store: bool, r: nat, at: int, wide: bool): seq<byte>
    requires r < 16
  {
    var rex := Rex(r, wide);
    [0x64] + (if rex == 64 then [] else [rex]) + [if store then 0x89 else 0x8b, 4 + 8 * (r % 8), 0x25] + ToLe(at)
  }

  function ImmOf(imm: Masks.Mask): (b: seq<byte>)
    ensures |b| == 4
  {
    ToLe(Masks.Value(imm))
  }

  /** A shift by one has an opcode of its own. */
  function ShiftBytes(modrm: byte, n: byte): seq<byte> {
    if n == 1 then [0xd1, modrm] else [0xc1, modrm, n]
  }

  function AluBytes(a: AluOp, scratch: int): seq<byte>
    requires AluOk(a)
  {
    match a
    case MovEaxImm(imm) => [0xb8] + ImmOf(imm)
    case AndEaxImm(imm) => [0x25] + ImmOf(imm)
    case MovEcxEax => [0x89, 0xc1]
    case MovEaxEcx => [0x89, 0xc8]
    case MovzxEaxAl => [0x0f, 0xb6, 0xc0]
    case ShlEax(n) => ShiftBytes(0xe0, n)
    case ShrEax(n) => ShiftBytes(0xe8, n)
    case ShlEcx(n) => ShiftBytes(0xe1, n)
    case ShrEcx(n) => ShiftBytes(0xe9, n)
    case OrEaxEcx => [0x09, 0xc8]
    case AndEaxEcx => [0x21, 0xc8]
    case AndEcxEax => [0x21, 0xc1]
    case NotEax => [0xf7, 0xd0]
    case OrEaxCell(c) => [0x64, 0x0b, 0x04, 0x25] + ToLe(scratch + CellAt(c))
  }

  function ScalarBytes(op: Op, scratch: int): seq<byte>
    requires !IsVector(op) && Encodable(op)
  {
    match op
    case KMovRK(r, k) => MaskBytes(0x93, r, k)
    case KMovKR(k, r) => MaskBytes(0x92, k, r)
    case KMovKK(k, k2) => MaskBytes(0x90, k, k2)
    case KAnd(k, k2) => MaskBytes(0x41, k, k2)
    case KOr(k, k2) => MaskBytes(0x45, k, k2)
    case KNot(k, k2) => MaskBytes(0x44, k, k2)
    case Save(r, c, wide) => CellBytes(true, r, scratch + CellAt(c), wide)
    case Restore(r, c, wide) => CellBytes(false, r, scratch + CellAt(c), wide)
    case Alu(a) => AluBytes(a, scratch)
    case Lahf => [0x9f]
    case SetoAl => [0x0f, 0x90, 0xc0]
    case AddAl127 => [0x04, 0x7f]
    case Sahf => [0x9e]
    case TestEax => [0x85, 0xc0]
    case AhFrom(c, second) => [0x64, 0x8a, 0x24, 0x25] + ToLe(scratch + CellAt(c) + if second then 1 else 0)
  }

  function Bytes(op: Op, scratch: int): seq<byte>
    requires Encodable(op)
  {
    if IsVector(op) then LineOk(op, 0); LineBytes(LineOf(op, 0), scratch) else ScalarBytes(op, scratch)
  }

  // ---- what fits its fields ----

  /** A displacement of 32 bits, and an index the encoding can name. */
  predicate Direct(a: MemOp) {
    && a.Ok() && (a.rip.None? ==> -0x8000_0000 <= a.disp < 0x8000_0000 && a.index != Some(4))
  }

  predicate Encodable(op: Op) {
    OpOk(op) && (TakesAddress(op) ==> Direct(op.a))
  }

  predicate TakesAddress(op: Op) {
    op.LoadLo? || op.LoadHi? || op.StoreLo? || op.StoreHi? || op.Broadcast?
  }

  // ---- reading the bytes ----

  /** What a displacement that is left open refers to. */
  datatype Ref = Pooled(c: Layout.Constant) | At(address: int)

  datatype Place = InZ(z: nat) | Window | Addr(a: MemOp)

  /** The operand a ModRM byte begins, and its length. `x` and `b` extend the
      register fields. */
  function Operand(s: seq<byte>, x: nat, b: nat): Option<(Place, nat)> {
    if |s| == 0 then None
    else
      var md, f := s[0] / 64, s[0] % 8;
      if md == 3 then Some((InZ(16 * x + 8 * b + f), 1))
      else if |s| < 5 then None
      else if md == 0 && f == 5 then Some((Window, 5))
      else if md == 2 && f != 4 then Some((Addr(MemOp(Some(8 * b + f), None, 0, FromLe(s[1..5]), None)), 5))
      else if |s| >= 6 && f == 4 && (md == 2 || (md == 0 && s[1] % 8 == 5))
        then Some((Addr(Indexed(if md == 2 then Some(8 * b + s[1] % 8) else None, 8 * x + s[1] / 8 % 8, s[1] / 64,
                                FromLe(s[2..6]))), 6))
      else None
  }

  /** Index 4 stands for none. */
  function Indexed(base: Option<nat>, i: nat, scale: nat, disp: int): MemOp {
    if i == 4 then MemOp(base, None, 0, disp, None) else MemOp(base, Some(i), scale, disp, None)
  }

  /** What the bytes keep of an address: of a relative one only its target, of
      a scale only what an index needs. */
  function Kept(a: MemOp): MemOp {
    if a.rip.Some? then MemOp(None, None, 0, 0, a.rip) else if a.index.None? then a.(scale := 0) else a
  }

  function PlaceOf(rm: Layout.Operand, scratch: int): Place {
    match rm
    case Reg(r) => InZ(r)
    case Pool(_) => Window
    case Fs(off) => Addr(MemOp(None, None, 0, Signed(Low32(scratch + off)), None))
    case Mem(a) => if a.rip.Some? then Window else Addr(Kept(a))
  }

  lemma ByteParts(h: nat, r: nat, f: nat)
    requires h < 4 && r < 8 && f < 8
    ensures var m := 64 * h + 8 * r + f;
            m / 64 == h && m / 8 % 8 == r && m % 8 == f
  {
    var m := 64 * h + 8 * r + f;
    assert m / 8 == 8 * h + r;
  }

  /** A register or a window. */
  lemma PlainBack(reg: nat, rm: Layout.Operand, scratch: int, rest: seq<byte>)
    requires reg < 32 && rm.Ok() && (rm.Reg? || rm.Relative())
    ensures var s := Layout.OperandBytes(reg, rm, scratch);
            && Operand(s + rest, rm.X(), rm.B()) == Some((PlaceOf(rm, scratch), |s|))
            && (s + rest)[0] / 8 % 8 == reg % 8
  {
    if rm.Reg? {
      ByteParts(3, reg % 8, rm.r % 8);
      Mvex.SplitReg(rm.r);
    } else {
      ByteParts(0, reg % 8, 5);
    }
  }

  lemma ScratchBack(reg: nat, off: int, scratch: int, rest: seq<byte>)
    requires reg < 32
    ensures var rm := Layout.Fs(off);
            var s := Layout.OperandBytes(reg, rm, scratch);
            && Operand(s + rest, rm.X(), rm.B()) == Some((PlaceOf(rm, scratch), |s|))
            && (s + rest)[0] / 8 % 8 == reg % 8
  {
    hide FromLe, ToLe;
    ByteParts(0, reg % 8, 4);
    LeRoundTrip(scratch + off);
    var s := Layout.OperandBytes(reg, Layout.Fs(off), scratch);
    assert (s + rest)[2..6] == ToLe(scratch + off);
  }

  lemma MemoryBack(reg: nat, a: MemOp, scratch: int, rest: seq<byte>)
    requires reg < 32 && Direct(a) && a.rip.None?
    ensures var rm := Layout.Mem(a);
            var s := Layout.OperandBytes(reg, rm, scratch);
            && Operand(s + rest, rm.X(), rm.B()) == Some((PlaceOf(rm, scratch), |s|))
            && (s + rest)[0] / 8 % 8 == reg % 8
  {
    hide FromLe, ToLe;
    var s := Layout.OperandBytes(reg, Layout.Mem(a), scratch);
    var n := |Layout.MemBytes(reg % 8, a)|;
    LeRoundTrip(a.disp);
    assert (s + rest)[n..n + 4] == ToLe(a.disp);
    ByteParts(2, reg % 8, if a.base.Some? then a.base.value % 8 else 0);
    ByteParts(2, reg % 8, 4);
    ByteParts(0, reg % 8, 4);
    ByteParts(a.scale, if a.index.Some? then a.index.value % 8 else 4, if a.base.Some? then a.base.value % 8 else 5);
  }

  lemma OperandBack(reg: nat, rm: Layout.Operand, scratch: int, rest: seq<byte>)
    requires reg < 32 && rm.Ok() && (rm.Mem? ==> Direct(rm.a))
    ensures var s := Layout.OperandBytes(reg, rm, scratch);
            && Operand(s + rest, rm.X(), rm.B()) == Some((PlaceOf(rm, scratch), |s|))
            && (s + rest)[0] / 8 % 8 == reg % 8
  {
    hide Operand, PlaceOf, Layout.OperandBytes;
    match rm {
      case Fs(off) => ScratchBack(reg, off, scratch, rest);
      case Mem(a) => if a.rip.Some? { PlainBack(reg, rm, scratch, rest); } else { MemoryBack(reg, a, scratch, rest); }
      case _ => PlainBack(reg, rm, scratch, rest);
    }
  }

  /** A vector instruction as it is read. */
  datatype Seen = Seen(mm: nat, pp: nat, w: nat, opc: byte, reg: nat, vvvv: nat, place: Place, k: nat,
                       imm: Option<byte>)

  /** The instruction after a 0x62 prefix, and its length. */
  function Fields(s: seq<byte>): Option<(Seen, nat)> {
    if |s| < 6 || s[0] != 0x62 then None
    else
      match Operand(s[5..], 1 - s[1] / 64 % 2, 1 - s[1] / 32 % 2)
      case None => None
      case Some((place, n)) =>
        var more := if HasImm(s[1] % 4, s[4]) then 1 else 0;
        if |s| < 5 + n + more then None
        else Some((Seen(s[1] % 4, s[2] % 4, s[2] / 128, s[4],
                        16 * (1 - s[1] / 16 % 2) + 8 * (1 - s[1] / 128) + s[5] / 8 % 8,
                        16 * (1 - s[3] / 8 % 2) + (15 - s[2] / 8 % 16), place, s[3] % 8,
                        if more == 1 then Some(s[5 + n]) else None), 5 + n + more))
  }

  function SeenOf(l: Line, scratch: int): Seen {
    Seen(l.mm, l.pp, l.w, l.opc, l.reg, l.vvvv, PlaceOf(l.rm, scratch), l.k, l.imm)
  }

  /** The line without the segment prefix. */
  function Core(l: Line, scratch: int): seq<byte>
    requires l.Ok()
  {
    [0x62, Mvex.P0(l.reg, l.rm.X(), l.rm.B(), l.mm), Mvex.P1(l.w, l.vvvv, l.pp), Mvex.P2(0, 0, l.vvvv, l.k), l.opc]
    + Layout.OperandBytes(l.reg, l.rm, scratch) + Layout.ImmBytes(l.imm)
  }

  lemma CoreParts(l: Line, scratch: int, rest: seq<byte>)
    requires l.Ok()
    ensures var s, o, i := Core(l, scratch) + rest, Layout.OperandBytes(l.reg, l.rm, scratch), Layout.ImmBytes(l.imm);
            && |s| > 5 && s[0] == 0x62 && s[1] == Mvex.P0(l.reg, l.rm.X(), l.rm.B(), l.mm)
            && s[2] == Mvex.P1(l.w, l.vvvv, l.pp) && s[3] == Mvex.P2(0, 0, l.vvvv, l.k) && s[4] == l.opc
            && s[5..] == o + (i + rest) && |o| >= 1 && s[5] == (o + (i + rest))[0]
            && (l.imm.Some? ==> |s| > 5 + |o| && s[5 + |o|] == l.imm.value)
            && |Core(l, scratch)| == 5 + |o| + (if l.imm.Some? then 1 else 0)
    ensures LineBytes(l, scratch) == (if l.rm.Fs? then [0x64] else []) + Core(l, scratch)
  {
    hide Mvex.P0, Mvex.P1, Mvex.P2, Layout.OperandBytes;
    var o, i := Layout.OperandBytes(l.reg, l.rm, scratch), Layout.ImmBytes(l.imm);
    SomeBytes(l, scratch);
    var s := Core(l, scratch) + rest;
    assert s[5..] == o + (i + rest);
    assert s[5] == s[5..][0];
  }

  lemma SomeBytes(l: Line, scratch: int)
    requires l.Ok()
    ensures |Layout.OperandBytes(l.reg, l.rm, scratch)| >= 1
  {
  }

  lemma FieldsBack(l: Line, scratch: int, rest: seq<byte>)
    requires l.Ok() && (l.rm.Mem? ==> Direct(l.rm.a)) && (l.imm.Some? <==> HasImm(l.mm, l.opc))
    ensures Fields(Core(l, scratch) + rest) == Some((SeenOf(l, scratch), |Core(l, scratch)|))
  {
    hide Operand, PlaceOf, Layout.OperandBytes, Mvex.P0, Mvex.P1, Mvex.P2, Core;
    CoreParts(l, scratch, rest);
    Mvex.P0Bits(l.reg, l.rm.X(), l.rm.B(), l.mm);
    Mvex.P1Bits(l.w, l.vvvv, l.pp);
    Mvex.P2Bits(0, 0, l.vvvv, l.k);
    Mvex.SplitReg(l.reg);
    Mvex.SplitReg(l.vvvv);
    OperandBack(l.reg, l.rm, scratch, Layout.ImmBytes(l.imm) + rest);
  }

  // ---- the instructions read ----

  /** A constant's bytes, lane by lane. */
  function ConstBytes(v: Vec): Layout.Constant {
    seq(64, i requires 0 <= i < 64 => ToLe(v[i / 4])[i % 4])
  }

  function VecOf(c: Layout.Constant): Vec {
    seq(16, l requires 0 <= l < 16 => Low32(FromLe(c[4 * l..4 * l + 4])))
  }

  lemma VecBack(v: Vec)
    ensures VecOf(ConstBytes(v)) == v
  {
    hide FromLe, ToLe;
    var c := ConstBytes(v);
    forall l | 0 <= l < 16 ensures VecOf(c)[l] == v[l] {
      forall j | 0 <= j < 4 ensures c[4 * l..4 * l + 4][j] == ToLe(v[l])[j] {
        assert (4 * l + j) / 4 == l && (4 * l + j) % 4 == j;
      }
      assert c[4 * l..4 * l + 4] == ToLe(v[l]);
      LeRoundTrip(v[l]);
    }
  }

  /** What an instruction leaves open. */
  function RefsOf(op: Op): (r: seq<Ref>)
    ensures |r| <= 1
  {
    match op
    case VMov(_, C(v), _, _) => [Pooled(ConstBytes(v))]
    case VBool(_, _, _, C(v), _, _) => [Pooled(ConstBytes(v))]
    case VAdd(_, _, C(v), _) => [Pooled(ConstBytes(v))]
    case VSub(_, _, C(v), _) => [Pooled(ConstBytes(v))]
    case LoadLo(_, a, _) => RipOf(a)
    case LoadHi(_, a, _) => RipOf(a)
    case StoreLo(a, _, _) => RipOf(a)
    case StoreHi(a, _, _) => RipOf(a)
    case Broadcast(_, a, _) => RipOf(a)
    case _ => []
  }

  function RipOf(a: MemOp): (r: seq<Ref>)
    ensures |r| <= 1
  {
    if a.rip.Some? then [At(a.rip.value)] else []
  }

  /** The instruction as the bytes keep it: its address, and of a general
      register that meets the scratch area the low three bits. */
  function KeptOp(op: Op): Op {
    match op
    case Save(r, c, wide) => Save(r % 8, c, wide)
    case Restore(r, c, wide) => Restore(r % 8, c, wide)
    case LoadLo(d, a, k) => LoadLo(d, Kept(a), k)
    case LoadHi(d, a, k) => LoadHi(d, Kept(a), k)
    case StoreLo(a, s, k) => StoreLo(Kept(a), s, k)
    case StoreHi(a, s, k) => StoreHi(Kept(a), s, k)
    case Broadcast(d, a, w) => Broadcast(d, Kept(a), w)
    case _ => op
  }

  function BoolOf(opc: byte): Option<BoolOp> {
    if opc == 0xdb then Some(AndB) else if opc == 0xdf then Some(AndnB) else if opc == 0xeb then Some(OrB)
    else if opc == 0xef then Some(XorB) else None
  }

  function KindOf(reg: nat): Option<ShiftKind> {
    if reg == 6 then Some(Left) else if reg == 2 then Some(Right) else if reg == 4 then Some(Arith) else None
  }

  function SourceAt(p: Place, refs: seq<Ref>): Option<Src> {
    match p
    case InZ(z) => Some(R(z))
    case Window => if refs != [] && refs[0].Pooled? then Some(C(VecOf(refs[0].c))) else None
    case Addr(_) => None
  }

  function AddressAt(p: Place, refs: seq<Ref>): Option<MemOp> {
    match p
    case InZ(_) => None
    case Window => if refs != [] && refs[0].At? then Some(MemOp(None, None, 0, 0, Some(refs[0].address))) else None
    case Addr(a) => Some(a)
  }

  /** An instruction whose last operand is a register or a constant. */
  function FromRegisters(s: Seen, refs: seq<Ref>): Option<Op> {
    match SourceAt(s.place, refs)
    case None => None
    case Some(src) =>
      if s.mm == 1 && s.opc == 0x28 then Some(VMov(s.reg, src, s.k, s.w))
      else if s.mm == 1 && s.opc == 0xc2 && src.R? && s.imm.Some? then
        Some(FCmp(s.reg, s.vvvv, src.r, s.imm.value, s.k, s.w))
      else if s.pp != 1 then None
      else if s.mm == 3 && src.R? && (s.opc == 0x1e || s.opc == 0x1f) then
        Some(VCmp(if s.opc == 0x1e then LtU else LtS, s.reg, s.vvvv, src.r))
      else if s.mm != 1 then None
      else if BoolOf(s.opc).Some? then Some(VBool(BoolOf(s.opc).value, s.reg, s.vvvv, src, s.k, s.w))
      else if s.opc == 0xfe then Some(VAdd(s.reg, s.vvvv, src, s.k))
      else if s.opc == 0xfa then Some(VSub(s.reg, s.vvvv, src, s.k))
      else if s.opc == 0x76 && src.R? then Some(VCmp(EqD, s.reg, s.vvvv, src.r))
      else if s.opc == 0x72 && src.R? && s.imm.Some? && KindOf(s.reg).Some? then
        Some(VShift(KindOf(s.reg).value, s.vvvv, src.r, s.imm.value, s.k))
      else if s.opc == 0x70 && src.R? && s.imm.Some? then Some(VShufD(s.reg, src.r, s.imm.value, s.k))
      else None
  }

  function FromMemory(s: Seen, refs: seq<Ref>): Option<Op> {
    match AddressAt(s.place, refs)
    case None => None
    case Some(a) =>
      if s.mm != 2 then None
      else if s.opc == 0xd0 then Some(if s.pp == 0 then LoadLo(s.reg, a, s.k) else StoreLo(a, s.reg, s.k))
      else if s.opc == 0xd4 then Some(if s.pp == 0 then LoadHi(s.reg, a, s.k) else StoreHi(a, s.reg, s.k))
      else if s.opc == 0x18 || s.opc == 0x19 then Some(Broadcast(s.reg, a, s.w))
      else None
  }

  /** A register to or from one of the scratch area's vector slots. */
  function FromSlot(s: Seen, scratch: int): Option<Op> {
    if !s.place.Addr? then None
    else
      var off := Low32(s.place.a.disp - scratch);
      if s.opc == 0x29 then Some(Spill(s.reg, off / 64))
      else if s.opc == 0x28 then Some(Fill(s.reg, off / 64))
      else None
  }

  lemma RegistersBack(op: Op, scratch: int, refs: seq<Ref>)
    requires OnRegisters(op) && Encodable(op) && RefsOf(op) <= refs
    ensures FromRegisters(SeenOf(RegisterLine(op, 0), scratch), refs) == Some(op)
  {
    hide ConstBytes, VecOf;
    match op
    case VMov(_, C(v), _, _) => VecBack(v);
    case VBool(_, _, _, C(v), _, _) => VecBack(v);
    case VAdd(_, _, C(v), _) => VecBack(v);
    case VSub(_, _, C(v), _) => VecBack(v);
    case _ =>
  }

  /** An offset into the scratch area comes back from the 32 bits of the sum. */
  lemma OffsetBack(scratch: int, off: nat)
    requires off < 0x1_0000_0000
    ensures Low32(Signed(Low32(scratch + off)) - scratch) == off
  {
    var u := Low32(scratch + off);
    var q := (scratch + off) / 0x1_0000_0000;
    assert scratch + off == 0x1_0000_0000 * q + u;
    var e := if u < 0x8000_0000 then 0 else 1;
    assert Signed(u) - scratch == 0x1_0000_0000 * (-q - e) + off;
    ModUnique(Signed(u) - scratch, 0x1_0000_0000, -q - e, off);
  }

  lemma MemoryOpBack(op: Op, scratch: int, refs: seq<Ref>)
    requires IsVector(op) && !OnRegisters(op) && Encodable(op) && RefsOf(op) <= refs
    ensures var s := SeenOf(MemoryLine(op), scratch);
            if op.Spill? || op.Fill? then FromSlot(s, scratch) == Some(op) else FromMemory(s, refs) == Some(KeptOp(op))
  {
    hide Signed, Low32;
    if op.Spill? || op.Fill? { OffsetBack(scratch, 64 * op.slot); }
  }

  function CellOf(off: nat): Option<Cell> {
    if off == 384 then Some(RaxCell) else if off == 392 then Some(RcxCell) else if off == 400 then Some(KCell)
    else if off == 416 then Some(FlagsCell) else if off == 448 then Some(XferCell)
    else if off == 456 then Some(Xfer8Cell) else None
  }

  function MaskOf(opc: byte, reg: nat, rm: nat): Option<Op> {
    if opc == 0x93 then Some(KMovRK(reg, rm)) else if opc == 0x92 then Some(KMovKR(reg, rm))
    else if opc == 0x90 then Some(KMovKK(reg, rm)) else if opc == 0x41 then Some(KAnd(reg, rm))
    else if opc == 0x45 then Some(KOr(reg, rm)) else if opc == 0x44 then Some(KNot(reg, rm)) else None
  }

  /** A mask instruction, its prefix two bytes or three. */
  function FromMask(s: seq<byte>): Option<(Op, nat)> {
    if |s| < 4 then None
    else if s[0] == 0xc5 then
      match MaskOf(s[2], s[3] / 8 % 8, s[3] % 8) case None => None case Some(op) => Some((op, 4))
    else if |s| < 5 || s[0] != 0xc4 then None
    else
      match MaskOf(s[3], 8 * (1 - s[1] / 128) + s[4] / 8 % 8, 8 * (1 - s[1] / 32 % 2) + s[4] % 8)
      case None => None
      case Some(op) => Some((op, 5))
  }

  lemma MaskBack(opc: byte, reg: nat, rm: nat, rest: seq<byte>)
    requires reg < 16 && rm < 16 && MaskOf(opc, reg, rm).Some?
    ensures FromMask(MaskBytes(opc, reg, rm) + rest) == Some((MaskOf(opc, reg, rm).value, |MaskBytes(opc, reg, rm)|))
  {
    ByteParts(3, reg % 8, rm % 8);
    ByteParts(2 * (1 - reg / 8) + 1, 4 * (1 - rm / 8), 1);
  }

  /** A scalar instruction with an operand in the scratch area, from behind the
      segment prefix: bit 2 of the other prefix extends the register. */
  function FromCell(s: seq<byte>, scratch: int): Option<(Op, nat)> {
    if |s| < 7 then None
    else
      var rex := if s[0] / 16 == 4 then s[0] else 0x40;
      var n := if s[0] / 16 == 4 then 1 else 0;
      if |s| < 7 + n || s[n + 2] != 0x25 then None
      else
        var off := Low32(FromLe(s[n + 3..n + 7]) - scratch);
        var r, c := 8 * (rex / 4 % 2) + s[n + 1] / 8 % 8, CellOf(off);
        if s[n] == 0x8a && (c.Some? || (off > 0 && CellOf(off - 1).Some?))
          then Some((if c.Some? then AhFrom(c.value, false) else AhFrom(CellOf(off - 1).value, true), n + 7))
        else if c.None? then None
        else if s[n] == 0x0b then Some((Alu(OrEaxCell(c.value)), n + 7))
        else if s[n] == 0x89 then Some((Save(r, c.value, rex / 8 % 2 == 1), n + 7))
        else if s[n] == 0x8b then Some((Restore(r, c.value, rex / 8 % 2 == 1), n + 7))
        else None
  }

  function Rex(r: nat, wide: bool): nat {
    64 + (if wide then 8 else 0) + r / 8
  }

  lemma RexParts(r: nat, wide: bool)
    requires r < 16
    ensures var x := Rex(r, wide);
            x / 16 == 4 && x / 4 % 2 == 0 && (x / 8 % 2 == 1 <==> wide) && (x == 64 <==> !wide && r < 8)
  {
  }

  lemma CellParts(store: bool, r: nat, at: int, wide: bool, rest: seq<byte>)
    requires r < 16
    ensures var b, n := CellBytes(store, r, at, wide), if !wide && r < 8 then 0 else 1;
            var s := (b + rest)[1..];
            && |b| == 8 + n && (b + rest)[0] == 0x64 && |s| >= 7 + n && s[0] != 0x62
            && (if n == 1 then s[0] == Rex(r, wide) else s[0] / 16 != 4)
            && s[n] == (if store then 0x89 else 0x8b) && s[n + 1] == 4 + 8 * (r % 8) && s[n + 2] == 0x25
            && s[n + 3..n + 7] == ToLe(at)
  {
    hide ToLe;
    RexParts(r, wide);
    var x, o, m := Rex(r, wide), if store then 0x89 else 0x8b, 4 + 8 * (r % 8);
    if !wide && r < 8 {
      assert CellBytes(store, r, at, wide) == [0x64, o, m, 0x25] + ToLe(at);
      Within([0x64, o, m, 0x25], ToLe(at), rest);
    } else {
      assert CellBytes(store, r, at, wide) == [0x64, x, o, m, 0x25] + ToLe(at);
      Within([0x64, x, o, m, 0x25], ToLe(at), rest);
    }
  }

  /** A general register's own cell comes back for the low eight registers. A
      high one comes back as the register eight below. */
  lemma CellBack(store: bool, r: nat, c: Cell, wide: bool, scratch: int, rest: seq<byte>)
    requires r < 16
    ensures var b := CellBytes(store, r, scratch + CellAt(c), wide);
            var s := b + rest;
            && |b| > 2 && s[0] == 0x64 && s[1] != 0x62
            && FromCell(s[1..], scratch)
               == Some((if store then Save(r % 8, c, wide) else Restore(r % 8, c, wide), |b| - 1))
  {
    hide FromLe, ToLe, Low32, Signed, CellBytes, Rex;
    RexParts(r, wide);
    CellParts(store, r, scratch + CellAt(c), wide, rest);
    ByteParts(0, r % 8, 4);
    LeRoundTrip(scratch + CellAt(c));
    OffsetBack(scratch, CellAt(c));
  }

  lemma AtCellBack(opc: byte, modrm: byte, off: nat, scratch: int, rest: seq<byte>)
    requires opc / 16 != 4 && off < 0x1_0000_0000
    ensures var s := ([0x64, opc, modrm, 0x25] + ToLe(scratch + off) + rest)[1..];
            |s| >= 7 && s[0] == opc && s[1] == modrm && s[2] == 0x25 && Low32(FromLe(s[3..7]) - scratch) == off
  {
    hide FromLe, ToLe, Low32, Signed;
    LeRoundTrip(scratch + off);
    OffsetBack(scratch, off);
    Within([0x64, opc, modrm, 0x25], ToLe(scratch + off), rest);
  }

  lemma Within(a: seq<byte>, b: seq<byte>, c: seq<byte>)
    requires a != []
    ensures (a + b + c)[1..] == a[1..] + b + c
    ensures (a + b + c)[1..][|a| - 1..|a| - 1 + |b|] == b
  {
    assert (a[1..] + b + c)[|a| - 1..|a| - 1 + |b|] == b;
  }

  // ---- immediates as bits ----

  function BitsOf(n: nat, len: nat): (b: seq<bool>)
    ensures |b| == len
    decreases len
  {
    if len == 0 then [] else [n % 2 == 1] + BitsOf(n / 2, len - 1)
  }

  lemma {:induction false} BitsBack(b: seq<bool>, i: nat)
    requires i <= |b|
    ensures BitsOf(Masks.ValueFrom(b, i), |b| - i) == b[i..]
    ensures Masks.ValueFrom(b, i) < Pow2(|b| - i)
    decreases |b| - i
  {
    if i < |b| {
      BitsBack(b, i + 1);
      assert b[i..] == [b[i]] + b[i + 1..];
    }
  }

  function ImmAt(s: seq<byte>): Masks.Mask
    requires |s| == 4
  {
    BitsOf(Low32(FromLe(s)), 16)
  }

  lemma ImmBack(imm: Masks.Mask)
    ensures ImmAt(ImmOf(imm)) == imm
  {
    hide FromLe, ToLe, Low32, Signed, BitsOf;
    var v := Masks.Value(imm);
    BitsBack(imm, 0);
    assert Pow2(16) == 65536 by { assert Pow2(8) == 256; PowAdd(8, 8); }
    LeRoundTrip(v);
    LowSigned(Low32(v));
    LowSmall(v);
    assert imm[0..] == imm;
  }

  lemma LowSmall(v: nat)
    requires v < 0x1_0000_0000
    ensures Low32(v) == v
  {
  }

  // ---- any instruction ----

  function ShiftOf(modrm: byte, n: byte): Option<Op> {
    if modrm == 0xe0 then Some(Alu(ShlEax(n))) else if modrm == 0xe8 then Some(Alu(ShrEax(n)))
    else if modrm == 0xe1 then Some(Alu(ShlEcx(n))) else if modrm == 0xe9 then Some(Alu(ShrEcx(n))) else None
  }

  /** Two bytes that are an instruction. */
  function FromPair(a: byte, b: byte): Option<Op> {
    if a == 0x04 && b == 0x7f then Some(AddAl127) else if a == 0x85 && b == 0xc0 then Some(TestEax)
    else if a == 0x89 && b == 0xc1 then Some(Alu(MovEcxEax)) else if a == 0x89 && b == 0xc8 then Some(Alu(MovEaxEcx))
    else if a == 0x09 && b == 0xc8 then Some(Alu(OrEaxEcx)) else if a == 0x21 && b == 0xc8 then Some(Alu(AndEaxEcx))
    else if a == 0x21 && b == 0xc1 then Some(Alu(AndEcxEax)) else if a == 0xf7 && b == 0xd0 then Some(Alu(NotEax))
    else if a == 0xd1 then ShiftOf(b, 1) else None
  }

  function Sized(op: Option<Op>, n: nat): Option<(Op, nat)> {
    match op case None => None case Some(o) => Some((o, n))
  }

  /** An integer instruction without an operand in memory. */
  function FromPlain(s: seq<byte>): Option<(Op, nat)> {
    if |s| == 0 then None
    else if s[0] == 0x9f then Some((Lahf, 1))
    else if s[0] == 0x9e then Some((Sahf, 1))
    else if s[0] == 0xb8 || s[0] == 0x25 then
      if |s| < 5 then None
      else Some((Alu(if s[0] == 0xb8 then MovEaxImm(ImmAt(s[1..5])) else AndEaxImm(ImmAt(s[1..5]))), 5))
    else if |s| < 2 then None
    else if s[0] != 0x0f && s[0] != 0xc1 then Sized(FromPair(s[0], s[1]), 2)
    else if |s| < 3 then None
    else if s[0] == 0xc1 then Sized(ShiftOf(s[1], s[2]), 3)
    else if s[1] == 0xb6 && s[2] == 0xc0 then Some((Alu(MovzxEaxAl), 3))
    else if s[1] == 0x90 && s[2] == 0xc0 then Some((SetoAl, 3))
    else None
  }

  /** The instruction at the front of `s`, its length, and how many of the
      open references it takes. */
  function One(s: seq<byte>, refs: seq<Ref>, scratch: int): Option<(Op, nat, nat)> {
    if |s| < 1 then None
    else if s[0] == 0x62 then
      match Fields(s)
      case None => None
      case Some((f, n)) =>
        var op := if f.mm == 2 then FromMemory(f, refs) else FromRegisters(f, refs);
        if op.None? then None else Some((op.value, n, if f.place.Window? then 1 else 0))
    else if s[0] == 0x64 && |s| > 1 && s[1] == 0x62 then
      match Fields(s[1..])
      case None => None
      case Some((f, n)) =>
        var op := FromSlot(f, scratch);
        if op.None? then None else Some((op.value, n + 1, 0))
    else
      var r := if s[0] == 0x64 then FromCell(s[1..], scratch)
               else if s[0] == 0xc4 || s[0] == 0xc5 then FromMask(s) else FromPlain(s);
      match r
      case None => None
      case Some((op, n)) => Some((op, if s[0] == 0x64 then n + 1 else n, 0))
  }

  lemma ImmFront(imm: Masks.Mask, opc: byte, rest: seq<byte>)
    ensures var s := [opc] + ImmOf(imm) + rest;
            |s| >= 5 && s[0] == opc && ImmAt(s[1..5]) == imm
  {
    hide ImmOf, ImmAt;
    ImmBack(imm);
    assert ([opc] + ImmOf(imm) + rest)[1..5] == ImmOf(imm);
  }

  lemma CellOrBack(c: Cell, scratch: int, rest: seq<byte>)
    ensures var s := [0x64, 0x0b, 0x04, 0x25] + ToLe(scratch + CellAt(c)) + rest;
            FromCell(s[1..], scratch) == Some((Alu(OrEaxCell(c)), 7))
  {
    hide FromLe, ToLe, Low32;
    AtCellBack(0x0b, 4, CellAt(c), scratch, rest);
  }

  /** Which reader a first byte leads to, but for vector instructions. */
  lemma OneScalar(s: seq<byte>, refs: seq<Ref>, scratch: int, op: Op, n: nat)
    requires |s| > 0 && s[0] != 0x62
    requires if s[0] == 0x64 then |s| > 1 && s[1] != 0x62 && n > 0 && FromCell(s[1..], scratch) == Some((op, n - 1))
             else if s[0] == 0xc4 || s[0] == 0xc5 then FromMask(s) == Some((op, n))
             else FromPlain(s) == Some((op, n))
    ensures One(s, refs, scratch) == Some((op, n, 0))
  {
    hide FromCell, FromMask, FromPlain, Fields;
  }

  lemma PlainAluBack(a: AluOp, scratch: int, rest: seq<byte>)
    requires AluOk(a) && !a.OrEaxCell?
    ensures var s := AluBytes(a, scratch) + rest;
            && |s| > 0 && s[0] != 0x62 && s[0] != 0x64 && s[0] != 0xc4 && s[0] != 0xc5
            && FromPlain(s) == Some((Alu(a), |AluBytes(a, scratch)|))
  {
    hide ImmOf, ImmAt;
    match a {
      case MovEaxImm(imm) => ImmFront(imm, 0xb8, rest);
      case AndEaxImm(imm) => ImmFront(imm, 0x25, rest);
      case _ =>
    }
  }

  lemma AluBack(a: AluOp, scratch: int, refs: seq<Ref>, rest: seq<byte>)
    requires AluOk(a)
    ensures One(AluBytes(a, scratch) + rest, refs, scratch) == Some((Alu(a), |AluBytes(a, scratch)|, 0))
  {
    hide FromLe, ToLe, Low32, FromPlain, FromCell, One;
    if a.OrEaxCell? { CellOrBack(a.c, scratch, rest); } else { PlainAluBack(a, scratch, rest); }
    OneScalar(AluBytes(a, scratch) + rest, refs, scratch, Alu(a), |AluBytes(a, scratch)|);
  }

  lemma ScalarBack(op: Op, scratch: int, refs: seq<Ref>, rest: seq<byte>)
    requires !IsVector(op) && Encodable(op)
    ensures One(ScalarBytes(op, scratch) + rest, refs, scratch) == Some((KeptOp(op), |ScalarBytes(op, scratch)|, 0))
  {
    hide FromLe, ToLe, Low32, FromMask, FromCell, MaskBytes, AluBytes, CellBytes, One;
    match op {
      case KMovRK(r, k) => MaskFront(0x93, r, k, rest);
      case KMovKR(k, r) => MaskFront(0x92, k, r, rest);
      case KMovKK(k, k2) => MaskFront(0x90, k, k2, rest);
      case KAnd(k, k2) => MaskFront(0x41, k, k2, rest);
      case KOr(k, k2) => MaskFront(0x45, k, k2, rest);
      case KNot(k, k2) => MaskFront(0x44, k, k2, rest);
      case Save(r, c, wide) => CellBack(true, r, c, wide, scratch, rest);
      case Restore(r, c, wide) => CellBack(false, r, c, wide, scratch, rest);
      case Alu(a) => AluBack(a, scratch, refs, rest);
      case AhFrom(c, second) => AhBack(c, second, scratch, rest);
      case _ =>
    }
    if !op.Alu? {
      OneScalar(ScalarBytes(op, scratch) + rest, refs, scratch, KeptOp(op), |ScalarBytes(op, scratch)|);
    }
  }

  lemma MaskFront(opc: byte, reg: nat, rm: nat, rest: seq<byte>)
    requires reg < 16 && rm < 16 && MaskOf(opc, reg, rm).Some?
    ensures var b := MaskBytes(opc, reg, rm);
            var s := b + rest;
            |s| > 0 && (s[0] == 0xc4 || s[0] == 0xc5) && FromMask(s) == Some((MaskOf(opc, reg, rm).value, |b|))
  {
    hide FromMask;
    MaskBack(opc, reg, rm, rest);
  }

  lemma AhBack(c: Cell, second: bool, scratch: int, rest: seq<byte>)
    ensures var off := CellAt(c) + if second then 1 else 0;
            var s := [0x64, 0x8a, 0x24, 0x25] + ToLe(scratch + off) + rest;
            FromCell(s[1..], scratch) == Some((AhFrom(c, second), 7))
  {
    hide FromLe, ToLe, Low32;
    var off := CellAt(c) + if second then 1 else 0;
    AtCellBack(0x8a, 0x24, off, scratch, rest);
  }

  lemma OneVector(s: seq<byte>, refs: seq<Ref>, scratch: int, f: Seen, n: nat)
    requires |s| > 0 && s[0] == 0x62 && Fields(s) == Some((f, n))
    ensures var op := if f.mm == 2 then FromMemory(f, refs) else FromRegisters(f, refs);
            op.Some? ==> One(s, refs, scratch) == Some((op.value, n, if f.place.Window? then 1 else 0))
  {
    hide Fields, FromRegisters, FromMemory;
  }

  lemma VectorBack(op: Op, scratch: int, refs: seq<Ref>, rest: seq<byte>)
    requires IsVector(op) && Encodable(op) && RefsOf(op) <= refs && !op.Spill? && !op.Fill?
    ensures var b := Bytes(op, scratch);
            One(b + rest, refs, scratch) == Some((KeptOp(op), |b|, |RefsOf(op)|))
  {
    hide Fields, Core, FromRegisters, FromMemory, FromSlot, Encodable, One, RegisterLine, MemoryLine, KeptOp, RefsOf;
    hide PlaceOf, LineBytes;
    LineOk(op, 0);
    var l := LineOf(op, 0);
    var b := Core(l, scratch);
    FieldsBack(l, scratch, rest);
    CoreParts(l, scratch, rest);
    PlacesAre(op, scratch);
    assert Bytes(op, scratch) == b by { assert [] + b == b; }
    OneVector(b + rest, refs, scratch, SeenOf(l, scratch), |b|);
    if OnRegisters(op) { RegistersBack(op, scratch, refs); } else { MemoryOpBack(op, scratch, refs); }
  }

  lemma SlotBack(op: Op, scratch: int, refs: seq<Ref>, rest: seq<byte>)
    requires (op.Spill? || op.Fill?) && Encodable(op)
    ensures var b := Bytes(op, scratch);
            One(b + rest, refs, scratch) == Some((op, |b|, 0))
  {
    hide Fields, Core, FromSlot, LineBytes, FromCell, FromMask, FromPlain;
    LineOk(op, 0);
    var l := LineOf(op, 0);
    var b := Core(l, scratch);
    FieldsBack(l, scratch, rest);
    CoreParts(l, scratch, rest);
    MemoryOpBack(op, scratch, refs);
    var s := [0x64] + b + rest;
    assert Bytes(op, scratch) == [0x64] + b;
    assert s[1..] == b + rest && s[1] == (b + rest)[0];
  }

  /** Which reader a vector instruction goes to, and whether it leaves a window. */
  lemma PlacesAre(op: Op, scratch: int)
    requires IsVector(op) && Encodable(op)
    ensures var l := LineOf(op, 0);
            && (l.mm == 2 <==> !OnRegisters(op) && !op.Spill? && !op.Fill?) && (l.rm.Fs? <==> op.Spill? || op.Fill?)
            && |RefsOf(op)| == (if SeenOf(l, scratch).place.Window? then 1 else 0)
            && (OnRegisters(op) || op.Spill? || op.Fill? ==> KeptOp(op) == op)
  {
  }

  /** An instruction is read back from its bytes, whatever follows them. */
  lemma OneBack(op: Op, scratch: int, refs: seq<Ref>, rest: seq<byte>)
    requires Encodable(op) && RefsOf(op) <= refs
    ensures One(Bytes(op, scratch) + rest, refs, scratch) == Some((KeptOp(op), |Bytes(op, scratch)|, |RefsOf(op)|))
  {
    hide One, Encodable;
    if op.Spill? || op.Fill? {
      SlotBack(op, scratch, refs, rest);
    } else if IsVector(op) {
      VectorBack(op, scratch, refs, rest);
    } else {
      ScalarBack(op, scratch, refs, rest);
    }
  }

  // ---- sequences ----

  ghost predicate AllEncodable(ops: seq<Op>) {
    forall i :: 0 <= i < |ops| ==> Encodable(ops[i])
  }

  /** The bytes of a sequence. */
  ghost function Codes(ops: seq<Op>, scratch: int): seq<byte>
    requires AllEncodable(ops)
  {
    if ops == [] then [] else Codes(ops[..|ops| - 1], scratch) + Bytes(ops[|ops| - 1], scratch)
  }

  ghost function Refs(ops: seq<Op>): seq<Ref> {
    if ops == [] then [] else Refs(ops[..|ops| - 1]) + RefsOf(ops[|ops| - 1])
  }

  ghost function KeptOps(ops: seq<Op>): (r: seq<Op>)
    ensures |r| == |ops|
  {
    seq(|ops|, i requires 0 <= i < |ops| => KeptOp(ops[i]))
  }

  lemma CodesPush(ops: seq<Op>, op: Op, scratch: int)
    requires AllEncodable(ops) && Encodable(op)
    ensures AllEncodable(ops + [op])
    ensures Codes(ops + [op], scratch) == Codes(ops, scratch) + Bytes(op, scratch)
    ensures Refs(ops + [op]) == Refs(ops) + RefsOf(op)
  {
    hide Encodable, Bytes, RefsOf;
    assert (ops + [op])[..|ops|] == ops;
  }

  lemma CodesOne(op: Op, scratch: int)
    requires Encodable(op)
    ensures Codes([op], scratch) == Bytes(op, scratch) + Codes([], scratch) && Refs([op]) == RefsOf(op) + Refs([])
  {
    hide Encodable, Bytes, RefsOf;
    CodesPush([], op, scratch);
    assert [] + [op] == [op];
    assert Bytes(op, scratch) + [] == [] + Bytes(op, scratch) && RefsOf(op) + [] == [] + RefsOf(op);
  }

  lemma {:induction false} CodesFront(ops: seq<Op>, scratch: int)
    requires AllEncodable(ops) && ops != []
    ensures Codes(ops, scratch) == Bytes(ops[0], scratch) + Codes(ops[1..], scratch)
    ensures Refs(ops) == RefsOf(ops[0]) + Refs(ops[1..])
  {
    hide Bytes, RefsOf, Encodable, Codes, Refs;
    var l := |ops| - 1;
    if l == 0 {
      CodesOne(ops[0], scratch);
      assert ops == [ops[0]] && ops[1..] == [];
    } else {
      var first, last := ops[..l], ops[l];
      CodesFront(first, scratch);
      CodesPush(first, last, scratch);
      CodesPush(first[1..], last, scratch);
      assert first + [last] == ops && first[1..] + [last] == ops[1..] && first[0] == ops[0];
      Assoc(Bytes(ops[0], scratch), Codes(first[1..], scratch), Bytes(last, scratch));
      Assoc(RefsOf(ops[0]), Refs(first[1..]), RefsOf(last));
    }
  }

  /** The sequence that bytes and references spell, to their end. */
  function Decoded(s: seq<byte>, refs: seq<Ref>, scratch: int): Option<seq<Op>>
    decreases |s|
  {
    if s == [] then (if refs == [] then Some([]) else None)
    else
      match One(s, refs, scratch)
      case None => None
      case Some((op, n, m)) =>
        if n == 0 || n > |s| || m > |refs| then None
        else match Decoded(s[n..], refs[m..], scratch)
             case None => None
             case Some(more) => Some([op] + more)
  }

  /** Every sequence is read back from its bytes and its references. */
  lemma {:induction false} DecodeCodes(ops: seq<Op>, scratch: int)
    requires AllEncodable(ops)
    ensures Decoded(Codes(ops, scratch), Refs(ops), scratch) == Some(KeptOps(ops))
    decreases |ops|
  {
    hide Bytes, RefsOf, Encodable, One, KeptOp;
    if ops != [] {
      var b, f, rest, refs := Bytes(ops[0], scratch), RefsOf(ops[0]), Codes(ops[1..], scratch), Refs(ops[1..]);
      CodesFront(ops, scratch);
      OneBack(ops[0], scratch, f + refs, rest);
      NoneEmpty(ops[0], scratch);
      DecodeCodes(ops[1..], scratch);
      assert (b + rest)[|b|..] == rest && (f + refs)[|f|..] == refs;
      assert KeptOps(ops) == [KeptOp(ops[0])] + KeptOps(ops[1..]);
    }
  }

  lemma NoneEmpty(op: Op, scratch: int)
    requires Encodable(op)
    ensures |Bytes(op, scratch)| > 0
  {
    hide Layout.OperandBytes, ToLe;
  }

  // ---- what the bytes do ----

  /** A general register beyond the eighth does not meet the scratch area. */
  predicate LowRegister(op: Op) {
    op.Save? || op.Restore? ==> op.r < 8
  }

  /** What the bytes keep of an instruction does what the instruction does,
      from every machine state, exactly then. */
  lemma KeptExactly(op: Op)
    requires OpOk(op)
    ensures OpOk(KeptOp(op))
    ensures LowRegister(op) <==> forall m :: Wf(m) ==> Exec(KeptOp(op), m) == Exec(op, m)
  {
    hide Exec;
    KeptOk(op);
    if LowRegister(op) {
      forall m | Wf(m) ensures Exec(KeptOp(op), m) == Exec(op, m) {
        KeptDoes(op, m);
      }
    } else {
      HighRegister(op);
    }
  }

  lemma KeptOk(op: Op)
    requires OpOk(op)
    ensures OpOk(KeptOp(op))
    ensures LowRegister(op) && !TakesAddress(op) ==> KeptOp(op) == op
  {
  }

  lemma KeptAddress(m: Machine, a: MemOp)
    requires Wf(m) && a.Ok()
    ensures Address(m, Kept(a)) == Address(m, a)
  {
  }

  lemma KeptDoes(op: Op, m: Machine)
    requires OpOk(op) && Wf(m) && LowRegister(op)
    ensures OpOk(KeptOp(op)) && Exec(KeptOp(op), m) == Exec(op, m)
  {
    hide Exec, Kept, Address;
    KeptOk(op);
    match op {
      case LoadLo(d, a, k) => LoadsThere(m, d, a, Kept(a), k);
      case LoadHi(d, a, k) => LoadsThere(m, d, a, Kept(a), k);
      case StoreLo(a, s, k) => StoresThere(m, s, a, Kept(a), k);
      case StoreHi(a, s, k) => StoresThere(m, s, a, Kept(a), k);
      case Broadcast(d, a, w) => BroadcastsThere(m, d, a, Kept(a), w);
      case _ =>
    }
  }

  lemma LoadsThere(m: Machine, d: nat, a: MemOp, b: MemOp, k: nat)
    requires Wf(m) && d < 32 && a.Ok() && b == Kept(a) && k < 8
    ensures Exec(LoadLo(d, b, k), m) == Exec(LoadLo(d, a, k), m) && Exec(LoadHi(d, b, k), m) == Exec(LoadHi(d, a, k), m)
  {
    hide Expand, Address;
    KeptAddress(m, a);
  }

  lemma StoresThere(m: Machine, s: nat, a: MemOp, b: MemOp, k: nat)
    requires Wf(m) && s < 32 && a.Ok() && b == Kept(a) && k < 8
    ensures Exec(StoreLo(b, s, k), m) == Exec(StoreLo(a, s, k), m)
    ensures Exec(StoreHi(b, s, k), m) == Exec(StoreHi(a, s, k), m)
  {
    hide Compress, Address;
    KeptAddress(m, a);
  }

  lemma BroadcastsThere(m: Machine, d: nat, a: MemOp, b: MemOp, w: nat)
    requires Wf(m) && d < 32 && a.Ok() && b == Kept(a) && w < 2
    ensures Exec(Broadcast(d, b, w), m) == Exec(Broadcast(d, a, w), m)
  {
    hide BroadcastVec, Address;
    KeptAddress(m, a);
  }

  /** A machine of zeros but for one general register. */
  ghost function Odd(r: nat): (m: Machine)
    requires 8 <= r < 16
    ensures Wf(m) && m.gpr[r][0] && !m.gpr[r % 8][0] && forall c :: !m.s.Get(c)[0]
  {
    var ones: Masks.Reg := seq(64, _ => true);
    var m := Operands.Blank(Masks.Prefix(0), 0);
    m.(gpr := m.gpr[r := ones])
  }

  /** Register 8 and up: another register is stored, or loaded. */
  lemma HighRegister(op: Op)
    requires OpOk(op) && !LowRegister(op)
    ensures OpOk(KeptOp(op)) && exists m :: Wf(m) && Exec(KeptOp(op), m) != Exec(op, m)
  {
    hide Exec, Odd, KeptOp, OpOk;
    KeptOk(op);
    KeptCell(op);
    var m := Odd(op.r);
    if op.Save? { HighSave(m, op.r, op.c, op.wide); } else { HighRestore(m, op.r, op.c, op.wide); }
  }

  lemma KeptCell(op: Op)
    requires OpOk(op) && !LowRegister(op)
    ensures 8 <= op.r < 16
    ensures KeptOp(op) == if op.Save? then Save(op.r % 8, op.c, op.wide) else Restore(op.r % 8, op.c, op.wide)
  {
  }

  lemma HighSave(m: Machine, r: nat, c: Cell, wide: bool)
    requires Wf(m) && 8 <= r < 16 && m.gpr[r][0] != m.gpr[r % 8][0]
    ensures Exec(Save(r % 8, c, wide), m) != Exec(Save(r, c, wide), m)
  {
    assert Exec(Save(r % 8, c, wide), m).s.Get(c)[0] != Exec(Save(r, c, wide), m).s.Get(c)[0];
  }

  lemma HighRestore(m: Machine, r: nat, c: Cell, wide: bool)
    requires Wf(m) && 8 <= r < 16 && m.gpr[r][0] != m.s.Get(c)[0]
    ensures Exec(Restore(r % 8, c, wide), m) != Exec(Restore(r, c, wide), m)
  {
    assert Exec(Restore(r % 8, c, wide), m).gpr[r][0] != Exec(Restore(r, c, wide), m).gpr[r][0];
  }

  lemma {:induction false} KeptRun(ops: seq<Op>, m: Machine)
    requires Wf(m) && OpsOk(ops) && forall i :: 0 <= i < |ops| ==> LowRegister(ops[i])
    ensures OpsOk(KeptOps(ops)) && Run(KeptOps(ops), m) == Run(ops, m)
  {
    hide Exec, KeptOp, OpOk;
    forall i | 0 <= i < |ops| ensures OpOk(KeptOp(ops[i])) { KeptExactly(ops[i]); }
    if ops != [] {
      var l := |ops| - 1;
      KeptRun(ops[..l], m);
      assert KeptOps(ops)[..l] == KeptOps(ops[..l]);
      KeptDoes(ops[l], Run(ops[..l], m));
    }
  }

  /** A thunk's bytes and references, read and run, do what its sequence does. */
  lemma BytesMean(ops: seq<Op>, scratch: int, m: Machine)
    requires AllEncodable(ops) && OpsOk(ops) && Wf(m) && forall i :: 0 <= i < |ops| ==> LowRegister(ops[i])
    ensures var d := Decoded(Codes(ops, scratch), Refs(ops), scratch);
            d.Some? && OpsOk(d.value) && Run(d.value, m) == Run(ops, m)
  {
    hide Codes, Refs, Decoded, Run, Encodable, OpOk;
    DecodeCodes(ops, scratch);
    KeptRun(ops, m);
  }

  // ---- assembling ----

  /** What a window of the thunk is to point at. */
  function Resolved(th: Layout.Thunk, what: Layout.Target): Option<Ref> {
    match what
    case Rip(a) => Some(At(a))
    case Const(i) => if i < |th.consts| then Some(Pooled(th.consts[i])) else None
  }

  /** Where the windows are, and where their instructions end. */
  ghost function Windows(ops: seq<Op>, scratch: int): (r: seq<(int, int)>)
    requires AllEncodable(ops)
    ensures |r| == |Refs(ops)|
  {
    if ops == [] then []
    else
      var l := |ops| - 1;
      Windows(ops[..l], scratch)
      + if RefsOf(ops[l]) == [] then [] else [(|Codes(ops[..l], scratch)| + 6, |Codes(ops, scratch)|)]
  }

  /** The thunk holds the sequence: its bytes, and for each reference a window
      of zeros in its instruction. */
  ghost predicate Written(th: Layout.Thunk, ops: seq<Op>, scratch: int)
    requires AllEncodable(ops)
  {
    && th.Sound() && th.code == Codes(ops, scratch) && |th.fixups| == |Refs(ops)|
    && forall i :: 0 <= i < |th.fixups| ==>
                     && Resolved(th, th.fixups[i].what) == Some(Refs(ops)[i])
                     && (th.fixups[i].dispAt, th.fixups[i].insnEnd) == Windows(ops, scratch)[i]
  }

  lemma WrittenNone(th: Layout.Thunk, scratch: int)
    requires th == Layout.Thunk([], [], [])
    ensures AllEncodable([]) && Written(th, [], scratch)
  {
  }

  lemma WindowsPush(ops: seq<Op>, op: Op, scratch: int)
    requires AllEncodable(ops) && Encodable(op) && AllEncodable(ops + [op])
    ensures Windows(ops + [op], scratch) == Windows(ops, scratch)
            + if RefsOf(op) == [] then [] else [(|Codes(ops, scratch)| + 6, |Codes(ops + [op], scratch)|)]
  {
    hide Encodable, Bytes, RefsOf, Codes, Refs;
    assert (ops + [op])[..|ops|] == ops;
  }

  /** The thunk after one instruction more, its window at `what`. */
  ghost predicate Grown(was: Layout.Thunk, th: Layout.Thunk, b: seq<byte>, refs: seq<Ref>, what: Layout.Target) {
    && th.Sound() && was.consts <= th.consts && th.code == was.code + b
    && if refs == [] then th.fixups == was.fixups
       else th.fixups == was.fixups + [Layout.Fixup(|was.code| + 6, |th.code|, what)]
            && Resolved(th, what) == Some(refs[0])
  }

  lemma WrittenPush(was: Layout.Thunk, th: Layout.Thunk, ops: seq<Op>, op: Op, what: Layout.Target, scratch: int)
    requires AllEncodable(ops) && Encodable(op) && Written(was, ops, scratch)
    requires Grown(was, th, Bytes(op, scratch), RefsOf(op), what)
    ensures AllEncodable(ops + [op]) && Written(th, ops + [op], scratch)
  {
    hide Encodable, Bytes, RefsOf, Codes, Refs, Windows, AllEncodable;
    CodesPush(ops, op, scratch);
    WindowsPush(ops, op, scratch);
  }

  /** The index of a constant does not show in the bytes. */
  lemma LinePool(op: Op, pool: nat, scratch: int)
    requires IsVector(op) && Encodable(op)
    ensures var l := LineOf(op, pool);
            && l.Ok() && LineBytes(l, scratch) == Bytes(op, scratch)
            && (l.rm.Relative() <==> RefsOf(op) != []) && (l.rm.Pool? ==> l.rm.index == pool)
            && (l.rm.Pool? <==> RefsOf(op) != [] && RefsOf(op)[0].Pooled?)
            && (RefsOf(op) != [] && RefsOf(op)[0].At? ==> l.rm.Target() == Layout.Rip(RefsOf(op)[0].address))
  {
    hide ConstBytes, LineBytes, Encodable;
    LineOk(op, pool);
    LineOk(op, 0);
    PoolOnly(op, pool);
    if LineOf(op, 0).rm.Pool? { SameWindow(LineOf(op, 0), pool, scratch); }
  }

  lemma PoolOnly(op: Op, pool: nat)
    requires IsVector(op) && Encodable(op)
    ensures var l := LineOf(op, 0);
            LineOf(op, pool) == if l.rm.Pool? then l.(rm := Layout.Pool(pool)) else l
  {
  }

  lemma SameWindow(l: Line, pool: nat, scratch: int)
    requires l.Ok() && l.rm.Pool?
    ensures LineBytes(l.(rm := Layout.Pool(pool)), scratch) == LineBytes(l, scratch)
  {
  }

  /** A vector instruction in the thunk. */
  lemma VectorGrown(was: Layout.Thunk, th: Layout.Thunk, op: Op, l: Line, what: Layout.Target, scratch: int)
    requires IsVector(op) && Encodable(op) && l.Ok() && LineBytes(l, scratch) == Bytes(op, scratch)
    requires (l.rm.Relative() <==> RefsOf(op) != []) && th.Sound() && was.consts <= th.consts
    requires th.code == was.code + Layout.Opening(l.mm, l.pp, l.w, l.opc, l.reg, l.vvvv, l.rm, l.k, 0)
                        + Layout.OperandBytes(l.reg, l.rm, scratch) + Layout.ImmBytes(l.imm)
    requires th.fixups == if l.rm.Relative()
             then was.fixups + [Layout.Fixup(|was.code| + 6, |th.code|, l.rm.Target())] else was.fixups
    requires RefsOf(op) != [] ==> what == l.rm.Target() && Resolved(th, what) == Some(RefsOf(op)[0])
    ensures Grown(was, th, Bytes(op, scratch), RefsOf(op), what)
  {
    hide LineBytes, Bytes, RefsOf, Layout.Opening, Layout.OperandBytes;
    LinePut(was.code, l, scratch);
  }

  /** One instruction more. */
  method Put(asm: Layout.Assembler, op: Op, ghost ops: seq<Op>)
    requires AllEncodable(ops) && Encodable(op) && Written(asm.t, ops, asm.scratch)
    modifies asm`t
    ensures AllEncodable(ops + [op]) && Written(asm.t, ops + [op], asm.scratch)
  {
    hide Encodable, LineBytes, LineOf, RefsOf, Codes, Refs, Windows, Layout.OperandBytes, Layout.Opening, Written;
    hide AllEncodable, ConstBytes;
    ghost var was := asm.t;
    WrittenSound(was, ops, asm.scratch);
    if IsVector(op) {
      var pool, refs := 0, RefsOf(op);
      if refs != [] && refs[0].Pooled? { pool := asm.Constant(refs[0].c); }
      LinePool(op, pool, asm.scratch);
      var l := LineOf(op, pool);
      asm.Instruction(l.mm, l.pp, l.w, l.opc, l.reg, l.vvvv, l.rm, l.k, 0, l.imm);
      ghost var what := if refs == [] then Layout.Rip(0) else l.rm.Target();
      VectorGrown(was, asm.t, op, l, what, asm.scratch);
      WrittenPush(was, asm.t, ops, op, what, asm.scratch);
    } else {
      asm.Raw(ScalarBytes(op, asm.scratch));
      ScalarRefs(op);
      WrittenPush(was, asm.t, ops, op, Layout.Rip(0), asm.scratch);
    }
  }

  lemma WrittenSound(th: Layout.Thunk, ops: seq<Op>, scratch: int)
    requires AllEncodable(ops) && Written(th, ops, scratch)
    ensures th.Sound()
  {
  }

  lemma LinePut(code: seq<byte>, l: Line, scratch: int)
    requires l.Ok()
    ensures code + Layout.Opening(l.mm, l.pp, l.w, l.opc, l.reg, l.vvvv, l.rm, l.k, 0)
            + Layout.OperandBytes(l.reg, l.rm, scratch) + Layout.ImmBytes(l.imm)
         == code + LineBytes(l, scratch)
  {
    hide Layout.Opening, Layout.OperandBytes;
  }

  lemma ScalarRefs(op: Op)
    requires !IsVector(op)
    ensures RefsOf(op) == []
  {
  }

  /** A sequence assembled. */
  method Assemble(ops: seq<Op>, scratch: int) returns (th: Layout.Thunk)
    requires AllEncodable(ops)
    ensures Written(th, ops, scratch)
  {
    hide Written, Encodable;
    var asm := new Layout.Assembler(scratch);
    WrittenNone(asm.t, scratch);
    assert ops[..0] == [];
    for i := 0 to |ops|
      invariant asm.scratch == scratch && Written(asm.t, ops[..i], scratch)
    {
      Put(asm, ops[i], ops[..i]);
      assert ops[..i + 1] == ops[..i] + [ops[i]];
    }
    assert ops[..|ops|] == ops;
    return asm.t;
  }
}
