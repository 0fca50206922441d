/** The card as the rewritten sequences see it: vector, mask and general
    registers, flags, the per-thread scratch area and memory, and what each
    emitted instruction does to them. */
module Card {
  import opened Common
  import opened Lanes
  import opened Shifts
  import opened Masks

  type Vec = v: seq<Lane> | |v| == 16 witness seq(16, _ => 0)

  datatype Flags = Flags(cf: bool, pf: bool, af: bool, zf: bool, sf: bool, of: bool)

  /** The scratch area's 8-byte cells a sequence uses. */
  datatype Cell = RaxCell | RcxCell | KCell | FlagsCell | XferCell | Xfer8Cell

  /** The scratch area: six vector slots and the cells. */
  datatype Scratch = Scratch(zs: seq<Vec>, rax: Reg, rcx: Reg, k: Reg, flags: Reg, xfer: Reg, xfer8: Reg) {
    function Get(c: Cell): Reg {
      match c
      case RaxCell => rax
      case RcxCell => rcx
      case KCell => k
      case FlagsCell => flags
      case XferCell => xfer
      case Xfer8Cell => xfer8
    }

    function Set(c: Cell, v: Reg): Scratch {
      match c
      case RaxCell => this.(rax := v)
      case RcxCell => this.(rcx := v)
      case KCell => this.(k := v)
      case FlagsCell => this.(flags := v)
      case XferCell => this.(xfer := v)
      case Xfer8Cell => this.(xfer8 := v)
    }
  }

  /** A memory operand. */
  datatype MemOp = MemOp(base: Option<nat>, index: Option<nat>, scale: nat, disp: int, rip: Option<int>) {
    predicate Ok() {
      (base.Some? ==> base.value < 16) && (index.Some? ==> index.value < 16) && scale < 4
    }

    function Plus(delta: int): MemOp {
      this.(disp := disp + delta, rip := if rip.Some? then Some(rip.value + delta) else None)
    }

    predicate Uses(r: nat) {
      rip.None? && (base == Some(r) || index == Some(r))
    }
  }

  /** How two floating-point values compare. */
  datatype Rel = Less | Equal | Greater | Unordered

  /** `mem` maps the address of each aligned dword to it. `fx` gives the
      flags an integer instruction leaves, `rel` the order of two elements:
      any functions at all. */
  datatype Machine = Machine(
    z: seq<Vec>, k: seq<Mask>, gpr: seq<Reg>, fl: Flags, s: Scratch, mem: int -> Lane,
    fx: Reg -> Flags, rel: (nat, nat, nat) -> Rel)

  ghost predicate Wf(m: Machine) {
    |m.z| == 32 && |m.k| == 8 && |m.gpr| == 16 && |m.s.zs| == 6
  }

  ghost function Address(m: Machine, a: MemOp): int
    requires Wf(m) && a.Ok()
  {
    if a.rip.Some? then a.rip.value
    else
      (if a.base.Some? then Value(m.gpr[a.base.value]) else 0)
      + (if a.index.Some? then Value(m.gpr[a.index.value]) * Pow2(a.scale) else 0)
      + a.disp
  }

  // ---- instructions ----

  /** A register, or a 64-byte constant placed behind the thunk. */
  datatype Src = R(r: nat) | C(v: Vec)

  datatype ShiftKind = Left | Right | Arith

  datatype CmpKind = EqD | LtU | LtS

  /** Integer instructions on eax and ecx; their immediates are masks. */
  datatype AluOp =
    | MovEaxImm(imm: Mask) | AndEaxImm(imm: Mask)
    | MovEcxEax | MovEaxEcx | MovzxEaxAl
    | ShlEax(n: nat) | ShrEax(n: nat) | ShlEcx(n: nat) | ShrEcx(n: nat)
    | OrEaxEcx | AndEaxEcx | AndEcxEax | NotEax
    | OrEaxCell(c: Cell)

  /** What the emitter emits. `k` is a write mask, 0 for none; `w` 1 masks by qword. */
  datatype Op =
    | VMov(d: nat, src: Src, k: nat, w: nat)
    | VBool(op: BoolOp, d: nat, s1: nat, src: Src, k: nat, w: nat)
    | VAdd(d: nat, s1: nat, src: Src, k: nat)
    | VSub(d: nat, s1: nat, src: Src, k: nat)
    | VShift(kind: ShiftKind, d: nat, s: nat, n: nat, k: nat)
    | VShufD(d: nat, s: nat, imm: nat, k: nat)
    | VCmp(cmp: CmpKind, kd: nat, s1: nat, s2: nat)
    | FCmp(kd: nat, s1: nat, s2: nat, pred: nat, k: nat, w: nat)
    | Spill(z: nat, slot: nat)
    | Fill(z: nat, slot: nat)
    | LoadLo(d: nat, a: MemOp, k: nat)
    | LoadHi(d: nat, a: MemOp, k: nat)
    | StoreLo(a: MemOp, s: nat, k: nat)
    | StoreHi(a: MemOp, s: nat, k: nat)
    | Broadcast(d: nat, a: MemOp, w: nat)
    | KMovRK(r: nat, k: nat)
    | KMovKR(k: nat, r: nat)
    | KMovKK(k: nat, k2: nat)
    | KAnd(k: nat, k2: nat)
    | KOr(k: nat, k2: nat)
    | KNot(k: nat, k2: nat)
    | Save(r: nat, c: Cell, wide: bool)
    | Restore(r: nat, c: Cell, wide: bool)
    | Alu(alu: AluOp)
    | Lahf | SetoAl | AddAl127 | Sahf
    | TestEax
      /** A byte of a cell, its first or its second, into AH. */
    | AhFrom(c: Cell, second: bool)

  predicate SrcOk(s: Src) { s.R? ==> s.r < 32 }

  predicate OpOk(op: Op) {
    match op
    case VMov(d, src, k, w) => d < 32 && SrcOk(src) && k < 8 && w < 2
    case VBool(_, d, s1, src, k, w) => d < 32 && s1 < 32 && SrcOk(src) && k < 8 && w < 2
    case VAdd(d, s1, src, k) => d < 32 && s1 < 32 && SrcOk(src) && k < 8
    case VSub(d, s1, src, k) => d < 32 && s1 < 32 && SrcOk(src) && k < 8
    case VShift(_, d, s, n, k) => d < 32 && s < 32 && k < 8 && n < 256
    case VShufD(d, s, imm, k) => d < 32 && s < 32 && imm < 256 && k < 8
    case VCmp(_, kd, s1, s2) => kd < 8 && s1 < 32 && s2 < 32
    case FCmp(kd, s1, s2, pred, k, w) => kd < 8 && s1 < 32 && s2 < 32 && pred < 8 && k < 8 && w < 2
    case Spill(z, slot) => z < 32 && slot < 6
    case Fill(z, slot) => z < 32 && slot < 6
    case LoadLo(d, a, k) => d < 32 && a.Ok() && k < 8
    case LoadHi(d, a, k) => d < 32 && a.Ok() && k < 8
    case StoreLo(a, s, k) => s < 32 && a.Ok() && k < 8
    case StoreHi(a, s, k) => s < 32 && a.Ok() && k < 8
    case Broadcast(d, a, w) => d < 32 && a.Ok() && w < 2
    case KMovRK(r, k) => r < 16 && k < 8
    case KMovKR(k, r) => r < 16 && k < 8
    case KMovKK(k, k2) => k < 8 && k2 < 8
    case KAnd(k, k2) => k < 8 && k2 < 8
    case KOr(k, k2) => k < 8 && k2 < 8
    case KNot(k, k2) => k < 8 && k2 < 8
    case Save(r, c, wide) => r < 16
    case Restore(r, c, wide) => r < 16
    case Alu(a) => AluOk(a)
    case _ => true
  }

  predicate AluOk(a: AluOp) {
    a.ShlEax? || a.ShrEax? || a.ShlEcx? || a.ShrEcx? ==> a.n < 32
  }

  /** Lane `l` is written under mask `k`. */
  predicate Selected(ks: seq<Mask>, k: nat, w: nat, l: nat)
    requires k < |ks| && l < 16
  {
    k == 0 || Covers(ks[k], w, l)
  }

  /** Lane `l`'s bit in a mask: its own, or its qword's. */
  predicate Covers(mask: Mask, w: nat, l: nat)
    requires l < 16
  {
    mask[if w == 1 then l / 2 else l]
  }

  /** `v` over register `d` where mask `k` selects. */
  ghost function Merged(m: Machine, d: nat, v: Vec, k: nat, w: nat): Vec
    requires Wf(m) && d < 32 && k < 8
  {
    seq(16, l requires 0 <= l < 16 => if Selected(m.k, k, w, l) then v[l] else m.z[d][l])
  }

  /** `v` written into `d` under mask `k`. */
  ghost function Write(m: Machine, d: nat, v: Vec, k: nat, w: nat): (r: Machine)
    requires Wf(m) && d < 32 && k < 8
    ensures Wf(r)
  {
    m.(z := m.z[d := Merged(m, d, v, k, w)])
  }

  ghost function SrcVec(m: Machine, s: Src): Vec
    requires Wf(m) && SrcOk(s)
  {
    match s case R(r) => m.z[r] case C(v) => v
  }

  function ShiftLane(kind: ShiftKind, x: Lane, n: nat): Lane {
    match kind case Left => Sll(x, n) case Right => Srl(x, n) case Arith => Sra(x, n)
  }

  /** The lane a dword shuffle takes for lane `l`, within its 128-bit block. */
  function ShufLane(imm: nat, l: nat): (r: nat)
    requires imm < 256 && l < 16
    ensures r < 16
  {
    var i := l % 4;
    l / 4 * 4 + (if i == 0 then imm % 4 else if i == 1 then imm / 4 % 4 else if i == 2 then imm / 16 % 4 else imm / 64)
  }

  predicate CmpLane(kind: CmpKind, a: Lane, b: Lane) {
    match kind case EqD => a == b case LtU => a < b case LtS => Signed32(a) < Signed32(b)
  }

  /** The card's eight floating-point predicates. */
  predicate FPred(pred: nat, r: Rel) {
    if pred == 0 then r.Equal?
    else if pred == 1 then r.Less?
    else if pred == 2 then r.Less? || r.Equal?
    else if pred == 3 then r.Unordered?
    else if pred == 4 then !r.Equal?
    else if pred == 5 then !r.Less?
    else if pred == 6 then !(r.Less? || r.Equal?)
    else !r.Unordered?
  }

  /** Element `e` of a register: a lane, or a pair of lanes. */
  function Element(v: Vec, e: nat, w: nat): nat
    requires e < (if w == 1 then 8 else 16)
  {
    if w == 1 then Join(v[2 * e + 1], v[2 * e]) else v[e]
  }

  // ---- the unaligned pairs ----

  /** Enabled lanes below `l`: where lane `l`'s element stands in memory. */
  function Rank(k: Mask, l: nat): nat
    requires l <= 16
  {
    if l == 0 then 0 else Rank(k, l - 1) + if k[l - 1] then 1 else 0
  }

  ghost function PairMask(m: Machine, k: nat): Mask
    requires Wf(m) && k < 8
  {
    if k == 0 then Prefix(16) else m.k[k]
  }

  /** The first 64-byte boundary above an address. */
  function NextLine(a: int): int {
    a / 64 * 64 + 64
  }

  /** The pair's low part handles the elements of the first line, its high
      part, addressed 64 bytes on, the rest. */
  predicate InPart(a: int, at: int, high: bool) {
    if high then at >= NextLine(a) else at < NextLine(a)
  }

  /** Memory elements in order to the enabled lanes, of one part. */
  ghost function Expand(m: Machine, d: nat, a: int, k: nat, high: bool): (r: Machine)
    requires Wf(m) && d < 32 && k < 8
    ensures Wf(r)
  {
    var km := PairMask(m, k);
    m.(z := m.z[d := seq(16, l requires 0 <= l < 16 =>
      var at := a + 4 * Rank(km, l);
      if km[l] && InPart(a, at, high) then m.mem(at) else m.z[d][l])])
  }

  /** Lane `l` is enabled and its element goes to address `at`. */
  predicate Lands(km: Mask, a: int, l: nat, at: int)
    requires l < 16
  {
    km[l] && at == a + 4 * Rank(km, l)
  }

  /** What address `at` holds after one part of a store. */
  ghost function Landed(m: Machine, km: Mask, v: Vec, a: int, high: bool, at: int): Lane {
    if InPart(a, at, high) && exists l: nat :: l < 16 && Lands(km, a, l, at)
    then (var l: nat :| l < 16 && Lands(km, a, l, at); v[l])
    else m.mem(at)
  }

  /** The enabled lanes in order to memory, of one part. */
  ghost function Compress(m: Machine, a: int, s: nat, k: nat, high: bool): (r: Machine)
    requires Wf(m) && s < 32 && k < 8
    ensures Wf(r)
  {
    var km, v := PairMask(m, k), m.z[s];
    m.(mem := (at: int) => Landed(m, km, v, a, high, at))
  }

  // ---- flags ----

  /** `lahf`: the flags byte into AH (bits 8 to 15). */
  function LoadAh(r: Reg, f: Flags): Reg {
    r[8 := f.cf][9 := true][10 := f.pf][11 := false][12 := f.af][13 := false][14 := f.zf][15 := f.sf]
  }

  function Digit(b: bool): nat { if b then 1 else 0 }

  /** AH is the flags register's low byte: carry is bit 0, parity 2, adjust 4,
      zero 6 and sign 7, and bit 1 is set. */
  lemma AhByte(r: Reg, f: Flags)
    ensures Value(LoadAh(r, f)[8..16])
            == Digit(f.cf) + 2 + 4 * Digit(f.pf) + 16 * Digit(f.af) + 64 * Digit(f.zf) + 128 * Digit(f.sf)
  {
    var ah := LoadAh(r, f)[8..16];
    assert ah == [f.cf, true, f.pf, false, f.af, false, f.zf, f.sf];
    EightBits(ah);
  }

  lemma EightBits(b: seq<bool>)
    requires |b| == 8
    ensures Value(b) == Digit(b[0]) + 2 * Digit(b[1]) + 4 * Digit(b[2]) + 8 * Digit(b[3]) + 16 * Digit(b[4])
                        + 32 * Digit(b[5]) + 64 * Digit(b[6]) + 128 * Digit(b[7])
  {
    assert ValueFrom(b, 7) == Digit(b[7]) + 2 * ValueFrom(b, 8);
    assert ValueFrom(b, 6) == Digit(b[6]) + 2 * ValueFrom(b, 7);
    assert ValueFrom(b, 5) == Digit(b[5]) + 2 * ValueFrom(b, 6);
    assert ValueFrom(b, 4) == Digit(b[4]) + 2 * ValueFrom(b, 5);
    assert ValueFrom(b, 3) == Digit(b[3]) + 2 * ValueFrom(b, 4);
    assert ValueFrom(b, 2) == Digit(b[2]) + 2 * ValueFrom(b, 3);
    assert ValueFrom(b, 1) == Digit(b[1]) + 2 * ValueFrom(b, 2);
  }

  /** `seto al`. */
  function SetAl(r: Reg, b: bool): Reg {
    r[0 := b][1 := false][2 := false][3 := false][4 := false][5 := false][6 := false][7 := false]
  }

  function Byte(v: nat): (s: seq<bool>)
    ensures |s| == 8
  {
    seq(8, i requires 0 <= i < 8 => v / Pow2(i) % 2 == 1)
  }

  /** `add al, 127`: the sum in AL, and every flag of a byte addition. It
      overflows exactly from a positive byte. */
  function AddAl(r: Reg): (Reg, Flags) {
    var al := Value(r[..8]);
    var sum := Byte((al + 127) % 256);
    (sum + r[8..],
     Flags(al + 127 >= 256, EvenParity(sum), al % 16 + 15 >= 16, (al + 127) % 256 == 0, sum[7],
     !r[7] && (r[0] || r[1] || r[2] || r[3] || r[4] || r[5] || r[6])))
  }

  predicate EvenParity(s: seq<bool>) {
    if s == [] then true else s[0] != EvenParity(s[1..])
  }

  /** `sahf`: every flag but OF from AH. */
  function StoreAh(r: Reg, f: Flags): Flags {
    Flags(r[8], r[10], r[12], r[14], r[15], f.of)
  }

  /** The byte of `v` at bit `at` into AH. */
  function PutAh(r: Reg, v: Reg, at: nat): Reg
    requires at <= 56
  {
    r[..8] + v[at..at + 8] + r[16..]
  }

  // ---- integer instructions on eax and ecx ----

  predicate AluFlags(a: AluOp) {
    !(a.MovEaxImm? || a.MovEcxEax? || a.MovEaxEcx? || a.MovzxEaxAl? || a.NotEax?)
  }

  predicate AluEcx(a: AluOp) {
    a.MovEcxEax? || a.ShlEcx? || a.ShrEcx? || a.AndEcxEax?
  }

  ghost function AluValue(a: AluOp, eax: Reg, ecx: Reg, s: Scratch): Reg {
    match a
    case MovEaxImm(imm) => Widen(imm)
    case AndEaxImm(imm) => And32(eax, Widen(imm))
    case MovEcxEax => Low32(eax)
    case MovEaxEcx => Low32(ecx)
    case MovzxEaxAl => And32(eax, Widen(Prefix(8)))
    case ShlEax(n) => Shl32(eax, n)
    case ShrEax(n) => Shr32(eax, n)
    case ShlEcx(n) => Shl32(ecx, n)
    case ShrEcx(n) => Shr32(ecx, n)
    case OrEaxEcx => Or32(eax, ecx)
    case AndEaxEcx => And32(eax, ecx)
    case AndEcxEax => And32(ecx, eax)
    case NotEax => Not32(eax)
    case OrEaxCell(c) => Or32(eax, s.Get(c))
  }

  ghost function AluExec(a: AluOp, m: Machine): (r: Machine)
    requires Wf(m)
    ensures Wf(r)
  {
    var v := AluValue(a, m.gpr[0], m.gpr[1], m.s);
    m.(gpr := m.gpr[(if AluEcx(a) then 1 else 0) := v], fl := if AluFlags(a) then m.fx(v) else m.fl)
  }

  // ---- execution ----

  function BoolVec(b: BoolOp, x: Vec, y: Vec): Vec {
    seq(16, l requires 0 <= l < 16 => LaneOp(b, x[l], y[l]))
  }

  function AddVec(x: Vec, y: Vec): Vec {
    seq(16, l requires 0 <= l < 16 => Add(x[l], y[l]))
  }

  function SubVec(x: Vec, y: Vec): Vec {
    seq(16, l requires 0 <= l < 16 => Sub(x[l], y[l]))
  }

  function ShiftVec(kind: ShiftKind, x: Vec, n: nat): Vec {
    seq(16, l requires 0 <= l < 16 => ShiftLane(kind, x[l], n))
  }

  function ShufVec(x: Vec, imm: nat): Vec
    requires imm < 256
  {
    seq(16, l requires 0 <= l < 16 => x[ShufLane(imm, l)])
  }

  function CmpMask(kind: CmpKind, x: Vec, y: Vec): Mask {
    seq(16, l requires 0 <= l < 16 => CmpLane(kind, x[l], y[l]))
  }

  /** A floating-point compare under a mask, one bit per element. */
  ghost function FCmpMask(m: Machine, x: Vec, y: Vec, pred: nat, k: nat, w: nat): Mask
    requires Wf(m) && k < 8
  {
    seq(16, e requires 0 <= e < 16 =>
      && (w == 1 ==> e < 8)
      && (k == 0 || m.k[k][e])
      && FPred(pred, m.rel(w, Element(x, e, w), Element(y, e, w))))
  }

  /** One dword in every lane, or one qword in every pair of lanes. */
  ghost function BroadcastVec(m: Machine, at: int, w: nat): Vec {
    seq(16, l requires 0 <= l < 16 => BroadcastLane(m, at, w, l))
  }

  ghost function BroadcastLane(m: Machine, at: int, w: nat, l: nat): Lane {
    m.mem(if w == 1 then at + 4 * (l % 2) else at)
  }

  /** A register stored to a cell, whole or its low half. */
  function Stored(r: Reg, was: Reg, wide: bool): Reg {
    if wide then r else r[..32] + was[32..]
  }

  ghost function ExecV(op: Op, m: Machine): (r: Machine)
    requires Wf(m) && OpOk(op)
    ensures Wf(r)
  {
    match op
    case VMov(d, src, k, w) => Write(m, d, SrcVec(m, src), k, w)
    case VBool(b, d, s1, src, k, w) => Write(m, d, BoolVec(b, m.z[s1], SrcVec(m, src)), k, w)
    case VAdd(d, s1, src, k) => Write(m, d, AddVec(m.z[s1], SrcVec(m, src)), k, 0)
    case VSub(d, s1, src, k) => Write(m, d, SubVec(m.z[s1], SrcVec(m, src)), k, 0)
    case VShift(kind, d, s, n, k) => Write(m, d, ShiftVec(kind, m.z[s], n), k, 0)
    case VShufD(d, s, imm, k) => Write(m, d, ShufVec(m.z[s], imm), k, 0)
    case VCmp(kind, kd, s1, s2) => m.(k := m.k[kd := CmpMask(kind, m.z[s1], m.z[s2])])
    case FCmp(kd, s1, s2, pred, k, w) => m.(k := m.k[kd := FCmpMask(m, m.z[s1], m.z[s2], pred, k, w)])
    case Spill(z, slot) => m.(s := m.s.(zs := m.s.zs[slot := m.z[z]]))
    case Fill(z, slot) => m.(z := m.z[z := m.s.zs[slot]])
    case LoadLo(d, a, k) => Expand(m, d, Address(m, a), k, false)
    case LoadHi(d, a, k) => Expand(m, d, Address(m, a) - 64, k, true)
    case StoreLo(a, s, k) => Compress(m, Address(m, a), s, k, false)
    case StoreHi(a, s, k) => Compress(m, Address(m, a) - 64, s, k, true)
    case Broadcast(d, a, w) => m.(z := m.z[d := BroadcastVec(m, Address(m, a), w)])
    case _ => m
  }

  ghost function ExecK(op: Op, m: Machine): (r: Machine)
    requires Wf(m) && OpOk(op)
    ensures Wf(r)
  {
    match op
    case KMovRK(r, k) => m.(gpr := m.gpr[r := Widen(m.k[k])])
    case KMovKR(k, r) => m.(k := m.k[k := Narrow(m.gpr[r])])
    case KMovKK(k, k2) => m.(k := m.k[k := m.k[k2]])
    case KAnd(k, k2) => m.(k := m.k[k := And16(m.k[k], m.k[k2])])
    case KOr(k, k2) => m.(k := m.k[k := Or16(m.k[k], m.k[k2])])
    case KNot(k, k2) => m.(k := m.k[k := Not16(m.k[k2])])
    case _ => m
  }

  ghost function ExecG(op: Op, m: Machine): (r: Machine)
    requires Wf(m) && OpOk(op)
    ensures Wf(r)
  {
    match op
    case Save(r, c, wide) => m.(s := m.s.Set(c, Stored(m.gpr[r], m.s.Get(c), wide)))
    case Restore(r, c, wide) => m.(gpr := m.gpr[r := if wide then m.s.Get(c) else Low32(m.s.Get(c))])
    case Alu(a) => AluExec(a, m)
    case Lahf => m.(gpr := m.gpr[0 := LoadAh(m.gpr[0], m.fl)])
    case SetoAl => m.(gpr := m.gpr[0 := SetAl(m.gpr[0], m.fl.of)])
    case AddAl127 => m.(gpr := m.gpr[0 := AddAl(m.gpr[0]).0], fl := AddAl(m.gpr[0]).1)
    case Sahf => m.(fl := StoreAh(m.gpr[0], m.fl))
    case TestEax => m.(fl := m.fx(m.gpr[0]).(cf := false, of := false))
    case AhFrom(c, second) => m.(gpr := m.gpr[0 := PutAh(m.gpr[0], m.s.Get(c), if second then 8 else 0)])
    case _ => m
  }

  ghost function Exec(op: Op, m: Machine): (r: Machine)
    requires Wf(m) && OpOk(op)
    ensures Wf(r)
  {
    if op.KMovRK? || op.KMovKR? || op.KMovKK? || op.KAnd? || op.KOr? || op.KNot? then ExecK(op, m)
    else if op.Save? || op.Restore? || op.Alu? || op.Lahf? || op.SetoAl? || op.AddAl127? || op.Sahf?
            || op.TestEax? || op.AhFrom? then ExecG(op, m)
    else ExecV(op, m)
  }

  ghost predicate OpsOk(ops: seq<Op>) {
    forall i :: 0 <= i < |ops| ==> OpOk(ops[i])
  }

  ghost function Run(ops: seq<Op>, m: Machine): (r: Machine)
    requires Wf(m) && OpsOk(ops)
    ensures Wf(r)
  {
    if ops == [] then m else Exec(ops[|ops| - 1], Run(ops[..|ops| - 1], m))
  }

  // ---- what an instruction may change ----

  predicate WritesZ(op: Op, r: nat) {
    match op
    case VMov(d, _, _, _) => r == d
    case VBool(_, d, _, _, _, _) => r == d
    case VAdd(d, _, _, _) => r == d
    case VSub(d, _, _, _) => r == d
    case VShift(_, d, _, _, _) => r == d
    case VShufD(d, _, _, _) => r == d
    case Fill(z, _) => r == z
    case LoadLo(d, _, _) => r == d
    case LoadHi(d, _, _) => r == d
    case Broadcast(d, _, _) => r == d
    case _ => false
  }

  predicate WritesK(op: Op, k: nat) {
    match op
    case VCmp(_, kd, _, _) => k == kd
    case FCmp(kd, _, _, _, _, _) => k == kd
    case KMovKR(d, _) => k == d
    case KMovKK(d, _) => k == d
    case KAnd(d, _) => k == d
    case KOr(d, _) => k == d
    case KNot(d, _) => k == d
    case _ => false
  }

  predicate WritesG(op: Op, r: nat) {
    match op
    case KMovRK(d, _) => r == d
    case Restore(d, _, _) => r == d
    case Alu(a) => r == if AluEcx(a) then 1 else 0
    case Lahf => r == 0
    case SetoAl => r == 0
    case AddAl127 => r == 0
    case AhFrom(_, _) => r == 0
    case _ => false
  }

  predicate WritesFlags(op: Op) {
    op.AddAl127? || op.Sahf? || op.TestEax? || (op.Alu? && AluFlags(op.alu))
  }

  predicate WritesCell(op: Op, c: Cell) {
    op.Save? && op.c == c
  }

  predicate WritesMem(op: Op) {
    op.StoreLo? || op.StoreHi?
  }

  /** Nothing differs but what an instruction writes. */
  ghost predicate Framed(op: Op, m: Machine, n: Machine)
    requires Wf(m) && Wf(n)
  {
    && (forall r :: 0 <= r < 32 && !WritesZ(op, r) ==> n.z[r] == m.z[r])
    && (forall k :: 0 <= k < 8 && !WritesK(op, k) ==> n.k[k] == m.k[k])
    && (forall r :: 0 <= r < 16 && !WritesG(op, r) ==> n.gpr[r] == m.gpr[r])
    && (!WritesFlags(op) ==> n.fl == m.fl)
    && (!op.Spill? ==> n.s.zs == m.s.zs)
    && (forall c :: !WritesCell(op, c) ==> n.s.Get(c) == m.s.Get(c))
    && (!WritesMem(op) ==> n.mem == m.mem)
    && n.fx == m.fx && n.rel == m.rel
  }

  lemma FrameV(op: Op, m: Machine)
    requires Wf(m) && OpOk(op)
    ensures Framed(op, m, ExecV(op, m))
  {
    hide Merged, BoolVec, AddVec, SubVec, ShiftVec, ShufVec, CmpMask, FCmpMask, BroadcastVec, Address, SrcVec;
  }

  lemma FrameK(op: Op, m: Machine)
    requires Wf(m) && OpOk(op)
    ensures Framed(op, m, ExecK(op, m))
  {
    hide Widen, Narrow, And16, Or16, Not16;
  }

  lemma FrameG(op: Op, m: Machine)
    requires Wf(m) && OpOk(op)
    ensures Framed(op, m, ExecG(op, m))
  {
    hide AluValue, LoadAh, SetAl, AddAl, StoreAh, PutAh, Stored, Low32;
  }

  /** An instruction changes nothing but what it writes. */
  lemma ExecFrame(op: Op, m: Machine)
    requires Wf(m) && OpOk(op)
    ensures Framed(op, m, Exec(op, m))
  {
    hide ExecV, ExecK, ExecG, Framed;
    FrameV(op, m);
    FrameK(op, m);
    FrameG(op, m);
  }
}
