/** MVEX instructions: encoded to bytes, and decoded by a table of rows. */
module Mvex {
  import opened Common
  import opened Words

  datatype Shape = Nds | Load | Store | Rmi | Rm2 | Shift | Cmp | Prefetch

  datatype Name =
    | VADDPS | VSUBPS | VMULPS | VADDPD | VSUBPD | VMULPD | VFMADD231PS | VFMADD213PS
    | VFNMADD231PS | VFMSUB213PS | VFMSUB231PS | VFMADD231PD | VFMADD213PD | VPADDD | VPSUBD | VPANDD
    | VPANDND | VPORD | VPXORD | VPSLLVD | VPSRLVD | VPERMD | VPSLLD | VPSRLD
    | VPSRAD | VMOVAPS | VMOVAPD | VMOVDQA32 | VLOADUNPACKLD | VLOADUNPACKHD | VLOADUNPACKLPS | VLOADUNPACKHPS
    | VPBROADCASTD | VMOVAPS_ST | VMOVAPD_ST | VMOVDQA32_ST | VMOVNRAPS_ST | VMOVNRNGOAPS_ST | VPACKSTORELD
    | VPACKSTOREHD
    | VCVTFXPNTDQ2PS
    | VCVTFXPNTPS2DQ | VRNDFXPNTPS | VEXP223PS | VRCP23PS | VCMPPS | VCMPPD | VPREFETCH0 | VPREFETCH1

  /** A row of the decoder's table. The first fields select it, `ext` only for
      opcodes shared by several instructions; the others say how its operands
      are laid out, what it is called and whether it ends in an immediate. */
  datatype Row = Row(mm: nat, pp: nat, w: nat, opcode: nat, ext: Option<nat>, shape: Shape, name: Name, imm: bool)

  const ROWS := 48

  function RowAt(i: nat): Row
    requires i < ROWS
  {
    if i < 12 then Rows0(i) else if i < 24 then Rows12(i) else if i < 36 then Rows24(i) else Rows36(i)
  }

  function Rows0(i: nat): Row
    requires 0 <= i < 12
  {
    match i
    case 0 => Row(1, 0, 0, 0x58, None, Nds, VADDPS, false)
    case 1 => Row(1, 0, 0, 0x5c, None, Nds, VSUBPS, false)
    case 2 => Row(1, 0, 0, 0x59, None, Nds, VMULPS, false)
    case 3 => Row(1, 1, 1, 0x58, None, Nds, VADDPD, false)
    case 4 => Row(1, 1, 1, 0x5c, None, Nds, VSUBPD, false)
    case 5 => Row(1, 1, 1, 0x59, None, Nds, VMULPD, false)
    case 6 => Row(2, 1, 0, 0xb8, None, Nds, VFMADD231PS, false)
    case 7 => Row(2, 1, 0, 0xa8, None, Nds, VFMADD213PS, false)
    case 8 => Row(2, 1, 0, 0xbc, None, Nds, VFNMADD231PS, false)
    case 9 => Row(2, 1, 0, 0xaa, None, Nds, VFMSUB213PS, false)
    case 10 => Row(2, 1, 0, 0xba, None, Nds, VFMSUB231PS, false)
    case _ => Row(2, 1, 1, 0xb8, None, Nds, VFMADD231PD, false)
  }

  function Rows12(i: nat): Row
    requires 12 <= i < 24
  {
    match i
    case 12 => Row(2, 1, 1, 0xa8, None, Nds, VFMADD213PD, false)
    case 13 => Row(1, 1, 0, 0xfe, None, Nds, VPADDD, false)
    case 14 => Row(1, 1, 0, 0xfa, None, Nds, VPSUBD, false)
    case 15 => Row(1, 1, 0, 0xdb, None, Nds, VPANDD, false)
    case 16 => Row(1, 1, 0, 0xdf, None, Nds, VPANDND, false)
    case 17 => Row(1, 1, 0, 0xeb, None, Nds, VPORD, false)
    case 18 => Row(1, 1, 0, 0xef, None, Nds, VPXORD, false)
    case 19 => Row(2, 1, 0, 0x47, None, Nds, VPSLLVD, false)
    case 20 => Row(2, 1, 0, 0x45, None, Nds, VPSRLVD, false)
    case 21 => Row(2, 1, 0, 0x36, None, Nds, VPERMD, false)
    case 22 => Row(1, 1, 0, 0x72, Some(6), Shift, VPSLLD, true)
    case _ => Row(1, 1, 0, 0x72, Some(2), Shift, VPSRLD, true)
  }

  function Rows24(i: nat): Row
    requires 24 <= i < 36
  {
    match i
    case 24 => Row(1, 1, 0, 0x72, Some(4), Shift, VPSRAD, true)
    case 25 => Row(1, 0, 0, 0x28, None, Load, VMOVAPS, false)
    case 26 => Row(1, 1, 1, 0x28, None, Load, VMOVAPD, false)
    case 27 => Row(1, 1, 0, 0x6f, None, Load, VMOVDQA32, false)
    case 28 => Row(2, 0, 0, 0xd0, None, Load, VLOADUNPACKLD, false)
    case 29 => Row(2, 0, 0, 0xd4, None, Load, VLOADUNPACKHD, false)
    case 30 => Row(2, 0, 0, 0xd1, None, Load, VLOADUNPACKLPS, false)
    case 31 => Row(2, 0, 0, 0xd5, None, Load, VLOADUNPACKHPS, false)
    case 32 => Row(2, 1, 0, 0x58, None, Load, VPBROADCASTD, false)
    case 33 => Row(1, 0, 0, 0x29, None, Store, VMOVAPS_ST, false)
    case 34 => Row(1, 1, 1, 0x29, None, Store, VMOVAPD_ST, false)
    case _ => Row(1, 1, 0, 0x7f, None, Store, VMOVDQA32_ST, false)
  }

  function Rows36(i: nat): Row
    requires 36 <= i < 48
  {
    match i
    case 36 => Row(1, 3, 0, 0x29, None, Store, VMOVNRAPS_ST, false)
    case 37 => Row(2, 1, 0, 0xd0, None, Store, VPACKSTORELD, false)
    case 38 => Row(2, 1, 0, 0xd4, None, Store, VPACKSTOREHD, false)
    case 39 => Row(3, 0, 0, 0xcb, None, Rmi, VCVTFXPNTDQ2PS, true)
    case 40 => Row(3, 1, 0, 0xcb, None, Rmi, VCVTFXPNTPS2DQ, true)
    case 41 => Row(3, 1, 0, 0x52, None, Rmi, VRNDFXPNTPS, true)
    case 42 => Row(2, 1, 0, 0xc8, None, Rm2, VEXP223PS, false)
    case 43 => Row(2, 1, 0, 0xca, None, Rm2, VRCP23PS, false)
    case 44 => Row(1, 0, 0, 0xc2, None, Cmp, VCMPPS, true)
    case 45 => Row(1, 1, 1, 0xc2, None, Cmp, VCMPPD, true)
    case 46 => Row(1, 0, 0, 0x18, Some(1), Prefetch, VPREFETCH0, false)
    case _ => Row(1, 0, 0, 0x18, Some(2), Prefetch, VPREFETCH1, false)
  }

  predicate Matches(r: Row, mm: nat, pp: nat, w: nat, opcode: nat, ext: nat) {
    r.mm == mm && r.pp == pp && r.w == w && r.opcode == opcode && (r.ext.None? || r.ext.value == ext)
  }

  // ---- no two rows claim the same bytes ----

  function Index100(opcode: nat, ext: nat): Option<nat> {
    if opcode == 0x58 then Some(0)
    else if opcode == 0x5c then Some(1)
    else if opcode == 0x59 then Some(2)
    else if opcode == 0x28 then Some(25)
    else if opcode == 0x29 then Some(33)
    else if opcode == 0xc2 then Some(44)
    else if opcode == 0x18 then (if ext == 1 then Some(46) else if ext == 2 then Some(47) else None)
    else None
  }

  function Index111(opcode: nat, ext: nat): Option<nat> {
    if opcode == 0x58 then Some(3)
    else if opcode == 0x5c then Some(4)
    else if opcode == 0x59 then Some(5)
    else if opcode == 0x28 then Some(26)
    else if opcode == 0x29 then Some(34)
    else if opcode == 0xc2 then Some(45)
    else None
  }

  function Index210(opcode: nat, ext: nat): Option<nat> {
    if opcode == 0xb8 then Some(6)
    else if opcode == 0xa8 then Some(7)
    else if opcode == 0xbc then Some(8)
    else if opcode == 0xaa then Some(9)
    else if opcode == 0xba then Some(10)
    else if opcode == 0x47 then Some(19)
    else if opcode == 0x45 then Some(20)
    else if opcode == 0x36 then Some(21)
    else if opcode == 0x58 then Some(32)
    else if opcode == 0xd0 then Some(37)
    else if opcode == 0xd4 then Some(38)
    else if opcode == 0xc8 then Some(42)
    else if opcode == 0xca then Some(43)
    else None
  }

  function Index211(opcode: nat, ext: nat): Option<nat> {
    if opcode == 0xb8 then Some(11)
    else if opcode == 0xa8 then Some(12)
    else None
  }

  function Index110(opcode: nat, ext: nat): Option<nat> {
    if opcode == 0xfe then Some(13)
    else if opcode == 0xfa then Some(14)
    else if opcode == 0xdb then Some(15)
    else if opcode == 0xdf then Some(16)
    else if opcode == 0xeb then Some(17)
    else if opcode == 0xef then Some(18)
    else if opcode == 0x72 then (if ext == 6 then Some(22) else if ext == 2 then Some(23)
                                     else if ext == 4 then Some(24) else None)
    else if opcode == 0x6f then Some(27)
    else if opcode == 0x7f then Some(35)
    else None
  }

  function Index200(opcode: nat, ext: nat): Option<nat> {
    if opcode == 0xd0 then Some(28)
    else if opcode == 0xd4 then Some(29)
    else if opcode == 0xd1 then Some(30)
    else if opcode == 0xd5 then Some(31)
    else None
  }

  function Index130(opcode: nat, ext: nat): Option<nat> {
    if opcode == 0x29 then Some(36)
    else None
  }

  function Index300(opcode: nat, ext: nat): Option<nat> {
    if opcode == 0xcb then Some(39)
    else None
  }

  function Index310(opcode: nat, ext: nat): Option<nat> {
    if opcode == 0xcb then Some(40)
    else if opcode == 0x52 then Some(41)
    else None
  }

  /** The row of an opcode, by its own table of opcodes. */
  function Index(mm: nat, pp: nat, w: nat, opcode: nat, ext: nat): Option<nat> {
    if mm == 1 && pp == 0 && w == 0 then Index100(opcode, ext)
    else if mm == 1 && pp == 1 && w == 1 then Index111(opcode, ext)
    else if mm == 2 && pp == 1 && w == 0 then Index210(opcode, ext)
    else if mm == 2 && pp == 1 && w == 1 then Index211(opcode, ext)
    else if mm == 1 && pp == 1 && w == 0 then Index110(opcode, ext)
    else if mm == 2 && pp == 0 && w == 0 then Index200(opcode, ext)
    else if mm == 1 && pp == 3 && w == 0 then Index130(opcode, ext)
    else if mm == 3 && pp == 0 && w == 0 then Index300(opcode, ext)
    else if mm == 3 && pp == 1 && w == 0 then Index310(opcode, ext)
    else None
  }

  lemma Indexed0(i: nat, ext: nat)
    requires 0 <= i < 24 && (RowAt(i).ext.Some? ==> RowAt(i).ext.value == ext)
    ensures var r := RowAt(i);
            Index(r.mm, r.pp, r.w, r.opcode, ext) == Some(i)
  {
  }

  lemma Indexed24(i: nat, ext: nat)
    requires 24 <= i < 48 && (RowAt(i).ext.Some? ==> RowAt(i).ext.value == ext)
    ensures var r := RowAt(i);
            Index(r.mm, r.pp, r.w, r.opcode, ext) == Some(i)
  {
  }

  lemma Indexed(i: nat, mm: nat, pp: nat, w: nat, opcode: nat, ext: nat)
    requires i < ROWS && Matches(RowAt(i), mm, pp, w, opcode, ext)
    ensures Index(mm, pp, w, opcode, ext) == Some(i)
  {
    hide RowAt, Index;
    if i < 24 { Indexed0(i, ext); } else { Indexed24(i, ext); }
  }

  /** An opcode matches one row at most. */
  lemma RowsUnique(i: nat, j: nat, mm: nat, pp: nat, w: nat, opcode: nat, ext: nat)
    requires i < ROWS && j < ROWS
    requires Matches(RowAt(i), mm, pp, w, opcode, ext) && Matches(RowAt(j), mm, pp, w, opcode, ext)
    ensures i == j
  {
    hide RowAt, Index, Matches;
    Indexed(i, mm, pp, w, opcode, ext);
    Indexed(j, mm, pp, w, opcode, ext);
  }

  lemma IndexSound210(opcode: nat, ext: nat)
    requires Index210(opcode, ext).Some?
    ensures var i := Index210(opcode, ext).value;
            i < ROWS && Matches(RowAt(i), 2, 1, 0, opcode, ext)
  {
  }

  lemma IndexSound110(opcode: nat, ext: nat)
    requires Index110(opcode, ext).Some?
    ensures var i := Index110(opcode, ext).value;
            i < ROWS && Matches(RowAt(i), 1, 1, 0, opcode, ext)
  {
  }

  lemma IndexSound(mm: nat, pp: nat, w: nat, opcode: nat, ext: nat)
    requires Index(mm, pp, w, opcode, ext).Some?
    ensures var i := Index(mm, pp, w, opcode, ext).value;
            i < ROWS && Matches(RowAt(i), mm, pp, w, opcode, ext)
  {
    hide Index210, Index110;
    if mm == 2 && pp == 1 && w == 0 { IndexSound210(opcode, ext); }
    if mm == 1 && pp == 1 && w == 0 { IndexSound110(opcode, ext); }
  }

  // ---- encoding ----

  /** A vector register or `[base + disp]`. Bases that need a SIB byte cannot
      be built for the encoder, and are allowed here. */
  datatype Rm = Zmm(z: nat) | Mem(base: nat, disp: int) {
    predicate Ok() {
      match this case Zmm(z) => z < 32 case Mem(base, disp) => base < 16 && -0x8000_0000 <= disp < 0x8000_0000
    }
  }

  /** An instruction of a row: `reg` the ModRM.reg operand, `vvvv` the first
      source, `k` the write mask, `sss` the conversion, `eh` the eviction
      hint, and the immediate, 0 where the row has none. */
  datatype Insn = Insn(row: nat, reg: nat, vvvv: nat, rm: Rm, k: nat, sss: nat, eh: nat, imm: nat) {
    predicate Ok() {
      row < ROWS && reg < 32 && vvvv < 32 && rm.Ok() && k < 8 && sss < 8 && eh < 2 && imm < 256
    }
  }

  /** P0: the extension bits inverted, and the opcode map. */
  function P0(reg: nat, x: nat, b: nat, mm: nat): byte
    requires reg < 32 && x < 2 && b < 2 && mm < 4
  {
    128 * (1 - reg / 8 % 2) + 64 * (1 - x) + 32 * (1 - b) + 16 * (1 - reg / 16) + mm
  }

  function P1(w: nat, vvvv: nat, pp: nat): byte
    requires w < 2 && vvvv < 32 && pp < 4
  {
    128 * w + 8 * (15 - vvvv % 16) + pp
  }

  function P2(eh: nat, sss: nat, vvvv: nat, k: nat): byte
    requires eh < 2 && sss < 8 && vvvv < 32 && k < 8
  {
    128 * eh + 16 * sss + 8 * (1 - vvvv / 16) + k
  }

  predicate RowOk(r: Row) {
    r.mm < 4 && r.pp < 4 && r.w < 2 && r.opcode < 256 && (r.ext.Some? ==> r.ext.value < 8)
  }

  lemma RowsOk(i: nat)
    requires i < ROWS
    ensures RowOk(RowAt(i))
  {
  }

  /** The r/m operand's ModRM byte and displacement. */
  function RmBytes(reg: nat, rm: Rm): seq<byte>
    requires reg < 32 && rm.Ok()
  {
    match rm
    case Zmm(z) => [192 + 8 * (reg % 8) + z % 8]
    case Mem(base, disp) => [128 + 8 * (reg % 8) + base % 8] + ToLe(disp)
  }

  function EncodeRow(r: Row, i: Insn): seq<byte>
    requires RowOk(r) && i.Ok()
  {
    var x := if i.rm.Zmm? then i.rm.z / 16 else 0;
    var b := if i.rm.Zmm? then i.rm.z / 8 % 2 else i.rm.base / 8;
    [0x62, P0(i.reg, x, b, r.mm), P1(r.w, i.vvvv, r.pp), P2(i.eh, i.sss, i.vvvv, i.k), r.opcode]
    + RmBytes(i.reg, i.rm)
    + if r.imm then [i.imm] else []
  }

  function Encode(i: Insn): seq<byte>
    requires i.Ok()
  {
    RowsOk(i.row);
    EncodeRow(RowAt(i.row), i)
  }

  // ---- decoding ----

  /** The fields of an instruction's bytes, before its row is known. */
  datatype Fields = Fields(mm: nat, pp: nat, w: nat, opcode: nat, reg: nat, vvvv: nat, rm: Rm,
                             k: nat, sss: nat, eh: nat, used: nat)

  function FieldsOf(b: seq<byte>): Option<Fields> {
    if |b| < 6 || b[0] != 0x62 then None
    else if b[1] / 4 % 4 != 0 || b[2] / 4 % 2 != 0 then None
    else
      var x, e := 1 - b[1] / 64 % 2, 1 - b[1] / 32 % 2;
      var mod, rmf := b[5] / 64, b[5] % 8;
      if mod < 2 || (mod == 2 && (|b| < 10 || x == 1)) then None
      else
        Some(Fields(
               b[1] % 4, b[2] % 4, b[2] / 128, b[4],
               16 * (1 - b[1] / 16 % 2) + 8 * (1 - b[1] / 128) + b[5] / 8 % 8,
               16 * (1 - b[3] / 8 % 2) + (15 - b[2] / 8 % 16),
               if mod == 3 then Zmm(16 * x + 8 * e + rmf) else Mem(8 * e + rmf, FromLe(b[6..10])),
               b[3] % 8, b[3] / 16 % 8, b[3] / 128, if mod == 3 then 6 else 10))
  }

  /** What each shape of operands rules out. */
  predicate Accepts(r: Row, f: Fields) {
    match r.shape
    case Nds => !(r.pp == 3 && f.eh == 1)
    case Load => f.vvvv == 0
    case Store => f.vvvv == 0 && f.rm.Mem? && (r.pp == 3 ==> f.sss == 0 && f.k == 0)
    case Rmi => f.vvvv == 0
    case Rm2 => f.vvvv == 0
    case Shift => f.sss == 0 && f.eh == 0
    case Cmp => f.reg <= 7 && f.sss == 0 && f.eh == 0
    case Prefetch => f.rm.Mem? && f.vvvv == 0 && f.sss == 0 && f.k == 0 && f.eh == 0 && f.reg <= 7
  }

  /** A shift's ModRM.reg is its row's extension, all else is read. */
  function InsnOf(row: nat, r: Row, f: Fields, imm: nat): Insn {
    Insn(row, if r.shape.Shift? then f.reg % 8 else f.reg, f.vvvv, f.rm, f.k, f.sss, f.eh, imm)
  }

  /** The instruction at the front of `b`, and the bytes it takes. */
  function Decoded(b: seq<byte>): Option<(Insn, nat)> {
    var f := FieldsOf(b);
    if f.None? then None
    else
      var i := Index(f.value.mm, f.value.pp, f.value.w, f.value.opcode, f.value.reg % 8);
      if i.None? then None
      else
        IndexSound(f.value.mm, f.value.pp, f.value.w, f.value.opcode, f.value.reg % 8);
        DecodedRow(b, f.value, i.value, RowAt(i.value))
  }

  function DecodedRow(b: seq<byte>, f: Fields, i: nat, r: Row): Option<(Insn, nat)> {
    if (r.imm && |b| < f.used + 1) || !Accepts(r, f) then None
    else Some((InsnOf(i, r, f, if r.imm then b[f.used] else 0), if r.imm then f.used + 1 else f.used))
  }

  // ---- the mask instructions ----

  datatype MaskOp = KmovKR | KmovRK | KmovKK | Kortest | Knot | Kand | Kandn | Kor | Kxor | Kxnor {
    function Opcode(): byte {
      match this
      case KmovKR => 0x92
      case KmovRK => 0x93
      case KmovKK => 0x90
      case Kortest => 0x98
      case Knot => 0x44
      case Kand => 0x41
      case Kandn => 0x42
      case Kor => 0x45
      case Kxor => 0x47
      case Kxnor => 0x46
    }

    /** It has no first source. */
    predicate TwoOperands() {
      KmovKR? || KmovRK? || KmovKK? || Kortest? || Knot?
    }
  }

  function MaskOpOf(opcode: byte): Option<MaskOp> {
    if opcode == 0x92 then Some(KmovKR)
    else if opcode == 0x93 then Some(KmovRK)
    else if opcode == 0x90 then Some(KmovKK)
    else if opcode == 0x98 then Some(Kortest)
    else if opcode == 0x44 then Some(Knot)
    else if opcode == 0x41 then Some(Kand)
    else if opcode == 0x42 then Some(Kandn)
    else if opcode == 0x45 then Some(Kor)
    else if opcode == 0x47 then Some(Kxor)
    else if opcode == 0x46 then Some(Kxnor)
    else None
  }

  /** What a line of bytes holds. */
  datatype Line = Vector(insn: Insn) | Masks(op: MaskOp, reg: nat, vvvv: nat, rm: nat) | Delay

  /** An instruction behind a 0xc5 prefix. */
  function DecodedMask(b: seq<byte>): Option<(Line, nat)>
    requires |b| >= 4
  {
    if b[1] == 0xfa && b[2] == 0xae && b[3] == 0xf0 then Some((Delay, 4))
    else
      var op, vvvv := MaskOpOf(b[2]), 15 - b[1] / 8 % 16;
      if b[1] / 128 != 1 || b[1] % 8 != 0 || b[3] / 64 != 3 || op.None?
         || (op.value.TwoOperands() && vvvv != 0) then None
      else Some((Masks(op.value, b[3] / 8 % 8, vvvv, b[3] % 8), 4))
  }

  function EncodeMask(op: MaskOp, reg: nat, vvvv: nat, rm: nat): seq<byte>
    requires reg < 8 && vvvv < 16 && rm < 8
  {
    [0xc5, 128 + 8 * (15 - vvvv), op.Opcode(), 192 + 8 * reg + rm]
  }

  /** A mask instruction decodes to itself exactly when it names a first
      source only where its operation has one. */
  lemma DecodeEncodeMask(op: MaskOp, reg: nat, vvvv: nat, rm: nat)
    requires reg < 8 && vvvv < 16 && rm < 8
    ensures DecodedMask(EncodeMask(op, reg, vvvv, rm)) == Some((Masks(op, reg, vvvv, rm), 4)) <==>
            (op.TwoOperands() ==> vvvv == 0)
  {
    assert MaskOpOf(op.Opcode()) == Some(op);
    hide MaskOpOf;
    var m := 192 + 8 * reg + rm;
    assert m / 64 == 3 && m / 8 % 8 == reg && m % 8 == rm;
  }

  /** And back. */
  lemma EncodeDecodeMask(b: seq<byte>)
    requires |b| >= 4 && b[0] == 0xc5 && DecodedMask(b).Some? && DecodedMask(b).value.0.Masks?
    ensures var k := DecodedMask(b).value.0;
            k.reg < 8 && k.vvvv < 16 && k.rm < 8 && EncodeMask(k.op, k.reg, k.vvvv, k.rm) == b[..4]
  {
    var k := DecodedMask(b).value.0;
    assert k.op.Opcode() == b[2];
    hide MaskOpOf;
    assert b[1] == 128 * (b[1] / 128) + 8 * (b[1] / 8 % 16) + b[1] % 8;
    ModrmBack(b[3]);
    assert b[..4] == [b[0], b[1], b[2], b[3]];
  }

  /** A line: a mask instruction or a vector instruction. */
  function DecodedLine(b: seq<byte>): Option<(Line, nat)> {
    if |b| >= 4 && b[0] == 0xc5 then DecodedMask(b)
    else match Decoded(b)
         case None => None
         case Some((i, n)) => Some((Vector(i), n))
  }

  /** The table searched row by row. */
  method Decode(b: seq<byte>) returns (r: Option<(Line, nat)>)
    ensures r == DecodedLine(b)
  {
    hide RowAt, Index, Accepts;
    if |b| >= 4 && b[0] == 0xc5 { return DecodedMask(b); }
    var f := FieldsOf(b);
    if f.None? { return None; }
    var g := f.value;
    var i := 0;
    while i < ROWS && !Matches(RowAt(i), g.mm, g.pp, g.w, g.opcode, g.reg % 8)
      invariant 0 <= i <= ROWS
      invariant forall j :: 0 <= j < i ==> !Matches(RowAt(j), g.mm, g.pp, g.w, g.opcode, g.reg % 8)
    {
      i := i + 1;
    }
    if i == ROWS {
      if Index(g.mm, g.pp, g.w, g.opcode, g.reg % 8).Some? { IndexSound(g.mm, g.pp, g.w, g.opcode, g.reg % 8); }
      return None;
    }
    Indexed(i, g.mm, g.pp, g.w, g.opcode, g.reg % 8);
    var d := DecodedRow(b, g, i, RowAt(i));
    return if d.None? then None else Some((Vector(d.value.0), d.value.1));
  }

  // ---- the round trip ----

  /** What the row allows of its operands. */
  predicate Admissible(r: Row, i: Insn) {
    && (r.ext.Some? ==> i.reg % 8 == r.ext.value) && (r.shape.Shift? ==> i.reg < 8)
    && (!r.imm ==> i.imm == 0)
    && match r.shape
       case Nds => !(r.pp == 3 && i.eh == 1)
       case Load => i.vvvv == 0
       case Store => i.vvvv == 0 && i.rm.Mem? && (r.pp == 3 ==> i.sss == 0 && i.k == 0)
       case Rmi => i.vvvv == 0
       case Rm2 => i.vvvv == 0
       case Shift => i.sss == 0 && i.eh == 0
       case Cmp => i.reg < 8 && i.sss == 0 && i.eh == 0
       case Prefetch => i.rm.Mem? && i.vvvv == 0 && i.sss == 0 && i.k == 0 && i.eh == 0 && i.reg < 8
  }

  lemma P0Parts(a: nat, b: nat, c: nat, d: nat, f: nat)
    requires a < 2 && b < 2 && c < 2 && d < 2 && f < 4
    ensures var p := 128 * a + 64 * b + 32 * c + 16 * d + f;
            p % 4 == f && p / 4 % 4 == 0 && p / 128 == a && p / 64 % 2 == b && p / 32 % 2 == c && p / 16 % 2 == d
  {
    var p := 128 * a + 64 * b + 32 * c + 16 * d + f;
    assert p / 4 == 4 * (8 * a + 4 * b + 2 * c + d);
    assert p / 16 == 8 * a + 4 * b + 2 * c + d;
    assert p / 32 == 4 * a + 2 * b + c;
    assert p / 64 == 2 * a + b;
  }

  lemma P0Bits(reg: nat, x: nat, b: nat, mm: nat)
    requires reg < 32 && x < 2 && b < 2 && mm < 4
    ensures var p := P0(reg, x, b, mm);
            && p % 4 == mm && p / 4 % 4 == 0 && 1 - p / 64 % 2 == x && 1 - p / 32 % 2 == b
            && 16 * (1 - p / 16 % 2) + 8 * (1 - p / 128) == reg / 8 * 8
  {
    P0Parts(1 - reg / 8 % 2, 1 - x, 1 - b, 1 - reg / 16, mm);
  }

  lemma P1Bits(w: nat, vvvv: nat, pp: nat)
    requires w < 2 && vvvv < 32 && pp < 4
    ensures var p := P1(w, vvvv, pp);
            p % 4 == pp && p / 4 % 2 == 0 && p / 128 == w && 15 - p / 8 % 16 == vvvv % 16
  {
    var a := 15 - vvvv % 16;
    var p := 128 * w + 8 * a + pp;
    assert p / 4 == 2 * (16 * w + a);
    assert p / 8 == 16 * w + a;
  }

  lemma P2Bits(eh: nat, sss: nat, vvvv: nat, k: nat)
    requires eh < 2 && sss < 8 && vvvv < 32 && k < 8
    ensures var p := P2(eh, sss, vvvv, k);
            p % 8 == k && p / 16 % 8 == sss && p / 128 == eh && 16 * (1 - p / 8 % 2) == vvvv / 16 * 16
  {
    var v := 1 - vvvv / 16;
    var p := 128 * eh + 16 * sss + 8 * v + k;
    assert p / 8 == 2 * (8 * eh + sss) + v;
    assert p / 16 == 8 * eh + sss;
  }

  lemma SplitReg(reg: nat)
    requires reg < 32
    ensures reg / 8 * 8 + reg % 8 == reg && reg / 16 * 16 + reg % 16 == reg
    ensures 16 * (reg / 16) + 8 * (reg / 8 % 2) + reg % 8 == reg
  {
  }

  lemma RmBits(reg: nat, rm: Rm)
    requires reg < 32 && rm.Ok()
    ensures var m := RmBytes(reg, rm)[0];
            && m / 64 == (if rm.Zmm? then 3 else 2) && m / 8 % 8 == reg % 8
            && m % 8 == (if rm.Zmm? then rm.z % 8 else rm.base % 8)
  {
    var h, r, f := if rm.Zmm? then 3 else 2, reg % 8, if rm.Zmm? then rm.z % 8 else rm.base % 8;
    var m := 64 * h + 8 * r + f;
    assert m / 8 == 8 * h + r;
  }

  ghost function FieldsFor(r: Row, i: Insn): Fields {
    Fields(r.mm, r.pp, r.w, r.opcode, i.reg, i.vvvv, i.rm, i.k, i.sss, i.eh, if i.rm.Zmm? then 6 else 10)
  }

  /** Every field is read back. */
  lemma FieldsEncode(r: Row, i: Insn)
    requires RowOk(r) && i.Ok()
    ensures FieldsOf(EncodeRow(r, i)) == Some(FieldsFor(r, i))
  {
    hide P0, P1, P2, RmBytes, ToLe, FromLe, Signed, EncodeRow;
    PrefixBytes(r, i);
    var x := if i.rm.Zmm? then i.rm.z / 16 else 0;
    var b := if i.rm.Zmm? then i.rm.z / 8 % 2 else i.rm.base / 8;
    P0Bits(i.reg, x, b, r.mm);
    P1Bits(r.w, i.vvvv, r.pp);
    P2Bits(i.eh, i.sss, i.vvvv, i.k);
    RmBits(i.reg, i.rm);
    SplitReg(i.reg);
    SplitReg(i.vvvv);
    RmTail(r, i);
    match i.rm
    case Zmm(z) => SplitReg(z);
    case Mem(base, disp) => SplitReg(base);
  }

  /** Where the prefix and the opcode stand. */
  lemma PrefixBytes(r: Row, i: Insn)
    requires RowOk(r) && i.Ok()
    ensures var e := EncodeRow(r, i);
            var x := if i.rm.Zmm? then i.rm.z / 16 else 0;
            var b := if i.rm.Zmm? then i.rm.z / 8 % 2 else i.rm.base / 8;
            && |e| >= 6 && e[0] == 0x62 && e[1] == P0(i.reg, x, b, r.mm) && e[2] == P1(r.w, i.vvvv, r.pp)
            && e[3] == P2(i.eh, i.sss, i.vvvv, i.k) && e[4] == r.opcode
  {
    hide P0, P1, P2, ToLe;
  }

  /** Where the r/m bytes and the immediate stand. */
  lemma RmTail(r: Row, i: Insn)
    requires RowOk(r) && i.Ok()
    ensures var e, n := EncodeRow(r, i), if i.rm.Zmm? then 6 else 10;
            && |e| == n + (if r.imm then 1 else 0) && e[5] == RmBytes(i.reg, i.rm)[0] && (r.imm ==> e[n] == i.imm)
            && (i.rm.Mem? ==> FromLe(e[6..10]) == i.rm.disp)
  {
    hide P0, P1, P2, ToLe, FromLe;
    if i.rm.Mem? {
      LeRoundTrip(i.rm.disp);
      assert EncodeRow(r, i)[6..10] == ToLe(i.rm.disp);
    }
  }

  /** Decoding gives back the row, operands, mask and immediate exactly when
      the row allows the operands. */
  lemma DecodeEncode(i: Insn)
    requires i.Ok()
    ensures Decoded(Encode(i)) == Some((i, |Encode(i)|)) <==> Admissible(RowAt(i.row), i)
  {
    hide RowAt, Index, FieldsOf, EncodeRow;
    RowsOk(i.row);
    var r := RowAt(i.row);
    FieldsEncode(r, i);
    RmTail(r, i);
    var j := Index(r.mm, r.pp, r.w, r.opcode, i.reg % 8);
    if r.ext.Some? && i.reg % 8 != r.ext.value {
      if j.Some? { IndexSound(r.mm, r.pp, r.w, r.opcode, i.reg % 8); }
    } else {
      Indexed(i.row, r.mm, r.pp, r.w, r.opcode, i.reg % 8);
    }
  }

  // ---- and back ----

  lemma RegParts(d: nat, a: nat, f: nat)
    requires d < 2 && a < 2 && f < 8
    ensures var reg := 16 * d + 8 * a + f;
            reg < 32 && reg / 16 == d && reg / 8 % 2 == a && reg % 8 == f
  {
  }

  lemma UpperBits(p: byte)
    ensures p / 16 == 8 * (p / 128) + 4 * (p / 64 % 2) + 2 * (p / 32 % 2) + p / 16 % 2
  {
    assert p / 64 == 2 * (p / 128) + p / 64 % 2;
    assert p / 32 == 2 * (p / 64) + p / 32 % 2;
  }

  lemma LowerBits(p: byte)
    requires p / 4 % 4 == 0
    ensures p == 16 * (p / 16) + p % 4
  {
  }

  lemma P0Back(p: byte, f: nat)
    requires p / 4 % 4 == 0 && f < 8
    ensures var reg := 16 * (1 - p / 16 % 2) + 8 * (1 - p / 128) + f;
            reg < 32 && P0(reg, 1 - p / 64 % 2, 1 - p / 32 % 2, p % 4) == p && reg % 8 == f
  {
    UpperBits(p);
    LowerBits(p);
    RegParts(1 - p / 16 % 2, 1 - p / 128, f);
  }

  lemma P1Split(p: byte)
    requires p / 4 % 2 == 0
    ensures p == 128 * (p / 128) + 8 * (p / 8 % 16) + p % 4
  {
    assert p / 8 == 16 * (p / 128) + p / 8 % 16;
    assert p / 4 == 2 * (p / 8) + p / 4 % 2;
  }

  lemma P2Split(q: byte)
    ensures q == 128 * (q / 128) + 16 * (q / 16 % 8) + 8 * (q / 8 % 2) + q % 8
  {
    assert q / 16 == 8 * (q / 128) + q / 16 % 8;
    assert q / 8 == 2 * (q / 16) + q / 8 % 2;
  }

  lemma P1P2Back(p: byte, q: byte)
    requires p / 4 % 2 == 0
    ensures var v := 16 * (1 - q / 8 % 2) + (15 - p / 8 % 16);
            v < 32 && P1(p / 128, v, p % 4) == p && P2(q / 128, q / 16 % 8, v, q % 8) == q
  {
    var f := 15 - p / 8 % 16;
    RegParts(1 - q / 8 % 2, f / 8, f % 8);
    P1Split(p);
    P2Split(q);
  }

  lemma ModrmBack(m: byte)
    ensures m == 64 * (m / 64) + 8 * (m / 8 % 8) + m % 8
  {
  }

  lemma FieldsParts(b: seq<byte>)
    requires FieldsOf(b).Some?
    ensures var f := FieldsOf(b).value;
            && f.used <= |b| && f.rm.Ok() && f.reg < 32 && f.reg % 8 == b[5] / 8 % 8
            && (if f.rm.Zmm? then b[5] / 64 == 3 && f.rm.z % 8 == b[5] % 8 && f.used == 6
                else b[5] / 64 == 2 && f.rm.base % 8 == b[5] % 8 && f.used == 10 && f.rm.disp == FromLe(b[6..10]))
            && (if f.rm.Zmm? then f.rm.z / 16 == 1 - b[1] / 64 % 2 && f.rm.z / 8 % 2 == 1 - b[1] / 32 % 2
                else 0 == 1 - b[1] / 64 % 2 && f.rm.base / 8 == 1 - b[1] / 32 % 2)
            && (f.reg < 8 <==> b[1] / 128 == 1 && b[1] / 16 % 2 == 1)
  {
    hide FromLe;
    RegParts(1 - b[1] / 16 % 2, 1 - b[1] / 128, b[5] / 8 % 8);
    RegParts(1 - b[1] / 64 % 2, 1 - b[1] / 32 % 2, b[5] % 8);
    RegParts(0, 1 - b[1] / 32 % 2, b[5] % 8);
  }

  /** The r/m operand of the fields. */
  lemma RmBack(b: seq<byte>)
    requires FieldsOf(b).Some?
    ensures var f := FieldsOf(b).value;
            f.used <= |b| && f.rm.Ok() && f.reg < 32 && RmBytes(f.reg, f.rm) == b[5..f.used]
  {
    hide ToLe, FromLe, FieldsOf;
    FieldsParts(b);
    ModrmBack(b[5]);
    if b[5] / 64 == 2 {
      LeBack(b[6..10]);
      assert b[5..10] == [b[5]] + b[6..10];
    }
  }

  lemma SplitBytes(b: seq<byte>, used: nat, n: nat)
    requires 5 <= used <= n <= |b|
    ensures b[..n] == [b[0], b[1], b[2], b[3], b[4]] + b[5..used] + b[used..n]
  {
  }

  /** The fields carry every bit of their bytes. */
  lemma FieldsBack(b: seq<byte>, r: Row, i: Insn)
    requires FieldsOf(b).Some? && RowOk(r)
    requires var f := FieldsOf(b).value;
             && f.mm == r.mm && f.pp == r.pp && f.w == r.w && f.opcode == r.opcode
             && i.row < ROWS && i.reg == f.reg && i.vvvv == f.vvvv && i.rm == f.rm
             && i.k == f.k && i.sss == f.sss && i.eh == f.eh
             && i.imm < 256 && (r.imm ==> f.used < |b| && i.imm == b[f.used])
    ensures var n := FieldsOf(b).value.used + if r.imm then 1 else 0;
            i.Ok() && n <= |b| && EncodeRow(r, i) == b[..n]
  {
    hide P0, P1, P2, RmBytes, FromLe, ToLe;
    var f := FieldsOf(b).value;
    RmBack(b);
    P0Back(b[1], b[5] / 8 % 8);
    P1P2Back(b[2], b[3]);
    FieldsParts(b);
    assert i.Ok();
    var n := f.used + if r.imm then 1 else 0;
    SplitBytes(b, f.used, n);
  }

  /** Encoding what was decoded gives the bytes back, except a shift whose
      prefix extends ModRM.reg, which the decoder does not look at. */
  lemma EncodeDecode(b: seq<byte>)
    requires Decoded(b).Some?
    ensures var (i, n) := Decoded(b).value;
            && i.Ok() && n <= |b|
            && (Encode(i) == b[..n] <==> (RowAt(i.row).shape.Shift? ==> b[1] / 128 == 1 && b[1] / 16 % 2 == 1))
  {
    hide RowAt, Index, FieldsOf, EncodeRow, Accepts;
    var f := FieldsOf(b).value;
    IndexSound(f.mm, f.pp, f.w, f.opcode, f.reg % 8);
    var (i, n) := Decoded(b).value;
    var r := RowAt(i.row);
    RowsOk(i.row);
    RmBack(b);
    FieldsBack(b, r, i.(reg := f.reg));
    FieldsParts(b);
    if r.shape.Shift? && f.reg >= 8 {
      FieldsEncode(r, i);
      assert Encode(i) != b[..n] by {
        if Encode(i) == b[..n] { FieldsEncode(r, i.(reg := f.reg)); }
      }
    }
  }

  /** vpslld with the prefix bit that extends ModRM.reg. */
  function ExtendedShift(): seq<byte> {
    [0x62, 0x71, 0x79, 0x08, 0x72, 0xf0, 0x01]
  }

  lemma ExtendedShiftFields()
    ensures FieldsOf(ExtendedShift()) == Some(Fields(1, 1, 0, 0x72, 14, 0, Zmm(0), 0, 0, 0, 6))
  {
    hide FromLe;
  }

  /** It decodes, and to an instruction of other bytes. */
  lemma ShiftPrefixLost()
    ensures var b := ExtendedShift();
            && Decoded(b).Some? && Decoded(b).value.0.Ok() && RowAt(Decoded(b).value.0.row).name == VPSLLD
            && Encode(Decoded(b).value.0) != b
  {
    hide FieldsOf, Encode;
    var b := ExtendedShift();
    ExtendedShiftFields();
    assert Index(1, 1, 0, 0x72, 6) == Some(22);
    hide Index;
    EncodeDecode(b);
    assert b[..7] == b;
  }
}
