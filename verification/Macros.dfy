/** The assembler's macro lines: what bytes each macro gives, and which line
    the decoder writes for bytes. */
module Macros {
  import opened Common
  import opened Words
  import opened Mvex
  import Card
  import Encoding
  import Layout
  import Shifts

  /** A macro line: `a` the register written, or stored from; `b` the first
      source; the operand that may be memory; then the immediate, the
      conversion, the write mask and the eviction hint, 0 where none is given. */
  datatype Text = Text(name: Name, a: nat, b: nat, rm: Rm, imm: nat, conv: nat, k: nat, eh: nat) {
    predicate Ok() {
      a < 32 && b < 32 && rm.Ok() && imm < 256 && conv < 8 && k < 8 && eh < 2
    }
  }

  /** Where a macro puts its operands. */
  datatype Form = Three | Two | Storing | Imm | Shifted(ext: nat) | Compare | Unordered(eh: nat) | Fetch(ext: nat)

  /** The optional arguments a macro has, and whether its last operand may be
      a register. */
  datatype Args = Args(conv: bool, k: bool, eh: bool, register: bool)

  datatype Code = Code(mm: nat, pp: nat, w: nat, opcode: nat)

  datatype Macro = Macro(mm: nat, pp: nat, w: nat, opcode: nat, form: Form, args: Args)

  const ALL := Args(true, true, true, true)
  const MASKED := Args(false, true, false, true)
  const CONVERTED := Args(true, true, false, true)
  const MEMORY := Args(true, true, true, false)
  const UNPACKED := Args(true, true, false, false)
  const PLAIN := Args(false, true, false, false)
  const NONE := Args(false, false, false, false)

  predicate UnpackLoad(n: Name) {
    n.VLOADUNPACKLD? || n.VLOADUNPACKHD? || n.VLOADUNPACKLPS? || n.VLOADUNPACKHPS?
  }

  /** The optional arguments, by where the operands go; the loads and stores
      that pack take no hint. */
  function ArgsOf(l: Form, n: Name): Args {
    match l
    case Three => ALL
    case Two =>
      if UnpackLoad(n) then UNPACKED else if n.VPBROADCASTD? then PLAIN
      else if n.VEXP223PS? || n.VRCP23PS? then CONVERTED else ALL
    case Storing => if n.VPACKSTORELD? || n.VPACKSTOREHD? then PLAIN else MEMORY
    case Imm => CONVERTED
    case Shifted(_) => MASKED
    case Compare => MASKED
    case Unordered(_) => NONE
    case Fetch(_) => NONE
  }

  /** The map, prefix, W and opcode of each macro. */
  function CodeOf(n: Name): Code {
    match n
    case VADDPS => Code(1, 0, 0, 0x58)
    case VSUBPS => Code(1, 0, 0, 0x5c)
    case VMULPS => Code(1, 0, 0, 0x59)
    case VADDPD => Code(1, 1, 1, 0x58)
    case VSUBPD => Code(1, 1, 1, 0x5c)
    case VMULPD => Code(1, 1, 1, 0x59)
    case VFMADD231PS => Code(2, 1, 0, 0xb8)
    case VFMADD213PS => Code(2, 1, 0, 0xa8)
    case VFNMADD231PS => Code(2, 1, 0, 0xbc)
    case VFMSUB213PS => Code(2, 1, 0, 0xaa)
    case VFMSUB231PS => Code(2, 1, 0, 0xba)
    case VFMADD231PD => Code(2, 1, 1, 0xb8)
    case VFMADD213PD => Code(2, 1, 1, 0xa8)
    case VPADDD => Code(1, 1, 0, 0xfe)
    case VPSUBD => Code(1, 1, 0, 0xfa)
    case VPANDD => Code(1, 1, 0, 0xdb)
    case VPANDND => Code(1, 1, 0, 0xdf)
    case VPORD => Code(1, 1, 0, 0xeb)
    case VPXORD => Code(1, 1, 0, 0xef)
    case VPSLLVD => Code(2, 1, 0, 0x47)
    case VPSRLVD => Code(2, 1, 0, 0x45)
    case VPERMD => Code(2, 1, 0, 0x36)
    case VPSLLD => Code(1, 1, 0, 0x72)
    case VPSRLD => Code(1, 1, 0, 0x72)
    case VPSRAD => Code(1, 1, 0, 0x72)
    case VMOVAPS => Code(1, 0, 0, 0x28)
    case VMOVAPD => Code(1, 1, 1, 0x28)
    case VMOVDQA32 => Code(1, 1, 0, 0x6f)
    case VLOADUNPACKLD => Code(2, 0, 0, 0xd0)
    case VLOADUNPACKHD => Code(2, 0, 0, 0xd4)
    case VLOADUNPACKLPS => Code(2, 0, 0, 0xd1)
    case VLOADUNPACKHPS => Code(2, 0, 0, 0xd5)
    case VPBROADCASTD => Code(2, 1, 0, 0x58)
    case VMOVAPS_ST => Code(1, 0, 0, 0x29)
    case VMOVAPD_ST => Code(1, 1, 1, 0x29)
    case VMOVDQA32_ST => Code(1, 1, 0, 0x7f)
    case VMOVNRAPS_ST => Code(1, 3, 0, 0x29)
    case VMOVNRNGOAPS_ST => Code(1, 3, 0, 0x29)
    case VPACKSTORELD => Code(2, 1, 0, 0xd0)
    case VPACKSTOREHD => Code(2, 1, 0, 0xd4)
    case VCVTFXPNTDQ2PS => Code(3, 0, 0, 0xcb)
    case VCVTFXPNTPS2DQ => Code(3, 1, 0, 0xcb)
    case VRNDFXPNTPS => Code(3, 1, 0, 0x52)
    case VEXP223PS => Code(2, 1, 0, 0xc8)
    case VRCP23PS => Code(2, 1, 0, 0xca)
    case VCMPPS => Code(1, 0, 0, 0xc2)
    case VCMPPD => Code(1, 1, 1, 0xc2)
    case VPREFETCH0 => Code(1, 0, 0, 0x18)
    case VPREFETCH1 => Code(1, 0, 0, 0x18)
  }

  /** Where each macro's operands go: three of them unless it says otherwise. */
  function FormOf(n: Name): Form {
    match n
    case VPSLLD => Shifted(6) case VPSRLD => Shifted(2) case VPSRAD => Shifted(4) case VMOVAPS => Two
    case VMOVAPD => Two case VMOVDQA32 => Two case VLOADUNPACKLD => Two case VLOADUNPACKHD => Two
    case VLOADUNPACKLPS => Two case VLOADUNPACKHPS => Two case VPBROADCASTD => Two case VMOVAPS_ST => Storing
    case VMOVAPD_ST => Storing case VMOVDQA32_ST => Storing case VMOVNRAPS_ST => Unordered(0)
    case VMOVNRNGOAPS_ST => Unordered(1) case VPACKSTORELD => Storing case VPACKSTOREHD => Storing
    case VCVTFXPNTDQ2PS => Imm case VCVTFXPNTPS2DQ => Imm case VRNDFXPNTPS => Imm case VEXP223PS => Two
    case VRCP23PS => Two case VCMPPS => Compare case VCMPPD => Compare case VPREFETCH0 => Fetch(1)
    case VPREFETCH1 => Fetch(2)
    case _ => Three
  }

  function MacroOf(n: Name): Macro {
    var c := CodeOf(n);
    Macro(c.mm, c.pp, c.w, c.opcode, FormOf(n), ArgsOf(FormOf(n), n))
  }

  /** The line gives the macro only what it takes. A base that would need a
      SIB byte is an error. */
  predicate Takes(m: Macro, t: Text) {
    && t.Ok()
    && (t.conv != 0 ==> m.args.conv) && (t.k != 0 ==> m.args.k) && (t.eh != 0 ==> m.args.eh)
    && (if t.rm.Zmm? then m.args.register else t.rm.base % 8 != 4)
    && (!(m.form.Three? || m.form.Compare?) ==> t.b == 0)
    && (!(m.form.Imm? || m.form.Shifted? || m.form.Compare?) ==> t.imm == 0)
    && (m.form.Compare? ==> t.a < 8) && (m.form.Fetch? ==> t.a == 0)
  }

  /** The prefix, the opcode, and a register or a based operand. */
  function Emit(m: Macro, reg: nat, vvvv: nat, rm: Rm, conv: nat, k: nat, eh: nat): seq<byte>
    requires m.mm < 4 && m.pp < 4 && m.w < 2 && m.opcode < 256
    requires reg < 32 && vvvv < 32 && rm.Ok() && conv < 8 && k < 8 && eh < 2
  {
    var (b, x) := if rm.Zmm? then (rm.z / 8 % 2, rm.z / 16) else (rm.base / 8, 0);
    [0x62,
     (1 - reg / 8 % 2) * 128 + (1 - x) * 64 + (1 - b) * 32 + (1 - reg / 16) * 16 + m.mm,
     m.w * 128 + (15 - vvvv % 16) * 8 + m.pp,
     eh * 128 + conv * 16 + (1 - vvvv / 16) * 8 + k,
     m.opcode]
    + match rm
      case Zmm(z) => [0xc0 + reg % 8 * 8 + z % 8]
      case Mem(base, disp) => [0x80 + reg % 8 * 8 + base % 8] + ToLe(disp)
  }

  lemma CodeFits(n: Name)
    ensures var c := CodeOf(n); c.mm < 4 && c.pp < 4 && c.w < 2 && c.opcode < 256
    ensures CodeOf(n).pp == 3 <==> n == VMOVNRNGOAPS_ST || n == VMOVNRAPS_ST
  {
  }

  lemma FormFits(n: Name)
    ensures var l := FormOf(n);
            && (l.Shifted? || l.Fetch? ==> l.ext < 8)
            && (l.Unordered? <==> n == VMOVNRNGOAPS_ST || n == VMOVNRAPS_ST)
            && (l.Unordered? ==> l.eh == if n == VMOVNRNGOAPS_ST then 1 else 0)
            && (UnpackLoad(n) || n.VPBROADCASTD? || n.VEXP223PS? || n.VRCP23PS? ==> l.Two?)
            && (n.VPACKSTORELD? || n.VPACKSTOREHD? ==> l.Storing?)
  {
  }

  /** Fields within bounds, arguments by form, and the prefix of the no-read
      stores theirs alone. */
  lemma MacroIs(n: Name)
    ensures var m := MacroOf(n);
            && m.mm < 4 && m.pp < 4 && m.w < 2 && m.opcode < 256 && m.args == ArgsOf(m.form, n)
            && (m.form.Shifted? || m.form.Fetch? ==> m.form.ext < 8)
            && (m.form.Unordered? <==> m.pp == 3)
            && (m.form.Unordered? <==> n == VMOVNRNGOAPS_ST || n == VMOVNRAPS_ST)
            && (m.form.Unordered? ==> m.form.eh == if n == VMOVNRNGOAPS_ST then 1 else 0)
            && (UnpackLoad(n) || n.VPBROADCASTD? || n.VEXP223PS? || n.VRCP23PS? ==> m.form.Two?)
            && (n.VPACKSTORELD? || n.VPACKSTOREHD? ==> m.form.Storing?)
  {
    CodeFits(n);
    FormFits(n);
    hide CodeOf, FormOf;
  }

  /** The bytes a line assembles to, if it does. */
  function Expand(t: Text): Option<seq<byte>> {
    var m := MacroOf(t.name);
    if !Takes(m, t) then None
    else
      MacroIs(t.name);
      match m.form
      case Three => Some(Emit(m, t.a, t.b, t.rm, t.conv, t.k, t.eh))
      case Two => Some(Emit(m, t.a, 0, t.rm, t.conv, t.k, t.eh))
      case Storing => Some(Emit(m, t.a, 0, t.rm, t.conv, t.k, t.eh))
      case Imm => Some(Emit(m, t.a, 0, t.rm, t.conv, t.k, 0) + [t.imm])
      case Shifted(ext) => Some(Emit(m, ext, t.a, t.rm, 0, t.k, 0) + [t.imm])
      case Compare => Some(Emit(m, t.a, t.b, t.rm, 0, t.k, 0) + [t.imm])
      case Unordered(eh) => Some(Emit(m, t.a, 0, t.rm, 0, 0, eh))
      case Fetch(ext) => Some(Emit(m, ext, 0, t.rm, 0, 0, 0))
  }

  // ---- the decoder's lines ----

  /** The line written for an instruction. The no-read stores differ by the
      hint, which is then not written. */
  function Written(i: Insn): Text
    requires i.row < ROWS
  {
    var r := RowAt(i.row);
    match r.shape
    case Nds => Text(r.name, i.reg, i.vvvv, i.rm, 0, i.sss, i.k, i.eh)
    case Load => Text(r.name, i.reg, 0, i.rm, 0, i.sss, i.k, i.eh)
    case Store =>
      if r.pp == 3 then Text(if i.eh == 1 then VMOVNRNGOAPS_ST else VMOVNRAPS_ST, i.reg, 0, i.rm, 0, 0, 0, 0)
      else Text(r.name, i.reg, 0, i.rm, 0, i.sss, i.k, i.eh)
    case Rmi => Text(r.name, i.reg, 0, i.rm, i.imm, i.sss, i.k, i.eh)
    case Rm2 => Text(r.name, i.reg, 0, i.rm, 0, i.sss, i.k, i.eh)
    case Shift => Text(r.name, i.vvvv, 0, i.rm, i.imm, 0, i.k, 0)
    case Cmp => Text(r.name, i.reg, i.vvvv, i.rm, i.imm, 0, i.k, 0)
    case Prefetch => Text(r.name, 0, 0, i.rm, 0, 0, 0, 0)
  }

  /** The row of a macro's own fields, and its operands there. */
  ghost predicate Agree(m: Macro, r: Row) {
    && r.mm == m.mm && r.pp == m.pp && r.w == m.w && r.opcode == m.opcode
    && (match m.form
        case Three => r.shape.Nds? && r.ext.None? && !r.imm
        case Two => (r.shape.Load? || r.shape.Rm2?) && r.ext.None? && !r.imm
        case Storing => r.shape.Store? && r.ext.None? && !r.imm && r.pp != 3
        case Imm => r.shape.Rmi? && r.ext.None? && r.imm
        case Shifted(e) => r.shape.Shift? && r.ext == Some(e) && r.imm
        case Compare => r.shape.Cmp? && r.ext.None? && r.imm
        case Unordered(_) => r.shape.Store? && r.ext.None? && !r.imm && r.pp == 3
        case Fetch(e) => r.shape.Prefetch? && r.ext == Some(e) && !r.imm)
  }

  /** Each row is called what its macro is called. */
  lemma RowsAgree(i: nat)
    requires i < ROWS
    ensures RowAt(i).name != VMOVNRNGOAPS_ST && Agree(MacroOf(RowAt(i).name), RowAt(i))
  {
    hide Agree, RowAt, MacroOf;
    if i < 6 { RowsAgree0(i); } else if i < 12 { RowsAgree6(i); } else if i < 18 { RowsAgree12(i); }
    else if i < 24 { RowsAgree18(i); } else if i < 27 { RowsAgree24(i); } else if i < 30 { RowsAgree27(i); }
    else if i < 33 { RowsAgree30(i); } else if i < 36 { RowsAgree33(i); } else if i < 39 { RowsAgree36(i); }
    else if i < 42 { RowsAgree39(i); } else if i < 45 { RowsAgree42(i); } else { RowsAgree45(i); }
  }

  lemma RowsAgree0(i: nat)
    requires 0 <= i < 6
    ensures RowAt(i).name != VMOVNRNGOAPS_ST && Agree(MacroOf(RowAt(i).name), RowAt(i))
  {
  }

  lemma RowsAgree6(i: nat)
    requires 6 <= i < 12
    ensures RowAt(i).name != VMOVNRNGOAPS_ST && Agree(MacroOf(RowAt(i).name), RowAt(i))
  {
  }

  lemma RowsAgree12(i: nat)
    requires 12 <= i < 18
    ensures RowAt(i).name != VMOVNRNGOAPS_ST && Agree(MacroOf(RowAt(i).name), RowAt(i))
  {
  }

  lemma RowsAgree18(i: nat)
    requires 18 <= i < 24
    ensures RowAt(i).name != VMOVNRNGOAPS_ST && Agree(MacroOf(RowAt(i).name), RowAt(i))
  {
  }

  lemma RowsAgree24(i: nat)
    requires 24 <= i < 27
    ensures RowAt(i).name != VMOVNRNGOAPS_ST && Agree(MacroOf(RowAt(i).name), RowAt(i))
  {
  }

  lemma RowsAgree27(i: nat)
    requires 27 <= i < 30
    ensures RowAt(i).name != VMOVNRNGOAPS_ST && Agree(MacroOf(RowAt(i).name), RowAt(i))
  {
  }

  lemma RowsAgree30(i: nat)
    requires 30 <= i < 33
    ensures RowAt(i).name != VMOVNRNGOAPS_ST && Agree(MacroOf(RowAt(i).name), RowAt(i))
  {
  }

  lemma RowsAgree33(i: nat)
    requires 33 <= i < 36
    ensures RowAt(i).name != VMOVNRNGOAPS_ST && Agree(MacroOf(RowAt(i).name), RowAt(i))
  {
  }

  lemma RowsAgree36(i: nat)
    requires 36 <= i < 39
    ensures RowAt(i).name != VMOVNRNGOAPS_ST && Agree(MacroOf(RowAt(i).name), RowAt(i))
  {
  }

  lemma RowsAgree39(i: nat)
    requires 39 <= i < 42
    ensures RowAt(i).name != VMOVNRNGOAPS_ST && Agree(MacroOf(RowAt(i).name), RowAt(i))
  {
  }

  lemma RowsAgree42(i: nat)
    requires 42 <= i < 45
    ensures RowAt(i).name != VMOVNRNGOAPS_ST && Agree(MacroOf(RowAt(i).name), RowAt(i))
  {
  }

  lemma RowsAgree45(i: nat)
    requires 45 <= i < 48
    ensures RowAt(i).name != VMOVNRNGOAPS_ST && Agree(MacroOf(RowAt(i).name), RowAt(i))
  {
  }

  ghost predicate InTable(n: Name) {
    exists i :: 0 <= i < ROWS && RowAt(i).name == n
  }

  lemma InTableAt(n: Name, i: nat)
    requires i < ROWS && RowAt(i).name == n
    ensures InTable(n)
  {
  }

  /** Every name is some row's, but the second no-read store's. */
  lemma RowNamed(n: Name)
    ensures n == VMOVNRNGOAPS_ST || InTable(n)
  {
    hide InTable;
    match n {
      case VADDPS => InTableAt(n, 0);
      case VSUBPS => InTableAt(n, 1);
      case VMULPS => InTableAt(n, 2);
      case VADDPD => InTableAt(n, 3);
      case VSUBPD => InTableAt(n, 4);
      case VMULPD => InTableAt(n, 5);
      case VFMADD231PS => InTableAt(n, 6);
      case VFMADD213PS => InTableAt(n, 7);
      case VFNMADD231PS => InTableAt(n, 8);
      case VFMSUB213PS => InTableAt(n, 9);
      case VFMSUB231PS => InTableAt(n, 10);
      case VFMADD231PD => InTableAt(n, 11);
      case VFMADD213PD => InTableAt(n, 12);
      case VPADDD => InTableAt(n, 13);
      case VPSUBD => InTableAt(n, 14);
      case VPANDD => InTableAt(n, 15);
      case VPANDND => InTableAt(n, 16);
      case VPORD => InTableAt(n, 17);
      case VPXORD => InTableAt(n, 18);
      case VPSLLVD => InTableAt(n, 19);
      case VPSRLVD => InTableAt(n, 20);
      case VPERMD => InTableAt(n, 21);
      case VPSLLD => InTableAt(n, 22);
      case VPSRLD => InTableAt(n, 23);
      case VPSRAD => InTableAt(n, 24);
      case VMOVAPS => InTableAt(n, 25);
      case VMOVAPD => InTableAt(n, 26);
      case VMOVDQA32 => InTableAt(n, 27);
      case VLOADUNPACKLD => InTableAt(n, 28);
      case VLOADUNPACKHD => InTableAt(n, 29);
      case VLOADUNPACKLPS => InTableAt(n, 30);
      case VLOADUNPACKHPS => InTableAt(n, 31);
      case VPBROADCASTD => InTableAt(n, 32);
      case VMOVAPS_ST => InTableAt(n, 33);
      case VMOVAPD_ST => InTableAt(n, 34);
      case VMOVDQA32_ST => InTableAt(n, 35);
      case VMOVNRAPS_ST => InTableAt(n, 36);
      case VPACKSTORELD => InTableAt(n, 37);
      case VPACKSTOREHD => InTableAt(n, 38);
      case VCVTFXPNTDQ2PS => InTableAt(n, 39);
      case VCVTFXPNTPS2DQ => InTableAt(n, 40);
      case VRNDFXPNTPS => InTableAt(n, 41);
      case VEXP223PS => InTableAt(n, 42);
      case VRCP23PS => InTableAt(n, 43);
      case VCMPPS => InTableAt(n, 44);
      case VCMPPD => InTableAt(n, 45);
      case VPREFETCH0 => InTableAt(n, 46);
      case VPREFETCH1 => InTableAt(n, 47);
      case _ =>
    }
  }

  /** Each macro has a row of its name, with its map, prefix, opcode and
      operands. */
  lemma NamesAgree(n: Name) returns (i: nat)
    ensures i < ROWS && RowAt(i).name == if n == VMOVNRNGOAPS_ST then VMOVNRAPS_ST else n
    ensures Agree(MacroOf(n), RowAt(i))
  {
    RowNamed(if n == VMOVNRNGOAPS_ST then VMOVNRAPS_ST else n);
    NoReadAlike();
    hide RowAt, MacroOf, Agree;
    i :| 0 <= i < ROWS && RowAt(i).name == if n == VMOVNRNGOAPS_ST then VMOVNRAPS_ST else n;
    RowsAgree(i);
    if n == VMOVNRNGOAPS_ST { AgreeAlike(MacroOf(VMOVNRAPS_ST), MacroOf(n), RowAt(i)); }
  }

  lemma AgreeAlike(m: Macro, n: Macro, r: Row)
    requires Agree(m, r) && m.form.Unordered? && n.form.Unordered? && n == m.(form := n.form)
    ensures Agree(n, r)
  {
  }

  lemma NoReadAlike()
    ensures MacroOf(VMOVNRNGOAPS_ST) == MacroOf(VMOVNRAPS_ST).(form := Unordered(1))
    ensures MacroOf(VMOVNRAPS_ST).form == Unordered(0)
  {
  }

  // ---- the lines and their bytes ----

  /** The bytes of a macro are the encoding of its row. */
  lemma EmitEncodes(m: Macro, r: Row, i: Insn)
    requires RowOk(r) && i.Ok() && r.mm == m.mm && r.pp == m.pp && r.w == m.w && r.opcode == m.opcode
    ensures m.mm < 4 && m.pp < 4 && m.w < 2 && m.opcode < 256
    ensures EncodeRow(r, i)
            == Emit(m, i.reg, i.vvvv, i.rm, i.sss, i.k, i.eh) + if r.imm then [i.imm] else []
  {
    hide ToLe;
  }

  /** The instruction a line stands for. */
  ghost function Meant(m: Macro, row: nat, t: Text): Insn {
    match m.form
    case Three => Insn(row, t.a, t.b, t.rm, t.k, t.conv, t.eh, 0)
    case Two => Insn(row, t.a, 0, t.rm, t.k, t.conv, t.eh, 0)
    case Storing => Insn(row, t.a, 0, t.rm, t.k, t.conv, t.eh, 0)
    case Imm => Insn(row, t.a, 0, t.rm, t.k, t.conv, 0, t.imm)
    case Shifted(ext) => Insn(row, ext, t.a, t.rm, t.k, 0, 0, t.imm)
    case Compare => Insn(row, t.a, t.b, t.rm, t.k, 0, 0, t.imm)
    case Unordered(eh) => Insn(row, t.a, 0, t.rm, 0, 0, eh, 0)
    case Fetch(ext) => Insn(row, ext, 0, t.rm, 0, 0, 0, 0)
  }

  /** A line its macro takes means an instruction its row allows, which is
      written as that line. */
  lemma MeantIs(t: Text, row: nat)
    requires row < ROWS && Takes(MacroOf(t.name), t) && Agree(MacroOf(t.name), RowAt(row))
    requires RowAt(row).name == if t.name == VMOVNRNGOAPS_ST then VMOVNRAPS_ST else t.name
    ensures var i := Meant(MacroOf(t.name), row, t);
            i.row == row && i.Ok() && Admissible(RowAt(row), i) && Written(i) == t
  {
    hide MacroOf, RowAt;
    MacroIs(t.name);
  }

  lemma ExpandMeant(t: Text, row: nat)
    requires row < ROWS && Takes(MacroOf(t.name), t) && Agree(MacroOf(t.name), RowAt(row))
    requires Meant(MacroOf(t.name), row, t).Ok()
    ensures Expand(t) == Some(Encode(Meant(MacroOf(t.name), row, t)))
  {
    hide MacroOf, RowAt, Emit, EncodeRow;
    MacroIs(t.name);
    RowsOk(row);
    var i := Meant(MacroOf(t.name), row, t);
    EmitEncodes(MacroOf(t.name), RowAt(row), i);
    var e := Emit(MacroOf(t.name), i.reg, i.vvvv, i.rm, i.sss, i.k, i.eh);
    assert e + [] == e;
  }

  /** A line's bytes decode to that line, whatever its operands. */
  lemma WrittenExpand(t: Text)
    requires Expand(t).Some?
    ensures var b := Expand(t).value;
            && Decoded(b).Some? && Decoded(b).value.0.row < ROWS
            && Decoded(b).value.1 == |b| && Written(Decoded(b).value.0) == t
  {
    var row := NamesAgree(t.name);
    hide Decoded, Encode, Written, Meant, Agree, Admissible, MacroOf, RowAt;
    MeantIs(t, row);
    ExpandMeant(t, row);
    DecodeEncode(Meant(MacroOf(t.name), row, t));
  }

  /** The macro of an instruction's line agrees with the instruction's row. */
  lemma WrittenAgrees(i: Insn)
    requires i.Ok()
    ensures Agree(MacroOf(Written(i).name), RowAt(i.row))
    ensures var m := MacroOf(Written(i).name); m.form.Unordered? ==> m.form.eh == i.eh
    ensures var m := MacroOf(Written(i).name); m.form.Imm? ==> !m.args.eh
  {
    MacroIs(Written(i).name);
    RowsAgree(i.row);
    NoReadAlike();
    var r := RowAt(i.row);
    hide MacroOf, RowAt;
    if r.shape.Store? && r.pp == 3 {
      if i.eh == 1 { AgreeAlike(MacroOf(VMOVNRAPS_ST), MacroOf(VMOVNRNGOAPS_ST), r); }
    }
  }

  /** What the row of an instruction's line means is that instruction. */
  lemma WrittenMeant(i: Insn)
    requires i.Ok() && Admissible(RowAt(i.row), i) && Takes(MacroOf(Written(i).name), Written(i))
    ensures var m := MacroOf(Written(i).name);
            Agree(m, RowAt(i.row)) && Meant(m, i.row, Written(i)) == i
  {
    hide MacroOf, RowAt;
    WrittenAgrees(i);
    var r := RowAt(i.row);
    match r.shape {
      case Nds =>
      case Load =>
      case Store =>
      case Rmi =>
      case Rm2 =>
      case Shift =>
      case Cmp =>
      case Prefetch =>
    }
  }

  /** The line written for bytes assembles to those bytes exactly when the
      macro takes all it says, and a shift's prefix does not extend ModRM.reg. */
  lemma ExpandWritten(b: seq<byte>)
    requires Decoded(b).Some?
    ensures var (i, n) := Decoded(b).value;
            && i.row < ROWS && n <= |b|
            && var t := Written(i);
               Expand(t) == Some(b[..n])
               <==> Takes(MacroOf(t.name), t) && (RowAt(i.row).shape.Shift? ==> b[1] / 128 == 1 && b[1] / 16 % 2 == 1)
  {
    EncodeDecode(b);
    DecodedAdmits(b);
    var (i, n) := Decoded(b).value;
    var t := Written(i);
    ExpandsIfTaken(t);
    hide Decoded, Encode, Written, Meant, Agree, Admissible, MacroOf, RowAt, Takes, Expand;
    if Takes(MacroOf(t.name), t) {
      WrittenMeant(i);
      ExpandMeant(t, i.row);
    }
  }

  lemma ExpandsIfTaken(t: Text)
    ensures Expand(t).Some? <==> Takes(MacroOf(t.name), t)
  {
    hide MacroOf, Emit, Takes;
  }

  lemma DecodedAdmits(b: seq<byte>)
    requires Decoded(b).Some?
    ensures var i := Decoded(b).value.0;
            i.row < ROWS && Admissible(RowAt(i.row), i)
  {
    hide RowAt, FieldsOf, Index, Admissible, DecodedRow;
    var f := FieldsOf(b).value;
    IndexSound(f.mm, f.pp, f.w, f.opcode, f.reg % 8);
    var i := Index(f.mm, f.pp, f.w, f.opcode, f.reg % 8).value;
    RowAdmits(b, f, i, RowAt(i));
  }

  lemma RowAdmits(b: seq<byte>, f: Fields, i: nat, r: Row)
    requires DecodedRow(b, f, i, r).Some? && Matches(r, f.mm, f.pp, f.w, f.opcode, f.reg % 8)
    ensures var d := DecodedRow(b, f, i, r).value.0;
            d.row == i && Admissible(r, d)
  {
  }

  // ---- lines no macro takes ----

  /** The decoder writes lines that do not assemble: a based operand that needs
      a SIB byte, a register where the macro wants memory, a conversion or a
      hint where it has none. These and no others. */
  lemma TakesExactly(i: Insn)
    requires i.Ok() && Admissible(RowAt(i.row), i)
    ensures var n, s := RowAt(i.row).name, RowAt(i.row).shape;
            Takes(MacroOf(Written(i).name), Written(i))
            <==> && (i.rm.Mem? ==> i.rm.base % 8 != 4)
                 && (UnpackLoad(n) || n.VPBROADCASTD? ==> i.rm.Mem? && i.eh == 0)
                 && (n.VPBROADCASTD? || n.VPACKSTORELD? || n.VPACKSTOREHD? ==> i.sss == 0)
                 && (n.VPACKSTORELD? || n.VPACKSTOREHD? || s.Rmi? || s.Rm2? ==> i.eh == 0)
  {
    if RowAt(i.row).shape.Load? { TakesLoad(i); }
    else if RowAt(i.row).shape.Store? { TakesStore(i); }
    else { TakesOther(i); }
  }

  ghost predicate Taken(i: Insn)
    requires i.row < ROWS
  {
    Takes(MacroOf(Written(i).name), Written(i))
  }

  /** Which names go with which operands. */
  lemma RowShapes(i: nat)
    requires i < ROWS
    ensures var r := RowAt(i);
            && (r.shape.Rm2? <==> r.name.VEXP223PS? || r.name.VRCP23PS?)
            && (r.name.VPACKSTORELD? || r.name.VPACKSTOREHD? ==> r.shape.Store? && r.pp != 3)
            && (UnpackLoad(r.name) || r.name.VPBROADCASTD? ==> r.shape.Load?)
  {
  }

  lemma TakesLoad(i: Insn)
    requires i.Ok() && Admissible(RowAt(i.row), i) && RowAt(i.row).shape.Load?
    ensures var n, s := RowAt(i.row).name, RowAt(i.row).shape;
            Taken(i)
            <==> && (i.rm.Mem? ==> i.rm.base % 8 != 4)
                 && (UnpackLoad(n) || n.VPBROADCASTD? ==> i.rm.Mem? && i.eh == 0)
                 && (n.VPBROADCASTD? || n.VPACKSTORELD? || n.VPACKSTOREHD? ==> i.sss == 0)
                 && (n.VPACKSTORELD? || n.VPACKSTOREHD? || s.Rmi? || s.Rm2? ==> i.eh == 0)
  {
    hide MacroOf, RowAt;
    MacroIs(Written(i).name);
    RowShapes(i.row);
    WrittenAgrees(i);
  }

  lemma TakesStore(i: Insn)
    requires i.Ok() && Admissible(RowAt(i.row), i) && RowAt(i.row).shape.Store?
    ensures var n, s := RowAt(i.row).name, RowAt(i.row).shape;
            Taken(i)
            <==> && (i.rm.Mem? ==> i.rm.base % 8 != 4)
                 && (UnpackLoad(n) || n.VPBROADCASTD? ==> i.rm.Mem? && i.eh == 0)
                 && (n.VPBROADCASTD? || n.VPACKSTORELD? || n.VPACKSTOREHD? ==> i.sss == 0)
                 && (n.VPACKSTORELD? || n.VPACKSTOREHD? || s.Rmi? || s.Rm2? ==> i.eh == 0)
  {
    hide MacroOf, RowAt;
    MacroIs(Written(i).name);
    RowShapes(i.row);
    WrittenAgrees(i);
  }

  lemma TakesOther(i: Insn)
    requires i.Ok() && Admissible(RowAt(i.row), i) && !RowAt(i.row).shape.Load? && !RowAt(i.row).shape.Store?
    ensures var n, s := RowAt(i.row).name, RowAt(i.row).shape;
            Taken(i)
            <==> && (i.rm.Mem? ==> i.rm.base % 8 != 4)
                 && (UnpackLoad(n) || n.VPBROADCASTD? ==> i.rm.Mem? && i.eh == 0)
                 && (n.VPBROADCASTD? || n.VPACKSTORELD? || n.VPACKSTOREHD? ==> i.sss == 0)
                 && (n.VPACKSTORELD? || n.VPACKSTOREHD? || s.Rmi? || s.Rm2? ==> i.eh == 0)
  {
    hide MacroOf, RowAt;
    MacroIs(Written(i).name);
    RowShapes(i.row);
    WrittenAgrees(i);
  }

  /** vloadunpackld from a register. */
  function UnpackRegister(): seq<byte> {
    [0x62, 0xf2, 0x78, 0x08, 0xd0, 0xc1]
  }

  lemma LineWithoutMacro()
    ensures var b := UnpackRegister();
            && Decoded(b).Some? && Decoded(b).value.0.row < ROWS
            && Written(Decoded(b).value.0) == Text(VLOADUNPACKLD, 0, 0, Zmm(1), 0, 0, 0, 0)
            && Expand(Written(Decoded(b).value.0)) == None
  {
    MacroIs(VLOADUNPACKLD);
    UnpackFields();
    hide FieldsOf, MacroOf, Emit;
  }

  lemma UnpackFields()
    ensures FieldsOf(UnpackRegister()) == Some(Fields(2, 0, 0, 0xd0, 0, 0, Zmm(1), 0, 0, 0, 6))
  {
    hide FromLe;
  }

  // ---- bytes that ran on the card ----

  /** A register operand in one piece. */
  lemma EmitRegister(m: Macro, reg: nat, vvvv: nat, z: nat, conv: nat, k: nat, eh: nat)
    requires m.mm < 4 && m.pp < 4 && m.w < 2 && m.opcode < 256
    requires reg < 32 && vvvv < 32 && z < 32 && conv < 8 && k < 8 && eh < 2
    ensures Emit(m, reg, vvvv, Zmm(z), conv, k, eh)
            == [0x62,
                (1 - reg / 8 % 2) * 128 + (1 - z / 16) * 64 + (1 - z / 8 % 2) * 32 + (1 - reg / 16) * 16 + m.mm,
                m.w * 128 + (15 - vvvv % 16) * 8 + m.pp,
                eh * 128 + conv * 16 + (1 - vvvv / 16) * 8 + k,
                m.opcode,
                0xc0 + reg % 8 * 8 + z % 8]
  {
  }

  lemma EmitMemory(m: Macro, reg: nat, vvvv: nat, base: nat, disp: int, conv: nat, k: nat, eh: nat, d: seq<byte>)
    requires m.mm < 4 && m.pp < 4 && m.w < 2 && m.opcode < 256 && reg < 32 && vvvv < 32 && conv < 8 && k < 8 && eh < 2
    requires base < 16 && -0x8000_0000 <= disp < 0x8000_0000 && d == ToLe(disp)
    ensures Emit(m, reg, vvvv, Mem(base, disp), conv, k, eh)
            == [0x62,
                (1 - reg / 8 % 2) * 128 + 64 + (1 - base / 8) * 32 + (1 - reg / 16) * 16 + m.mm,
                m.w * 128 + (15 - vvvv % 16) * 8 + m.pp,
                eh * 128 + conv * 16 + (1 - vvvv / 16) * 8 + k,
                m.opcode,
                0x80 + reg % 8 * 8 + base % 8, d[0], d[1], d[2], d[3]]
  {
    hide ToLe;
  }

  lemma Longer(s: seq<byte>, i: byte)
    requires |s| == 6
    ensures s + [i] == [s[0], s[1], s[2], s[3], s[4], s[5], i]
  {
  }

  /** Three-operand lines of the encoder's own checks. */
  lemma KnownThree()
    ensures Expand(Text(VPADDD, 2, 0, Zmm(1), 0, 0, 0, 0)) == Some([0x62, 0xf1, 0x79, 0x08, 0xfe, 0xd1])
    ensures Expand(Text(VPSUBD, 2, 0, Zmm(1), 0, 0, 0, 0)) == Some([0x62, 0xf1, 0x79, 0x08, 0xfa, 0xd1])
    ensures Expand(Text(VPANDND, 2, 0, Zmm(1), 0, 0, 0, 0)) == Some([0x62, 0xf1, 0x79, 0x08, 0xdf, 0xd1])
  {
    hide Emit;
    EmitRegister(MacroOf(VPADDD), 2, 0, 1, 0, 0, 0);
    EmitRegister(MacroOf(VPSUBD), 2, 0, 1, 0, 0, 0);
    EmitRegister(MacroOf(VPANDND), 2, 0, 1, 0, 0, 0);
  }

  /** Under a mask, and with registers that need the extension bits. */
  lemma KnownExtended()
    ensures Expand(Text(VPADDD, 2, 0, Zmm(1), 0, 0, 1, 0)) == Some([0x62, 0xf1, 0x79, 0x09, 0xfe, 0xd1])
    ensures Expand(Text(VADDPD, 31, 16, Zmm(24), 0, 0, 0, 0)) == Some([0x62, 0x01, 0xf9, 0x00, 0x58, 0xf8])
    ensures Expand(Text(VMULPD, 11, 2, Zmm(7), 0, 0, 1, 0)) == Some([0x62, 0x71, 0xe9, 0x09, 0x59, 0xdf])
  {
    hide Emit;
    EmitRegister(MacroOf(VPADDD), 2, 0, 1, 0, 1, 0);
    EmitRegister(MacroOf(VADDPD), 31, 16, 24, 0, 0, 0);
    EmitRegister(MacroOf(VMULPD), 11, 2, 7, 0, 1, 0);
  }

  /** Shifts: the destination is in vvvv, the kind in ModRM.reg. */
  lemma KnownShifts()
    ensures Expand(Text(VPSLLD, 17, 0, Zmm(1), 3, 0, 2, 0)) == Some([0x62, 0xf1, 0x71, 0x02, 0x72, 0xf1, 0x03])
    ensures Expand(Text(VPSRLD, 2, 0, Zmm(0), 11, 0, 0, 0)) == Some([0x62, 0xf1, 0x69, 0x08, 0x72, 0xd0, 0x0b])
    ensures Expand(Text(VPSRAD, 2, 0, Zmm(0), 11, 0, 0, 0)) == Some([0x62, 0xf1, 0x69, 0x08, 0x72, 0xe0, 0x0b])
  {
    hide Emit;
    EmitRegister(MacroOf(VPSLLD), 6, 17, 1, 0, 2, 0);
    Longer([0x62, 0xf1, 0x71, 0x02, 0x72, 0xf1], 3);
    EmitRegister(MacroOf(VPSRLD), 2, 2, 0, 0, 0, 0);
    Longer([0x62, 0xf1, 0x69, 0x08, 0x72, 0xd0], 11);
    EmitRegister(MacroOf(VPSRAD), 4, 2, 0, 0, 0, 0);
    Longer([0x62, 0xf1, 0x69, 0x08, 0x72, 0xe0], 11);
  }

  /** A compare and a rounding. */
  lemma KnownImmediates()
    ensures Expand(Text(VCMPPD, 1, 10, Zmm(8), 1, 0, 1, 0)) == Some([0x62, 0xd1, 0xa9, 0x09, 0xc2, 0xc8, 0x01])
    ensures Expand(Text(VRNDFXPNTPS, 5, 0, Zmm(6), 1, 0, 0, 0)) == Some([0x62, 0xf3, 0x79, 0x08, 0x52, 0xee, 0x01])
  {
    hide Emit;
    EmitRegister(MacroOf(VCMPPD), 1, 10, 8, 0, 1, 0);
    Longer([0x62, 0xd1, 0xa9, 0x09, 0xc2, 0xc8], 1);
    EmitRegister(MacroOf(VRNDFXPNTPS), 5, 0, 6, 0, 0, 0);
    Longer([0x62, 0xf3, 0x79, 0x08, 0x52, 0xee], 1);
  }

  lemma Disps()
    ensures ToLe(0) == [0, 0, 0, 0] && ToLe(64) == [0x40, 0, 0, 0] && ToLe(-64) == [0xc0, 0xff, 0xff, 0xff]
  {
  }

  /** Loads: rdi is 7, r9 is 9. */
  lemma KnownLoads()
    ensures Expand(Text(VLOADUNPACKHD, 3, 0, Mem(7, 64), 0, 0, 0, 0))
            == Some([0x62, 0xf2, 0x78, 0x08, 0xd4, 0x9f, 0x40, 0x00, 0x00, 0x00])
    ensures Expand(Text(VMOVAPD, 0, 0, Mem(9, 64), 0, 0, 0, 0))
            == Some([0x62, 0xd1, 0xf9, 0x08, 0x28, 0x81, 0x40, 0x00, 0x00, 0x00])
  {
    hide Emit, ToLe;
    Disps();
    EmitMemory(MacroOf(VLOADUNPACKHD), 3, 0, 7, 64, 0, 0, 0, [0x40, 0x00, 0x00, 0x00]);
    EmitMemory(MacroOf(VMOVAPD), 0, 0, 9, 64, 0, 0, 0, [0x40, 0x00, 0x00, 0x00]);
  }

  /** Stores: rbp is 5. A negative displacement, and the hint. */
  lemma KnownStores()
    ensures Expand(Text(VMOVAPS_ST, 9, 0, Mem(5, -64), 0, 0, 0, 0))
            == Some([0x62, 0x71, 0x78, 0x08, 0x29, 0x8d, 0xc0, 0xff, 0xff, 0xff])
    ensures Expand(Text(VMOVNRNGOAPS_ST, 0, 0, Mem(7, 0), 0, 0, 0, 0))
            == Some([0x62, 0xf1, 0x7b, 0x88, 0x29, 0x87, 0x00, 0x00, 0x00, 0x00])
  {
    hide Emit, ToLe;
    Disps();
    EmitMemory(MacroOf(VMOVAPS_ST), 9, 0, 5, -64, 0, 0, 0, [0xc0, 0xff, 0xff, 0xff]);
    EmitMemory(MacroOf(VMOVNRNGOAPS_ST), 0, 0, 7, 0, 0, 0, 1, [0x00, 0x00, 0x00, 0x00]);
  }

  /** The mask macros: a destination, and one source or two. */
  function MaskLine(op: MaskOp, dst: nat, a: nat, b: nat): seq<byte>
    requires dst < 8 && a < 8 && b < 8
  {
    match op
    case KmovKR => VexK(0x92, dst, b, 0)
    case KmovRK => VexK(0x93, dst, b, 0)
    case KmovKK => VexK(0x90, dst, b, 0)
    case Kortest => VexK(0x98, dst, b, 0)
    case Kand => VexK(0x41, dst, b, a)
    case Kandn => VexK(0x42, dst, b, a)
    case Kor => VexK(0x45, dst, b, a)
    case Kxor => VexK(0x47, dst, b, a)
    case Kxnor => VexK(0x46, dst, b, a)
    case Knot => VexK(0x44, dst, b, 0)
  }

  function VexK(opcode: byte, reg: nat, rm: nat, vvvv: nat): seq<byte>
    requires reg < 8 && rm < 8 && vvvv < 8
  {
    [0xc5, 0x80 + (15 - vvvv) * 8, opcode, 0xc0 + reg * 8 + rm]
  }

  /** A mask line's bytes decode to that line. */
  lemma MaskLineDecodes(op: MaskOp, dst: nat, a: nat, b: nat)
    requires dst < 8 && a < 8 && b < 8 && (op.TwoOperands() ==> a == 0)
    ensures MaskLine(op, dst, a, b) == EncodeMask(op, dst, a, b)
    ensures DecodedMask(MaskLine(op, dst, a, b)) == Some((Line.Masks(op, dst, a, b), 4))
  {
    DecodeEncodeMask(op, dst, a, b);
    hide DecodedMask;
  }

  /** The mask moves. */
  lemma KnownMasks()
    ensures EncodeMask(KmovRK, 3, 0, 5) == [0xc5, 0xf8, 0x93, 0xdd]
    ensures EncodeMask(KmovKR, 3, 0, 0) == [0xc5, 0xf8, 0x92, 0xd8]
    ensures EncodeMask(KmovKK, 1, 0, 2) == [0xc5, 0xf8, 0x90, 0xca]
    ensures EncodeMask(Kortest, 1, 0, 1) == [0xc5, 0xf8, 0x98, 0xc9]
  {
  }

  // ---- what the rewriter emits, by name ----

  /** The instruction has a macro: between registers, or with a base alone. */
  predicate HasLine(op: Card.Op) {
    match op
    case VMov(_, src, _, _) => src.R?
    case VBool(_, _, _, src, _, w) => src.R? && w == 0
    case VAdd(_, _, src, _) => src.R?
    case VSub(_, _, src, _) => src.R?
    case VShift(_, _, _, _, _) => true
    case FCmp(_, _, _, _, _, _) => true
    case LoadLo(_, a, _) => Based(a)
    case LoadHi(_, a, _) => Based(a)
    case StoreLo(a, _, _) => Based(a)
    case StoreHi(a, _, _) => Based(a)
    case _ => false
  }

  predicate Based(a: Card.MemOp) {
    a.base.Some? && a.base.value % 8 != 4 && a.index.None? && a.rip.None?
  }

  function LineFor(op: Card.Op): Text
    requires HasLine(op)
  {
    match op
    case VMov(d, src, k, w) => Text(if w == 0 then VMOVAPS else VMOVAPD, d, 0, Zmm(src.r), 0, 0, k, 0)
    case VBool(b, d, s1, src, k, _) =>
      Text(match b case AndB => VPANDD case AndnB => VPANDND case OrB => VPORD case XorB => VPXORD,
           d, s1, Zmm(src.r), 0, 0, k, 0)
    case VAdd(d, s1, src, k) => Text(VPADDD, d, s1, Zmm(src.r), 0, 0, k, 0)
    case VSub(d, s1, src, k) => Text(VPSUBD, d, s1, Zmm(src.r), 0, 0, k, 0)
    case VShift(kind, d, s, n, k) =>
      Text(match kind case Left => VPSLLD case Right => VPSRLD case Arith => VPSRAD, d, 0, Zmm(s), n, 0, k, 0)
    case FCmp(kd, s1, s2, pred, k, w) => Text(if w == 0 then VCMPPS else VCMPPD, kd, s1, Zmm(s2), pred, 0, k, 0)
    case LoadLo(d, a, k) => Text(VLOADUNPACKLD, d, 0, Mem(a.base.value, a.disp), 0, 0, k, 0)
    case LoadHi(d, a, k) => Text(VLOADUNPACKHD, d, 0, Mem(a.base.value, a.disp), 0, 0, k, 0)
    case StoreLo(a, s, k) => Text(VPACKSTORELD, s, 0, Mem(a.base.value, a.disp), 0, 0, k, 0)
    case StoreHi(a, s, k) => Text(VPACKSTOREHD, s, 0, Mem(a.base.value, a.disp), 0, 0, k, 0)
  }

  /** The rewriter's bytes are those of the macro of that name, and the decoder
      names them so. */
  lemma EmittedByName(op: Card.Op, scratch: int)
    requires HasLine(op) && Encoding.Encodable(op)
    ensures var b := Encoding.Bytes(op, scratch);
            && Expand(LineFor(op)) == Some(b)
            && Decoded(b).Some? && Decoded(b).value.0.row < ROWS && Written(Decoded(b).value.0) == LineFor(op)
  {
    if Encoding.OnRegisters(op) { RegisterByName(op, scratch); } else { MemoryByName(op, scratch); }
    WrittenExpand(LineFor(op));
  }

  /** A register line's bytes are those of a macro with its fields. */
  lemma RegisterBytes(l: Encoding.Line, m: Macro, scratch: int)
    requires l.Ok() && l.rm.Reg? && m.mm == l.mm && m.pp == l.pp && m.w == l.w && m.opcode == l.opc
    ensures var e := Emit(m, l.reg, l.vvvv, Zmm(l.rm.r), 0, l.k, 0);
            Encoding.LineBytes(l, scratch) == if l.imm.Some? then e + [l.imm.value] else e
  {
    RegisterLine(l, scratch);
    EmitRegister(m, l.reg, l.vvvv, l.rm.r, 0, l.k, 0);
    var b, e := Encoding.LineBytes(l, scratch), Emit(m, l.reg, l.vvvv, Zmm(l.rm.r), 0, l.k, 0);
    hide Emit, Encoding.LineBytes;
    SameSix(b[..6], e);
    assert b == b[..6] + b[6..];
  }

  lemma SameSix(s: seq<byte>, t: seq<byte>)
    requires |s| == |t| == 6
    requires s[0] == t[0] && s[1] == t[1] && s[2] == t[2] && s[3] == t[3] && s[4] == t[4] && s[5] == t[5]
    ensures s == t
  {
  }

  lemma BasedBytes(l: Encoding.Line, m: Macro, scratch: int)
    requires l.Ok() && l.rm.Mem? && Based(l.rm.a) && l.imm.None? && -0x8000_0000 <= l.rm.a.disp < 0x8000_0000
    requires m.mm == l.mm && m.pp == l.pp && m.w == l.w && m.opcode == l.opc
    ensures Encoding.LineBytes(l, scratch) == Emit(m, l.reg, l.vvvv, Mem(l.rm.a.base.value, l.rm.a.disp), 0, l.k, 0)
  {
    hide ToLe;
  }

  lemma RegisterByName(op: Card.Op, scratch: int)
    requires HasLine(op) && Encoding.Encodable(op) && Encoding.OnRegisters(op)
    ensures Expand(LineFor(op)) == Some(Encoding.Bytes(op, scratch))
  {
    Encoding.LineOk(op, 0);
    RegisterFields(op);
    var l, m := Encoding.LineOf(op, 0), MacroOf(LineFor(op).name);
    RegisterBytes(l, m, scratch);
    hide Emit, Encoding.LineBytes, MacroOf, Encoding.LineOf;
  }

  lemma MemoryByName(op: Card.Op, scratch: int)
    requires HasLine(op) && Encoding.Encodable(op) && !Encoding.OnRegisters(op)
    ensures Expand(LineFor(op)) == Some(Encoding.Bytes(op, scratch))
  {
    Encoding.LineOk(op, 0);
    MemoryFields(op);
    var l, m := Encoding.LineOf(op, 0), MacroOf(LineFor(op).name);
    BasedBytes(l, m, scratch);
    hide Emit, Encoding.LineBytes, MacroOf, Encoding.LineOf;
  }

  /** The rewriter's fields are the macro's. */
  ghost predicate SameFields(l: Encoding.Line, m: Macro, t: Text) {
    && m.mm == l.mm && m.pp == l.pp && m.w == l.w && m.opcode == l.opc && Takes(m, t) && l.k == t.k
    && (if l.rm.Reg? then t.rm == Zmm(l.rm.r)
        else l.rm.Mem? && Based(l.rm.a) && t.rm == Mem(l.rm.a.base.value, l.rm.a.disp))
    && (l.imm.Some? <==> m.form.Shifted? || m.form.Compare?) && (l.imm.Some? ==> l.imm.value == t.imm)
    && t.conv == 0 && t.eh == 0
    && match m.form
       case Three => l.reg == t.a && l.vvvv == t.b
       case Two => l.reg == t.a && l.vvvv == 0
       case Storing => l.reg == t.a && l.vvvv == 0
       case Shifted(e) => l.reg == e && l.vvvv == t.a
       case Compare => l.reg == t.a && l.vvvv == t.b
       case _ => false
  }

  lemma RegisterFields(op: Card.Op)
    requires HasLine(op) && Encoding.Encodable(op) && Encoding.OnRegisters(op)
    ensures var l := Encoding.LineOf(op, 0); l.rm.Reg? && SameFields(l, MacroOf(LineFor(op).name), LineFor(op))
  {
  }

  lemma MemoryFields(op: Card.Op)
    requires HasLine(op) && Encoding.Encodable(op) && !Encoding.OnRegisters(op)
    ensures Encoding.IsVector(op)
    ensures var l := Encoding.LineOf(op, 0); l.rm.Mem? && SameFields(l, MacroOf(LineFor(op).name), LineFor(op))
  {
    UnpackCodes();
    PackCodes();
    hide CodeOf, FormOf, ArgsOf;
  }

  lemma UnpackCodes()
    ensures MacroOf(VLOADUNPACKLD) == Macro(2, 0, 0, 0xd0, Two, UNPACKED)
    ensures MacroOf(VLOADUNPACKHD) == Macro(2, 0, 0, 0xd4, Two, UNPACKED)
  {
  }

  lemma PackCodes()
    ensures MacroOf(VPACKSTORELD) == Macro(2, 1, 0, 0xd0, Storing, PLAIN)
    ensures MacroOf(VPACKSTOREHD) == Macro(2, 1, 0, 0xd4, Storing, PLAIN)
  {
  }

  /** The rewriter's mask instructions, by name. */
  lemma MasksByName(op: Card.Op, scratch: int)
    requires Encoding.Encodable(op)
    ensures var b := if Encoding.IsVector(op) then [] else Encoding.Bytes(op, scratch);
            match op
            case KMovRK(r, k) => r < 8 ==> b == EncodeMask(KmovRK, r, 0, k)
            case KMovKR(k, r) => r < 8 ==> b == EncodeMask(KmovKR, k, 0, r)
            case KMovKK(k, k2) => b == EncodeMask(KmovKK, k, 0, k2)
            case KAnd(k, k2) => b == EncodeMask(Kand, k, 0, k2)
            case KOr(k, k2) => b == EncodeMask(Kor, k, 0, k2)
            case KNot(k, k2) => b == EncodeMask(Knot, k, 0, k2)
            case _ => true
  {
  }

  // ---- sequences the rewriter is checked against ----

  /** A register line in six bytes. */
  lemma RegisterLine(l: Encoding.Line, scratch: int)
    requires l.Ok() && l.rm.Reg?
    ensures Encoding.LineBytes(l, scratch)[..6]
            == [0x62,
                (1 - l.reg / 8 % 2) * 128 + (1 - l.rm.r / 16) * 64 + (1 - l.rm.r / 8 % 2) * 32
                + (1 - l.reg / 16) * 16 + l.mm,
                l.w * 128 + (15 - l.vvvv % 16) * 8 + l.pp,
                (1 - l.vvvv / 16) * 8 + l.k,
                l.opc,
                0xc0 + l.reg % 8 * 8 + l.rm.r % 8]
    ensures Encoding.LineBytes(l, scratch)[6..] == if l.imm.Some? then [l.imm.value] else []
  {
    hide Layout.Opening, Layout.OperandBytes, Layout.ImmBytes;
    var o := Layout.Opening(l.mm, l.pp, l.w, l.opc, l.reg, l.vvvv, l.rm, l.k, 0);
    var x := Layout.OperandBytes(l.reg, l.rm, scratch);
    OpeningBytes(l);
    OperandByte(l, scratch);
    ImmediateByte(l);
    FiveAndOne(o, x, Layout.ImmBytes(l.imm));
  }

  lemma ImmediateByte(l: Encoding.Line)
    ensures Layout.ImmBytes(l.imm) == if l.imm.Some? then [l.imm.value] else []
  {
  }

  lemma FiveAndOne(o: seq<byte>, x: seq<byte>, rest: seq<byte>)
    requires |o| == 5 && |x| == 1
    ensures (o + x + rest)[..6] == [o[0], o[1], o[2], o[3], o[4], x[0]] && (o + x + rest)[6..] == rest
  {
  }

  lemma OpeningBytes(l: Encoding.Line)
    requires l.Ok() && l.rm.Reg?
    ensures var o := Layout.Opening(l.mm, l.pp, l.w, l.opc, l.reg, l.vvvv, l.rm, l.k, 0);
            && |o| == 5 && o[0] == 0x62
            && o[1] == (1 - l.reg / 8 % 2) * 128 + (1 - l.rm.r / 16) * 64 + (1 - l.rm.r / 8 % 2) * 32
                       + (1 - l.reg / 16) * 16 + l.mm
            && o[2] == l.w * 128 + (15 - l.vvvv % 16) * 8 + l.pp && o[3] == (1 - l.vvvv / 16) * 8 + l.k
            && o[4] == l.opc
  {
    PrefixIs(l.reg, l.rm.r / 16, l.rm.r / 8 % 2, l.mm, l.w, l.vvvv, l.pp, l.k);
    hide P0, P1, P2;
    var o := [0x62, P0(l.reg, l.rm.X(), l.rm.B(), l.mm), P1(l.w, l.vvvv, l.pp), P2(0, 0, l.vvvv, l.k), l.opc];
    assert [] + o == o;
  }

  lemma PrefixIs(reg: nat, x: nat, b: nat, mm: nat, w: nat, vvvv: nat, pp: nat, k: nat)
    requires reg < 32 && x < 2 && b < 2 && mm < 4 && w < 2 && vvvv < 32 && pp < 4 && k < 8
    ensures P0(reg, x, b, mm) == (1 - reg / 8 % 2) * 128 + (1 - x) * 64 + (1 - b) * 32 + (1 - reg / 16) * 16 + mm
    ensures P1(w, vvvv, pp) == w * 128 + (15 - vvvv % 16) * 8 + pp && P2(0, 0, vvvv, k) == (1 - vvvv / 16) * 8 + k
  {
  }

  lemma OperandByte(l: Encoding.Line, scratch: int)
    requires l.Ok() && l.rm.Reg?
    ensures Layout.OperandBytes(l.reg, l.rm, scratch) == [0xc0 + l.reg % 8 * 8 + l.rm.r % 8]
  {
  }

  /** The signed dword compare, and the clearing of upper lanes under k7. */
  lemma KnownLines(scratch: int)
    ensures var b := Encoding.Bytes(Card.VCmp(Card.LtS, 7, 1, 2), scratch);
            b[..6] == [0x62, 0xf3, 0x71, 0x08, 0x1f, 0xfa] && b[6..] == [0x01]
    ensures var b := Encoding.Bytes(Card.VBool(Shifts.XorB, 0, 0, Card.R(0), 7, 0), scratch);
            b[..6] == [0x62, 0xf1, 0x79, 0x0f, 0xef, 0xc0] && b[6..] == []
  {
    hide Encoding.LineBytes;
    RegisterLine(Encoding.LineOf(Card.VCmp(Card.LtS, 7, 1, 2), 0), scratch);
    RegisterLine(Encoding.LineOf(Card.VBool(Shifts.XorB, 0, 0, Card.R(0), 7, 0), 0), scratch);
  }

  /** The float compare of every predicate. */
  lemma KnownCompare(scratch: int, pred: nat)
    requires pred < 8
    ensures var b := Encoding.Bytes(Card.FCmp(7, 1, 2, pred, 0, 0), scratch);
            b[..6] == [0x62, 0xf1, 0x70, 0x08, 0xc2, 0xfa] && b[6..] == [pred]
  {
    hide Encoding.LineBytes;
    RegisterLine(Encoding.LineOf(Card.FCmp(7, 1, 2, pred, 0, 0), 0), scratch);
  }

  /** rax loaded back from 384, and the flags byte from 385 into AH. */
  lemma KnownEnding(scratch: int)
    ensures Encoding.CellBytes(false, 0, scratch + Encoding.CellAt(Card.RaxCell), true)
            == [0x64, 0x48, 0x8b, 0x04, 0x25] + ToLe(scratch + 384)
    ensures Encoding.Bytes(Card.AhFrom(Card.RaxCell, true), scratch) == [0x64, 0x8a, 0x24, 0x25] + ToLe(scratch + 385)
  {
    hide ToLe;
  }
}
