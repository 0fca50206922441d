/** When a rewritten instruction's result is the one EVEX defines. The
    sequences compute it from what they fetch as the second source; that is
    the second source but where a narrow load's address uses rax. */
module Results {
  import opened Common
  import opened Lanes
  import opened Shifts
  import opened Masks
  import opened Card
  import opened Unaligned
  import opened Operands
  import AddSubQ
  import ShiftQ
  import CompareQ
  import Ternlog

  // ---- qword operations ----

  ghost function SourceQ(m: Machine, ev: Ev, src: Source, j: nat): Qword
    requires Wf(m) && ev.Ok() && src.Ok() && j < 8
  {
    Join(SourceLane(m, ev, src, 2 * j + 1), SourceLane(m, ev, src, 2 * j))
  }

  /** Qword `j` of the result comes out of the fetched operand as out of the
      instruction's own. */
  ghost predicate AgreesAt(f: (Qword, Qword) -> Qword, ev: Ev, src: Source, d: nat, m: Machine, j: nat)
    requires Wf(m) && ev.Ok() && src.Ok() && d < 32 && j < 8
  {
    CommitQ(ev, m, d, f(Qw(m.z[ev.vvvv], j), FetchedQ(m, ev, src, j)), j)
    == CommitQ(ev, m, d, f(Qw(m.z[ev.vvvv], j), SourceQ(m, ev, src, j)), j)
  }

  ghost predicate Agrees(f: (Qword, Qword) -> Qword, ev: Ev, src: Source, d: nat)
    requires ev.Ok() && src.Ok() && d < 32
  {
    forall m, j :: Wf(m) && 0 <= j < 8 ==> AgreesAt(f, ev, src, d, m, j)
  }

  /** The second operand makes no difference. */
  ghost predicate Ignores(f: (Qword, Qword) -> Qword) {
    forall x, y :: f(x, y) == f(x, 0)
  }

  /** A qword in every qword lane. */
  function Splat(x: Qword): Vec {
    seq(16, l => if l % 2 == 0 then x % W32 else x / W32)
  }

  /** Every mask register full, every general register zero. */
  ghost function Posed(z: seq<Vec>, mem: int -> Lane): (m: Machine)
    requires |z| == 32
    ensures Wf(m)
  {
    Blank(Prefix(16), 0).(z := z, mem := mem)
  }

  /** The operand `y` at the program's address, and zeros from there on. */
  function Planted(at: int, y: Qword): int -> Lane {
    (x: int) => if x == at then y % W32 else if x == at + 4 then y / W32 else 0
  }

  lemma SplatQ(x: Qword)
    ensures Qw(Splat(x), 0) == x
  {
  }

  lemma BitThree(r: Reg)
    requires r[3]
    ensures Value(r) >= 8
  {
    assert ValueFrom(r, 3) >= 1 && ValueFrom(r, 2) >= 2 && ValueFrom(r, 1) >= 4;
  }

  /** The load misses the operand: it reads zeros behind it. */
  lemma Missed(ev: Ev, src: Source, z: seq<Vec>, y: Qword)
    requires ev.Ok() && src.Ok() && !OperandKept(ev, src) && |z| == 32
    ensures var m := Posed(z, Planted(src.a.disp, y));
            && SourceLane(m, ev, src, 0) == y % W32 && SourceLane(m, ev, src, 1) == y / W32
            && FetchedLane(m, ev, src, 0) == 0 && FetchedLane(m, ev, src, 1) == 0
  {
    hide Value, Widen, Address;
    var a, m := src.a, Posed(z, Planted(src.a.disp, y));
    var n := AtLoad(m, ev, src);
    SameGpr(m, Blank(Prefix(16), 0), a);
    BlankAddress(Blank(Prefix(16), 0), a, Prefix(16), 0);
    WidenBit(VlLanes(ev.ll, 0), 3);
    BitThree(n.gpr[0]);
    AddressAbove(n, a, 0);
  }

  /** The result is EVEX's from every machine state, exactly when the operand
      is kept or makes no difference. */
  lemma AgreesExactly(f: (Qword, Qword) -> Qword, ev: Ev, src: Source, d: nat)
    requires ev.Ok() && src.Ok() && d < 32
    ensures OperandKept(ev, src) || Ignores(f) <==> Agrees(f, ev, src, d)
  {
    hide CommitQ, FetchedLane, SourceLane;
    if OperandKept(ev, src) || Ignores(f) {
      forall m, j | Wf(m) && 0 <= j < 8 ensures AgreesAt(f, ev, src, d, m, j) {
        if OperandKept(ev, src) {
          RaxKept(m, ev, src, 2 * j);
          RaxKept(m, ev, src, 2 * j + 1);
        } else {
          var x, y, q := Qw(m.z[ev.vvvv], j), FetchedQ(m, ev, src, j), SourceQ(m, ev, src, j);
          assert f(x, y) == f(x, 0) == f(x, q);
        }
      }
    } else {
      var x, y :| f(x, y) != f(x, 0);
      Differs(f, ev, src, d, x, y);
    }
  }

  lemma Differs(f: (Qword, Qword) -> Qword, ev: Ev, src: Source, d: nat, x: Qword, y: Qword)
    requires ev.Ok() && src.Ok() && d < 32 && !OperandKept(ev, src) && f(x, y) != f(x, 0)
    ensures !Agrees(f, ev, src, d)
  {
    hide FetchedLane, SourceLane;
    var z: seq<Vec> := seq(32, _ => Splat(x));
    var m := Posed(z, Planted(src.a.disp, y));
    Missed(ev, src, z, y);
    SplatQ(x);
    assert m.z[ev.vvvv] == Splat(x);
    assert SourceQ(m, ev, src, 0) == y && FetchedQ(m, ev, src, 0) == 0;
    assert !AgreesAt(f, ev, src, d, m, 0);
  }

  lemma AddSubExactly(sub: bool, ev: Ev, src: Source)
    requires ev.Ok() && src.Ok()
    ensures OperandKept(ev, src) <==> Agrees((x, y) => AddSubQ.OpQ(sub, x, y), ev, src, ev.reg)
  {
    hide Agrees;
    var f := (x: Qword, y: Qword) => AddSubQ.OpQ(sub, x, y);
    AgreesExactly(f, ev, src, ev.reg);
    assert f(0, 1) != f(0, 0);
  }

  /** A logical shift by 64 or more leaves nothing of its operand. */
  lemma ShiftExactly(kind: ShiftKind, n: nat, ev: Ev, src: Source)
    requires ev.Ok() && src.Ok()
    ensures OperandKept(ev, src) || (n >= 64 && !kind.Arith?) <==>
            Agrees((_, y) => ShiftQ.Shift64(kind, y, n), ev, src, ev.vvvv)
  {
    hide Agrees, Sll64, Srl64, Sra64;
    var f := (_: Qword, y: Qword) => ShiftQ.Shift64(kind, y, n);
    AgreesExactly(f, ev, src, ev.vvvv);
    var y := if kind.Left? then 1 else 0x8000_0000_0000_0000;
    if n < 64 || kind.Arith? { ShiftSees(kind, n); }
    assert f(0, y) == ShiftQ.Shift64(kind, y, n) && f(0, 0) == ShiftQ.Shift64(kind, 0, n);
    if n >= 64 && !kind.Arith? {
      forall x, z ensures f(x, z) == f(x, 0) {
        ShiftedOut(kind, z, n);
        ShiftedOut(kind, 0, n);
      }
    }
  }

  lemma ShiftedOut(kind: ShiftKind, x: Qword, n: nat)
    requires n >= 64 && !kind.Arith?
    ensures ShiftQ.Shift64(kind, x, n) == 0
  {
  }

  /** The lowest bit survives a left shift, the highest a right one. */
  lemma ShiftSees(kind: ShiftKind, n: nat)
    requires n < 64 || kind.Arith?
    ensures ShiftQ.Shift64(kind, if kind.Left? then 1 else 0x8000_0000_0000_0000, n) != 0
    ensures ShiftQ.Shift64(kind, 0, n) == 0
  {
    hide Pow2;
    var h := 0x8000_0000_0000_0000;
    var k := if n >= 64 then 63 else n;
    var p: int, q: int := Pow2(k), Pow2(63 - k);
    assert p * q == h by {
      PowAdd(k, 63 - k);
      Pow32();
      Pow31();
      PowAdd(32, 31);
    }
    MulMono(1, q, p);
    MulMono(1, p, q);
    ModUnique(h, p, q, 0);
    ModUnique(-h, p, -q, 0);
  }

  lemma MinMaxExactly(max: bool, signed: bool, ev: Ev, src: Source)
    requires ev.Ok() && src.Ok()
    ensures OperandKept(ev, src) <==> Agrees((x, y) => CompareQ.MinMaxQ(max, signed, x, y), ev, src, ev.reg)
  {
    hide Agrees;
    var f := (x: Qword, y: Qword) => CompareQ.MinMaxQ(max, signed, x, y);
    AgreesExactly(f, ev, src, ev.reg);
    assert f(if max then 0 else 1, 1) != f(if max then 0 else 1, 0);
  }

  // ---- qword compares ----

  /** The mask EVEX defines. */
  ghost predicate CmpRight(k: Mask, ev: Ev, src: Source, pred: nat, signed: bool, m: Machine)
    requires Wf(m) && ev.Ok() && src.Ok()
  {
    forall e :: 0 <= e < 16 ==>
                  (k[e] <==>
                   && 2 * e < Dwords(ev.ll) && (ev.aaa == 0 || m.k[ev.aaa][e])
                   && CompareQ.PredQ(pred, signed, Qw(m.z[ev.vvvv], e), SourceQ(m, ev, src, e)))
  }

  /** FALSE and TRUE do not look at their operands. */
  lemma CmpExactly(pred: nat, signed: bool, ev: Ev, src: Source)
    requires ev.Ok() && src.Ok() && pred < 8
    ensures OperandKept(ev, src) || pred == 3 || pred == 7 <==>
            forall m, k :: Wf(m) && CompareQ.CmpResult(k, ev, src, pred, signed, m) ==>
                             CmpRight(k, ev, src, pred, signed, m)
  {
    hide CompareQ.CmpResult, CmpRight;
    if OperandKept(ev, src) || pred == 3 || pred == 7 {
      forall m, k | Wf(m) && CompareQ.CmpResult(k, ev, src, pred, signed, m)
        ensures CmpRight(k, ev, src, pred, signed, m)
      {
        CmpKept(m, k, pred, signed, ev, src);
      }
    } else {
      CmpDiffers(pred, signed, ev, src);
    }
  }

  lemma CmpKept(m: Machine, k: Mask, pred: nat, signed: bool, ev: Ev, src: Source)
    requires Wf(m) && ev.Ok() && src.Ok() && (OperandKept(ev, src) || pred == 3 || pred == 7)
    requires CompareQ.CmpResult(k, ev, src, pred, signed, m)
    ensures CmpRight(k, ev, src, pred, signed, m)
  {
    hide FetchedLane, SourceLane;
    forall e | 0 <= e < 8
      ensures CompareQ.PredQ(pred, signed, Qw(m.z[ev.vvvv], e), SourceQ(m, ev, src, e))
         <==> CompareQ.PredQ(pred, signed, Qw(m.z[ev.vvvv], e), FetchedQ(m, ev, src, e))
    {
      if OperandKept(ev, src) {
        RaxKept(m, ev, src, 2 * e);
        RaxKept(m, ev, src, 2 * e + 1);
      }
    }
  }

  lemma CmpDiffers(pred: nat, signed: bool, ev: Ev, src: Source)
    requires ev.Ok() && src.Ok() && pred < 8 && !OperandKept(ev, src) && pred != 3 && pred != 7
    ensures exists m, k :: Wf(m) && CompareQ.CmpResult(k, ev, src, pred, signed, m)
                           && !CmpRight(k, ev, src, pred, signed, m)
  {
    hide FetchedLane, SourceLane;
    var x := if pred == 2 || pred == 6 then 1 else 0;
    assert CompareQ.PredQ(pred, signed, x, 1) != CompareQ.PredQ(pred, signed, x, 0);
    var z: seq<Vec> := seq(32, _ => Splat(x));
    var m := Posed(z, Planted(src.a.disp, 1));
    Missed(ev, src, z, 1);
    SplatQ(x);
    assert m.z[ev.vvvv] == Splat(x);
    assert SourceQ(m, ev, src, 0) == 1 && FetchedQ(m, ev, src, 0) == 0;
    var k: Mask := seq(16, e requires 0 <= e < 16 =>
      && 2 * e < Dwords(ev.ll) && (ev.aaa == 0 || m.k[ev.aaa][e])
      && CompareQ.PredQ(pred, signed, Qw(m.z[ev.vvvv], e), FetchedQ(m, ev, src, e)));
    assert CompareQ.CmpResult(k, ev, src, pred, signed, m);
    assert m.k[ev.aaa] == Prefix(16);
    assert k[0] <==> CompareQ.PredQ(pred, signed, x, 0);
    assert !CmpRight(k, ev, src, pred, signed, m);
  }

  // ---- tables of three inputs ----

  /** Inputs that can meet in a bit: registers named twice hold one value. */
  predicate Meet(ev: Ev, src: Source, a: bool, b: bool, c: bool) {
    && (ev.reg == ev.vvvv ==> a == b)
    && (src.InReg? ==> (ev.rm == ev.reg ==> a == c) && (ev.rm == ev.vvvv ==> b == c))
  }

  /** The arms agree with the immediate on the inputs that can meet, and the
      operand is kept or the table does not depend on it. */
  predicate TernExact(imm: nat, ev: Ev, src: Source) {
    var s, t := Ternlog.TableOf(Ternlog.ArmImm(imm)), Ternlog.TableOf(imm);
    RowsAgree(s, t, ev, src) && (OperandKept(ev, src) || ThirdIdle(t, ev, src))
  }

  predicate RowsAgree(s: Ternlog.Table, t: Ternlog.Table, ev: Ev, src: Source) {
    forall a, b, c :: Meet(ev, src, a, b, c) ==> s[Ternlog.Row(a, b, c)] == t[Ternlog.Row(a, b, c)]
  }

  predicate ThirdIdle(t: Ternlog.Table, ev: Ev, src: Source) {
    forall a, b :: Meet(ev, src, a, b, false) ==> t[Ternlog.Row(a, b, false)] == t[Ternlog.Row(a, b, true)]
  }

  ghost predicate TernAgrees(imm: nat, ev: Ev, src: Source, m: Machine, l: nat)
    requires Wf(m) && ev.Ok() && src.Ok() && l < 16
  {
    var a, b := m.z[ev.reg][l], m.z[ev.vvvv][l];
    CommitLane(ev, m, ev.reg,
               Ternlog.TernLane(Ternlog.TableOf(Ternlog.ArmImm(imm)), a, b, FetchedLane(m, ev, src, l)), l)
    == CommitLane(ev, m, ev.reg, Ternlog.TernLane(Ternlog.TableOf(imm), a, b, SourceLane(m, ev, src, l)), l)
  }

  /** Every lane is EVEX's from every machine state, exactly then. */
  lemma TernExactly(imm: nat, ev: Ev, src: Source)
    requires imm < 256 && ev.Ok() && src.Ok()
    ensures TernExact(imm, ev, src) <==> forall m, l :: Wf(m) && 0 <= l < 16 ==> TernAgrees(imm, ev, src, m, l)
  {
    hide TernAgrees, Ternlog.TableOf;
    if TernExact(imm, ev, src) {
      forall m, l | Wf(m) && 0 <= l < 16 ensures TernAgrees(imm, ev, src, m, l) {
        TernKept(imm, ev, src, m, l);
      }
    } else {
      TernDiffers(imm, ev, src);
    }
  }

  /** Tables that agree on the inputs that can meet, on lanes that do. */
  lemma {:induction false} SameRows(s: Ternlog.Table, t: Ternlog.Table, ev: Ev, src: Source, a: nat, b: nat, c: nat,
                                    n: nat)
    requires RowsAgree(s, t, ev, src) && (ev.reg == ev.vvvv ==> a == b)
    requires src.InReg? ==> (ev.rm == ev.reg ==> a == c) && (ev.rm == ev.vvvv ==> b == c)
    ensures Ternlog.Tern(s, a, b, c, n) == Ternlog.Tern(t, a, b, c, n)
    decreases n
  {
    if n > 0 {
      SameRows(s, t, ev, src, a / 2, b / 2, c / 2, n - 1);
      assert Meet(ev, src, a % 2 == 1, b % 2 == 1, c % 2 == 1);
    }
  }

  /** A table that does not depend on the third input, on two of them. */
  lemma {:induction false} ThirdUnseen(t: Ternlog.Table, ev: Ev, src: Source, a: nat, b: nat, c: nat, d: nat, n: nat)
    requires src.InMem? && ThirdIdle(t, ev, src) && (ev.reg == ev.vvvv ==> a == b)
    ensures Ternlog.Tern(t, a, b, c, n) == Ternlog.Tern(t, a, b, d, n)
    decreases n
  {
    if n > 0 {
      ThirdUnseen(t, ev, src, a / 2, b / 2, c / 2, d / 2, n - 1);
      assert Meet(ev, src, a % 2 == 1, b % 2 == 1, false);
    }
  }

  lemma TernKept(imm: nat, ev: Ev, src: Source, m: Machine, l: nat)
    requires imm < 256 && Wf(m) && ev.Ok() && src.Ok() && l < 16 && TernExact(imm, ev, src)
    ensures TernAgrees(imm, ev, src, m, l)
  {
    hide Ternlog.Tern, Ternlog.TableOf, CommitLane, Ternlog.ArmImm, RowsAgree, ThirdIdle;
    var s, t := Ternlog.TableOf(Ternlog.ArmImm(imm)), Ternlog.TableOf(imm);
    var a, b, c, d := m.z[ev.reg][l], m.z[ev.vvvv][l], FetchedLane(m, ev, src, l), SourceLane(m, ev, src, l);
    SameRows(s, t, ev, src, a, b, c, 32);
    if OperandKept(ev, src) {
      RaxKept(m, ev, src, l);
    } else {
      ThirdUnseen(t, ev, src, a, b, c, d, 32);
    }
  }

  function Flat(b: bool): (v: Vec)
    ensures v[0] == BitOf(b)
  {
    seq(16, _ => if b then 1 else 0)
  }

  /** `a` in the destination, `b` in the other register, `c` in the rest. */
  function Patterns(ev: Ev, a: bool, b: bool, c: bool): (z: seq<Vec>)
    ensures |z| == 32
    ensures forall i :: 0 <= i < 32 ==> z[i][0] == BitOf(if i == ev.reg then a else if i == ev.vvvv then b else c)
  {
    var z := seq<Vec>(32, i => Flat(if i == ev.reg then a else if i == ev.vvvv then b else c));
    assert forall i :: 0 <= i < 32 ==> z[i] == Flat(if i == ev.reg then a else if i == ev.vvvv then b else c);
    z
  }

  lemma TernDiffers(imm: nat, ev: Ev, src: Source)
    requires imm < 256 && ev.Ok() && src.Ok() && !TernExact(imm, ev, src)
    ensures exists m :: Wf(m) && !TernAgrees(imm, ev, src, m, 0)
  {
    hide TernAgrees, Ternlog.TableOf, Ternlog.ArmImm;
    var s, t := Ternlog.TableOf(Ternlog.ArmImm(imm)), Ternlog.TableOf(imm);
    if !RowsAgree(s, t, ev, src) {
      var a, b, c :| Meet(ev, src, a, b, c) && s[Ternlog.Row(a, b, c)] != t[Ternlog.Row(a, b, c)];
      ArmDiffers(imm, ev, src, a, b, c);
    } else {
      var a, b :| Meet(ev, src, a, b, false) && t[Ternlog.Row(a, b, false)] != t[Ternlog.Row(a, b, true)];
      OperandMissed(imm, ev, src, a, b);
    }
  }

  lemma ArmDiffers(imm: nat, ev: Ev, src: Source, a: bool, b: bool, c: bool)
    requires imm < 256 && ev.Ok() && src.Ok() && Meet(ev, src, a, b, c)
    requires var s, t := Ternlog.TableOf(Ternlog.ArmImm(imm)), Ternlog.TableOf(imm);
             s[Ternlog.Row(a, b, c)] != t[Ternlog.Row(a, b, c)]
    ensures exists m :: Wf(m) && !TernAgrees(imm, ev, src, m, 0)
  {
    hide Ternlog.TernLane, Ternlog.TableOf, Ternlog.ArmImm, Address, Widen;
    var z := Patterns(ev, a, b, c);
    var m := Posed(z, (_: int) => BitOf(c));
    assert z[ev.reg][0] == BitOf(a) && z[ev.vvvv][0] == BitOf(b) && (src.InReg? ==> z[ev.rm][0] == BitOf(c));
    assert FetchedLane(m, ev, src, 0) == SourceLane(m, ev, src, 0) == BitOf(c);
    Ternlog.LowestBit(Ternlog.TableOf(Ternlog.ArmImm(imm)), BitOf(a), BitOf(b), BitOf(c));
    Ternlog.LowestBit(Ternlog.TableOf(imm), BitOf(a), BitOf(b), BitOf(c));
    assert !TernAgrees(imm, ev, src, m, 0);
  }

  lemma OperandMissed(imm: nat, ev: Ev, src: Source, a: bool, b: bool)
    requires imm < 256 && ev.Ok() && src.Ok() && !OperandKept(ev, src) && Meet(ev, src, a, b, false)
    requires var s, t := Ternlog.TableOf(Ternlog.ArmImm(imm)), Ternlog.TableOf(imm);
             && s[Ternlog.Row(a, b, false)] == t[Ternlog.Row(a, b, false)]
             && t[Ternlog.Row(a, b, false)] != t[Ternlog.Row(a, b, true)]
    ensures exists m :: Wf(m) && !TernAgrees(imm, ev, src, m, 0)
  {
    hide Ternlog.TernLane, Ternlog.TableOf, Ternlog.ArmImm, FetchedLane, SourceLane;
    var z := Patterns(ev, a, b, false);
    var m := Posed(z, Planted(src.a.disp, 1));
    Missed(ev, src, z, 1);
    assert z[ev.reg][0] == BitOf(a) && z[ev.vvvv][0] == BitOf(b);
    Ternlog.LowestBit(Ternlog.TableOf(Ternlog.ArmImm(imm)), BitOf(a), BitOf(b), 0);
    Ternlog.LowestBit(Ternlog.TableOf(imm), BitOf(a), BitOf(b), 1);
    assert !TernAgrees(imm, ev, src, m, 0);
  }
}
