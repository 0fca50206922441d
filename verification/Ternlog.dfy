/** vpternlogd and vpternlogq: a truth table of three inputs, split on the
    first into two tables of two. */
module Ternlog {
  import opened Common
  import opened Lanes
  import opened Shifts
  import opened Masks
  import opened Card
  import opened Emitter
  import opened Operands

  /** Bit `4 a + 2 b + c` is the output for inputs a, b, c. */
  type Table = t: seq<bool> | |t| == 8 witness seq(8, _ => false)

  function TableOf(imm: nat): Table {
    [imm % 2 == 1, imm / 2 % 2 == 1, imm / 4 % 2 == 1, imm / 8 % 2 == 1,
     imm / 16 % 2 == 1, imm / 32 % 2 == 1, imm / 64 % 2 == 1, imm / 128 % 2 == 1]
  }

  function Row(a: bool, b: bool, c: bool): (i: nat)
    ensures i < 8
  {
    (if a then 4 else 0) + (if b then 2 else 0) + if c then 1 else 0
  }

  /** The table applied to every one of the low `n` bits. */
  function Tern(t: Table, a: nat, b: nat, c: nat, n: nat): nat
    decreases n
  {
    if n == 0 then 0
    else BitOf(t[Row(a % 2 == 1, b % 2 == 1, c % 2 == 1)]) + 2 * Tern(t, a / 2, b / 2, c / 2, n - 1)
  }

  lemma {:induction false} TernBound(t: Table, a: nat, b: nat, c: nat, n: nat)
    ensures Tern(t, a, b, c, n) < Pow2(n)
  {
    if n > 0 { TernBound(t, a / 2, b / 2, c / 2, n - 1); }
  }

  function TernLane(t: Table, a: Lane, b: Lane, c: Lane): Lane {
    TernBound(t, a, b, c, 32);
    Pow32();
    Tern(t, a, b, c, 32)
  }

  lemma {:induction false} TernAt(t: Table, a: nat, b: nat, c: nat, n: nat, i: nat)
    requires i < n
    ensures Tern(t, a, b, c, n) / Pow2(i) % 2 == 1
            <==> t[Row(a / Pow2(i) % 2 == 1, b / Pow2(i) % 2 == 1, c / Pow2(i) % 2 == 1)]
    decreases n
  {
    TernStep(t, a, b, c, n);
    if i > 0 {
      assert Pow2(i) == 2 * Pow2(i - 1);
      hide Tern, Pow2, Row;
      TernAt(t, a / 2, b / 2, c / 2, n - 1, i - 1);
      HalfFirst(Tern(t, a, b, c, n), Pow2(i - 1));
      HalfFirst(a, Pow2(i - 1));
      HalfFirst(b, Pow2(i - 1));
      HalfFirst(c, Pow2(i - 1));
    }
  }

  /** Bit `i` of the result is the immediate's bit 4 a + 2 b + c, for the
      inputs' bits a, b and c there. */
  lemma TernLaneBit(imm: nat, a: Lane, b: Lane, c: Lane, i: nat)
    requires imm < 256 && i < 32
    ensures var row := 4 * (a / Pow2(i) % 2) + 2 * (b / Pow2(i) % 2) + c / Pow2(i) % 2;
            TernLane(TableOf(imm), a, b, c) / Pow2(i) % 2 == imm / Pow2(row) % 2
  {
    hide Tern, TableOf, Row, Pow2;
    TernAt(TableOf(imm), a, b, c, 32, i);
    var x, y, z := a / Pow2(i) % 2, b / Pow2(i) % 2, c / Pow2(i) % 2;
    RowIs(x, y, z);
    ImmBit(imm, 4 * x + 2 * y + z);
  }

  lemma RowIs(x: nat, y: nat, z: nat)
    requires x < 2 && y < 2 && z < 2
    ensures Row(x == 1, y == 1, z == 1) == 4 * x + 2 * y + z
  {
  }

  lemma ImmBit(imm: nat, row: nat)
    requires row < 8
    ensures TableOf(imm)[row] <==> imm / Pow2(row) % 2 == 1
  {
    assert Pow2(0) == 1 && Pow2(1) == 2 && Pow2(2) == 4 && Pow2(3) == 8;
    assert Pow2(4) == 16 && Pow2(5) == 32 && Pow2(6) == 64 && Pow2(7) == 128;
    hide Pow2;
    var t := TableOf(imm);
    if row == 0 { assert t[0] <==> imm % 2 == 1; }
    else if row == 1 {} else if row == 2 {} else if row == 3 {} else if row == 4 {} else if row == 5 {}
    else if row == 6 {} else { assert row == 7; }
  }

  // ---- tables of combined operations ----

  function Combine(op: BoolOp, s: Table, t: Table): Table {
    seq(8, i requires 0 <= i < 8 => Eval(op, s[i], t[i]))
  }

  lemma {:induction false} TernCombine(op: BoolOp, s: Table, t: Table, a: nat, b: nat, c: nat, n: nat)
    ensures Bitwise(op, Tern(s, a, b, c, n), Tern(t, a, b, c, n), n) == Tern(Combine(op, s, t), a, b, c, n)
    decreases n
  {
    if n > 0 {
      TernCombine(op, s, t, a / 2, b / 2, c / 2, n - 1);
      hide Tern;
      TernStep(s, a, b, c, n);
      TernStep(t, a, b, c, n);
      TernStep(Combine(op, s, t), a, b, c, n);
    }
  }

  lemma TernStep(t: Table, a: nat, b: nat, c: nat, n: nat)
    requires n > 0
    ensures var r := Tern(t, a, b, c, n);
            && r / 2 == Tern(t, a / 2, b / 2, c / 2, n - 1)
            && (r % 2 == 1 <==> t[Row(a % 2 == 1, b % 2 == 1, c % 2 == 1)])
            && Tern(t, a, b, c, n)
               == BitOf(t[Row(a % 2 == 1, b % 2 == 1, c % 2 == 1)]) + 2 * Tern(t, a / 2, b / 2, c / 2, n - 1)
  {
  }

  lemma LaneCombine(op: BoolOp, s: Table, t: Table, a: Lane, b: Lane, c: Lane)
    ensures LaneOp(op, TernLane(s, a, b, c), TernLane(t, a, b, c)) == TernLane(Combine(op, s, t), a, b, c)
  {
    hide Bitwise, Tern;
    TernCombine(op, s, t, a, b, c, 32);
  }

  /** An input or a constant. */
  datatype Term = A | B | C0 | Zero | Ones {
    function Bit(a: bool, b: bool, c: bool): bool {
      match this case A => a case B => b case C0 => c case Zero => false case Ones => true
    }

    function Number(a: nat, b: nat, c: nat, n: nat): nat {
      match this case A => a case B => b case C0 => c case Zero => 0 case Ones => Pow2(n) - 1
    }

    function Table(): Table {
      match this
      case A => TableOf(0xf0)
      case B => TableOf(0xcc)
      case C0 => TableOf(0xaa)
      case Zero => TableOf(0)
      case Ones => TableOf(0xff)
    }
  }

  lemma TermBits(t: Term, a: bool, b: bool, c: bool)
    ensures t.Table()[Row(a, b, c)] == t.Bit(a, b, c)
  {
  }

  lemma {:induction false} TernTerm(t: Term, a: nat, b: nat, c: nat, n: nat)
    requires a < Pow2(n) && b < Pow2(n) && c < Pow2(n)
    ensures Tern(t.Table(), a, b, c, n) == t.Number(a, b, c, n)
    decreases n
  {
    if n > 0 {
      TernTerm(t, a / 2, b / 2, c / 2, n - 1);
      TermBits(t, a % 2 == 1, b % 2 == 1, c % 2 == 1);
      hide Tern, TableOf;
      TernStep(t.Table(), a, b, c, n);
    }
  }

  lemma LaneTerm(t: Term, a: Lane, b: Lane, c: Lane)
    ensures TernLane(t.Table(), a, b, c) == t.Number(a, b, c, 32)
  {
    hide Tern, TableOf;
    Pow32();
    TernTerm(t, a, b, c, 32);
  }

  // ---- on registers ----

  /** Register value `v` is the table's output on three input registers. */
  ghost predicate Holds(v: Vec, t: Table, a: Vec, b: Vec, c: Vec) {
    forall l :: 0 <= l < 16 ==> v[l] == TernLane(t, a[l], b[l], c[l])
  }

  function AllOnes(): Vec {
    seq(16, _ => W32 - 1)
  }

  ghost function TermVec(t: Term, a: Vec, b: Vec, c: Vec): Vec {
    match t case A => a case B => b case C0 => c case Zero => Zeros() case Ones => AllOnes()
  }

  lemma TermHolds(t: Term, a: Vec, b: Vec, c: Vec)
    ensures Holds(TermVec(t, a, b, c), t.Table(), a, b, c)
  {
    hide TernLane, TableOf;
    Pow32();
    forall l | 0 <= l < 16 ensures TermVec(t, a, b, c)[l] == TernLane(t.Table(), a[l], b[l], c[l]) {
      LaneTerm(t, a[l], b[l], c[l]);
    }
  }

  lemma CombineHolds(op: BoolOp, x: Vec, y: Vec, s: Table, t: Table, a: Vec, b: Vec, c: Vec)
    requires Holds(x, s, a, b, c) && Holds(y, t, a, b, c)
    ensures Holds(BoolVec(op, x, y), Combine(op, s, t), a, b, c)
  {
    hide TernLane, LaneOp, Combine;
    forall l | 0 <= l < 16 ensures LaneOp(op, x[l], y[l]) == TernLane(Combine(op, s, t), a[l], b[l], c[l]) {
      LaneCombine(op, s, t, a[l], b[l], c[l]);
    }
  }

  /** A bitwise instruction on registers that hold outputs. */
  method Apply(em: Em, op: BoolOp, d: nat, s1: nat, src: Src, w: nat, ghost s: Table, ghost t: Table,
               ghost a: Vec, ghost b: Vec, ghost c: Vec)
    requires em.Valid() && em.Mine(d) && s1 < 32 && SrcOk(src) && w < 2
    requires Holds(em.m.z[s1], s, a, b, c) && Holds(SrcVec(em.m, src), t, a, b, c)
    modifies em`ops, em`m, em`b
    ensures em.Valid() && em.b == old(em.b) && em.m == old(em.m).(z := old(em.m).z[d := em.m.z[d]])
    ensures Holds(em.m.z[d], Combine(op, s, t), a, b, c)
  {
    hide Run, Keeps, Holds, BoolVec, Merged, Combine;
    ghost var x, y := em.m.z[s1], SrcVec(em.m, src);
    CombineHolds(op, x, y, s, t, a, b, c);
    MergedAll(em.m, d, BoolVec(op, x, y), w);
    em.Bool(op, d, s1, src, 0, w);
  }

  // ---- two inputs ----

  /** The two-input table an arm of `bool2` computes: 0xb and 0xd each
      compute the other's. */
  function ArmTable(table: nat): nat {
    if table == 0xb then 0xd else if table == 0xd then 0xb else table
  }

  /** A table of the last two inputs, its four outputs in both halves. */
  function Twice(n: nat): Table {
    TableOf(17 * n)
  }

  /** Two such tables combined, output by output. */
  lemma CombineTables(op: BoolOp, i: nat, j: nat, k: nat)
    requires i < 16 && j < 16 && k < 16
    requires forall b :: 0 <= b < 4 ==> NibbleBit(k, b) == Eval(op, NibbleBit(i, b), NibbleBit(j, b))
    ensures Combine(op, Twice(i), Twice(j)) == Twice(k)
  {
    hide TableOf, NibbleBit, Eval;
    forall b | 0 <= b < 8 ensures Combine(op, Twice(i), Twice(j))[b] == Twice(k)[b] {
      TableBit(i, i, b);
      TableBit(j, j, b);
      TableBit(k, k, b);
    }
  }

  /** Only register `t` changed, and it holds the two-input table `n`. */
  ghost predicate Computed(m: Machine, r: Machine, t: nat, n: nat, a: Vec, b: nat, c: nat)
    requires Wf(m) && Wf(r) && t < 32 && b < 32 && c < 32
  {
    r == m.(z := m.z[t := r.z[t]]) && Holds(r.z[t], TableOf(17 * n), a, m.z[b], m.z[c])
  }

  /** Constants and inputs. */
  method BoolTerm(em: Em, t: nat, b: nat, c: nat, table: nat, w: nat, ghost a: Vec)
    requires em.Valid() && em.Mine(t) && b < 32 && c < 32 && t != b && t != c && w < 2
    requires table == 0 || table == 0xf || table == 0xc || table == 0xa
    modifies em`ops, em`m, em`b
    ensures em.Valid() && em.b == old(em.b) && Computed(old(em.m), em.m, t, table, a, b, c)
  {
    hide Run, Keeps, Holds, TableOf;
    ghost var vb, vc := em.m.z[b], em.m.z[c];
    if table == 0 {
      TermHolds(Term.Zero, a, vb, vc);
      ZeroAll(em, t, w);
    } else if table == 0xf {
      TermHolds(Ones, a, vb, vc);
      Copy(em, t, C(AllOnes()), 0);
    } else if table == 0xc {
      TermHolds(B, a, vb, vc);
      Copy(em, t, R(b), w);
    } else {
      TermHolds(C0, a, vb, vc);
      Copy(em, t, R(c), w);
    }
  }

  lemma InputsHold(a: Vec, b: Vec, c: Vec)
    ensures Holds(b, TableOf(0xcc), a, b, c) && Holds(c, TableOf(0xaa), a, b, c)
    ensures Holds(AllOnes(), TableOf(0xff), a, b, c)
    ensures Holds(a, TableOf(0xf0), a, b, c)
  {
    hide Holds, TableOf, AllOnes;
    TermHolds(A, a, b, c);
    TermHolds(B, a, b, c);
    TermHolds(C0, a, b, c);
    TermHolds(Ones, a, b, c);
  }

  /** One operation. */
  method BoolStep(em: Em, t: nat, b: nat, c: nat, table: nat, w: nat, ghost a: Vec)
    requires em.Valid() && em.Mine(t) && b < 32 && c < 32 && t != b && t != c && w < 2
    requires table == 8 || table == 0xe || table == 6 || table == 2 || table == 4
    modifies em`ops, em`m, em`b
    ensures em.Valid() && em.b == old(em.b) && Computed(old(em.m), em.m, t, table, a, b, c)
  {
    hide Run, Keeps, Holds, TableOf, Combine;
    ghost var vb, vc, x, y := em.m.z[b], em.m.z[c], TableOf(0xcc), TableOf(0xaa);
    InputsHold(a, vb, vc);
    if table == 8 {
      CombineTables(AndB, 12, 10, table);
      Apply(em, AndB, t, b, R(c), w, x, y, a, vb, vc);
    } else if table == 0xe {
      CombineTables(OrB, 12, 10, table);
      Apply(em, OrB, t, b, R(c), w, x, y, a, vb, vc);
    } else if table == 6 {
      CombineTables(XorB, 12, 10, table);
      Apply(em, XorB, t, b, R(c), w, x, y, a, vb, vc);
    } else if table == 2 {
      CombineTables(AndnB, 12, 10, table);
      Apply(em, AndnB, t, b, R(c), w, x, y, a, vb, vc);
    } else {
      CombineTables(AndnB, 10, 12, table);
      Apply(em, AndnB, t, c, R(b), w, y, x, a, vb, vc);
    }
  }

  /** One operation and its complement. */
  method BoolNot(em: Em, t: nat, b: nat, c: nat, table: nat, w: nat, ghost a: Vec)
    requires em.Valid() && em.Mine(t) && b < 32 && c < 32 && t != b && t != c && w < 2
    requires table == 9 || table == 1 || table == 7
    modifies em`ops, em`m, em`b
    ensures em.Valid() && em.b == old(em.b) && Computed(old(em.m), em.m, t, table, a, b, c)
  {
    hide Run, Keeps, Holds, TableOf, Combine;
    ghost var vb, vc := em.m.z[b], em.m.z[c];
    InputsHold(a, vb, vc);
    CombineTables(XorB, 15 - table, 15, table);
    BoolStep(em, t, b, c, if table == 9 then 6 else if table == 1 then 0xe else 8, w, a);
    Apply(em, XorB, t, t, C(AllOnes()), 0, TableOf(17 * (15 - table)), TableOf(0xff), a, vb, vc);
  }

  /** The complement of an input, and the or of that with the other. */
  method BoolImply(em: Em, t: nat, b: nat, c: nat, table: nat, w: nat, ghost a: Vec)
    requires em.Valid() && em.Mine(t) && b < 32 && c < 32 && t != b && t != c && w < 2
    requires table == 3 || table == 5 || table == 0xb || table == 0xd
    modifies em`ops, em`m, em`b
    ensures em.Valid() && em.b == old(em.b) && Computed(old(em.m), em.m, t, ArmTable(table), a, b, c)
  {
    hide Run, Keeps, Holds, TableOf, Combine;
    ghost var vb, vc := em.m.z[b], em.m.z[c];
    InputsHold(a, vb, vc);
    if table == 3 || table == 0xd {
      CombineTables(XorB, 12, 15, 3);
      CombineTables(OrB, 3, 10, 11);
      Apply(em, XorB, t, b, C(AllOnes()), 0, TableOf(0xcc), TableOf(0xff), a, vb, vc);
      if table == 0xd { Apply(em, OrB, t, t, R(c), w, TableOf(0x33), TableOf(0xaa), a, vb, vc); }
    } else {
      CombineTables(XorB, 10, 15, 5);
      CombineTables(OrB, 5, 12, 13);
      Apply(em, XorB, t, c, C(AllOnes()), 0, TableOf(0xaa), TableOf(0xff), a, vb, vc);
      if table == 0xb { Apply(em, OrB, t, t, R(b), w, TableOf(0x55), TableOf(0xcc), a, vb, vc); }
    }
  }

  /** A two-input function of `b` and `c` into `t`. */
  method Bool2(em: Em, t: nat, b: nat, c: nat, table: nat, w: nat, ghost a: Vec)
    requires em.Valid() && em.Mine(t) && b < 32 && c < 32 && t != b && t != c && table < 16 && w < 2
    modifies em`ops, em`m, em`b
    ensures em.Valid() && em.b == old(em.b) && Computed(old(em.m), em.m, t, ArmTable(table), a, b, c)
  {
    hide Run, Keeps, Computed;
    if table == 0 || table == 0xf || table == 0xc || table == 0xa {
      BoolTerm(em, t, b, c, table, w, a);
    } else if table == 8 || table == 0xe || table == 6 || table == 2 || table == 4 {
      BoolStep(em, t, b, c, table, w, a);
    } else if table == 9 || table == 1 || table == 7 {
      BoolNot(em, t, b, c, table, w, a);
    } else {
      BoolImply(em, t, b, c, table, w, a);
    }
  }

  // ---- three inputs ----

  /** The table the rewriting computes for an immediate. */
  function ArmImm(imm: nat): nat {
    16 * ArmTable(imm / 16) + ArmTable(imm % 16)
  }

  /** `(a and f(1, b, c)) or (not a and f(0, b, c))`. */
  lemma SplitTables(hi: nat, lo: nat)
    requires hi < 16 && lo < 16
    ensures Combine(OrB, Combine(AndB, TableOf(0xf0), TableOf(17 * hi)),
                Combine(AndnB, TableOf(0xf0), TableOf(17 * lo)))
         == TableOf(16 * hi + lo)
  {
    hide TableOf;
    var r := Combine(OrB, Combine(AndB, TableOf(0xf0), TableOf(17 * hi)),
                Combine(AndnB, TableOf(0xf0), TableOf(17 * lo)));
    forall i | 0 <= i < 8 ensures r[i] == TableOf(16 * hi + lo)[i] {
      TableBit(hi, hi, i);
      TableBit(lo, lo, i);
      TableBit(hi, lo, i);
      TableBit(15, 0, i);
    }
  }

  predicate NibbleBit(n: nat, i: nat) {
    (if i == 0 then n else if i == 1 then n / 2 else if i == 2 then n / 4 else n / 8) % 2 == 1
  }

  lemma TableBit(hi: nat, lo: nat, i: nat)
    requires hi < 16 && lo < 16 && i < 8
    ensures TableOf(16 * hi + lo)[i] == if i < 4 then NibbleBit(lo, i) else NibbleBit(hi, i - 4)
    ensures hi == 15 && lo == 0 ==> TableOf(16 * hi + lo)[i] == (i >= 4)
  {
    if i >= 4 {
      HighNibble(hi, lo, if i == 4 then 1 else if i == 5 then 2 else if i == 6 then 4 else 8);
    } else {
      LowNibble(hi, lo, i);
    }
  }

  lemma HighNibble(hi: nat, lo: nat, p: nat)
    requires lo < 16 && (p == 1 || p == 2 || p == 4 || p == 8)
    ensures (16 * hi + lo) / (16 * p) == hi / p
  {
  }

  lemma LowNibble(hi: nat, lo: nat, i: nat)
    requires lo < 16 && i < 4
    ensures NibbleBit(16 * hi + lo, i) == NibbleBit(lo, i)
  {
    if i == 0 {
      EvenPart(8 * hi, lo);
    } else if i == 1 {
      ModUnique(16 * hi + lo, 2, 8 * hi + lo / 2, lo % 2);
      EvenPart(4 * hi, lo / 2);
    } else if i == 2 {
      ModUnique(16 * hi + lo, 4, 4 * hi + lo / 4, lo % 4);
      EvenPart(2 * hi, lo / 4);
    } else {
      ModUnique(16 * hi + lo, 8, 2 * hi + lo / 8, lo % 8);
      EvenPart(hi, lo / 8);
    }
  }

  lemma EvenPart(h: nat, x: nat)
    ensures (2 * h + x) % 2 == x % 2
  {
    ModUnique(2 * h + x, 2, h + x / 2, x % 2);
  }

  lemma XorTable()
    ensures Combine(XorB, Combine(XorB, TableOf(0xf0), TableOf(0xcc)), TableOf(0xaa)) == TableOf(0x96)
  {
  }

  /** The general case: both halves of the table, chosen by `a`. */
  method Split(em: Em, imm: nat, w: nat, a: nat, b: nat, c: nat, t1: nat, t2: nat)
    requires em.Valid() && em.Mine(t1) && em.Mine(t2) && t1 != t2 && a < 32 && b < 32 && c < 32 && imm < 256 && w < 2
    requires t1 != a && t1 != b && t1 != c && t2 != a && t2 != b && t2 != c
    modifies em`ops, em`m, em`b
    ensures em.Valid() && em.b == old(em.b) && em.m == old(em.m).(z := old(em.m).z[t1 := em.m.z[t1]][t2 := em.m.z[t2]])
    ensures Holds(em.m.z[t1], TableOf(ArmImm(imm)), old(em.m).z[a], old(em.m).z[b], old(em.m).z[c])
  {
    hide Run, Keeps, Holds, TableOf, Combine;
    ghost var va, vb, vc := em.m.z[a], em.m.z[b], em.m.z[c];
    var hi, lo := imm / 16, imm % 16;
    ghost var th, tl := TableOf(17 * ArmTable(hi)), TableOf(17 * ArmTable(lo));
    InputsHold(va, vb, vc);
    Bool2(em, t1, b, c, hi, w, va);
    Bool2(em, t2, b, c, lo, w, va);
    Apply(em, AndB, t1, a, R(t1), w, TableOf(0xf0), th, va, vb, vc);
    Apply(em, AndnB, t2, a, R(t2), w, TableOf(0xf0), tl, va, vb, vc);
    Apply(em, OrB, t1, t1, R(t2), w, Combine(AndB, TableOf(0xf0), th), Combine(AndnB, TableOf(0xf0), tl), va, vb, vc);
    SplitTables(ArmTable(hi), ArmTable(lo));
  }

  /** The parity of three inputs. */
  method Parity(em: Em, w: nat, a: nat, b: nat, c: nat, t: nat)
    requires em.Valid() && em.Mine(t) && a < 32 && b < 32 && c < 32 && t != a && t != b && t != c && w < 2
    modifies em`ops, em`m, em`b
    ensures em.Valid() && em.b == old(em.b) && em.m == old(em.m).(z := old(em.m).z[t := em.m.z[t]])
    ensures Holds(em.m.z[t], TableOf(0x96), old(em.m).z[a], old(em.m).z[b], old(em.m).z[c])
  {
    hide Run, Keeps, Holds, TableOf, Combine;
    ghost var va, vb, vc := em.m.z[a], em.m.z[b], em.m.z[c];
    InputsHold(va, vb, vc);
    Apply(em, XorB, t, a, R(b), w, TableOf(0xf0), TableOf(0xcc), va, vb, vc);
    Apply(em, XorB, t, t, R(c), w, Combine(XorB, TableOf(0xf0), TableOf(0xcc)), TableOf(0xaa), va, vb, vc);
    XorTable();
  }

  /** Every lane of the destination: the table the rewriting computes. */
  ghost predicate TernResult(m0: Machine, n: Machine, ev: Ev, src: Source, table: nat)
    requires Wf(m0) && Wf(n) && ev.Ok() && src.Ok()
  {
    forall l :: 0 <= l < 16 ==>
                  n.z[ev.reg][l]
                  == CommitLane(ev, m0, ev.reg, TernLane(TableOf(table), m0.z[ev.reg][l],
                                m0.z[ev.vvvv][l], FetchedLane(m0, ev, src, l)), l)
  }

  /** All ones or all zeroes: no operand is read. */
  method RewriteConstant(ones: bool, ev: Ev, src: Source, ghost m0: Machine) returns (thunk: seq<Op>)
    requires Wf(m0) && ev.Ok() && src.Ok()
    ensures OpsOk(thunk)
    ensures var n := Run(thunk, m0);
            Transparent({ev.reg}, {}, m0, n) && n.mem == m0.mem && TernResult(m0, n, ev, src, if ones then 0xff else 0)
  {
    hide Run, Keeps, TernResult, CommitLane, AllOnes, Zeros;
    var em := Start(ev, src, m0);
    var r := ev.reg;
    if ev.aaa != 0 || ev.ll != 2 {
      var t := em.Temp();
      r := t.value;
    }
    if ones { Copy(em, r, C(AllOnes()), 0); } else { ZeroAll(em, r, ev.w); }
    thunk := CloseLanes(em, ev, r);
    ConstantCommits(m0, Run(thunk, m0), ev, src, ones);
  }

  lemma ConstantCommits(m0: Machine, n: Machine, ev: Ev, src: Source, ones: bool)
    requires Wf(m0) && Wf(n) && ev.Ok() && src.Ok()
    requires forall l :: 0 <= l < 16 ==>
               n.z[ev.reg][l] == CommitLane(ev, m0, ev.reg, (if ones then AllOnes() else Zeros())[l], l)
    ensures TernResult(m0, n, ev, src, if ones then 0xff else 0)
  {
    hide TernLane, TableOf, FetchedLane, CommitLane, Holds, TernResult, AllOnes, Zeros;
    var c: Vec := seq(16, l requires 0 <= l < 16 => FetchedLane(m0, ev, src, l));
    TermHolds(if ones then Ones else Term.Zero, m0.z[ev.reg], m0.z[ev.vvvv], c);
    TernCommits(m0, n, ev, src, if ones then 0xff else 0, c, if ones then AllOnes() else Zeros());
  }

  /** The table's output into a temporary. */
  method Compute(em: Em, imm: nat, w: nat, a: nat, b: nat, c: nat) returns (t: nat)
    requires em.Valid() && |em.b.temps| <= 1 && a in em.b.vecs && b in em.b.vecs && (c in em.b.vecs || c in em.b.temps)
    requires w < 2
    requires a < 32 && b < 32 && c < 32 && imm < 256
    modifies em`ops, em`m, em`b
    ensures em.Valid() && em.b == old(em.b).(temps := em.b.temps) && t < 32 && em.m.mem == old(em.m).mem
    ensures forall r :: 0 <= r < 32 && r in em.b.vecs ==> em.m.z[r] == old(em.m).z[r]
    ensures Holds(em.m.z[t], TableOf(ArmImm(imm)), old(em.m).z[a], old(em.m).z[b], old(em.m).z[c])
  {
    hide Run, Keeps, Holds, TableOf;
    var t1 := em.Temp();
    var t2 := em.Temp();
    t := t1.value;
    if imm == 0x96 { Parity(em, w, a, b, c, t); } else { Split(em, imm, w, a, b, c, t, t2.value); }
  }

  method Rewrite(imm: nat, ev: Ev, src: Source, ghost m0: Machine) returns (thunk: seq<Op>)
    requires Wf(m0) && ev.Ok() && src.Ok() && imm < 256
    ensures OpsOk(thunk)
    ensures var n := Run(thunk, m0);
            Transparent({ev.reg}, {}, m0, n) && n.mem == m0.mem && TernResult(m0, n, ev, src, ArmImm(imm))
  {
    hide Run, Keeps, TernResult, Holds, TernLane, TableOf, FetchedLane;
    if imm == 0xff || imm == 0 {
      thunk := RewriteConstant(imm == 0xff, ev, src, m0);
      return;
    }
    var em := Start(ev, src, m0);
    var c := Src2(em, ev, src);
    ghost var vc := em.m.z[c];
    var t := Compute(em, imm, ev.w, ev.reg, ev.vvvv, c);
    ghost var v := em.m.z[t];
    thunk := CloseLanes(em, ev, t);
    TernCommits(m0, Run(thunk, m0), ev, src, ArmImm(imm), vc, v);
  }

  lemma TernCommits(m0: Machine, n: Machine, ev: Ev, src: Source, table: nat, c: Vec, v: Vec)
    requires Wf(m0) && Wf(n) && ev.Ok() && src.Ok()
    requires Holds(v, TableOf(table), m0.z[ev.reg], m0.z[ev.vvvv], c)
    requires forall l :: 0 <= l < Dwords(ev.ll) ==> c[l] == FetchedLane(m0, ev, src, l)
    requires forall l :: 0 <= l < 16 ==> n.z[ev.reg][l] == CommitLane(ev, m0, ev.reg, v[l], l)
    ensures TernResult(m0, n, ev, src, table)
  {
    hide TernLane, TableOf, FetchedLane;
  }

  // ---- when it is the instruction ----

  /** Neither half of the table is one the two arms exchange. */
  predicate Exact(imm: nat) {
    var hi, lo := imm / 16, imm % 16;
    hi != 0xb && hi != 0xd && lo != 0xb && lo != 0xd
  }

  /** The table computed is the immediate's on every input, exactly then. */
  lemma ArmImmExact(imm: nat)
    requires imm < 256
    ensures Exact(imm) <==>
            forall a: Lane, b: Lane, c: Lane ::
              TernLane(TableOf(ArmImm(imm)), a, b, c) == TernLane(TableOf(imm), a, b, c)
  {
    hide TernLane, TableOf;
    if Exact(imm) {
      assert ArmImm(imm) == imm;
    } else {
      var first := imm / 16 == 0xb || imm / 16 == 0xd;
      var a := if first then 1 else 0;
      Exchanged(imm, first);
      LowestBit(TableOf(ArmImm(imm)), a, 0, 1);
      LowestBit(TableOf(imm), a, 0, 1);
    }
  }

  lemma LowestBit(t: Table, a: Lane, b: Lane, c: Lane)
    ensures TernLane(t, a, b, c) % 2 == BitOf(t[Row(a % 2 == 1, b % 2 == 1, c % 2 == 1)])
  {
    hide Tern;
    TernStep(t, a, b, c, 32);
  }

  /** Tables 0xb and 0xd differ where b is 0 and c is 1. */
  lemma Exchanged(imm: nat, first: bool)
    requires imm < 256 && (var h := if first then imm / 16 else imm % 16; h == 0xb || h == 0xd)
    ensures TableOf(ArmImm(imm))[Row(first, false, true)] != TableOf(imm)[Row(first, false, true)]
  {
    hide TableOf;
    var hi, lo := imm / 16, imm % 16;
    TableBit(hi, lo, Row(first, false, true));
    TableBit(ArmTable(hi), ArmTable(lo), Row(first, false, true));
  }
}
