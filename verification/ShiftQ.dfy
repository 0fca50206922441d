/** vpsllq, vpsrlq and vpsraq by an immediate on dword lanes. */
module ShiftQ {
  import opened Common
  import opened Lanes
  import opened Shifts
  import opened Masks
  import opened Card
  import opened Emitter
  import opened Operands

  function Shift64(kind: ShiftKind, x: Qword, n: nat): Qword {
    match kind case Left => Sll64(x, n) case Right => Srl64(x, n) case Arith => Sra64(x, n)
  }

  /** Only `r`, `t`, the scratch mask register, rax and the scratch area's
      saves changed. */
  ghost predicate Shifted(b: Book, r: nat, t: nat, m: Machine, n: Machine)
    requires Wf(m) && Wf(n) && r < 32 && t < 32 && b.kscr < 8
  {
    n == m.(z := m.z[r := n.z[r]][t := n.z[t]], k := m.k[b.kscr := n.k[b.kscr]], gpr := m.gpr[0 := n.gpr[0]], s := n.s)
  }

  /** Vector `v` holds in lane `l` what a step under the even or odd lanes puts there. */
  ghost predicate Under(odd: bool, v: Vec, new': Vec, was: Vec) {
    forall l :: 0 <= l < 16 ==> v[l] == if (l % 2 == 1) == odd then new'[l] else was[l]
  }

  /** A shift of `d` from `s` under the even or odd lanes. */
  method ShiftUnder(em: Em, odd: bool, kind: ShiftKind, d: nat, s: nat, n: nat)
    requires em.Valid() && em.Mine(d) && s < 32 && n < 256
    modifies em`ops, em`m, em`b
    ensures em.Valid() && em.b == old(em.b).(raxUsed := true, kUsed := true) && Touched(em.b, d, old(em.m), em.m)
    ensures Under(odd, em.m.z[d], ShiftVec(kind, old(em.m).z[s], n), old(em.m).z[d])
  {
    hide Run, Keeps, Widen, ShiftVec;
    var k := em.MaskImm(if odd then Odd() else Even());
    em.ShiftImm(kind, d, s, n, k);
  }

  method ZeroUnder(em: Em, odd: bool, d: nat)
    requires em.Valid() && em.Mine(d)
    modifies em`ops, em`m, em`b
    ensures em.Valid() && em.b == old(em.b).(raxUsed := true, kUsed := true) && Touched(em.b, d, old(em.m), em.m)
    ensures Under(odd, em.m.z[d], Zeros(), old(em.m).z[d])
  {
    hide Run, Keeps, Widen;
    var k := em.MaskImm(if odd then Odd() else Even());
    em.Zero(d, k, 0);
  }

  method OrUnder(em: Em, odd: bool, d: nat, t: nat)
    requires em.Valid() && em.Mine(d) && t < 32
    modifies em`ops, em`m, em`b
    ensures em.Valid() && em.b == old(em.b).(raxUsed := true, kUsed := true) && Touched(em.b, d, old(em.m), em.m)
    ensures Under(odd, em.m.z[d], BoolVec(OrB, old(em.m).z[d], old(em.m).z[t]), old(em.m).z[d])
  {
    hide Run, Keeps, Widen, BoolVec;
    var k := em.MaskImm(if odd then Odd() else Even());
    em.Bool(OrB, d, d, R(t), k, 0);
  }

  /** Both lanes of each qword of `v` hold the high, or the low, dword of `x`. */
  ghost predicate Doubled(high: bool, v: Vec, x: Vec) {
    forall l :: 0 <= l < 16 ==> v[l] == x[l / 2 * 2 + if high then 1 else 0]
  }

  lemma DoubledPair(high: bool, v: Vec, x: Vec, j: nat)
    requires Doubled(high, v, x) && j < 8
    ensures v[2 * j] == v[2 * j + 1] == x[2 * j + if high then 1 else 0]
  {
    assert (2 * j) / 2 * 2 == 2 * j && (2 * j + 1) / 2 * 2 == 2 * j;
  }

  lemma UnderPair(odd: bool, v: Vec, new': Vec, was: Vec, j: nat)
    requires Under(odd, v, new', was) && j < 8
    ensures v[2 * j] == (if odd then was else new')[2 * j] && v[2 * j + 1] == (if odd then new' else was)[2 * j + 1]
  {
    assert (2 * j) % 2 == 0 && (2 * j + 1) % 2 == 1;
  }

  lemma ShiftedLane(kind: ShiftKind, x: Vec, n: nat, l: nat)
    requires l < 16
    ensures ShiftVec(kind, x, n)[l] == ShiftLane(kind, x[l], n)
  {
    hide ShiftLane;
  }

  /** Each qword's high (0xf5) or low (0xa0) dword in both its lanes. */
  method Both(em: Em, high: bool, d: nat, s: nat)
    requires em.Valid() && em.Mine(d) && s < 32
    modifies em`ops, em`m, em`b
    ensures em.Valid() && em.b == old(em.b) && em.m == old(em.m).(z := old(em.m).z[d := em.m.z[d]])
    ensures Doubled(high, em.m.z[d], old(em.m).z[s])
  {
    hide Run, Keeps, Merged, ShufLane;
    var imm := if high then 0xf5 else 0xa0;
    MergedAll(em.m, d, ShufVec(em.m.z[s], imm), 0);
    em.Vpshufd(d, s, imm, 0);
    forall l | 0 <= l < 16 ensures ShufLane(imm, l) == l / 2 * 2 + if high then 1 else 0 { BothLane(l); }
  }

  lemma BothLane(l: nat)
    requires l < 16
    ensures ShufLane(0xf5, l) == l / 2 * 2 + 1 && ShufLane(0xa0, l) == l / 2 * 2
  {
  }

  /** A shift of every lane. */
  method ShiftAll(em: Em, kind: ShiftKind, d: nat, s: nat, n: nat)
    requires em.Valid() && em.Mine(d) && s < 32 && n < 256
    modifies em`ops, em`m, em`b
    ensures em.Valid() && em.b == old(em.b)
    ensures em.m == old(em.m).(z := old(em.m).z[d := ShiftVec(kind, old(em.m).z[s], n)])
  {
    hide Run, Keeps, Merged, ShiftVec;
    MergedAll(em.m, d, ShiftVec(kind, em.m.z[s], n), 0);
    em.ShiftImm(kind, d, s, n, 0);
  }

  // ---- the cases ----

  /** A count of 64 or more: nothing, or the sign, is left. */
  method Far(em: Em, kind: ShiftKind, r: nat, s: nat, n: nat)
    requires em.Valid() && em.Mine(r) && s < 32 && r != s && n >= 64
    modifies em`ops, em`m, em`b
    ensures em.Valid() && em.b == old(em.b) && Touched(em.b, r, old(em.m), em.m)
    ensures forall j :: 0 <= j < 8 ==> Qw(em.m.z[r], j) == Shift64(kind, Qw(old(em.m).z[s], j), n)
  {
    hide Run, Keeps, Sra, Sra64, Doubled;
    ghost var x := em.m.z[s];
    if kind.Arith? {
      Both(em, true, r, s);
      forall j | 0 <= j < 8
        ensures em.m.z[r][2 * j] == em.m.z[r][2 * j + 1] == x[2 * j + 1]
      {
        DoubledPair(true, em.m.z[r], x, j);
      }
      ShiftAll(em, Arith, r, r, 31);
      forall j | 0 <= j < 8 ensures Qw(em.m.z[r], j) == Sra64(Qw(x, j), n) { SraHigh(x[2 * j + 1], x[2 * j], n); }
    } else {
      ZeroAll(em, r, 0);
    }
  }

  /** A right shift by 32 to 63: the high half moves down whole. */
  method RightHigh(em: Em, arith: bool, r: nat, s: nat, n: nat)
    requires em.Valid() && em.Mine(r) && s < 32 && r != s && 32 <= n < 64
    modifies em`ops, em`m, em`b
    ensures em.Valid() && em.b == old(em.b).(raxUsed := true, kUsed := true) && Touched(em.b, r, old(em.m), em.m)
    ensures forall j :: 0 <= j < 8 ==>
              Qw(em.m.z[r], j) == Shift64(if arith then Arith else Right, Qw(old(em.m).z[s], j), n)
  {
    hide Run, Keeps, Shift64, ShiftVec, Qw, Under, Doubled, Zeros;
    ghost var x := em.m.z[s];
    Both(em, true, r, s);
    ghost var h := em.m.z[r];
    ShiftUnder(em, false, if arith then Arith else Right, r, r, n - 32);
    ghost var v := em.m.z[r];
    if arith { ShiftUnder(em, true, Arith, r, r, 31); } else { ZeroUnder(em, true, r); }
    forall j | 0 <= j < 8 ensures Qw(em.m.z[r], j) == Shift64(if arith then Arith else Right, Qw(x, j), n) {
      MovedRight(arith, x, h, v, em.m.z[r], n, j);
    }
  }

  lemma MovedRight(arith: bool, x: Vec, h: Vec, v: Vec, r: Vec, n: nat, j: nat)
    requires 32 <= n < 64 && j < 8 && Doubled(true, h, x)
    requires Under(false, v, ShiftVec(if arith then Arith else Right, h, n - 32), h)
    requires Under(true, r, if arith then ShiftVec(Arith, v, 31) else Zeros(), v)
    ensures Qw(r, j) == Shift64(if arith then Arith else Right, Qw(x, j), n)
  {
    hide Sra, Sra64, Srl, Srl64, Join, Doubled, Under, ShiftVec;
    DoubledPair(true, h, x, j);
    UnderPair(false, v, ShiftVec(if arith then Arith else Right, h, n - 32), h, j);
    UnderPair(true, r, if arith then ShiftVec(Arith, v, 31) else Zeros(), v, j);
    ShiftedLane(if arith then Arith else Right, h, n - 32, 2 * j);
    ShiftedLane(Arith, v, 31, 2 * j + 1);
    if arith { SraHigh(x[2 * j + 1], x[2 * j], n); } else { SrlHigh(x[2 * j + 1], x[2 * j], n); }
  }

  method LeftHigh(em: Em, r: nat, s: nat, n: nat)
    requires em.Valid() && em.Mine(r) && s < 32 && r != s && 32 <= n < 64
    modifies em`ops, em`m, em`b
    ensures em.Valid() && em.b == old(em.b).(raxUsed := true, kUsed := true) && Touched(em.b, r, old(em.m), em.m)
    ensures forall j :: 0 <= j < 8 ==> Qw(em.m.z[r], j) == Shift64(Left, Qw(old(em.m).z[s], j), n)
  {
    hide Run, Keeps, Shift64, ShiftVec, Qw, Under, Doubled, Zeros;
    ghost var x := em.m.z[s];
    Both(em, false, r, s);
    ghost var h := em.m.z[r];
    ShiftUnder(em, true, Left, r, r, n - 32);
    ghost var v := em.m.z[r];
    ZeroUnder(em, false, r);
    forall j | 0 <= j < 8
      ensures Qw(em.m.z[r], j) == Shift64(Left, Qw(x, j), n)
    {
      MovedLeft(x, h, v, em.m.z[r], n, j);
    }
  }

  lemma MovedLeft(x: Vec, h: Vec, v: Vec, r: Vec, n: nat, j: nat)
    requires 32 <= n < 64 && j < 8 && Doubled(false, h, x)
    requires Under(true, v, ShiftVec(Left, h, n - 32), h) && Under(false, r, Zeros(), v)
    ensures Qw(r, j) == Shift64(Left, Qw(x, j), n)
  {
    hide Sll, Sll64, Join, Doubled, Under, ShiftVec;
    DoubledPair(false, h, x, j);
    UnderPair(true, v, ShiftVec(Left, h, n - 32), h, j);
    UnderPair(false, r, Zeros(), v, j);
    ShiftedLane(Left, h, n - 32, 2 * j + 1);
    SllHigh(x[2 * j + 1], x[2 * j], n);
  }

  /** Each lane shifted right, the high ones with their sign. */
  method RightEach(em: Em, arith: bool, r: nat, s: nat, n: nat)
    requires em.Valid() && em.Mine(r) && s < 32 && r != s && n < 256
    modifies em`ops, em`m, em`b
    ensures em.Valid() && em.b == old(em.b).(raxUsed := em.b.raxUsed, kUsed := em.b.kUsed)
    ensures Touched(em.b, r, old(em.m), em.m)
    ensures var x, v := old(em.m).z[s], em.m.z[r];
            if arith then Under(true, v, ShiftVec(Arith, x, n), ShiftVec(Right, x, n)) else v == ShiftVec(Right, x, n)
  {
    hide Run, Keeps, ShiftVec, Under;
    ShiftAll(em, Right, r, s, n);
    if arith { ShiftUnder(em, true, Arith, r, s, n); }
  }

  /** A shift by 1 to 31: both halves shifted, and the bits that cross. */
  method RightLow(em: Em, arith: bool, r: nat, t: nat, s: nat, n: nat)
    requires em.Valid() && em.Mine(r) && em.Mine(t) && s < 32 && r != s && t != s && r != t && 0 < n < 32
    modifies em`ops, em`m, em`b
    ensures em.Valid() && em.b == old(em.b).(raxUsed := true, kUsed := true) && Shifted(em.b, r, t, old(em.m), em.m)
    ensures forall j :: 0 <= j < 8 ==>
              Qw(em.m.z[r], j) == Shift64(if arith then Arith else Right, Qw(old(em.m).z[s], j), n)
  {
    hide Run, Keeps, Shift64, ShiftVec, BoolVec, Qw, Under, Doubled;
    ghost var x := em.m.z[s];
    RightEach(em, arith, r, s, n);
    ghost var v := em.m.z[r];
    Both(em, true, t, s);
    ghost var h := em.m.z[t];
    ShiftAll(em, Left, t, t, 32 - n);
    OrUnder(em, false, r, t);
    forall j | 0 <= j < 8 ensures Qw(em.m.z[r], j) == Shift64(if arith then Arith else Right, Qw(x, j), n) {
      CrossedRight(arith, x, v, h, em.m.z[r], n, j);
    }
  }

  lemma CrossedRight(arith: bool, x: Vec, v: Vec, h: Vec, r: Vec, n: nat, j: nat)
    requires 0 < n < 32 && j < 8 && Doubled(true, h, x)
    requires if arith then Under(true, v, ShiftVec(Arith, x, n), ShiftVec(Right, x, n)) else v == ShiftVec(Right, x, n)
    requires Under(false, r, BoolVec(OrB, v, ShiftVec(Left, h, 32 - n)), v)
    ensures Qw(r, j) == Shift64(if arith then Arith else Right, Qw(x, j), n)
  {
    hide Sra, Sra64, Srl, Srl64, Sll, LaneOp, Join, Doubled, Under, ShiftVec;
    DoubledPair(true, h, x, j);
    if arith { UnderPair(true, v, ShiftVec(Arith, x, n), ShiftVec(Right, x, n), j); }
    UnderPair(false, r, BoolVec(OrB, v, ShiftVec(Left, h, 32 - n)), v, j);
    ShiftedLane(Right, x, n, 2 * j);
    ShiftedLane(if arith then Arith else Right, x, n, 2 * j + 1);
    ShiftedLane(Left, h, 32 - n, 2 * j);
    if arith { SraHalves(x[2 * j + 1], x[2 * j], n); } else { SrlHalves(x[2 * j + 1], x[2 * j], n); }
  }

  method LeftLow(em: Em, r: nat, t: nat, s: nat, n: nat)
    requires em.Valid() && em.Mine(r) && em.Mine(t) && s < 32 && r != s && t != s && r != t && 0 < n < 32
    modifies em`ops, em`m, em`b
    ensures em.Valid() && em.b == old(em.b).(raxUsed := true, kUsed := true) && Shifted(em.b, r, t, old(em.m), em.m)
    ensures forall j :: 0 <= j < 8 ==> Qw(em.m.z[r], j) == Shift64(Left, Qw(old(em.m).z[s], j), n)
  {
    hide Run, Keeps, Shift64, ShiftVec, BoolVec, Qw, Under, Doubled;
    ghost var x := em.m.z[s];
    ShiftAll(em, Left, r, s, n);
    Both(em, false, t, s);
    ghost var h := em.m.z[t];
    ShiftAll(em, Right, t, t, 32 - n);
    OrUnder(em, true, r, t);
    forall j | 0 <= j < 8
      ensures Qw(em.m.z[r], j) == Shift64(Left, Qw(x, j), n)
    {
      CrossedLeft(x, h, em.m.z[r], n, j);
    }
  }

  lemma CrossedLeft(x: Vec, h: Vec, r: Vec, n: nat, j: nat)
    requires 0 < n < 32 && j < 8 && Doubled(false, h, x)
    requires Under(true, r, BoolVec(OrB, ShiftVec(Left, x, n), ShiftVec(Right, h, 32 - n)), ShiftVec(Left, x, n))
    ensures Qw(r, j) == Shift64(Left, Qw(x, j), n)
  {
    hide Srl, Sll64, Sll, LaneOp, Join, Doubled, Under, ShiftVec;
    DoubledPair(false, h, x, j);
    UnderPair(true, r, BoolVec(OrB, ShiftVec(Left, x, n), ShiftVec(Right, h, 32 - n)), ShiftVec(Left, x, n), j);
    ShiftedLane(Left, x, n, 2 * j);
    ShiftedLane(Left, x, n, 2 * j + 1);
    ShiftedLane(Right, h, 32 - n, 2 * j + 1);
    SllHalves(x[2 * j + 1], x[2 * j], n);
  }

  lemma ShiftNone(kind: ShiftKind, x: Qword)
    ensures Shift64(kind, x, 0) == x
  {
    if kind.Arith? { WrapOnce(Signed64(x), W64); }
  }

  method Nothing(em: Em, kind: ShiftKind, r: nat, s: nat)
    requires em.Valid() && em.Mine(r) && s < 32
    modifies em`ops, em`m, em`b
    ensures em.Valid() && em.b == old(em.b) && Touched(em.b, r, old(em.m), em.m)
    ensures forall j :: 0 <= j < 8 ==> Qw(em.m.z[r], j) == Shift64(kind, Qw(old(em.m).z[s], j), 0)
  {
    hide Run, Keeps, Shift64, Qw;
    ghost var x := em.m.z[s];
    Copy(em, r, R(s), 0);
    forall j | 0 <= j < 8 ensures Qw(x, j) == Shift64(kind, Qw(x, j), 0) { ShiftNone(kind, Qw(x, j)); }
  }

  method ShiftLanes(em: Em, kind: ShiftKind, r: nat, t: nat, s: nat, n: nat)
    requires em.Valid() && em.Mine(r) && em.Mine(t) && s < 32 && r != s && t != s && r != t
    modifies em`ops, em`m, em`b
    ensures em.Valid() && em.b == old(em.b).(raxUsed := em.b.raxUsed, kUsed := em.b.kUsed)
    ensures Shifted(em.b, r, t, old(em.m), em.m)
    ensures forall j :: 0 <= j < 8 ==> Qw(em.m.z[r], j) == Shift64(kind, Qw(old(em.m).z[s], j), n)
  {
    hide Run, Keeps, Shift64, Qw;
    if n >= 64 {
      Far(em, kind, r, s, n);
    } else if n == 0 {
      Nothing(em, kind, r, s);
    } else if n >= 32 {
      if kind.Left? { LeftHigh(em, r, s, n); } else { RightHigh(em, kind.Arith?, r, s, n); }
    } else {
      if kind.Left? { LeftLow(em, r, t, s, n); } else { RightLow(em, kind.Arith?, r, t, s, n); }
    }
  }

  /** The shift into a temporary. */
  method Compute(em: Em, kind: ShiftKind, s: nat, n: nat) returns (r: nat)
    requires em.Valid() && |em.b.temps| <= 1 && s < 32 && (s in em.b.vecs || s in em.b.temps)
    modifies em`ops, em`m, em`b
    ensures em.Valid() && em.b == old(em.b).(raxUsed := em.b.raxUsed, kUsed := em.b.kUsed, temps := em.b.temps)
    ensures r < 32
    ensures em.m.mem == old(em.m).mem && forall z :: 0 <= z < 32 && z in em.b.vecs ==> em.m.z[z] == old(em.m).z[z]
    ensures forall j :: 0 <= j < 8 ==> Qw(em.m.z[r], j) == Shift64(kind, Qw(old(em.m).z[s], j), n)
  {
    hide Run, Keeps, Shift64, Qw;
    var a := em.Temp();
    var t := em.Temp();
    r := a.value;
    ShiftLanes(em, kind, r, t.value, s, n);
  }

  /** An immediate shift names its destination in `vvvv`. */
  method Rewrite(kind: ShiftKind, ev: Ev, src: Source, n: nat, ghost m0: Machine) returns (thunk: seq<Op>)
    requires Wf(m0) && ev.Ok() && src.Ok() && n < 256
    ensures OpsOk(thunk)
    ensures var r := Run(thunk, m0);
            && Transparent({ev.vvvv}, {}, m0, r) && r.mem == m0.mem
            && forall j :: 0 <= j < 8 ==>
                             Qw(r.z[ev.vvvv], j)
                             == CommitQ(ev, m0, ev.vvvv, Shift64(kind, FetchedQ(m0, ev, src, j), n), j)
  {
    hide Run, Keeps, Shift64, Qw, FetchedQ, FetchedLane, CommitQ;
    var e := ev.(reg := ev.vvvv);
    var em := Start(e, src, m0);
    var s := Src2(em, e, src);
    ghost var m1 := em.m;
    var r := Compute(em, kind, s, n);
    ghost var m := em.m;
    thunk := Close(em, e, r);
    forall j | 0 <= j < 8
      ensures CommitQ(e, m0, ev.vvvv, Qw(m.z[r], j), j)
              == CommitQ(ev, m0, ev.vvvv, Shift64(kind, FetchedQ(m0, ev, src, j), n), j)
    {
      ShiftCommits(kind, ev, src, m0, m1.z[s], m.z[r], n, j);
    }
  }

  /** The registers an instruction names besides `rm` and its mask do not
      matter to its operand and its write. */
  lemma ShiftCommits(kind: ShiftKind, ev: Ev, src: Source, m: Machine, x: Vec, v: Vec, n: nat, j: nat)
    requires Wf(m) && ev.Ok() && src.Ok() && j < 8 && Qw(v, j) == Shift64(kind, Qw(x, j), n)
    requires var e := ev.(reg := ev.vvvv);
             forall l :: 0 <= l < Dwords(ev.ll) ==> x[l] == FetchedLane(m, e, src, l)
    ensures CommitQ(ev.(reg := ev.vvvv), m, ev.vvvv, Qw(v, j), j)
         == CommitQ(ev, m, ev.vvvv, Shift64(kind, FetchedQ(m, ev, src, j), n), j)
  {
    hide Shift64, SourceLane, Qw;
    var e := ev.(reg := ev.vvvv);
    if 2 * j < Dwords(ev.ll) {
      FetchedQIs(m, e, src, x, j);
      SameSource(m, ev, e, src, 2 * j);
      SameSource(m, ev, e, src, 2 * j + 1);
    }
  }

  lemma SameSource(m: Machine, ev: Ev, e: Ev, src: Source, l: nat)
    requires Wf(m) && ev.Ok() && src.Ok() && l < 16 && e == ev.(reg := ev.vvvv)
    ensures FetchedLane(m, e, src, l) == FetchedLane(m, ev, src, l)
  {
  }
}
