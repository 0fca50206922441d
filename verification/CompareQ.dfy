/** Compares, minima and maxima of 64-bit lanes, where the card compares only
    32-bit ones. */
module CompareQ {
  import opened Common
  import opened Lanes
  import opened Shifts
  import opened Masks
  import opened Card
  import opened Emitter
  import opened Operands

  predicate LessQ(signed: bool, x: Qword, y: Qword) {
    if signed then Signed64(x) < Signed64(y) else x < y
  }

  // ---- arithmetic on eax and ecx ----

  /** Only eax, ecx and the flags changed. */
  ghost predicate Reckoned(m: Machine, n: Machine)
    requires Wf(m) && Wf(n)
  {
    n == m.(gpr := m.gpr[0 := n.gpr[0]][1 := n.gpr[1]], fl := n.fl)
  }

  method Fold(em: Em, n: nat, mask: Mask)
    requires em.Valid() && em.b.raxUsed && em.b.rcxUsed && em.b.flagsUsed && n < 32
    modifies em`ops, em`m, em`b
    ensures em.Valid() && em.b == old(em.b) && Reckoned(old(em.m), em.m)
    ensures em.m.gpr[0] == FoldDown(old(em.m).gpr[0], n, mask)
  {
    hide Run, Keeps, Low32, Shr32, Or32, And32, Widen;
    em.Int(MovEcxEax);
    em.Int(ShrEcx(n));
    em.Int(OrEaxEcx);
    em.Int(AndEaxImm(mask));
  }

  /** Bit 2j of eax to bit j, for every j; nothing else is left set. */
  method Pack(em: Em)
    requires em.Valid() && em.b.raxUsed && em.b.rcxUsed && em.b.flagsUsed
    modifies em`ops, em`m, em`b
    ensures em.Valid() && em.b == old(em.b) && Reckoned(old(em.m), em.m)
    ensures forall l :: 0 <= l < 16 ==> (em.m.gpr[0][l] <==> l < 8 && old(em.m).gpr[0][2 * l])
  {
    hide Run, Keeps, FoldDown, And32, Widen;
    ghost var r := em.m.gpr[0];
    em.Int(AndEaxImm(Even()));
    Fold(em, 1, Pairs());
    Fold(em, 2, Quads());
    Fold(em, 4, Prefix(8));
    assert em.m.gpr[0] == PackEven(r);
    forall l | 0 <= l < 16 ensures em.m.gpr[0][l] <==> l < 8 && r[2 * l] { PackEvenBit(r, l); }
  }

  /** Bit 2j of eax on bits 2j and 2j + 1, for every j. */
  method SpreadUp(em: Em)
    requires em.Valid() && em.b.raxUsed && em.b.rcxUsed && em.b.flagsUsed
    modifies em`ops, em`m, em`b
    ensures em.Valid() && em.b == old(em.b) && Reckoned(old(em.m), em.m)
    ensures forall l :: 0 <= l < 16 ==> (em.m.gpr[0][l] <==> old(em.m).gpr[0][l / 2 * 2])
  {
    hide Run, Keeps, And32, Widen, Low32, Shl32, Or32;
    ghost var r := em.m.gpr[0];
    em.Int(AndEaxImm(Even()));
    em.Int(MovEcxEax);
    em.Int(ShlEcx(1));
    em.Int(OrEaxEcx);
    assert em.m.gpr[0] == SpreadEven(r);
    forall l | 0 <= l < 16 ensures em.m.gpr[0][l] <==> r[l / 2 * 2] { SpreadEvenBit(r, l); }
  }

  // ---- less and equal of every qword ----

  /** Everything but the scratch mask register, eax, ecx, the flags and the
      scratch area is the same. */
  ghost predicate Compared(b: Book, m: Machine, n: Machine)
    requires Wf(m) && Wf(n) && b.kscr < 8
  {
    n == m.(k := m.k[b.kscr := n.k[b.kscr]], gpr := m.gpr[0 := n.gpr[0]][1 := n.gpr[1]], s := n.s, fl := n.fl)
  }

  /** The eq of both halves to the transfer cell, the high halves' in eax. */
  method EqBits(em: Em, a: nat, b: nat)
    requires em.Valid() && a < 32 && b < 32 && em.b.kUsed && em.b.rcxUsed && em.b.flagsUsed
    modifies em`ops, em`m, em`b
    ensures em.Valid() && em.b == old(em.b) && Compared(em.b, old(em.m), em.m)
    ensures forall j :: 0 <= j < 8 ==>
                          var x, y := old(em.m).z[a], old(em.m).z[b];
                          && (em.m.s.xfer[2 * j] <==> x[2 * j] == y[2 * j] && x[2 * j + 1] == y[2 * j + 1])
                          && (em.m.gpr[0][2 * j] <==> x[2 * j + 1] == y[2 * j + 1])
  {
    hide Run, Keeps, CmpMask, Low32, Shr32, And32, Widen, Stored;
    ghost var c := CmpMask(EqD, em.m.z[a], em.m.z[b]);
    em.Cmp(EqD, em.b.kscr, a, b);
    em.KmovRK(0, em.b.kscr);
    em.Int(MovEcxEax);
    em.Int(ShrEcx(1));
    em.Int(AndEcxEax);
    em.Store(1, XferCell);
    em.Int(ShrEax(1));
    forall j | 0 <= j < 8
      ensures em.m.s.xfer[2 * j] <==> c[2 * j] && c[2 * j + 1]
      ensures em.m.gpr[0][2 * j] <==> c[2 * j + 1]
    {
      EqBit(c, old(em.m).s.xfer, j);
    }
    CmpBits(EqD, em.m.z[a], em.m.z[b]);
  }

  lemma CmpBits(kind: CmpKind, x: Vec, y: Vec)
    ensures forall l :: 0 <= l < 16 ==> CmpMask(kind, x, y)[l] == CmpLane(kind, x[l], y[l])
  {
  }

  lemma EqBit(c: Mask, was: Reg, j: nat)
    requires j < 8
    ensures Stored(And32(Shr32(Low32(Widen(c)), 1), Widen(c)), was, false)[2 * j] <==> c[2 * j] && c[2 * j + 1]
    ensures Shr32(Widen(c), 1)[2 * j] <==> c[2 * j + 1]
  {
    hide Widen;
    WidenBit(c, 2 * j);
    WidenBit(c, 2 * j + 1);
  }

  /** The high halves equal and the low halves below, to the second cell;
      the low halves' compare left in ecx. */
  method LowBits(em: Em, a: nat, b: nat)
    requires em.Valid() && a < 32 && b < 32 && em.b.kUsed && em.b.rcxUsed && em.b.flagsUsed
    modifies em`ops, em`m, em`b
    ensures em.Valid() && em.b == old(em.b) && Compared(em.b, old(em.m), em.m) && em.m.s.xfer == old(em.m).s.xfer
    ensures em.m.gpr[1] == Widen(CmpMask(LtU, old(em.m).z[a], old(em.m).z[b]))
    ensures forall j :: 0 <= j < 8 ==>
                          (em.m.s.xfer8[2 * j] <==>
                           old(em.m).gpr[0][2 * j] && old(em.m).z[a][2 * j] < old(em.m).z[b][2 * j])
  {
    hide Run, Keeps, CmpMask, And32, Widen, Stored;
    ghost var c, e := CmpMask(LtU, em.m.z[a], em.m.z[b]), em.m.gpr[0];
    em.Cmp(LtU, em.b.kscr, a, b);
    em.KmovRK(1, em.b.kscr);
    em.Int(AndEaxEcx);
    em.Store(0, Xfer8Cell);
    CmpBits(LtU, em.m.z[a], em.m.z[b]);
    forall j | 0 <= j < 8 ensures em.m.s.xfer8[2 * j] <==> e[2 * j] && c[2 * j] {
      LowBit(c, e, old(em.m).s.xfer8, j);
    }
  }

  lemma LowBit(c: Mask, e: Reg, was: Reg, j: nat)
    requires j < 8
    ensures Stored(And32(e, Widen(c)), was, false)[2 * j] <==> e[2 * j] && c[2 * j]
  {
  }

  /** The high halves' compare, or the cell. */
  method HighBits(em: Em, a: nat, b: nat, signed: bool)
    requires em.Valid() && a < 32 && b < 32 && em.b.kUsed && em.b.rcxUsed && em.b.flagsUsed
    requires em.m.gpr[1] == Widen(CmpMask(LtU, em.m.z[a], em.m.z[b]))
    modifies em`ops, em`m, em`b
    ensures em.Valid() && em.b == old(em.b) && Compared(em.b, old(em.m), em.m) && em.m.s == old(em.m).s
    ensures forall j :: 0 <= j < 8 ==>
                          var x, y := old(em.m).z[a], old(em.m).z[b];
                          em.m.gpr[0][2 * j]
                          <==> (|| CmpLane(if signed then LtS else LtU, x[2 * j + 1], y[2 * j + 1])
                                || old(em.m).s.xfer8[2 * j])
  {
    hide Run, Keeps, CmpMask, Widen, Low32, Shr32, Or32;
    ghost var c := CmpMask(if signed then LtS else LtU, em.m.z[a], em.m.z[b]);
    if signed {
      em.Cmp(LtS, em.b.kscr, a, b);
      em.KmovRK(0, em.b.kscr);
    } else {
      em.Int(MovEaxEcx);
    }
    ghost var e := em.m.gpr[0];
    assert e == if signed then Widen(c) else Low32(Widen(c));
    em.Int(ShrEax(1));
    em.Int(OrEaxCell(Xfer8Cell));
    CmpBits(if signed then LtS else LtU, em.m.z[a], em.m.z[b]);
    forall j | 0 <= j < 8 ensures em.m.gpr[0][2 * j] <==> c[2 * j + 1] || old(em.m).s.xfer8[2 * j] {
      HighBit(c, e, old(em.m).s.xfer8, j);
    }
  }

  lemma HighBit(c: Mask, e: Reg, x8: Reg, j: nat)
    requires j < 8 && (e == Widen(c) || e == Low32(Widen(c)))
    ensures Or32(Shr32(e, 1), x8)[2 * j] <==> c[2 * j + 1] || x8[2 * j]
  {
    hide Widen;
    WidenBit(c, 2 * j + 1);
  }

  /** The order of each qword pair on the even bits: less in eax, equal in
      the transfer cell. */
  method QwordLtEq(em: Em, a: nat, b: nat, signed: bool)
    requires em.Valid() && a < 32 && b < 32
    modifies em`ops, em`m, em`b
    ensures em.Valid() && em.b == old(em.b).(raxUsed := true, rcxUsed := true, kUsed := true, flagsUsed := true)
    ensures Compared(em.b, old(em.m), em.m)
    ensures forall j :: 0 <= j < 8 ==>
                          var x, y := Qw(old(em.m).z[a], j), Qw(old(em.m).z[b], j);
                          (em.m.gpr[0][2 * j] <==> LessQ(signed, x, y)) && (em.m.s.xfer[2 * j] <==> x == y)
  {
    hide Run, Keeps, CmpMask, Widen;
    var ks := em.K();
    em.Flags();
    em.Rcx();
    EqBits(em, a, b);
    LowBits(em, a, b);
    HighBits(em, a, b, signed);
    forall j | 0 <= j < 8
      ensures var x, y := Qw(old(em.m).z[a], j), Qw(old(em.m).z[b], j);
              (em.m.gpr[0][2 * j] <==> LessQ(signed, x, y)) && (em.m.s.xfer[2 * j] <==> x == y)
    {
      var x, y := old(em.m).z[a], old(em.m).z[b];
      LessHalves(x[2 * j], x[2 * j + 1], y[2 * j], y[2 * j + 1]);
    }
  }

  // ---- compares ----

  /** The eight predicates: eq, lt, le, false, ne, nlt, nle, true. */
  predicate PredQ(pred: nat, signed: bool, x: Qword, y: Qword) {
    if pred == 0 then x == y
    else if pred == 1 then LessQ(signed, x, y)
    else if pred == 2 then LessQ(signed, x, y) || x == y
    else if pred == 3 then false
    else if pred == 4 then x != y
    else if pred == 5 then !LessQ(signed, x, y)
    else if pred == 6 then !(LessQ(signed, x, y) || x == y)
    else true
  }

  /** Which predicates hold of a smaller, an equal and a greater number. */
  lemma PredHolds(pred: nat, signed: bool, x: Qword, y: Qword)
    requires pred < 8
    ensures var a, b := if signed then Signed64(x) else x, if signed then Signed64(y) else y;
            && (a < b ==> (PredQ(pred, signed, x, y) <==> pred in {1, 2, 4, 7}))
            && (a == b ==> (PredQ(pred, signed, x, y) <==> pred in {0, 2, 5, 7}))
            && (a > b ==> (PredQ(pred, signed, x, y) <==> pred in {4, 5, 6, 7}))
  {
  }

  /** The predicate of every qword on eax's even bits. */
  method PredBits(em: Em, pred: nat, signed: bool, a: nat, b: nat)
    requires em.Valid() && a < 32 && b < 32 && pred < 7 && pred != 3
    modifies em`ops, em`m, em`b
    ensures em.Valid() && em.b == old(em.b).(raxUsed := true, rcxUsed := true, kUsed := true, flagsUsed := true)
    ensures Compared(em.b, old(em.m), em.m)
    ensures forall j :: 0 <= j < 8 ==>
              (em.m.gpr[0][2 * j] <==> PredQ(pred, signed, Qw(old(em.m).z[a], j), Qw(old(em.m).z[b], j)))
  {
    hide Run, Keeps, Qw, LessQ, PredQ;
    QwordLtEq(em, a, b, signed);
    ghost var lt, eq := em.m.gpr[0], em.m.s.xfer;
    Combine(em, pred);
    forall j | 0 <= j < 8
      ensures em.m.gpr[0][2 * j] <==> PredQ(pred, signed, Qw(old(em.m).z[a], j), Qw(old(em.m).z[b], j))
    {
      PredBit(pred, signed, Qw(old(em.m).z[a], j), Qw(old(em.m).z[b], j));
    }
  }

  /** The predicate from less-than in eax and equality in the cell. */
  predicate FromBits(pred: nat, lt: bool, eq: bool) {
    var x := if pred == 0 || pred == 4 then eq else if pred == 2 || pred == 6 then lt || eq else lt;
    if pred >= 4 then !x else x
  }

  method Combine(em: Em, pred: nat)
    requires em.Valid() && em.b.raxUsed && em.b.flagsUsed && pred < 7
    modifies em`ops, em`m, em`b
    ensures em.Valid() && em.b == old(em.b) && Reckoned(old(em.m), em.m)
    ensures forall i :: 0 <= i < 16 ==> (em.m.gpr[0][i] <==> FromBits(pred, old(em.m).gpr[0][i], old(em.m).s.xfer[i]))
  {
    hide Run, Keeps;
    if pred == 0 || pred == 4 {
      em.LoadEax(XferCell);
    } else if pred == 2 || pred == 6 {
      em.Int(OrEaxCell(XferCell));
    }
    if pred >= 4 { em.Int(NotEax); }
  }

  lemma PredBit(pred: nat, signed: bool, x: Qword, y: Qword)
    requires pred < 7 && pred != 3
    ensures FromBits(pred, LessQ(signed, x, y), x == y) <==> PredQ(pred, signed, x, y)
  {
    hide LessQ;
  }

  /** The predicate's bits packed, cut to the vector length. */
  method PackedBits(em: Em, pred: nat, signed: bool, a: nat, b: nat, ll: nat)
    requires em.Valid() && a < 32 && b < 32 && pred < 8 && pred != 3
    modifies em`ops, em`m, em`b
    ensures em.Valid() && em.b == old(em.b).(raxUsed := true, rcxUsed := true, kUsed := em.b.kUsed, flagsUsed := true)
    ensures Compared(em.b, old(em.m), em.m)
    ensures forall e :: 0 <= e < 16 ==>
                          (em.m.gpr[0][e] <==>
                           2 * e < Dwords(ll) && PredQ(pred, signed, Qw(old(em.m).z[a], e), Qw(old(em.m).z[b], e)))
  {
    hide Run, Keeps, Qw, And32, Widen;
    var lanes := VlLanes(ll, 1);
    if pred == 7 {
      em.Flags();
      em.Rcx();
      em.MovEax(lanes);
      forall e | 0 <= e < 16 ensures em.m.gpr[0][e] == lanes[e] { WidenBit(lanes, e); }
    } else {
      hide PredQ;
      PredBits(em, pred, signed, a, b);
      Pack(em);
      ghost var r := em.m.gpr[0];
      em.Int(AndEaxImm(lanes));
      forall e | 0 <= e < 16 ensures em.m.gpr[0][e] == (r[e] && lanes[e]) { And32Bit(r, lanes, e); }
    }
  }

  /** eax cut to the write mask. */
  method CutToMask(em: Em, aaa: nat)
    requires em.Valid() && em.b.raxUsed && em.b.rcxUsed && em.b.flagsUsed && aaa < 8
    modifies em`ops, em`m, em`b
    ensures em.Valid() && em.b == old(em.b) && Reckoned(old(em.m), em.m)
    ensures forall e :: 0 <= e < 16 ==> (em.m.gpr[0][e] <==> old(em.m).gpr[0][e] && (aaa == 0 || old(em.m).k[aaa][e]))
  {
    hide Run, Keeps, And32, Widen;
    if aaa != 0 {
      ghost var r, c := em.m.gpr[0], em.m.k[aaa];
      em.KmovRK(1, aaa);
      em.Int(AndEaxEcx);
      forall e | 0 <= e < 16 ensures em.m.gpr[0][e] == (r[e] && c[e]) { And32Bit(r, c, e); }
    }
  }

  /** The compare's mask: the predicate of each qword below the vector
      length that the write mask selects. */
  ghost predicate CmpResult(k: Mask, ev: Ev, src: Source, pred: nat, signed: bool, m0: Machine)
    requires Wf(m0) && ev.Ok() && src.Ok()
  {
    forall e :: 0 <= e < 16 ==>
                  (k[e] <==>
                   && 2 * e < Dwords(ev.ll) && (ev.aaa == 0 || m0.k[ev.aaa][e])
                   && PredQ(pred, signed, Qw(m0.z[ev.vvvv], e), FetchedQ(m0, ev, src, e)))
  }

  /** The packed predicate under the write mask, in eax. */
  method CmpBody(em: Em, ev: Ev, src: Source, pred: nat, signed: bool)
    requires em.Valid() && em.m == em.m0 && ev.Ok() && src.Ok() && pred < 8 && pred != 3 && em.b.temps == []
    requires ev.aaa != em.b.kscr
    requires ev.vvvv in em.b.vecs
    modifies em`ops, em`m, em`b
    ensures em.Valid() && em.b.kOut == old(em.b).kOut && em.b.zOut == old(em.b).zOut && em.m.mem == old(em.m).mem
    ensures CmpResult(Narrow(em.m.gpr[0]), ev, src, pred, signed, old(em.m))
  {
    hide Run, Keeps, Qw, FetchedQ, FetchedLane, CmpResult, PredQ, Narrow, TakesRax;
    ghost var m := em.m;
    var s2 := Src2(em, ev, src);
    ghost var m1 := em.m;
    PackedBits(em, pred, signed, ev.vvvv, s2, ev.ll);
    CutToMask(em, ev.aaa);
    CmpBitsAre(ev, src, pred, signed, m, m1.z[s2], em.m.gpr[0]);
  }

  method RewriteCmp(pred: nat, signed: bool, kd: nat, ev: Ev, src: Source, ghost m0: Machine) returns (thunk: seq<Op>)
    requires Wf(m0) && ev.Ok() && src.Ok() && pred < 8 && kd < 8
    ensures OpsOk(thunk)
    ensures var n := Run(thunk, m0);
            Transparent({}, {kd}, m0, n) && n.mem == m0.mem && CmpResult(n.k[kd], ev, src, pred, signed, m0)
  {
    hide Run, Keeps, CmpResult, Narrow;
    var em := StartMask(ev, src, kd, m0);
    if pred == 3 {
      em.MovEax(Prefix(0));
      NarrowWiden(Prefix(0));
      CmpFalse(ev, src, signed, m0);
    } else {
      CmpBody(em, ev, src, pred, signed);
    }
    em.KmovKR(kd, 0);
    thunk := em.Finish();
  }

  lemma CmpFalse(ev: Ev, src: Source, signed: bool, m0: Machine)
    requires Wf(m0) && ev.Ok() && src.Ok()
    ensures CmpResult(Prefix(0), ev, src, 3, signed, m0)
  {
  }

  lemma CmpBitsAre(ev: Ev, src: Source, pred: nat, signed: bool, m0: Machine, y: Vec, r: Reg)
    requires Wf(m0) && ev.Ok() && src.Ok()
    requires forall l :: 0 <= l < Dwords(ev.ll) ==> y[l] == FetchedLane(m0, ev, src, l)
    requires forall e :: 0 <= e < 16 ==>
                           (r[e] <==>
                            && 2 * e < Dwords(ev.ll) && (ev.aaa == 0 || m0.k[ev.aaa][e])
                            && PredQ(pred, signed, Qw(m0.z[ev.vvvv], e), Qw(y, e)))
    ensures CmpResult(Narrow(r), ev, src, pred, signed, m0)
  {
    hide PredQ, Qw, FetchedQ, FetchedLane;
    forall e | 0 <= e < 8 && 2 * e < Dwords(ev.ll) ensures Qw(y, e) == FetchedQ(m0, ev, src, e) {
      FetchedQIs(m0, ev, src, y, e);
    }
  }

  // ---- minimum and maximum ----

  function MinMaxQ(max: bool, signed: bool, x: Qword, y: Qword): Qword {
    if max then (if LessQ(signed, x, y) then y else x) else if LessQ(signed, y, x) then y else x
  }

  /** One of the two, and none is greater, or smaller. */
  lemma MinMaxIs(max: bool, signed: bool, x: Qword, y: Qword)
    ensures var r := MinMaxQ(max, signed, x, y);
            && (r == x || r == y)
            && if signed then
                 if max then Signed64(r) >= Signed64(x) && Signed64(r) >= Signed64(y)
                 else Signed64(r) <= Signed64(x) && Signed64(r) <= Signed64(y)
               else if max then r >= x && r >= y else r <= x && r <= y
  {
  }

  /** `s2`, and over it `s1` in the lanes eax names. */
  method Overlay(em: Em, r: nat, s1: nat, s2: nat)
    requires em.Valid() && em.Mine(r) && s1 < 32 && s2 < 32 && r != s1 && em.b.kUsed
    modifies em`ops, em`m, em`b
    ensures em.Valid() && em.b == old(em.b) && Worked(em.b, r, old(em.m), em.m)
    ensures forall l :: 0 <= l < 16 ==> em.m.z[r][l] == old(em.m).z[if old(em.m).gpr[0][l] then s1 else s2][l]
  {
    hide Run, Keeps;
    var ks := em.K();
    em.KmovKR(ks, 0);
    em.Vmov(r, R(s2), 0, 1);
    em.Vmov(r, R(s1), ks, 0);
  }

  /** Lanes of `s1` where it beats `s2`, else of `s2`. */
  method Choose(em: Em, max: bool, signed: bool, r: nat, s1: nat, s2: nat)
    requires em.Valid() && em.Mine(r) && s1 < 32 && s2 < 32 && r != s1 && r != s2
    modifies em`ops, em`m, em`b
    ensures em.Valid() && em.b == old(em.b).(raxUsed := true, rcxUsed := true, kUsed := true, flagsUsed := true)
    ensures Worked(em.b, r, old(em.m), em.m)
    ensures forall j :: 0 <= j < 8 ==>
              Qw(em.m.z[r], j) == MinMaxQ(max, signed, Qw(old(em.m).z[s1], j), Qw(old(em.m).z[s2], j))
  {
    hide Run, Keeps, Qw, LessQ;
    ghost var x, y := em.m.z[s1], em.m.z[s2];
    if max { QwordLtEq(em, s2, s1, signed); } else { QwordLtEq(em, s1, s2, signed); }
    ghost var w := em.m.gpr[0];
    SpreadUp(em);
    Overlay(em, r, s1, s2);
    forall j | 0 <= j < 8 ensures Qw(em.m.z[r], j) == MinMaxQ(max, signed, Qw(x, j), Qw(y, j)) {
      ChosenLanes(x, y, em.m.z[r], w[2 * j], j);
      LessTotal(signed, Qw(x, j), Qw(y, j));
    }
  }

  lemma ChosenLanes(x: Vec, y: Vec, v: Vec, first: bool, j: nat)
    requires j < 8 && forall l :: 2 * j <= l < 2 * j + 2 ==> v[l] == if first then x[l] else y[l]
    ensures Qw(v, j) == if first then Qw(x, j) else Qw(y, j)
  {
  }

  lemma LessTotal(signed: bool, x: Qword, y: Qword)
    ensures LessQ(signed, x, y) || LessQ(signed, y, x) || x == y
    ensures !(LessQ(signed, x, y) && LessQ(signed, y, x))
  {
  }

  /** The winners into a temporary. */
  method Compute(em: Em, max: bool, signed: bool, s1: nat, s2: nat) returns (t: nat)
    requires em.Valid() && |em.b.temps| <= 1 && s1 < 32 && s2 < 32
    requires s1 in em.b.vecs && (s2 in em.b.vecs || s2 in em.b.temps)
    modifies em`ops, em`m, em`b
    ensures em.Valid() && t < 32 && em.m.mem == old(em.m).mem
    ensures em.b == old(em.b).(raxUsed := true, rcxUsed := true, kUsed := true, flagsUsed := true, temps := em.b.temps)
    ensures forall z :: 0 <= z < 32 && z in em.b.vecs ==> em.m.z[z] == old(em.m).z[z]
    ensures forall j :: 0 <= j < 8 ==>
                          Qw(em.m.z[t], j) == MinMaxQ(max, signed, Qw(old(em.m).z[s1], j), Qw(old(em.m).z[s2], j))
  {
    hide Run, Keeps, MinMaxQ, Qw;
    var r := em.Temp();
    t := r.value;
    Choose(em, max, signed, t, s1, s2);
  }

  method RewriteMinMax(max: bool, signed: bool, ev: Ev, src: Source, ghost m0: Machine) returns (thunk: seq<Op>)
    requires Wf(m0) && ev.Ok() && src.Ok()
    ensures OpsOk(thunk)
    ensures var n := Run(thunk, m0);
            && Transparent({ev.reg}, {}, m0, n) && n.mem == m0.mem
            && forall j :: 0 <= j < 8 ==>
                             Qw(n.z[ev.reg], j)
                             == CommitQ(ev, m0, ev.reg,
                                        MinMaxQ(max, signed, Qw(m0.z[ev.vvvv], j), FetchedQ(m0, ev, src, j)), j)
  {
    hide Run, Keeps, MinMaxQ, Qw, FetchedQ, FetchedLane, CommitQ;
    var em := Start(ev, src, m0);
    var s2 := Src2(em, ev, src);
    ghost var m1 := em.m;
    var t := Compute(em, max, signed, ev.vvvv, s2);
    ghost var m := em.m;
    thunk := Close(em, ev, t);
    forall j | 0 <= j < 8
      ensures CommitQ(ev, m0, ev.reg, Qw(m.z[t], j), j)
           == CommitQ(ev, m0, ev.reg, MinMaxQ(max, signed, Qw(m0.z[ev.vvvv], j), FetchedQ(m0, ev, src, j)), j)
    {
      if 2 * j < Dwords(ev.ll) {
        FetchedQIs(m0, ev, src, m1.z[s2], j);
      } else {
        CommitBeyond(ev, m0, ev.reg, Qw(m.z[t], j),
                     MinMaxQ(max, signed, Qw(m0.z[ev.vvvv], j), FetchedQ(m0, ev, src, j)), j);
      }
    }
  }
}
