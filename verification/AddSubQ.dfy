/** vpaddq and vpsubq on dword lanes. */
module AddSubQ {
  import opened Common
  import opened Lanes
  import opened Shifts
  import opened Masks
  import opened Card
  import opened Emitter
  import opened Operands

  /** Both halves added (subtracted), then one more added to (taken from)
      the high halves above a carry (borrow). */
  lemma CarriedLanes(sub: bool, x: Vec, y: Vec, r: Vec, c: Mask, v: Vec, j: nat)
    requires j < 8
    requires r == if sub then SubVec(x, y) else AddVec(x, y)
    requires c == if sub then CmpMask(LtU, x, y) else CmpMask(LtU, r, x)
    requires forall l :: 0 <= l < 16 ==>
                           v[l] == if l % 2 == 1 && c[l - 1] then (if sub then Sub(r[l], 1) else Add(r[l], 1)) else r[l]
    ensures Qw(v, j) == OpQ(sub, Qw(x, j), Qw(y, j))
  {
    hide Add, Sub, Add64, Sub64, Join, SubVec, AddVec, CmpMask;
    var a, b := 2 * j, 2 * j + 1;
    assert a % 2 == 0 && b % 2 == 1;
    LaneFacts(sub, x, y, r, c, a);
    LaneFacts(sub, x, y, r, c, b);
    if sub { SubHalves(x[a], x[b], y[a], y[b]); } else { AddHalves(x[a], x[b], y[a], y[b]); }
  }

  lemma LaneFacts(sub: bool, x: Vec, y: Vec, r: Vec, c: Mask, l: nat)
    requires l < 16
    requires r == if sub then SubVec(x, y) else AddVec(x, y)
    requires c == if sub then CmpMask(LtU, x, y) else CmpMask(LtU, r, x)
    ensures r[l] == if sub then Sub(x[l], y[l]) else Add(x[l], y[l])
    ensures c[l] <==> if sub then x[l] < y[l] else r[l] < x[l]
  {
    hide Add, Sub;
  }

  /** `and eax, 0x5555; shl eax, 1` of the mask in `k`, back into `k`. */
  method CarryMask(em: Em, k: nat)
    requires em.Valid() && k == em.b.kscr && em.b.kUsed && em.b.flagsUsed
    modifies em`ops, em`m, em`b
    ensures em.Valid() && em.b == old(em.b) && Worked(em.b, 0, old(em.m), em.m) && em.m.z == old(em.m).z
    ensures forall l :: 0 <= l < 16 ==> (em.m.k[k][l] <==> l % 2 == 1 && old(em.m).k[k][l - 1])
  {
    hide Run, Keeps, Widen, And32, Shl32, Narrow;
    ghost var c := em.m.k[k];
    em.KmovRK(0, k);
    em.Int(AndEaxImm(Even()));
    em.Int(ShlEax(1));
    em.KmovKR(k, 0);
    forall l | 0 <= l < 16 ensures em.m.k[k][l] <==> l % 2 == 1 && c[l - 1] { CarryUpBit(c, l); }
  }

  /** The carries (borrows) of the low halves, on the lanes above them. */
  method Carries(em: Em, sub: bool, r: nat, s1: nat, s2: nat) returns (k: nat)
    requires em.Valid() && r < 32 && s1 < 32 && s2 < 32
    modifies em`ops, em`m, em`b
    ensures em.Valid() && em.b == old(em.b).(raxUsed := true, kUsed := true, flagsUsed := true)
    ensures Worked(em.b, 0, old(em.m), em.m) && em.m.z == old(em.m).z && k == em.b.kscr
    ensures var m := old(em.m);
            var c := if sub then CmpMask(LtU, m.z[s1], m.z[s2]) else CmpMask(LtU, m.z[r], m.z[s1]);
            forall l :: 0 <= l < 16 ==> (em.m.k[k][l] <==> l % 2 == 1 && c[l - 1])
  {
    hide Run, Keeps, CmpMask;
    em.Flags();
    k := em.K();
    if sub { em.Cmp(LtU, k, s1, s2); } else { em.Cmp(LtU, k, r, s1); }
    CarryMask(em, k);
  }

  function OpQ(sub: bool, x: Qword, y: Qword): Qword {
    if sub then Sub64(x, y) else Add64(x, y)
  }

  method AddSubLanes(em: Em, sub: bool, r: nat, s1: nat, s2: nat)
    requires em.Valid() && em.Mine(r) && s1 < 32 && s2 < 32 && r != s1 && r != s2
    modifies em`ops, em`m, em`b
    ensures em.Valid() && em.b == old(em.b).(raxUsed := true, kUsed := true, flagsUsed := true)
    ensures Worked(em.b, r, old(em.m), em.m)
    ensures forall j :: 0 <= j < 8 ==> Qw(em.m.z[r], j) == OpQ(sub, Qw(old(em.m).z[s1], j), Qw(old(em.m).z[s2], j))
  {
    hide Run, Keeps, OpQ, Qw, AddVec, SubVec, CmpMask;
    ghost var x, y := em.m.z[s1], em.m.z[s2];
    em.AddSub(sub, r, s1, R(s2), 0);
    ghost var v := em.m.z[r];
    assert v == if sub then SubVec(x, y) else AddVec(x, y);
    var k := Carries(em, sub, r, s1, s2);
    AddOne(em, sub, r, k);
    forall j | 0 <= j < 8 ensures Qw(em.m.z[r], j) == OpQ(sub, Qw(x, j), Qw(y, j)) {
      CarriedLanes(sub, x, y, v, if sub then CmpMask(LtU, x, y) else CmpMask(LtU, v, x), em.m.z[r], j);
    }
  }

  method AddOne(em: Em, sub: bool, r: nat, k: nat)
    requires em.Valid() && em.Mine(r) && 0 < k < 8
    modifies em`ops, em`m, em`b
    ensures em.Valid() && em.b == old(em.b) && Worked(em.b, r, old(em.m), em.m) && em.m.k == old(em.m).k
    ensures forall l :: 0 <= l < 16 ==>
                          em.m.z[r][l] == var x := old(em.m).z[r][l];
                                          if old(em.m).k[k][l] then (if sub then Sub(x, 1) else Add(x, 1)) else x
  {
    hide Run, Keeps, Add, Sub;
    var one: Vec := seq(16, _ => 1);
    em.AddSub(sub, r, r, C(one), k);
  }

  /** The sums or differences into a temporary. */
  method Compute(em: Em, sub: bool, s1: nat, s2: nat) returns (t: nat)
    requires em.Valid() && |em.b.temps| <= 1 && s1 < 32 && s2 < 32
    requires s1 in em.b.vecs && (s2 in em.b.vecs || s2 in em.b.temps)
    modifies em`ops, em`m, em`b
    ensures em.Valid() && t < 32 && em.m.mem == old(em.m).mem
    ensures em.b == old(em.b).(raxUsed := true, kUsed := true, flagsUsed := true, temps := em.b.temps)
    ensures forall z :: 0 <= z < 32 && z in em.b.vecs ==> em.m.z[z] == old(em.m).z[z]
    ensures forall j :: 0 <= j < 8 ==> Qw(em.m.z[t], j) == OpQ(sub, Qw(old(em.m).z[s1], j), Qw(old(em.m).z[s2], j))
  {
    hide Run, Keeps, OpQ, Qw;
    var r := em.Temp();
    t := r.value;
    AddSubLanes(em, sub, t, s1, s2);
  }

  method Rewrite(sub: bool, ev: Ev, src: Source, ghost m0: Machine) returns (thunk: seq<Op>)
    requires Wf(m0) && ev.Ok() && src.Ok()
    ensures OpsOk(thunk)
    ensures var n := Run(thunk, m0);
            && Transparent({ev.reg}, {}, m0, n) && n.mem == m0.mem
            && forall j :: 0 <= j < 8 ==>
                             Qw(n.z[ev.reg], j)
                             == CommitQ(ev, m0, ev.reg, OpQ(sub, Qw(m0.z[ev.vvvv], j), FetchedQ(m0, ev, src, j)), j)
  {
    hide Run, Keeps, OpQ, Qw, FetchedQ, FetchedLane, CommitQ;
    var em := Start(ev, src, m0);
    var s2 := Src2(em, ev, src);
    ghost var m1 := em.m;
    var t := Compute(em, sub, ev.vvvv, s2);
    ghost var m := em.m;
    thunk := Close(em, ev, t);
    forall j | 0 <= j < 8
      ensures CommitQ(ev, m0, ev.reg, Qw(m.z[t], j), j)
           == CommitQ(ev, m0, ev.reg, OpQ(sub, Qw(m0.z[ev.vvvv], j), FetchedQ(m0, ev, src, j)), j)
    {
      if 2 * j < Dwords(ev.ll) {
        FetchedQIs(m0, ev, src, m1.z[s2], j);
      } else {
        CommitBeyond(ev, m0, ev.reg, Qw(m.z[t], j), OpQ(sub, Qw(m0.z[ev.vvvv], j), FetchedQ(m0, ev, src, j)), j);
      }
    }
  }
}
