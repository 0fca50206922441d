/** Float compares with one of the predicates the card lacks: another
    predicate of exchanged operands stands in, or the union of two masks. */
module FloatCompare {
  import opened Common
  import opened Lanes
  import opened Masks
  import opened Card
  import opened Emitter
  import opened Unaligned
  import opened Operands

  // ---- predicates ----

  /** The sixteen predicates; 16 to 31 differ from 0 to 15 only in which
      operands signal. */
  predicate Holds(pred: nat, r: Rel) {
    var p := pred % 16;
    if p < 8 then FPred(p, r)
    else if p == 8 then r.Equal? || r.Unordered?
    else if p == 9 then !(r.Greater? || r.Equal?)
    else if p == 10 then !r.Greater?
    else if p == 11 then false
    else if p == 12 then r.Less? || r.Greater?
    else if p == 13 then r.Greater? || r.Equal?
    else if p == 14 then r.Greater?
    else true
  }

  /** Which predicates hold of each order of two values. */
  lemma HoldsOf(pred: nat)
    requires pred < 16
    ensures Holds(pred, Less) <==> pred in {1, 2, 4, 7, 9, 10, 12, 15}
    ensures Holds(pred, Equal) <==> pred in {0, 2, 5, 7, 8, 10, 13, 15}
    ensures Holds(pred, Greater) <==> pred in {4, 5, 6, 7, 12, 13, 14, 15}
    ensures Holds(pred, Unordered) <==> pred in {3, 4, 5, 6, 8, 9, 10, 15}
  {
  }

  /** A card predicate, its operands swapped or not. */
  datatype Step = Step(p: nat, swap: bool)

  function FirstStep(pred: nat): (s: Step)
    ensures s.p < 8
  {
    var p := pred % 16;
    if p < 8 then Step(p, false)
    else if p == 8 then Step(0, false)
    else if p == 9 then Step(6, true)
    else if p == 10 then Step(5, true)
    else if p == 12 then Step(1, false)
    else if p == 13 then Step(2, true)
    else Step(1, true)
  }

  /** Equal or unordered, less or greater: a second compare. */
  predicate TwoSteps(pred: nat) {
    pred % 16 == 8 || pred % 16 == 12
  }

  function SecondStep(pred: nat): Step {
    if pred % 16 == 8 then Step(3, false) else Step(1, true)
  }

  predicate Constant(pred: nat) {
    pred % 16 == 11 || pred % 16 == 15
  }

  function Flip(r: Rel): Rel {
    match r case Less => Greater case Greater => Less case Equal => Equal case Unordered => Unordered
  }

  /** Exchanging the operands of a compare exchanges less and greater. */
  ghost predicate Ordered(rel: (nat, nat, nat) -> Rel) {
    forall w, x, y :: rel(w, y, x) == Flip(rel(w, x, y))
  }

  predicate StepHolds(s: Step, r: Rel) {
    FPred(s.p, if s.swap then Flip(r) else r)
  }

  lemma StepsHold(pred: nat, r: Rel)
    requires !Constant(pred)
    ensures Holds(pred, r) <==> StepHolds(FirstStep(pred), r) || (TwoSteps(pred) && StepHolds(SecondStep(pred), r))
  {
  }

  // ---- the sequence ----

  /** Element `e` exists in a register. */
  predicate InElements(w: nat, e: nat) {
    e < if w == 1 then 8 else 16
  }

  ghost function RelOf(m: Machine, x: Vec, y: Vec, w: nat, e: nat): Rel
    requires InElements(w, e)
  {
    m.rel(w, Element(x, e, w), Element(y, e, w))
  }

  method CompareStep(em: Em, kd: nat, s1: nat, s2: nat, s: Step, k: nat, w: nat)
    requires em.Valid() && em.MineK(kd) && s1 < 32 && s2 < 32 && s.p < 8 && k < 8 && Ordered(em.m.rel) && w < 2
    modifies em`ops, em`m, em`b
    ensures em.Valid() && em.b == old(em.b) && em.m == old(em.m).(k := old(em.m).k[kd := em.m.k[kd]])
    ensures forall e :: 0 <= e < 16 ==>
                          (em.m.k[kd][e] <==>
                           && InElements(w, e) && PairMask(old(em.m), k)[e]
                           && StepHolds(s, RelOf(old(em.m), old(em.m).z[s1], old(em.m).z[s2], w, e)))
  {
    hide Run, Keeps, FPred, Element;
    if s.swap { em.Fcmp(kd, s2, s1, s.p, k, w); } else { em.Fcmp(kd, s1, s2, s.p, k, w); }
  }

  method CompareJoin(em: Em, kd: nat, k2: nat, s1: nat, s2: nat, s: Step, k: nat, w: nat)
    requires em.Valid() && kd in em.b.kOut && kd < 8 && k2 < 8 && k2 != kd && k2 != em.b.kscr && k2 !in em.b.kOut
    requires w < 2
    requires em.b.rcxUsed
    requires s1 < 32 && s2 < 32 && s.p < 8 && k < 8 && Ordered(em.m.rel)
    modifies em`ops, em`m, em`b
    ensures em.Valid() && em.b == old(em.b)
    ensures em.m == old(em.m).(k := old(em.m).k[kd := em.m.k[kd]], gpr := old(em.m).gpr[1 := em.m.gpr[1]])
    ensures forall e :: 0 <= e < 16 ==>
                          (em.m.k[kd][e] <==>
                           || old(em.m).k[kd][e]
                           || (InElements(w, e) && PairMask(old(em.m), k)[e]
                               && StepHolds(s, RelOf(old(em.m), old(em.m).z[s1], old(em.m).z[s2], w, e))))
  {
    hide Run, Keeps, FPred, Element, Widen;
    if s.swap { em.FcmpJoin(kd, k2, s2, s1, s.p, k, w); } else { em.FcmpJoin(kd, k2, s1, s2, s.p, k, w); }
  }

  /** The mask register the second compare borrows. */
  method Borrow(kd: nat, kscr: nat, aaa: nat) returns (k2: nat)
    ensures 1 <= k2 < 8 && k2 != kd && k2 != kscr && k2 != aaa
  {
    k2 := 7;
    while k2 == kd || k2 == kscr || k2 == aaa
      invariant 4 <= k2 <= 7
      invariant k2 < 7 ==> kd == 7 || kscr == 7 || aaa == 7
      invariant k2 < 6 ==> kd == 6 || kscr == 6 || aaa == 6
      invariant k2 < 5 ==> kd == 5 || kscr == 5 || aaa == 5
      decreases k2
    {
      k2 := k2 - 1;
    }
  }

  /** What the compares leave for an element the mask lets through: once the
      first has overwritten the mask, the second adds nothing. */
  predicate CodeHolds(pred: nat, overwritten: bool, r: Rel) {
    if TwoSteps(pred) && overwritten then StepHolds(FirstStep(pred), r) else Holds(pred, r)
  }

  /** The second compare joined to the first. */
  method SecondCompare(em: Em, pred: nat, kd: nat, s1: nat, s2: nat, k: nat, aaa: nat, w: nat)
    requires em.Valid() && em.b.kOut == {kd} && kd < 8 && s1 < 32 && s2 < 32 && k < 8 && Ordered(em.m.rel) && w < 2
    modifies em`ops, em`m, em`b
    ensures em.Valid() && em.b == old(em.b).(rcxUsed := true)
    ensures em.m == old(em.m).(k := old(em.m).k[kd := em.m.k[kd]], gpr := em.m.gpr, s := em.m.s)
    ensures forall e :: 0 <= e < 16 ==>
                          (em.m.k[kd][e] <==>
                           || old(em.m).k[kd][e]
                           || (InElements(w, e) && PairMask(old(em.m), k)[e]
                               && StepHolds(SecondStep(pred),
                                             RelOf(old(em.m), old(em.m).z[s1], old(em.m).z[s2], w, e))))
  {
    hide Run, Keeps, StepHolds, RelOf, Ordered;
    var k2 := Borrow(kd, em.b.kscr, aaa);
    ghost var m := em.m;
    em.Rcx();
    SameRel(m, em.m, m.z[s1], m.z[s2], w);
    CompareJoin(em, kd, k2, s1, s2, SecondStep(pred), k, w);
  }

  lemma SameRel(m: Machine, n: Machine, x: Vec, y: Vec, w: nat)
    requires m.rel == n.rel
    ensures forall e :: 0 <= e < 16 && InElements(w, e) ==> RelOf(m, x, y, w, e) == RelOf(n, x, y, w, e)
  {
  }

  lemma CodeSteps(pred: nat, overwritten: bool, r: Rel)
    requires !Constant(pred)
    ensures CodeHolds(pred, overwritten, r) <==>
            StepHolds(FirstStep(pred), r) || (TwoSteps(pred) && !overwritten && StepHolds(SecondStep(pred), r))
  {
    StepsHold(pred, r);
  }

  /** One or two compares, not yet cut to the mask. */
  method CompareSteps(em: Em, pred: nat, kd: nat, s1: nat, s2: nat, k: nat, aaa: nat, w: nat)
    requires em.Valid() && em.b.kOut == {kd} && kd < 8 && s1 < 32 && s2 < 32 && k < 8 && aaa < 8 && w < 2
    requires Ordered(em.m.rel) && !Constant(pred)
    modifies em`ops, em`m, em`b
    ensures em.Valid() && em.b == old(em.b).(rcxUsed := em.b.rcxUsed)
    ensures em.m == old(em.m).(k := old(em.m).k[kd := em.m.k[kd]], gpr := em.m.gpr, s := em.m.s)
    ensures forall e :: 0 <= e < 16 ==>
              (em.m.k[kd][e] <==>
               && InElements(w, e) && PairMask(old(em.m), k)[e]
               && CodeHolds(pred, k == kd != 0, RelOf(old(em.m), old(em.m).z[s1], old(em.m).z[s2], w, e)))
  {
    hide Run, Keeps, Holds, FirstStep, SecondStep, StepHolds, RelOf, Ordered, PairMask, CodeHolds, InElements;
    ghost var m := em.m;
    CompareStep(em, kd, s1, s2, FirstStep(pred), k, w);
    ghost var m1 := em.m;
    SameRel(m, m1, m.z[s1], m.z[s2], w);
    if TwoSteps(pred) { SecondCompare(em, pred, kd, s1, s2, k, aaa, w); }
    PairMaskIs(m, k);
    PairMaskIs(m1, k);
    forall e | 0 <= e < 16
      ensures em.m.k[kd][e] <==>
              InElements(w, e) && PairMask(m, k)[e] && CodeHolds(pred, k == kd != 0, RelOf(m, m.z[s1], m.z[s2], w, e))
    {
      if InElements(w, e) { CodeSteps(pred, k == kd != 0, RelOf(m, m.z[s1], m.z[s2], w, e)); }
    }
  }

  /** The compares, from the two sources under mask register `k`. */
  method Compares(em: Em, pred: nat, kd: nat, s1: nat, s2: nat, k: nat, aaa: nat, w: nat)
    requires em.Valid() && em.b.kOut == {kd} && kd < 8 && s1 < 32 && s2 < 32 && k < 8 && aaa < 8 && w < 2
    requires Ordered(em.m.rel) && !Constant(pred)
    modifies em`ops, em`m, em`b
    ensures em.Valid() && em.b == old(em.b).(rcxUsed := em.b.rcxUsed) && em.m.mem == old(em.m).mem
    ensures forall e :: 0 <= e < 16 ==>
              (em.m.k[kd][e] <==>
               && InElements(w, e) && PairMask(old(em.m), k)[e]
               && CodeHolds(pred, k == kd != 0, RelOf(old(em.m), old(em.m).z[s1], old(em.m).z[s2], w, e)))
  {
    hide Run, Keeps, RelOf, Ordered, PairMask, CodeHolds, InElements;
    ghost var m := em.m;
    CompareSteps(em, pred, kd, s1, s2, k, aaa, w);
    PairMaskIs(m, k);
    if k != 0 { em.Kand(kd, k); }
  }

  // ---- the instruction ----

  /** A register form with suppressed exceptions compares 512 bits whatever
      its length field holds. */
  predicate Suppressed(ev: Ev, src: Source) {
    ev.b && src.InReg?
  }

  /** The operands a compare can have: that form's length field is free. */
  predicate Form(ev: Ev, src: Source) {
    ev.Fits() && src.Ok() && (ev.ll == 3 ==> Suppressed(ev, src))
  }

  /** The elements the sequence takes the length field to mean. */
  function Elements(ev: Ev): nat {
    VlCount(ev.ll, ev.w)
  }

  /** The mask the compares run under. A narrow load takes the scratch mask
      register they keep it in. */
  ghost function EffMask(m: Machine, ev: Ev, src: Source): Mask
    requires Wf(m) && ev.Fits()
  {
    if TakesRax(ev, src) then Prefix(Dwords(ev.ll)) else KeptMask(m, ev)
  }

  ghost function KeptMask(m: Machine, ev: Ev): Mask
    requires Wf(m) && ev.Fits()
  {
    seq(16, e requires 0 <= e < 16 => (ev.ll != 2 ==> e < Elements(ev)) && (ev.aaa == 0 || m.k[ev.aaa][e]))
  }

  /** The registers after the mask is made: a narrow form has used eax. */
  ghost function AfterMask(m: Machine, ev: Ev): (n: Machine)
    requires Wf(m)
    ensures Wf(n)
  {
    if ev.ll != 2 then m.(gpr := m.gpr[0 := Widen(VlLanes(ev.ll, ev.w))]) else m
  }

  ghost function ComparedLane(m: Machine, ev: Ev, src: Source, l: nat): Lane
    requires Wf(m) && Form(ev, src) && l < 16
  {
    FetchedLane(AfterMask(m, ev), ev, src, l)
  }

  method MakeMask(em: Em, ev: Ev) returns (k: nat)
    requires em.Valid() && ev.Fits() && ev.aaa != em.b.kscr
    modifies em`ops, em`m, em`b
    ensures em.Valid() && em.b == old(em.b).(raxUsed := em.b.raxUsed, kUsed := em.b.kUsed)
    ensures k == (if ev.ll == 2 then ev.aaa else em.b.kscr) && PairMask(em.m, k) == KeptMask(old(em.m), ev)
    ensures em.m
            == old(em.m).(k := old(em.m).k[em.b.kscr := em.m.k[em.b.kscr]],
                          gpr := AfterMask(old(em.m), ev).gpr, s := em.m.s)
  {
    hide Run, Keeps, Widen;
    k := ev.aaa;
    if ev.ll != 2 {
      k := em.MaskImm(VlLanes(ev.ll, ev.w));
      if ev.aaa != 0 { em.Kand(k, ev.aaa); }
    }
    forall e | 0 <= e < 16 ensures PairMask(em.m, k)[e] == KeptMask(old(em.m), ev)[e] {
      if ev.ll == 2 && ev.aaa == 0 { assert PairMask(em.m, k)[e]; }
      else if ev.ll == 2 { assert PairMask(em.m, k)[e] == old(em.m).k[ev.aaa][e]; }
      else if ev.aaa == 0 { assert PairMask(em.m, k)[e] == (e < Elements(ev)); }
      else { assert PairMask(em.m, k)[e] == (e < Elements(ev) && old(em.m).k[ev.aaa][e]); }
    }
    assert PairMask(em.m, k) == KeptMask(old(em.m), ev);
  }

  /** The first compare overwrites the mask the second runs under. */
  predicate Overwrites(ev: Ev, kd: nat) {
    ev.ll == 2 && ev.aaa == kd != 0
  }

  /** What the sequence leaves in the destination, having compared with `y`. */
  ghost predicate Outcome(m: Machine, k: Mask, ev: Ev, src: Source, pred: nat, kd: nat, y: Vec)
    requires Wf(m) && Form(ev, src)
  {
    && (forall l :: 0 <= l < Dwords(ev.ll) ==> y[l] == ComparedLane(m, ev, src, l))
    && (TakesRax(ev, src) ==> exists t :: 0 <= t < 32 && t != ev.vvvv && y[Dwords(ev.ll)..] == m.z[t][Dwords(ev.ll)..])
    && forall e :: 0 <= e < 16 ==> (k[e] <==> CodeBit(m, ev, src, pred, kd, y, e))
  }

  ghost predicate CodeBit(m: Machine, ev: Ev, src: Source, pred: nat, kd: nat, y: Vec, e: nat)
    requires Wf(m) && Form(ev, src) && e < 16
  {
    && pred % 16 != 11 && EffMask(m, ev, src)[e]
    && (|| pred % 16 == 15
        || (InElements(ev.w, e) && CodeHolds(pred, Overwrites(ev, kd), RelOf(m, m.z[ev.vvvv], y, ev.w, e))))
  }

  /** TRUE copies the mask, or all ones without one; FALSE clears. */
  method Constants(em: Em, pred: nat, kd: nat, k: nat)
    requires em.Valid() && em.b.kOut == {kd} && kd < 8 && k < 8 && Constant(pred)
    modifies em`ops, em`m, em`b
    ensures em.Valid() && em.b == old(em.b).(raxUsed := em.b.raxUsed) && em.m.mem == old(em.m).mem
    ensures em.m.k[kd] == if pred % 16 == 11 then Prefix(0) else PairMask(old(em.m), k)
  {
    hide Run, Keeps, Widen, Narrow;
    if pred % 16 == 11 || k == 0 {
      var all := Prefix(if pred % 16 == 11 then 0 else 16);
      em.MovEax(all);
      NarrowWiden(all);
      em.KmovKR(kd, 0);
    } else {
      em.KmovKK(kd, k);
    }
  }

  method Rewrite(pred: nat, kd: nat, ev: Ev, src: Source, ghost m0: Machine) returns (thunk: seq<Op>, ghost y: Vec)
    requires Wf(m0) && Ordered(m0.rel) && Form(ev, src) && 8 <= pred < 32 && kd < 8
    ensures OpsOk(thunk)
    ensures var n := Run(thunk, m0);
            Transparent({}, {kd}, m0, n) && n.mem == m0.mem && Outcome(m0, n.k[kd], ev, src, pred, kd, y)
  {
    hide Run, Keeps, Outcome;
    var em := StartMask(ev, src, kd, m0);
    y := Body(em, pred, kd, ev, src);
    thunk := em.Finish();
  }

  /** Mask register and second source ready: what the compares will see. */
  ghost predicate Prepared(b: Book, m: Machine, n: Machine, ev: Ev, src: Source, k: nat, s2: nat)
    requires Wf(m) && Wf(n) && Form(ev, src) && b.kscr < 8
  {
    && k < 8 && s2 < 32 && k == (if ev.ll == 2 then ev.aaa else b.kscr) && PairMask(n, k) == EffMask(m, ev, src)
    && n.mem == m.mem && n.rel == m.rel && n.z[ev.vvvv] == m.z[ev.vvvv]
    && (forall l :: 0 <= l < Dwords(ev.ll) ==> n.z[s2][l] == ComparedLane(m, ev, src, l))
    && (TakesRax(ev, src) ==>
          s2 != ev.vvvv && forall l :: Dwords(ev.ll) <= l < 16 ==> n.z[s2][l] == m.z[s2][l])
  }

  method Prepare(em: Em, ev: Ev, src: Source) returns (k: nat, s2: nat)
    requires em.Valid() && em.b.temps == [] && em.b.kscr != ev.aaa && Form(ev, src) && ev.vvvv in em.b.vecs
    modifies em`ops, em`m, em`b
    ensures em.Valid() && em.b == old(em.b).(raxUsed := em.b.raxUsed, kUsed := em.b.kUsed, temps := em.b.temps)
    ensures Prepared(em.b, old(em.m), em.m, ev, src, k, s2)
  {
    hide Run, Keeps, KeptMask, Widen, FetchedLane, PairMask;
    ghost var m := em.m;
    k := MakeMask(em, ev);
    ghost var m1 := em.m;
    SameFetched(m1, AfterMask(m, ev), ev, src);
    s2 := Src2(em, ev, src);
    PairMaskIs(em.m, k);
    PairMaskIs(m1, k);
  }

  method Body(em: Em, pred: nat, kd: nat, ev: Ev, src: Source) returns (ghost y: Vec)
    requires em.Valid() && em.b.kOut == {kd} && kd < 8 && em.b.temps == [] && em.b.kscr != ev.aaa && em.b.kscr != kd
    requires Form(ev, src) && ev.vvvv in em.b.vecs && Ordered(em.m.rel)
    modifies em`ops, em`m, em`b
    ensures em.Valid() && em.b.zOut == old(em.b).zOut && em.b.kOut == old(em.b).kOut && em.m.mem == old(em.m).mem
    ensures Outcome(old(em.m), em.m.k[kd], ev, src, pred, kd, y)
  {
    hide Run, Keeps, Outcome, CodeHolds, RelOf, Ordered, PairMask, EffMask, ComparedLane;
    ghost var m := em.m;
    var k, s2 := Prepare(em, ev, src);
    ghost var n := em.m;
    y := n.z[s2];
    if Constant(pred) {
      Constants(em, pred, kd, k);
    } else {
      Compares(em, pred, kd, ev.vvvv, s2, k, ev.aaa, ev.w);
    }
    OutcomeIs(em.b, m, n, em.m.k[kd], ev, src, pred, kd, k, s2);
  }

  lemma OutcomeIs(b: Book, m: Machine, n: Machine, kd': Mask, ev: Ev, src: Source, pred: nat, kd: nat, k: nat, s2: nat)
    requires Wf(m) && Wf(n) && Form(ev, src) && 0 < b.kscr < 8 && b.kscr != kd < 8
    requires Prepared(b, m, n, ev, src, k, s2)
    requires if Constant(pred) then kd' == (if pred % 16 == 11 then Prefix(0) else PairMask(n, k))
             else forall e :: 0 <= e < 16 ==>
                                (kd'[e] <==>
                                 && InElements(ev.w, e) && PairMask(n, k)[e]
                                 && CodeHolds(pred, k == kd != 0, RelOf(n, n.z[ev.vvvv], n.z[s2], ev.w, e)))
    ensures Outcome(m, kd', ev, src, pred, kd, n.z[s2])
  {
    hide CodeHolds, EffMask, PairMask, ComparedLane, Element;
    if TakesRax(ev, src) { assert n.z[s2][Dwords(ev.ll)..] == m.z[s2][Dwords(ev.ll)..]; }
  }

  /** vpcmpd and vpcmpud with FALSE or TRUE: no operand is read. */
  method RewriteConstant(always: bool, kd: nat, ev: Ev, src: Source, ghost m0: Machine) returns (thunk: seq<Op>)
    requires Wf(m0) && ev.Ok() && src.Ok() && kd < 8 && ev.w == 0
    ensures OpsOk(thunk)
    ensures var n := Run(thunk, m0);
            && Transparent({}, {kd}, m0, n) && n.mem == m0.mem
            && forall e :: 0 <= e < 16 ==>
                             (n.k[kd][e] <==> always && e < Dwords(ev.ll) && (ev.aaa == 0 || m0.k[ev.aaa][e]))
  {
    hide Run, Keeps, AfterMask, KeptMask, PairMask;
    var em := StartMask(ev, src, kd, m0);
    var k := MakeMask(em, ev);
    Constants(em, if always then 15 else 11, kd, k);
    thunk := em.Finish();
    KeptBits(m0, ev);
  }

  lemma KeptBits(m: Machine, ev: Ev)
    requires Wf(m) && ev.Ok() && ev.w == 0
    ensures forall e :: 0 <= e < 16 ==> (KeptMask(m, ev)[e] <==> e < Dwords(ev.ll) && (ev.aaa == 0 || m.k[ev.aaa][e]))
  {
    forall e | 0 <= e < 16 ensures KeptMask(m, ev)[e] <==> e < Dwords(ev.ll) && (ev.aaa == 0 || m.k[ev.aaa][e]) {
      KeptBit(m, ev, e);
    }
  }

  lemma KeptBit(m: Machine, ev: Ev, e: nat)
    requires Wf(m) && ev.Fits() && e < 16
    ensures KeptMask(m, ev)[e] <==> (ev.ll != 2 ==> e < Elements(ev)) && (ev.aaa == 0 || m.k[ev.aaa][e])
    ensures Elements(ev) >= 2
  {
  }

  // ---- when it is the instruction ----

  /** The address is not formed from the eax the mask went through. */
  predicate AddressKept(ev: Ev, src: Source) {
    src.InMem? && ev.ll != 2 ==> !src.a.Uses(0)
  }

  ghost function SourceVec(m: Machine, ev: Ev, src: Source): Vec
    requires Wf(m) && Form(ev, src)
  {
    seq(16, l requires 0 <= l < 16 => SourceLane(m, ev, src, l))
  }

  function RightElements(ev: Ev, src: Source): nat {
    Elements(if Suppressed(ev, src) then ev.(ll := 2) else ev)
  }

  /** The mask AVX-512 defines: the predicate of each element the vector
      length has and the write mask selects. */
  ghost predicate Right(m: Machine, k: Mask, ev: Ev, src: Source, pred: nat)
    requires Wf(m) && Form(ev, src)
  {
    forall e :: 0 <= e < 16 ==> (k[e] <==> RightBit(m, ev, src, pred, e))
  }

  ghost predicate RightBit(m: Machine, ev: Ev, src: Source, pred: nat, e: nat)
    requires Wf(m) && Form(ev, src) && e < 16
  {
    && e < RightElements(ev, src) && (ev.aaa == 0 || m.k[ev.aaa][e])
    && Holds(pred, RelOf(m, m.z[ev.vvvv], SourceVec(m, ev, src), ev.w, e))
  }

  /** Less, greater, or either of them, of a register and itself. */
  predicate NeverHolds(ev: Ev, src: Source, pred: nat) {
    src.InReg? && ev.rm == ev.vvvv && (pred % 16 == 1 || pred % 16 == 12 || pred % 16 == 14)
  }

  /** FALSE; or the mask is not lost to a narrow load, TRUE is not of qwords
      at full width, no second compare runs under a mask the first has
      overwritten, no element of a form with suppressed exceptions is left
      out, and the address is the program's. */
  predicate Exact(ev: Ev, src: Source, pred: nat, kd: nat) {
    pred % 16 == 11
    || (&& (TakesRax(ev, src) ==> ev.aaa == 0 && ev.w == 0)
        && !(pred % 16 == 15 && ev.ll == 2 && ev.w == 1)
        && (TwoSteps(pred) && Overwrites(ev, kd) ==> NeverHolds(ev, src, pred))
        && (Elements(ev) < RightElements(ev, src) ==> NeverHolds(ev, src, pred))
        && (Constant(pred) || AddressKept(ev, src)))
  }

  lemma SameLane(m: Machine, ev: Ev, src: Source, l: nat)
    requires Wf(m) && Form(ev, src) && l < 16 && AddressKept(ev, src)
    ensures ComparedLane(m, ev, src, l) == SourceLane(m, ev, src, l)
  {
    hide Widen, Address;
    var n := AfterMask(m, ev);
    RaxKept(n, ev, src, l);
    if src.InMem? { SameAddress(m, n, src.a); }
  }

  lemma SameElement(m: Machine, ev: Ev, src: Source, y: Vec, e: nat)
    requires Wf(m) && Form(ev, src) && AddressKept(ev, src) && e < Elements(ev)
    requires forall l :: 0 <= l < Dwords(ev.ll) ==> y[l] == ComparedLane(m, ev, src, l)
    ensures RelOf(m, m.z[ev.vvvv], y, ev.w, e) == RelOf(m, m.z[ev.vvvv], SourceVec(m, ev, src), ev.w, e)
  {
    hide ComparedLane, SourceLane;
    if ev.w == 1 {
      SameLane(m, ev, src, 2 * e);
      SameLane(m, ev, src, 2 * e + 1);
    } else {
      SameLane(m, ev, src, e);
    }
  }

  lemma SelfRel(m: Machine, x: Vec, w: nat, e: nat)
    requires Ordered(m.rel) && InElements(w, e)
    ensures var r := RelOf(m, x, x, w, e);
            r.Equal? || r.Unordered?
  {
    hide Element;
    var v := Element(x, e, w);
    assert m.rel(w, v, v) == Flip(m.rel(w, v, v));
  }

  /** Then the mask is AVX-512's, in every machine state. */
  lemma ExactIsRight(m: Machine, k: Mask, ev: Ev, src: Source, pred: nat, kd: nat, y: Vec)
    requires Wf(m) && Ordered(m.rel) && Form(ev, src) && Exact(ev, src, pred, kd)
    requires Outcome(m, k, ev, src, pred, kd, y)
    ensures Right(m, k, ev, src, pred)
  {
    hide ComparedLane, RelOf, Holds, CodeHolds, SourceVec, Ordered;
    forall e | 0 <= e < 16 ensures k[e] <==> RightBit(m, ev, src, pred, e) {
      if e < Elements(ev) && !Constant(pred) { SameElement(m, ev, src, y, e); }
      if e < RightElements(ev, src) { CodeRight(m, ev, src, pred, kd, e); }
    }
  }

  lemma CodeRight(m: Machine, ev: Ev, src: Source, pred: nat, kd: nat, e: nat)
    requires Wf(m) && Ordered(m.rel) && Form(ev, src) && Exact(ev, src, pred, kd) && e < RightElements(ev, src)
    ensures var r := RelOf(m, m.z[ev.vvvv], SourceVec(m, ev, src), ev.w, e);
            && (pred % 16 == 11 ==> !Holds(pred, r)) && (pred % 16 == 15 ==> Holds(pred, r))
            && (pred % 16 != 11 ==> CodeHolds(pred, Overwrites(ev, kd), r) == Holds(pred, r))
            && (NeverHolds(ev, src, pred) ==> !Holds(pred, r))
  {
    hide RelOf, Ordered;
    if src.InReg? && ev.rm == ev.vvvv {
      assert SourceVec(m, ev, src) == m.z[ev.vvvv];
      SelfRel(m, m.z[ev.vvvv], ev.w, e);
    }
  }

  // ---- and only then ----

  /** A relation that satisfies a predicate. */
  function Witness(pred: nat): Rel {
    var p := pred % 16;
    if p == 1 || p == 2 || p == 4 || p == 9 || p == 10 || p == 12 then Less
    else if p == 3 then Unordered
    else if p == 6 || p == 14 then Greater
    else Equal
  }

  function Numbers(x: nat, y: nat): Rel {
    if x < y then Less else if x > y then Greater else Equal
  }

  /** The register, or another: 1 above 0, or both 0. */
  function PoseReg(r: Rel, it: bool): Vec {
    seq(16, _ => if (if it then r.Greater? else r.Less?) then 1 else 0)
  }

  /** A machine where register `v` stands in relation `r` to every other
      register and to memory, with mask `k` in every mask register. */
  ghost function Pose(r: Rel, v: nat, k: Mask): (m: Machine)
    ensures Wf(m) && Ordered(m.rel)
  {
    Blank(k, 0).(z := seq<Vec>(32, i requires 0 <= i < 32 => PoseReg(r, i == v)),
                 mem := (at: int) => if r.Less? then 1 else 0,
        rel := if r.Less? || r.Greater? then (w: nat, x: nat, y: nat) => Numbers(x, y)
               else (w: nat, x: nat, y: nat) => r)
  }

  lemma PoseLane(r: Rel, v: nat, k: Mask, i: nat, l: nat)
    requires i < 32 && l < 16
    ensures Pose(r, v, k).z[i][l] == if (if i == v then r.Greater? else r.Less?) then 1 else 0
  {
    assert Pose(r, v, k).z[i] == PoseReg(r, i == v);
    assert PoseReg(r, i == v)[l] == if (if i == v then r.Greater? else r.Less?) then 1 else 0;
  }

  lemma PoseRel(r: Rel, v: nat, k: Mask, y: Vec, w: nat, e: nat)
    requires v < 32 && InElements(w, e)
    requires var lo, hi := if w == 1 then 2 * e else e, if w == 1 then 2 * e + 2 else e + 1;
             r.Less? || r.Greater? ==> forall l :: lo <= l < hi ==> y[l] == if r.Less? then 1 else 0
    ensures var m := Pose(r, v, k);
            RelOf(m, m.z[v], y, w, e) == r
  {
    var m := Pose(r, v, k);
    var x := m.z[v];
    if r.Less? || r.Greater? {
      var a, b := if r.Greater? then 1 else 0, if r.Less? then 1 else 0;
      PoseLane(r, v, k, v, if w == 1 then 2 * e else e);
      if w == 1 {
        PoseLane(r, v, k, v, 2 * e + 1);
        assert x[2 * e] == a && x[2 * e + 1] == a && y[2 * e] == b && y[2 * e + 1] == b;
      } else {
        assert x[e] == a && y[e] == b;
      }
    }
  }

  lemma PoseMemory(r: Rel, k: Mask, ev: Ev, src: Source, l: nat)
    requires Form(ev, src) && src.InMem? && l < 16
    ensures ComparedLane(Pose(r, ev.vvvv, k), ev, src, l) == (if r.Less? then 1 else 0)
    ensures SourceLane(Pose(r, ev.vvvv, k), ev, src, l) == (if r.Less? then 1 else 0)
  {
    hide Address, Widen;
  }

  /** The write mask lost: element 0 is written though no element is selected. */
  lemma LostMask(ev: Ev, src: Source, pred: nat, kd: nat, k: Mask, y: Vec)
    requires Form(ev, src) && pred % 16 != 11 && TakesRax(ev, src) && ev.aaa != 0
    requires Outcome(Pose(Witness(pred), ev.vvvv, Prefix(0)), k, ev, src, pred, kd, y)
    ensures !Right(Pose(Witness(pred), ev.vvvv, Prefix(0)), k, ev, src, pred)
  {
    hide RelOf, Holds, Witness, ComparedLane, SourceVec;
    var r := Witness(pred);
    var m := Pose(r, ev.vvvv, Prefix(0));
    Witnesses(ev, src, pred);
    PoseMemory(r, Prefix(0), ev, src, 0);
    PoseMemory(r, Prefix(0), ev, src, 1);
    PoseRel(r, ev.vvvv, Prefix(0), y, ev.w, 0);
    assert k[0];
    assert !RightBit(m, ev, src, pred, 0);
  }

  /** The vector length lost: an element above it is written. */
  lemma LostLength(ev: Ev, src: Source, pred: nat, kd: nat, k: Mask, y: Vec)
    requires Form(ev, src) && pred % 16 != 11 && TakesRax(ev, src) && ev.w == 1
    requires Outcome(Pose(Witness(pred), ev.vvvv, Prefix(16)), k, ev, src, pred, kd, y)
    ensures !Right(Pose(Witness(pred), ev.vvvv, Prefix(16)), k, ev, src, pred)
  {
    hide RelOf, Holds, Witness, ComparedLane, SourceVec;
    var r, d := Witness(pred), Dwords(ev.ll);
    var m, e := Pose(r, ev.vvvv, Prefix(16)), Elements(ev);
    Witnesses(ev, src, pred);
    var t :| 0 <= t < 32 && t != ev.vvvv && y[d..] == m.z[t][d..];
    PoseLane(r, ev.vvvv, Prefix(16), t, d);
    PoseLane(r, ev.vvvv, Prefix(16), t, d + 1);
    assert y[2 * e] == y[d..][0] && y[2 * e + 1] == y[d..][1];
    PoseRel(r, ev.vvvv, Prefix(16), y, ev.w, e);
    assert k[e];
    assert !RightBit(m, ev, src, pred, e);
  }

  /** TRUE of eight qwords sets sixteen bits. */
  lemma TrueOverlong(ev: Ev, src: Source, pred: nat, kd: nat, k: Mask, y: Vec)
    requires Form(ev, src) && pred % 16 == 15 && ev.ll == 2 && ev.w == 1
    requires Outcome(Pose(Equal, ev.vvvv, Prefix(16)), k, ev, src, pred, kd, y)
    ensures !Right(Pose(Equal, ev.vvvv, Prefix(16)), k, ev, src, pred)
  {
    hide RelOf, Holds, ComparedLane, SourceVec;
    var m := Pose(Equal, ev.vvvv, Prefix(16));
    assert k[8];
    assert !RightBit(m, ev, src, pred, 8);
  }

  /** The relation only the second compare sees. */
  function Second(pred: nat): Rel {
    if pred % 16 == 8 then Unordered else Greater
  }

  /** The second compare lost: element 0 satisfies only that one. */
  lemma LostSecond(ev: Ev, src: Source, pred: nat, kd: nat, k: Mask, y: Vec)
    requires Form(ev, src) && TwoSteps(pred) && Overwrites(ev, kd) && !NeverHolds(ev, src, pred)
    requires Outcome(Pose(Second(pred), ev.vvvv, Prefix(16)), k, ev, src, pred, kd, y)
    ensures !Right(Pose(Second(pred), ev.vvvv, Prefix(16)), k, ev, src, pred)
  {
    hide RelOf, ComparedLane, SourceVec, SourceLane;
    var r := Second(pred);
    var m := Pose(r, ev.vvvv, Prefix(16));
    if src.InMem? {
      PoseMemory(r, Prefix(16), ev, src, 0);
      PoseMemory(r, Prefix(16), ev, src, 1);
    } else {
      PoseRegister(r, Prefix(16), ev, src, 0);
      PoseRegister(r, Prefix(16), ev, src, 1);
    }
    PoseRel(r, ev.vvvv, Prefix(16), y, ev.w, 0);
    FirstLanes(m, ev, src);
    PoseRel(r, ev.vvvv, Prefix(16), SourceVec(m, ev, src), ev.w, 0);
    assert !k[0];
    assert RightBit(m, ev, src, pred, 0);
  }

  lemma FirstLanes(m: Machine, ev: Ev, src: Source)
    requires Wf(m) && Form(ev, src)
    ensures forall l :: 0 <= l < 16 ==> SourceVec(m, ev, src)[l] == SourceLane(m, ev, src, l)
  {
  }

  lemma PoseRegister(r: Rel, k: Mask, ev: Ev, src: Source, l: nat)
    requires Form(ev, src) && src.InReg? && l < 16
    ensures ev.rm != ev.vvvv ==> ComparedLane(Pose(r, ev.vvvv, k), ev, src, l) == (if r.Less? then 1 else 0)
    ensures ev.rm != ev.vvvv ==> SourceLane(Pose(r, ev.vvvv, k), ev, src, l) == (if r.Less? then 1 else 0)
  {
    hide Widen;
    PoseLane(r, ev.vvvv, k, ev.rm, l);
  }

  /** A relation of a register with itself that satisfies a predicate. */
  function SelfWitness(pred: nat): Rel {
    var p := pred % 16;
    if p == 3 || p == 4 || p == 6 || p == 9 then Unordered else Equal
  }

  function OwnWitness(ev: Ev, pred: nat): Rel {
    if ev.rm == ev.vvvv then SelfWitness(pred) else Witness(pred)
  }

  /** Each predicate holds of its witness; of a register and itself, unless it
      never does; and not of both equals and its differing relation. */
  lemma Witnesses(ev: Ev, src: Source, pred: nat)
    ensures pred % 16 != 11 ==> Holds(pred, Witness(pred))
    ensures pred % 16 != 11 && src.InReg? && !NeverHolds(ev, src, pred) ==>
              var r := OwnWitness(ev, pred);
              Holds(pred, r) && (ev.rm == ev.vvvv ==> r.Equal? || r.Unordered?)
    ensures !Constant(pred) ==> Holds(pred, Differing(pred)) != Holds(pred, Equal)
  {
  }

  /** The length lost: an element above the length field is not written. */
  lemma ShortLength(ev: Ev, src: Source, pred: nat, kd: nat, k: Mask, y: Vec)
    requires Form(ev, src) && Elements(ev) < RightElements(ev, src) && pred % 16 != 11 && !NeverHolds(ev, src, pred)
    requires Outcome(Pose(OwnWitness(ev, pred), ev.vvvv, Prefix(16)), k, ev, src, pred, kd, y)
    ensures !Right(Pose(OwnWitness(ev, pred), ev.vvvv, Prefix(16)), k, ev, src, pred)
  {
    hide RelOf, Holds, OwnWitness, ComparedLane, SourceVec, SourceLane, CodeHolds;
    var r, e := OwnWitness(ev, pred), Elements(ev);
    var m := Pose(r, ev.vvvv, Prefix(16));
    Witnesses(ev, src, pred);
    FirstLanes(m, ev, src);
    PoseRegister(r, Prefix(16), ev, src, if ev.w == 1 then 2 * e else e);
    PoseRegister(r, Prefix(16), ev, src, if ev.w == 1 then 2 * e + 1 else e);
    PoseRel(r, ev.vvvv, Prefix(16), SourceVec(m, ev, src), ev.w, e);
    assert !k[e];
    assert RightBit(m, ev, src, pred, e);
  }

  /** A relation on which a predicate differs from its value on equals. */
  function Differing(pred: nat): Rel {
    var p := pred % 16;
    if p == 3 || p == 7 then Unordered
    else if p == 2 || p == 6 || p == 10 || p == 14 then Greater
    else Less
  }

  /** Zero stands in relation `r` to every other number. */
  function FromZero(r: Rel, x: nat, y: nat): Rel {
    if x == y then Equal else if x == 0 then r else if y == 0 then Flip(r) else Equal
  }

  /** Registers zero but for masks of ones, a one at address `at`. */
  ghost function Planted(r: Rel, at: int): (m: Machine)
    ensures Wf(m) && Ordered(m.rel)
  {
    Blank(Prefix(16), at).(rel := (w: nat, x: nat, y: nat) => FromZero(r, x, y))
  }

  /** The eax the mask went through moves the address off the one. */
  lemma PlantedLanes(r: Rel, ev: Ev, src: Source, l: nat)
    requires Form(ev, src) && !AddressKept(ev, src) && l < 2
    ensures var m := Planted(r, src.a.disp);
            && ComparedLane(m, ev, src, l) == 0 && SourceLane(m, ev, src, 0) == 1
            && (ev.b && ev.w == 1 ==> SourceLane(m, ev, src, 1) == 0)
  {
    hide Value, Widen;
    var a, m := src.a, Planted(r, src.a.disp);
    var n := AtLoad(AfterMask(m, ev), ev, src);
    BlankAddress(Blank(Prefix(16), a.disp), a, Prefix(16), a.disp);
    SameGpr(m, Blank(Prefix(16), a.disp), a);
    WidenBit(VlLanes(ev.ll, ev.w), 0);
    WidenBit(VlLanes(ev.ll, 0), 0);
    FirstBit(n.gpr[0], 0);
    AddressAbove(n, a, 0);
  }

  /** The address lost: element 0 is compared with another word. */
  lemma LostAddress(ev: Ev, src: Source, pred: nat, kd: nat, k: Mask, y: Vec)
    requires Form(ev, src) && !Constant(pred) && !AddressKept(ev, src) && (ev.w == 1 ==> ev.b)
    requires Outcome(Planted(Differing(pred), src.a.disp), k, ev, src, pred, kd, y)
    ensures !Right(Planted(Differing(pred), src.a.disp), k, ev, src, pred)
  {
    hide Holds, Differing, ComparedLane, SourceLane, AfterMask;
    var r := Differing(pred);
    var m := Planted(r, src.a.disp);
    Witnesses(ev, src, pred);
    PlantedLanes(r, ev, src, 0);
    PlantedLanes(r, ev, src, 1);
    FirstLanes(m, ev, src);
    assert RelOf(m, m.z[ev.vvvv], y, ev.w, 0) == Equal;
    assert RelOf(m, m.z[ev.vvvv], SourceVec(m, ev, src), ev.w, 0) == r;
    assert m.k[ev.aaa] == Prefix(16);
    KeptBit(m, ev, 0);
    assert k[0] <==> CodeBit(m, ev, src, pred, kd, y, 0);
    assert RightBit(m, ev, src, pred, 0) <==> Holds(pred, r);
  }

  // ---- the condition ----

  /** The sequence leaves a wrong mask from this machine state. */
  ghost predicate Fails(m: Machine, ev: Ev, src: Source, pred: nat, kd: nat)
    requires Form(ev, src)
  {
    && Wf(m) && Ordered(m.rel)
    && (exists k, y :: Outcome(m, k, ev, src, pred, kd, y))
    && forall k, y :: Outcome(m, k, ev, src, pred, kd, y) ==> !Right(m, k, ev, src, pred)
  }

  /** The sequence always leaves something. */
  lemma SomeOutcome(m: Machine, ev: Ev, src: Source, pred: nat, kd: nat)
    requires Wf(m) && Form(ev, src)
    ensures exists k, y :: Outcome(m, k, ev, src, pred, kd, y)
  {
    hide ComparedLane, EffMask, CodeHolds, RelOf;
    var d, t := Dwords(ev.ll), if ev.vvvv == 0 then 1 else 0;
    var y: Vec := seq(16, l requires 0 <= l < 16 => if l < d then ComparedLane(m, ev, src, l) else m.z[t][l]);
    assert y[d..] == m.z[t][d..];
    var k: Mask := seq(16, e requires 0 <= e < 16 => CodeBit(m, ev, src, pred, kd, y, e));
    assert Outcome(m, k, ev, src, pred, kd, y);
  }

  /** Otherwise it fails from some machine state. */
  lemma OnlyExact(ev: Ev, src: Source, pred: nat, kd: nat)
    requires Form(ev, src) && !Exact(ev, src, pred, kd)
    ensures exists m :: Fails(m, ev, src, pred, kd)
  {
    hide Outcome, Right, Pose, Planted, Ordered, Witness, Second, OwnWitness, Differing;
    var lost := TakesRax(ev, src) && (ev.aaa != 0 || ev.w == 1);
    var overlong := pred % 16 == 15 && ev.ll == 2 && ev.w == 1;
    var second := TwoSteps(pred) && Overwrites(ev, kd) && !NeverHolds(ev, src, pred);
    var short := Elements(ev) < RightElements(ev, src) && !NeverHolds(ev, src, pred);
    var r := if lost then Witness(pred) else if overlong then Equal
             else if second then Second(pred) else OwnWitness(ev, pred);
    var km := Prefix(if lost && ev.aaa != 0 then 0 else 16);
    var m := if lost || overlong || second || short then Pose(r, ev.vvvv, km) else Planted(Differing(pred), src.a.disp);
    SomeOutcome(m, ev, src, pred, kd);
    forall k, y | Outcome(m, k, ev, src, pred, kd, y) ensures !Right(m, k, ev, src, pred) {
      if lost && ev.aaa != 0 {
        LostMask(ev, src, pred, kd, k, y);
      } else if lost {
        LostLength(ev, src, pred, kd, k, y);
      } else if overlong {
        TrueOverlong(ev, src, pred, kd, k, y);
      } else if second {
        LostSecond(ev, src, pred, kd, k, y);
      } else if short {
        ShortLength(ev, src, pred, kd, k, y);
      } else {
        LostAddress(ev, src, pred, kd, k, y);
      }
    }
    assert Fails(m, ev, src, pred, kd);
  }

  /** The mask is AVX-512's from every machine state, exactly under the condition. */
  lemma RightExactly(ev: Ev, src: Source, pred: nat, kd: nat)
    requires Form(ev, src)
    ensures Exact(ev, src, pred, kd) <==>
            forall m, k, y ::
              Wf(m) && Ordered(m.rel) && Outcome(m, k, ev, src, pred, kd, y) ==> Right(m, k, ev, src, pred)
  {
    hide Outcome, Right, Ordered, Exact;
    if Exact(ev, src, pred, kd) {
      forall m, k, y | Wf(m) && Ordered(m.rel) && Outcome(m, k, ev, src, pred, kd, y)
        ensures Right(m, k, ev, src, pred)
      {
        ExactIsRight(m, k, ev, src, pred, kd, y);
      }
    } else {
      OnlyExact(ev, src, pred, kd);
    }
  }
}
