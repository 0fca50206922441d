/** Masked unaligned moves between a register and memory. */
module Moves {
  import opened Common
  import opened Lanes
  import opened Shifts
  import opened Masks
  import opened Card
  import opened Emitter
  import opened Unaligned
  import opened Operands

  // ---- the program mask by dword lane ----

  /** eax before the last step of the spreading. */
  function Spread3(r: Reg): Reg {
    FoldUp(FoldUp(FoldUp(And32(r, Widen(Prefix(8))), 4, Quads()), 2, Pairs()), 1, Even())
  }

  method Double(em: Em, n: nat, mask: Mask)
    requires em.Valid() && em.b.raxUsed && em.b.rcxUsed && em.b.flagsUsed && n < 32
    modifies em`ops, em`m, em`b
    ensures em.Valid() && em.b == old(em.b)
    ensures em.m == old(em.m).(gpr := old(em.m).gpr[0 := FoldUp(old(em.m).gpr[0], n, mask)]
                    [1 := Shl32(Low32(old(em.m).gpr[0]), n)], fl := em.m.fl)
  {
    hide Run, Keeps, Low32, Shl32, Or32, And32, Widen;
    em.Int(MovEcxEax);
    em.Int(ShlEcx(n));
    em.Int(OrEaxEcx);
    em.Int(AndEaxImm(mask));
  }

  method SpreadOut(em: Em, limit: Mask)
    requires em.Valid() && em.b.raxUsed && em.b.rcxUsed && em.b.flagsUsed
    modifies em`ops, em`m, em`b
    ensures em.Valid() && em.b == old(em.b)
    ensures em.m == old(em.m).(gpr := old(em.m).gpr[0 := Spread(old(em.m).gpr[0], limit)]
                    [1 := Shl32(Low32(Spread3(old(em.m).gpr[0])), 1)], fl := em.m.fl)
  {
    hide Run, Keeps, FoldUp, And32, Widen, Low32, Shl32;
    em.Int(MovzxEaxAl);
    Double(em, 4, Quads());
    Double(em, 2, Pairs());
    Double(em, 1, Even());
    Double(em, 1, limit);
  }

  /** A mask over qwords turned into one over dwords, in the scratch mask
      register. */
  method QmaskToDmask(em: Em, k: nat, limit: Mask) returns (ks: nat)
    requires em.Valid() && k < 8 && k != em.b.kscr
    modifies em`ops, em`m, em`b
    ensures em.Valid() && em.b == old(em.b).(raxUsed := true, rcxUsed := true, kUsed := true, flagsUsed := true)
    ensures Worked(em.b, 0, old(em.m), em.m) && em.m.z == old(em.m).z && ks == em.b.kscr
    ensures em.m.gpr[0] == Spread(Widen(old(em.m).k[k]), limit)
    ensures em.m.gpr[1] == Shl32(Low32(Spread3(Widen(old(em.m).k[k]))), 1)
    ensures forall l :: 0 <= l < 16 ==> (em.m.k[ks][l] <==> old(em.m).k[k][l / 2] && limit[l])
  {
    hide Run, Keeps, Spread, Spread3, Widen, Low32, Shl32, Narrow;
    ks := em.K();
    em.Flags();
    em.Rcx();
    em.KmovRK(0, k);
    SpreadOut(em, limit);
    em.KmovKR(ks, 0);
    DmaskBits(old(em.m).k[k], limit);
  }

  lemma DmaskBits(c: Mask, limit: Mask)
    ensures forall l :: 0 <= l < 16 ==> (Narrow(Spread(Widen(c), limit))[l] <==> c[l / 2] && limit[l])
  {
    hide Spread, Widen;
    forall l | 0 <= l < 16 ensures Narrow(Spread(Widen(c), limit))[l] <==> c[l / 2] && limit[l] {
      SpreadBit(Widen(c), limit, l);
      WidenBit(c, l / 2);
    }
  }

  // ---- what the pairs are given ----

  /** A qword mask has to be spread, through eax and ecx. */
  predicate Spreads(ev: Ev) {
    ev.aaa != 0 && ev.w == 1
  }

  function DMask(c: Mask, limit: Mask): Mask {
    seq(16, l requires 0 <= l < 16 => c[l / 2] && limit[l])
  }

  /** The mask the pairs move through: the vector length's lanes; but a
      spread mask takes the same scratch register. */
  ghost function SpanMask(m: Machine, ev: Ev): Mask
    requires Wf(m) && ev.Ok()
  {
    if Spreads(ev) && ev.ll != 2 then DMask(m.k[ev.aaa], Prefix(Dwords(ev.ll))) else Prefix(Dwords(ev.ll))
  }

  /** The registers as the pairs see them. */
  ghost function Seen(m: Machine, ev: Ev): (n: Machine)
    requires Wf(m) && ev.Ok()
    ensures Wf(n)
  {
    if Spreads(ev) then
      var r := Widen(m.k[ev.aaa]);
      m.(gpr := m.gpr[0 := Spread(r, Prefix(Dwords(ev.ll)))][1 := Shl32(Low32(Spread3(r)), 1)])
    else if ev.ll != 2 then m.(gpr := m.gpr[0 := Widen(Prefix(Dwords(ev.ll)))])
    else m
  }

  /** The pairs' mask register `span` and the program's mask by dword lane
      `prog`, 0 for none. */
  ghost predicate SpansAre(b: Book, m: Machine, n: Machine, ev: Ev, span: nat, prog: nat)
    requires Wf(m) && Wf(n) && ev.Ok() && b.kscr < 8
  {
    && Worked(b, 0, m, n) && n.z == m.z && n.gpr == Seen(m, ev).gpr
    && span < 8 && PairMask(n, span) == SpanMask(m, ev)
    && prog < 8 && (prog == 0 <==> ev.aaa == 0)
    && forall l :: 0 <= l < Dwords(ev.ll) ==> (Selected(n.k, prog, 0, l) <==> Selected(m.k, ev.aaa, ev.w, l))
  }

  method SpansPlain(em: Em, ev: Ev) returns (span: nat, prog: nat)
    requires em.Valid() && ev.Ok() && ev.aaa != em.b.kscr && !Spreads(ev)
    modifies em`ops, em`m, em`b
    ensures em.Valid() && em.b == old(em.b).(raxUsed := em.b.raxUsed, kUsed := em.b.kUsed)
    ensures SpansAre(em.b, old(em.m), em.m, ev, span, prog)
  {
    hide Run, Keeps, Widen;
    span, prog := 0, ev.aaa;
    if ev.ll != 2 { span := em.MaskImm(Prefix(Dwords(ev.ll))); }
  }

  method SpansSpread(em: Em, ev: Ev) returns (span: nat, prog: nat)
    requires em.Valid() && ev.Ok() && ev.aaa != em.b.kscr && Spreads(ev)
    modifies em`ops, em`m, em`b
    ensures em.Valid() && em.b == old(em.b).(raxUsed := true, rcxUsed := true, kUsed := true, flagsUsed := true)
    ensures SpansAre(em.b, old(em.m), em.m, ev, span, prog)
  {
    hide Run, Keeps, Widen, Spread, Spread3, Shl32, Low32, Dwords;
    ghost var m := em.m;
    span := 0;
    LengthMask(ev, Prefix(0));
    var dvl := Prefix(Dwords(ev.ll));
    if ev.ll != 2 { span := em.MaskImm(dvl); }
    prog := QmaskToDmask(em, ev.aaa, dvl);
    assert em.m.k[prog] == DMask(m.k[ev.aaa], dvl);
  }

  method Spans(em: Em, ev: Ev) returns (span: nat, prog: nat)
    requires em.Valid() && ev.Ok() && ev.aaa != em.b.kscr
    modifies em`ops, em`m, em`b
    ensures em.Valid()
    ensures em.b
            == old(em.b).(raxUsed := em.b.raxUsed, rcxUsed := em.b.rcxUsed,
                          kUsed := em.b.kUsed, flagsUsed := em.b.flagsUsed)
    ensures SpansAre(em.b, old(em.m), em.m, ev, span, prog)
  {
    hide Run, Keeps, SpansAre;
    if Spreads(ev) { span, prog := SpansSpread(em, ev); } else { span, prog := SpansPlain(em, ev); }
  }

  // ---- loads ----

  /** What the pairs bring to lane `l`. */
  ghost function LoadedLane(m: Machine, ev: Ev, a: MemOp, l: nat): Lane
    requires Wf(m) && ev.Ok() && a.Ok() && l < 16
  {
    m.mem(Address(Seen(m, ev), a) + 4 * Rank(SpanMask(m, ev), l))
  }

  /** A load through a temporary, the selected lanes merged into `d`. */
  method LoadMasked(em: Em, d: nat, z: bool, a: MemOp, span: nat, prog: nat)
    requires em.Valid() && a.Ok() && em.Mine(d) && d in em.b.vecs && |em.b.temps| < SLOTS && span < 8 && 0 < prog < 8
    modifies em`ops, em`m, em`b
    ensures em.Valid() && em.Mine(d) && em.b.kscr == old(em.b).kscr && em.b.zOut == old(em.b).zOut
    ensures em.b.kOut == old(em.b).kOut
    ensures em.m.mem == old(em.m).mem
    ensures forall l :: 0 <= l < 16 && Selected(old(em.m).k, prog, 0, l) && PairMask(old(em.m), span)[l] ==>
                          em.m.z[d][l] == old(em.m).mem(Address(old(em.m), a) + 4 * Rank(PairMask(old(em.m), span), l))
    ensures forall l :: 0 <= l < 16 && !Selected(old(em.m).k, prog, 0, l) ==>
                          em.m.z[d][l] == if z then 0 else old(em.m).z[d][l]
  {
    hide Run, Keeps, Address, Rank, Selected;
    var t := em.Temp();
    SameGpr(em.m, old(em.m), a);
    LoadUnaligned(em, t.value, a, span);
    em.Vmov(d, R(t.value), prog, 0);
    if z { ZeroOthers(em, d, prog); }
  }

  method ZeroOthers(em: Em, d: nat, k: nat)
    requires em.Valid() && em.Mine(d) && 0 < k < 8
    modifies em`ops, em`m, em`b
    ensures em.Valid() && em.b == old(em.b).(raxUsed := true, kUsed := true) && Touched(em.b, d, old(em.m), em.m)
    ensures forall l :: 0 <= l < 16 ==> em.m.z[d][l] == if Selected(old(em.m).k, k, 0, l) then old(em.m).z[d][l] else 0
  {
    hide Run, Keeps;
    var kz := em.K();
    em.Knot(kz, k);
    em.Zero(d, kz, 0);
  }

  /** A load straight into the destination. */
  method LoadPlain(em: Em, d: nat, a: MemOp, span: nat)
    requires em.Valid() && a.Ok() && em.Mine(d) && span < 8
    modifies em`ops, em`m, em`b
    ensures em.Valid() && em.Mine(d) && em.b == old(em.b) && em.m.mem == old(em.m).mem
    ensures forall l :: 0 <= l < 16 && PairMask(old(em.m), span)[l] ==>
                          em.m.z[d][l] == old(em.m).mem(Address(old(em.m), a) + 4 * Rank(PairMask(old(em.m), span), l))
  {
    hide Run, Keeps, Address, Rank;
    LoadUnaligned(em, d, a, span);
  }

  method Load(em: Em, ev: Ev, a: MemOp)
    requires em.Valid() && ev.Ok() && a.Ok() && em.Mine(ev.reg) && ev.reg in em.b.vecs && em.b.temps == []
    requires ev.aaa != em.b.kscr
    modifies em`ops, em`m, em`b
    ensures em.Valid() && em.Mine(ev.reg) && em.b.zOut == old(em.b).zOut && em.b.kOut == old(em.b).kOut
    ensures em.m.mem == old(em.m).mem
    ensures forall l :: 0 <= l < Dwords(ev.ll) ==>
                          em.m.z[ev.reg][l] == CommitLane(ev, old(em.m), ev.reg, LoadedLane(old(em.m), ev, a, l), l)
  {
    hide Run, Keeps, Address, Rank, Selected, SpanMask, Seen, PairMask;
    ghost var m := em.m;
    var span, prog := Spans(em, ev);
    SameGpr(em.m, Seen(m, ev), a);
    SpanLanes(m, ev);
    SelectedAll(em.m.k, 0);
    SelectedAll(m.k, ev.w);
    if prog == 0 { LoadPlain(em, ev.reg, a, span); } else { LoadMasked(em, ev.reg, ev.z, a, span, prog); }
  }

  /** An unaligned load, refused only for a mask by byte or word. */
  method RewriteLoad(bytewise: bool, ev: Ev, a: MemOp, ghost m0: Machine) returns (r: Result<seq<Op>>)
    requires Wf(m0) && ev.Ok() && a.Ok()
    ensures r.Err? <==> bytewise && ev.aaa != 0
    ensures r.Ok? ==> OpsOk(r.value)
    ensures r.Ok? ==>
              var n := Run(r.value, m0);
              && Transparent({ev.reg}, {}, m0, n) && n.mem == m0.mem
              && forall l :: 0 <= l < 16 ==> n.z[ev.reg][l] == CommitLane(ev, m0, ev.reg, LoadedLane(m0, ev, a, l), l)
  {
    hide Run, Keeps, LoadedLane;
    if bytewise && ev.aaa != 0 { return Err("a byte or word mask: the card masks 32-bit lanes only"); }
    var em := Start(ev, InMem(a), m0);
    Load(em, ev, a);
    if ev.ll != 2 { em.ZeroLanes(ev.reg, Upper(ev.ll)); }
    var thunk := em.Finish();
    return Ok(thunk);
  }

  /** Every lane the instruction writes is in the pairs' mask, and none above the length. */
  lemma SpanLanes(m: Machine, ev: Ev)
    requires Wf(m) && ev.Ok()
    ensures forall l :: 0 <= l < Dwords(ev.ll) && Selected(m.k, ev.aaa, ev.w, l) ==> SpanMask(m, ev)[l]
    ensures forall l: nat, at, x :: l < 16 && Lands(SpanMask(m, ev), at, l, x) ==> l < Dwords(ev.ll)
  {
    hide Rank;
  }

  // ---- stores ----

  /** Through the lanes of `km`: the selected lanes in memory, the others as
      they were, and no other memory changed. */
  ghost predicate StoredThrough(m: Machine, n: Machine, ev: Ev, km: Mask, at: int)
    requires Wf(m) && ev.Ok()
  {
    && (forall l: nat, x :: l < 16 && Lands(km, at, l, x) ==>
                              n.mem(x) == if Selected(m.k, ev.aaa, ev.w, l) then m.z[ev.reg][l] else m.mem(x))
    && (forall x :: (forall l: nat :: l < 16 ==> !Lands(km, at, l, x)) ==> n.mem(x) == m.mem(x))
  }

  /** Lane `l` is within the vector length and selected. */
  ghost predicate Chosen(m: Machine, ev: Ev, l: nat)
    requires Wf(m) && ev.Ok()
  {
    l < Dwords(ev.ll) && Selected(m.k, ev.aaa, ev.w, l)
  }

  /** The store as EVEX defines it: exactly the selected lanes' dwords change. */
  ghost predicate StoredLanes(m: Machine, n: Machine, ev: Ev, at: int)
    requires Wf(m) && ev.Ok()
  {
    && (forall l: nat, x :: Chosen(m, ev, l) && DwordAt(at, l, x) ==> n.mem(x) == m.z[ev.reg][l])
    && (forall x :: (forall l: nat :: Chosen(m, ev, l) ==> !DwordAt(at, l, x)) ==> n.mem(x) == m.mem(x))
  }

  /** Memory read into a temporary, the selected lanes merged. */
  method Staged(em: Em, s: nat, a: MemOp, span: nat, prog: nat) returns (t: nat)
    requires em.Valid() && a.Ok() && s in em.b.vecs && s < 32 && em.b.temps == [] && span < 8 && 0 < prog < 8
    modifies em`ops, em`m, em`b
    ensures em.Valid() && em.b.zOut == old(em.b).zOut && em.b.kOut == old(em.b).kOut && t < 32
    ensures em.m.k == old(em.m).k && em.m.gpr == old(em.m).gpr && em.m.mem == old(em.m).mem
    ensures var m, km, at := old(em.m), PairMask(old(em.m), span), Address(old(em.m), a);
            forall l: nat, x :: l < 16 && Lands(km, at, l, x) ==>
                                  em.m.z[t][l] == if Selected(m.k, prog, 0, l) then m.z[s][l] else m.mem(x)
  {
    hide Run, Keeps, Address, Rank, Selected, PairMask;
    ghost var m := em.m;
    var r := em.Temp();
    t := r.value;
    SameGpr(em.m, m, a);
    PairMaskIs(em.m, span);
    PairMaskIs(m, span);
    LoadUnaligned(em, t, a, span);
    em.Vmov(t, R(s), prog, 0);
  }

  /** Memory read, the selected lanes merged, the whole span written back. */
  method StoreMasked(em: Em, s: nat, a: MemOp, span: nat, prog: nat)
    requires em.Valid() && a.Ok() && s in em.b.vecs && s < 32 && em.b.temps == [] && span < 8 && 0 < prog < 8
    modifies em`ops, em`m, em`b
    ensures em.Valid() && em.b.zOut == old(em.b).zOut && em.b.kOut == old(em.b).kOut
    ensures var m, km, at := old(em.m), PairMask(old(em.m), span), Address(old(em.m), a);
            && (forall l: nat, x :: l < 16 && Lands(km, at, l, x) ==>
                                      em.m.mem(x) == if Selected(m.k, prog, 0, l) then m.z[s][l] else m.mem(x))
            && (forall x :: (forall l: nat :: l < 16 ==> !Lands(km, at, l, x)) ==> em.m.mem(x) == m.mem(x))
  {
    hide Run, Keeps, Address, Lands, Selected, PairMask;
    ghost var m := em.m;
    var t := Staged(em, s, a, span, prog);
    SameGpr(em.m, m, a);
    PairMaskIs(em.m, span);
    PairMaskIs(m, span);
    StoreUnaligned(em, a, t, span);
  }

  method StorePlain(em: Em, s: nat, a: MemOp, span: nat)
    requires em.Valid() && a.Ok() && s < 32 && span < 8
    modifies em`ops, em`m, em`b
    ensures em.Valid() && em.b.zOut == old(em.b).zOut && em.b.kOut == old(em.b).kOut
    ensures var m, km, at := old(em.m), PairMask(old(em.m), span), Address(old(em.m), a);
            && (forall l: nat, x :: l < 16 && Lands(km, at, l, x) ==> em.m.mem(x) == m.z[s][l])
            && (forall x :: (forall l: nat :: l < 16 ==> !Lands(km, at, l, x)) ==> em.m.mem(x) == m.mem(x))
  {
    hide Run, Keeps, Address, Rank, PairMask;
    StoreUnaligned(em, a, s, span);
  }

  method RewriteStore(bytewise: bool, ev: Ev, a: MemOp, ghost m0: Machine) returns (r: Result<seq<Op>>)
    requires Wf(m0) && ev.Ok() && a.Ok()
    ensures r.Err? <==> bytewise && ev.aaa != 0
    ensures r.Ok? ==> OpsOk(r.value)
    ensures r.Ok? ==>
              var n := Run(r.value, m0);
              Transparent({}, {}, m0, n) && StoredThrough(m0, n, ev, SpanMask(m0, ev), Address(Seen(m0, ev), a))
  {
    hide Run, Keeps, StoredThrough, SpanMask, Seen, Address;
    if bytewise && ev.aaa != 0 { return Err("a byte or word mask: the card masks 32-bit lanes only"); }
    var masks := {ev.aaa};
    assert 1 !in masks || 2 !in masks;
    var em := new Em({ev.reg}, masks, {}, {}, m0);
    Store(em, ev, a);
    SameStored(m0, em.m, ev, SpanMask(m0, ev), Address(Seen(m0, ev), a));
    var thunk := em.Finish();
    return Ok(thunk);
  }

  /** Only memory matters to what was stored. */
  lemma SameStored(m: Machine, n: Machine, ev: Ev, km: Mask, at: int)
    requires Wf(m) && ev.Ok() && StoredThrough(m, n, ev, km, at)
    ensures forall r: Machine :: r.mem == n.mem ==> StoredThrough(m, r, ev, km, at)
  {
    hide Lands, Selected;
  }

  method Store(em: Em, ev: Ev, a: MemOp)
    requires em.Valid() && ev.Ok() && a.Ok() && ev.reg in em.b.vecs && em.b.temps == [] && ev.aaa != em.b.kscr
    modifies em`ops, em`m, em`b
    ensures em.Valid() && em.b.zOut == old(em.b).zOut && em.b.kOut == old(em.b).kOut
    ensures StoredThrough(old(em.m), em.m, ev, SpanMask(old(em.m), ev), Address(Seen(old(em.m), ev), a))
  {
    hide Run, Keeps, Address, Lands, Selected, SpanMask, Seen, PairMask;
    ghost var m := em.m;
    var span, prog := Spans(em, ev);
    SameGpr(em.m, Seen(m, ev), a);
    SpanLanes(m, ev);
    SelectedAll(m.k, ev.w);
    if prog == 0 { StorePlain(em, ev.reg, a, span); } else { StoreMasked(em, ev.reg, a, span, prog); }
  }

  // ---- between registers ----

  /** A register move that needs a sequence: a narrow or a zeroing one. The
      others are left to the card's own move, in place. */
  method RewriteRegister(bytewise: bool, load: bool, ev: Ev, ghost m0: Machine) returns (r: Result<Option<seq<Op>>>)
    requires Wf(m0) && ev.Ok()
    ensures r.Err? <==> bytewise && ev.aaa != 0
    ensures r.Ok? ==> (r.value.None? <==> ev.ll == 2 && !ev.z)
    ensures r.Ok? && r.value.Some? ==> OpsOk(r.value.value)
    ensures r.Ok? && r.value.Some? ==>
              var n, e := Run(r.value.value, m0), if bytewise then ev.(w := 0) else ev;
              var (d, s) := if load then (ev.reg, ev.rm) else (ev.rm, ev.reg);
              && Transparent({d}, {}, m0, n) && n.mem == m0.mem
              && forall l :: 0 <= l < 16 ==> n.z[d][l] == CommitLane(e, m0, d, m0.z[s][l], l)
  {
    hide Run, Keeps, Selected;
    if bytewise && ev.aaa != 0 { return Err("a byte or word mask: the card masks 32-bit lanes only"); }
    if ev.ll == 2 && !ev.z { return Ok(None); }
    var (d, s) := if load then (ev.reg, ev.rm) else (ev.rm, ev.reg);
    var e := ev.(reg := d, vvvv := d, rm := s, w := if bytewise then 0 else ev.w);
    var em := Start(e, InReg, m0);
    var thunk := CloseLanes(em, e, s);
    return Ok(Some(thunk));
  }

  // ---- when the moves are right ----

  /** The pairs move through the lanes of the vector length. */
  predicate LaneByLane(ev: Ev) {
    ev.ll == 2 || ev.aaa == 0 || ev.w == 0
  }

  /** The address does not use what the masks go through. */
  predicate AddressFree(ev: Ev, a: MemOp) {
    (ev.ll != 2 || Spreads(ev) ==> !a.Uses(0)) && (Spreads(ev) ==> !a.Uses(1))
  }

  /** The address is the program's in every machine state, exactly then. */
  lemma SeenAddress(ev: Ev, a: MemOp)
    requires ev.Ok() && a.Ok()
    ensures AddressFree(ev, a) <==> forall m :: Wf(m) ==> Address(Seen(m, ev), a) == Address(m, a)
  {
    hide Address, Seen;
    if AddressFree(ev, a) {
      forall m | Wf(m) ensures Address(Seen(m, ev), a) == Address(m, a) {
        SeenGpr(m, ev);
        SameAddress(m, Seen(m, ev), a);
      }
    } else {
      var m := Blank(Prefix(16), 0);
      BlankAddress(m, a, Prefix(16), 0);
      SeenAbove(ev, a, 0);
    }
  }

  lemma SeenGpr(m: Machine, ev: Ev)
    requires Wf(m) && ev.Ok()
    ensures forall r :: 2 <= r < 16 ==> Seen(m, ev).gpr[r] == m.gpr[r]
    ensures ev.ll == 2 && !Spreads(ev) ==> Seen(m, ev).gpr[0] == m.gpr[0]
    ensures !Spreads(ev) ==> Seen(m, ev).gpr[1] == m.gpr[1]
  {
    hide Widen, Spread, Spread3, Shl32, Low32;
  }

  /** From that machine the pairs' address is above the program's. */
  lemma SeenAbove(ev: Ev, a: MemOp, at: int)
    requires ev.Ok() && a.Ok() && !AddressFree(ev, a)
    ensures var m := Blank(Prefix(16), at);
            Address(m, a) == a.disp < Address(Seen(m, ev), a)
  {
    hide Spread, Value, Address;
    var m := Blank(Prefix(16), at);
    var r := if (ev.ll != 2 || Spreads(ev)) && a.Uses(0) then 0 else 1;
    var w := Widen(Prefix(16));
    assert w[0];
    SpreadBit(w, Prefix(Dwords(ev.ll)), 0);
    SpreadThree(w, 0);
    assert Spread3(w)[0];
    FirstBit(Seen(m, ev).gpr[r], r);
    BlankAddress(m, a, Prefix(16), at);
    AddressAbove(Seen(m, ev), a, r);
  }

  /** A load takes each selected lane from its own dword in every machine
      state, exactly for full width, no mask or dword elements, and an
      address without the registers the masks go through. */
  lemma LoadsLanes(ev: Ev, a: MemOp)
    requires ev.Ok() && a.Ok()
    ensures LaneByLane(ev) && AddressFree(ev, a) <==>
            forall m, l :: Wf(m) && 0 <= l < Dwords(ev.ll) && Selected(m.k, ev.aaa, ev.w, l) ==>
                             LoadedLane(m, ev, a, l) == m.mem(Address(m, a) + 4 * l)
  {
    hide Address, LoadedLane, Selected, AddressFree, Seen;
    SeenAddress(ev, a);
    if !AddressFree(ev, a) {
      LoadsElsewhere(ev, a);
    } else if LaneByLane(ev) {
      forall m, l | Wf(m) && 0 <= l < Dwords(ev.ll) && Selected(m.k, ev.aaa, ev.w, l)
        ensures LoadedLane(m, ev, a, l) == m.mem(Address(m, a) + 4 * l)
      {
        LoadsLane(m, ev, a, l);
      }
    } else {
      LoadsOther(ev, a);
    }
  }

  /** Lane 0 from another address. */
  lemma LoadsElsewhere(ev: Ev, a: MemOp)
    requires ev.Ok() && a.Ok() && !AddressFree(ev, a)
    ensures exists m :: Wf(m) && Selected(m.k, ev.aaa, ev.w, 0) && LoadedLane(m, ev, a, 0) != m.mem(Address(m, a) + 0)
  {
    hide Address, Seen, AddressFree;
    var m := Blank(Prefix(16), a.disp);
    SeenAbove(ev, a, a.disp);
    assert Rank(SpanMask(m, ev), 0) == 0;
    assert LoadedLane(m, ev, a, 0) == 0;
  }

  lemma LoadsLane(m: Machine, ev: Ev, a: MemOp, l: nat)
    requires Wf(m) && ev.Ok() && a.Ok() && LaneByLane(ev) && l < Dwords(ev.ll)
    requires Address(Seen(m, ev), a) == Address(m, a)
    ensures LoadedLane(m, ev, a, l) == m.mem(Address(m, a) + 4 * l)
  {
    hide Address, Seen, Rank;
    RankPrefix(Dwords(ev.ll), l);
  }

  /** Element 1 alone selected: lane 2 takes the first dword, not the third. */
  lemma LoadsOther(ev: Ev, a: MemOp)
    requires ev.Ok() && a.Ok() && !LaneByLane(ev) && forall m :: Wf(m) ==> Address(Seen(m, ev), a) == Address(m, a)
    ensures exists m :: Wf(m) && Selected(m.k, ev.aaa, ev.w, 2) && LoadedLane(m, ev, a, 2) != m.mem(Address(m, a) + 8)
  {
    hide Address, Seen, Rank, SpanMask;
    var k: Mask := seq(16, e => e == 1);
    var at := Address(Blank(k, 0), a) + 8;
    var m := Blank(k, at);
    SameGpr(m, Blank(k, 0), a);
    assert Address(Seen(m, ev), a) == Address(m, a);
    OtherRank(ev, k, m);
    assert Selected(m.k, ev.aaa, ev.w, 2);
  }

  /** Lane 2 is the first the pairs' mask has. */
  lemma OtherRank(ev: Ev, k: Mask, m: Machine)
    requires Wf(m) && ev.Ok() && !LaneByLane(ev) && (forall e :: 0 <= e < 16 ==> k[e] == (e == 1)) && m.k[ev.aaa] == k
    ensures SpanMask(m, ev)[2] && Rank(SpanMask(m, ev), 2) == 0
  {
    var km := SpanMask(m, ev);
    assert !km[0] && !km[1];
    assert Rank(km, 0) == 0 && Rank(km, 1) == 0;
  }

  /** Then a store changes exactly the selected lanes' dwords. */
  lemma StoresLanes(m: Machine, n: Machine, ev: Ev, at: int)
    requires Wf(m) && ev.Ok() && LaneByLane(ev) && StoredThrough(m, n, ev, SpanMask(m, ev), at)
    ensures StoredLanes(m, n, ev, at)
  {
    hide Lands, DwordAt, Selected, Prefix;
    var len := Dwords(ev.ll);
    assert SpanMask(m, ev) == Prefix(len);
    StorePrefix(at, len);
    forall x | forall l: nat :: Chosen(m, ev, l) ==> !DwordAt(at, l, x)
      ensures n.mem(x) == m.mem(x)
    {
      if l: nat :| l < 16 && Lands(Prefix(len), at, l, x) { assert DwordAt(at, l, x); }
    }
  }

  /** In every machine state, exactly for the same instructions and addresses. */
  lemma StoresLanesOnly(ev: Ev, a: MemOp)
    requires ev.Ok() && a.Ok()
    ensures LaneByLane(ev) && AddressFree(ev, a) <==>
            forall m, n :: Wf(m) && StoredThrough(m, n, ev, SpanMask(m, ev), Address(Seen(m, ev), a)) ==>
                             StoredLanes(m, n, ev, Address(m, a))
  {
    hide StoredThrough, StoredLanes, SpanMask, AddressFree, Address, Seen;
    SeenAddress(ev, a);
    if !AddressFree(ev, a) {
      StoresElsewhere(ev, a);
    } else if LaneByLane(ev) {
      forall m, n | Wf(m) && StoredThrough(m, n, ev, SpanMask(m, ev), Address(Seen(m, ev), a))
        ensures StoredLanes(m, n, ev, Address(m, a))
      {
        StoresLanes(m, n, ev, Address(m, a));
      }
    } else {
      var k: Mask := seq(16, e => e == 1);
      var at := Address(Blank(k, 0), a);
      SameGpr(Blank(k, at), Blank(k, 0), a);
      StoresOther(ev, at, k, Blank(k, at));
    }
  }

  /** Zeros stored over zeros above, and the one at the program's address kept. */
  lemma StoresElsewhere(ev: Ev, a: MemOp)
    requires ev.Ok() && a.Ok() && !AddressFree(ev, a)
    ensures exists m :: Wf(m) && StoredThrough(m, m, ev, SpanMask(m, ev), Address(Seen(m, ev), a))
                        && !StoredLanes(m, m, ev, Address(m, a))
  {
    hide Address, Seen, AddressFree, Rank, SpanMask;
    var m := Blank(Prefix(16), a.disp);
    SeenAbove(ev, a, a.disp);
    assert StoredThrough(m, m, ev, SpanMask(m, ev), Address(Seen(m, ev), a));
    assert Chosen(m, ev, 0) && DwordAt(a.disp, 0, a.disp);
    assert m.mem(a.disp) != m.z[ev.reg][0];
  }

  /** Element 1 alone selected: its lanes go to the first two dwords. */
  lemma StoresOther(ev: Ev, at: int, k: Mask, m: Machine)
    requires ev.Ok() && !LaneByLane(ev) && (forall e :: 0 <= e < 16 ==> k[e] == (e == 1)) && m == Blank(k, at)
    ensures exists n :: StoredThrough(m, n, ev, SpanMask(m, ev), at) && !StoredLanes(m, n, ev, at)
  {
    var n := m.(mem := (x: int) => 0);
    var km := SpanMask(m, ev);
    OtherRank(ev, k, m);
    assert Lands(km, at, 2, at);
    assert StoredThrough(m, n, ev, km, at);
    forall l: nat | Chosen(m, ev, l) ensures !DwordAt(at, l, at) {
      assert l / 2 == 1;
    }
    assert n.mem(at) != m.mem(at);
  }
}
