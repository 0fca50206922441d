/** The operands of a rewritten instruction: a memory source staged into a
    temporary, and the result written under mask and vector length. */
module Operands {
  import opened Common
  import opened Lanes
  import opened Shifts
  import opened Masks
  import opened Card
  import opened Emitter
  import opened Unaligned

  /** The EVEX fields: element width, vector length (128, 256 or 512 bits),
      zeroing, embedded broadcast, write mask, registers. */
  datatype Ev = Ev(w: nat, ll: nat, z: bool, b: bool, aaa: nat, reg: nat, vvvv: nat, rm: nat) {
    predicate Fits() {
      w < 2 && ll < 4 && aaa < 8 && reg < 32 && vvvv < 32 && rm < 32
    }

    /** The field holds a length. A fourth value, 3, is legal only where the
        field is not one. */
    predicate Ok() { Fits() && ll < 3 }
  }

  /** The second source: register `rm`, or memory. */
  datatype Source = InReg | InMem(a: MemOp) {
    predicate Ok() { InMem? ==> a.Ok() }
  }

  /** The vector registers among an instruction's operands. */
  function Vecs(ev: Ev, src: Source): set<nat> {
    {ev.reg, ev.vvvv} + if src.InReg? then {ev.rm} else {}
  }

  // ---- the result ----

  /** Lane `l` of the destination as EVEX defines it: above the vector
      length zero, else the result where the write mask selects, else zero
      or what was there. */
  ghost function CommitLane(ev: Ev, m: Machine, d: nat, v: Lane, l: nat): Lane
    requires Wf(m) && d < 32 && ev.aaa < 8 && l < 16
  {
    if l >= Dwords(ev.ll) then 0
    else if Selected(m.k, ev.aaa, ev.w, l) then v
    else if ev.z then 0
    else m.z[d][l]
  }

  lemma LengthMask(ev: Ev, k: Mask)
    requires ev.Ok()
    ensures var v := VlLanes(ev.ll, ev.w);
            forall l :: 0 <= l < 16 ==> (Covers(And16(v, k), ev.w, l) <==> Covers(v, ev.w, l) && Covers(k, ev.w, l))
    ensures forall l :: 0 <= l < 16 ==> (Covers(VlLanes(ev.ll, ev.w), ev.w, l) <==> l < Dwords(ev.ll))
    ensures Dwords(ev.ll) <= 16 == Dwords(2)
  {
  }

  /** Register 0, or the scratch mask register holding the vector length's
      lanes cut to the write mask. */
  method WriteMask(em: Em, ev: Ev) returns (k: nat)
    requires em.Valid() && ev.Ok() && ev.aaa != em.b.kscr
    modifies em`ops, em`m, em`b
    ensures em.Valid() && em.b == old(em.b).(raxUsed := em.b.raxUsed, kUsed := em.b.kUsed)
    ensures Touched(em.b, 0, old(em.m), em.m) && em.m.z == old(em.m).z
    ensures if ev.ll == 2 && ev.aaa == 0 then k == 0 else k == em.b.kscr && em.b.kUsed
    ensures k != 0 ==> forall l :: 0 <= l < 16 ==>
                                     (Selected(em.m.k, k, ev.w, l) <==>
                                      l < Dwords(ev.ll) && Selected(old(em.m).k, ev.aaa, ev.w, l))
  {
    hide Run, Keeps, Widen, VlLanes, Dwords, Covers;
    k := 0;
    LengthMask(ev, em.m.k[ev.aaa]);
    if !(ev.ll == 2 && ev.aaa == 0) {
      k := em.MaskImm(VlLanes(ev.ll, ev.w));
      if ev.aaa != 0 { em.Kand(k, ev.aaa); }
    }
  }

  /** Lanes not selected zeroed, where the instruction zeroes. */
  method ZeroRest(em: Em, d: nat, k: nat, w: nat)
    requires em.Valid() && em.Mine(d) && 0 < k == em.b.kscr && em.b.kUsed && w < 2
    modifies em`ops, em`m, em`b
    ensures em.Valid() && em.b == old(em.b) && Touched(em.b, d, old(em.m), em.m)
    ensures forall l :: 0 <= l < 16 ==> em.m.z[d][l] == if Selected(old(em.m).k, k, w, l) then old(em.m).z[d][l] else 0
  {
    hide Run, Keeps;
    var kz := em.K();
    em.Knot(kz, k);
    em.Zero(d, kz, w);
  }

  lemma SelectedAll(ks: seq<Mask>, w: nat)
    requires |ks| == 8
    ensures forall l :: 0 <= l < 16 ==> Selected(ks, 0, w, l)
  {
  }

  /** The result over `d` where mask register `k` selects. */
  method MergeUnder(em: Em, d: nat, r: nat, k: nat, w: nat, zeroing: bool)
    requires em.Valid() && em.Mine(d) && r < 32 && 0 < k == em.b.kscr && em.b.kUsed && w < 2
    modifies em`ops, em`m, em`b
    ensures em.Valid() && em.b == old(em.b) && Touched(em.b, d, old(em.m), em.m)
    ensures forall l :: 0 <= l < 16 ==>
                          em.m.z[d][l] == if Selected(old(em.m).k, k, w, l) then old(em.m).z[r][l]
                          else if zeroing then 0 else old(em.m).z[d][l]
  {
    hide Run, Keeps, Selected;
    if r != d { em.Vmov(d, R(r), k, w); }
    if zeroing { ZeroRest(em, d, k, w); }
  }

  /** The result over `d` within the vector length. */
  method Merge(em: Em, d: nat, r: nat, ev: Ev)
    requires em.Valid() && em.Mine(d) && r < 32 && ev.Ok() && ev.aaa != em.b.kscr
    modifies em`ops, em`m, em`b
    ensures em.Valid() && em.b == old(em.b).(raxUsed := em.b.raxUsed, kUsed := em.b.kUsed)
    ensures Touched(em.b, d, old(em.m), em.m)
    ensures forall l :: 0 <= l < Dwords(ev.ll) ==>
                          em.m.z[d][l] == CommitLane(ev, old(em.m), d, old(em.m).z[r][l], l)
  {
    hide Run, Keeps, Selected, CommitLane, Dwords, SrcVec;
    ghost var m := em.m;
    if ev.ll == 2 && ev.aaa == 0 {
      if r != d { Copies(em, d, r, ev.w); }
    } else {
      var k := WriteMask(em, ev);
      MergeUnder(em, d, r, k, ev.w, ev.z && ev.aaa != 0);
    }
    MergedLanes(ev, m, d, m.z[r], em.m.z[d]);
  }

  method Copies(em: Em, d: nat, r: nat, w: nat)
    requires em.Valid() && em.Mine(d) && r < 32 && w < 2
    modifies em`ops, em`m, em`b
    ensures em.Valid() && em.b == old(em.b) && em.m == old(em.m).(z := old(em.m).z[d := old(em.m).z[r]])
  {
    hide Run, Keeps;
    Copy(em, d, R(r), w);
  }

  lemma MergedLanes(ev: Ev, m: Machine, d: nat, v: Vec, u: Vec)
    requires Wf(m) && ev.Ok() && d < 32
    requires if ev.ll == 2 && ev.aaa == 0 then u == v
             else forall l :: 0 <= l < 16 ==>
                                u[l] == if l < Dwords(ev.ll) && Selected(m.k, ev.aaa, ev.w, l) then v[l]
                                else if ev.z && ev.aaa != 0 then 0 else m.z[d][l]
    ensures forall l :: 0 <= l < Dwords(ev.ll) ==> u[l] == CommitLane(ev, m, d, v[l], l)
  {
    SelectedAll(m.k, ev.w);
  }

  /** The value of `r` becomes the instruction's result in `d`. */
  method Commit(em: Em, d: nat, r: nat, ev: Ev)
    requires em.Valid() && em.Mine(d) && r < 32 && ev.Ok() && ev.aaa != em.b.kscr
    modifies em`ops, em`m, em`b
    ensures em.Valid() && em.b == old(em.b).(raxUsed := em.b.raxUsed, kUsed := em.b.kUsed)
    ensures Touched(em.b, d, old(em.m), em.m)
    ensures forall l :: 0 <= l < 16 ==> em.m.z[d][l] == CommitLane(ev, old(em.m), d, old(em.m).z[r][l], l)
  {
    hide Run, Keeps, Selected;
    Merge(em, d, r, ev);
    if ev.ll != 2 { em.ZeroLanes(d, Upper(ev.ll)); }
  }

  // ---- the second source ----

  /** Lane `l` of the second source as EVEX defines it. */
  ghost function SourceLane(m: Machine, ev: Ev, src: Source, l: nat): Lane
    requires Wf(m) && ev.Fits() && src.Ok() && l < 16
  {
    if src.InReg? then m.z[ev.rm][l]
    else if ev.b then BroadcastLane(m, Address(m, src.a), ev.w, l)
    else m.mem(Address(m, src.a) + 4 * l)
  }

  /** A narrow load takes eax for its mask before it forms the address. */
  predicate TakesRax(ev: Ev, src: Source) {
    src.InMem? && !ev.b && ev.ll != 2
  }

  /** The registers as the load sees them. */
  ghost function AtLoad(m: Machine, ev: Ev, src: Source): (n: Machine)
    requires Wf(m)
    ensures Wf(n)
  {
    if TakesRax(ev, src) then m.(gpr := m.gpr[0 := Widen(VlLanes(ev.ll, 0))]) else m
  }

  /** What the sequences read as the second source. */
  ghost function FetchedLane(m: Machine, ev: Ev, src: Source, l: nat): Lane
    requires Wf(m) && ev.Fits() && src.Ok() && l < 16
  {
    SourceLane(AtLoad(m, ev, src), ev, src, l)
  }

  ghost function FetchedQ(m: Machine, ev: Ev, src: Source, j: nat): Qword
    requires Wf(m) && ev.Ok() && src.Ok() && j < 8
  {
    Join(FetchedLane(m, ev, src, 2 * j + 1), FetchedLane(m, ev, src, 2 * j))
  }

  /** The address of a narrow load does not use rax. */
  predicate OperandKept(ev: Ev, src: Source) {
    TakesRax(ev, src) ==> !src.a.Uses(0)
  }

  /** It is the second source in every machine state, exactly when the
      address of a narrow load does not use rax. */
  lemma FetchedIsSource(ev: Ev, src: Source)
    requires ev.Ok() && src.Ok()
    ensures OperandKept(ev, src) <==>
            forall m, l :: Wf(m) && 0 <= l < 16 ==> FetchedLane(m, ev, src, l) == SourceLane(m, ev, src, l)
  {
    hide FetchedLane, SourceLane;
    if !OperandKept(ev, src) {
      RaxMatters(ev, src);
    } else {
      forall m, l | Wf(m) && 0 <= l < 16 ensures FetchedLane(m, ev, src, l) == SourceLane(m, ev, src, l) {
        RaxKept(m, ev, src, l);
      }
    }
  }

  lemma RaxKept(m: Machine, ev: Ev, src: Source, l: nat)
    requires Wf(m) && ev.Fits() && src.Ok() && l < 16 && OperandKept(ev, src)
    ensures FetchedLane(m, ev, src, l) == SourceLane(m, ev, src, l)
  {
    hide Address, Widen;
    if TakesRax(ev, src) { SameAddress(m, AtLoad(m, ev, src), src.a); }
  }

  /** A machine whose vector and general registers are zero, with a mask in
      every mask register and a one at address `at`. */
  ghost function Blank(k: Mask, at: int): (m: Machine)
    ensures Wf(m)
  {
    var r: Reg, v: Vec := seq(64, _ => false), Zeros();
    Machine(seq(32, _ => v), seq(8, _ => k), seq(16, _ => r), Flags(false, false, false, false, false, false),
            Scratch(seq(6, _ => v), r, r, r, r, r, r), (x: int) => if x == at then 1 else 0,
            (_: Reg) => Flags(false, false, false, false, false, false), (_: nat, _: nat, _: nat) => Rel.Equal)
  }

  lemma {:induction false} ValueZero(bits: seq<bool>, i: nat)
    requires i <= |bits| && forall j :: 0 <= j < |bits| ==> !bits[j]
    ensures ValueFrom(bits, i) == 0
    decreases |bits| - i
  {
    if i < |bits| { ValueZero(bits, i + 1); }
  }

  lemma RaxMatters(ev: Ev, src: Source)
    requires ev.Ok() && src.Ok() && !OperandKept(ev, src)
    ensures exists m :: Wf(m) && FetchedLane(m, ev, src, 0) != SourceLane(m, ev, src, 0)
  {
    hide ValueFrom, Pow2;
    var a := src.a;
    var m := Blank(Prefix(0), a.disp);
    var n := AtLoad(m, ev, src);
    BlankAddress(m, a, Prefix(0), a.disp);
    assert Value(n.gpr[0]) > 0 by { FirstBit(n.gpr[0], 0); }
    AddressAbove(n, a, 0);
    assert FetchedLane(m, ev, src, 0) == 0;
  }

  lemma BlankAddress(m: Machine, a: MemOp, k: Mask, at: int)
    requires m == Blank(k, at) && a.Ok() && a.rip.None?
    ensures Address(m, a) == a.disp
  {
    hide ValueFrom, Pow2;
    ValueZero(m.gpr[0], 0);
  }

  lemma FirstBit(r: Reg, i: nat)
    requires i < 64 && r[i]
    ensures Value(r) > 0
  {
    BitsAbove(r, i, 0);
  }

  lemma {:induction false} BitsAbove(r: Reg, i: nat, j: nat)
    requires j <= i < 64 && r[i]
    ensures ValueFrom(r, j) > 0
    decreases i - j
  {
    if j < i { BitsAbove(r, i, j + 1); }
  }

  /** An address that uses a register above zero is above its displacement. */
  lemma AddressAbove(n: Machine, a: MemOp, r: nat)
    requires Wf(n) && a.Ok() && r < 16 && a.Uses(r)
    ensures Address(n, a) >= a.disp + Value(n.gpr[r])
  {
    hide Value, Pow2;
    if a.index.Some? {
      var v := Value(n.gpr[a.index.value]);
      MulMono(1, Pow2(a.scale), v);
      assert Pow2(a.scale) * v == v * Pow2(a.scale);
    }
  }

  /** What is read depends on the general registers and memory only. */
  lemma SameFetched(m: Machine, n: Machine, ev: Ev, src: Source)
    requires Wf(m) && Wf(n) && ev.Fits() && src.Ok() && m.gpr == n.gpr && m.mem == n.mem && (src.InReg? ==> m.z == n.z)
    ensures forall l :: 0 <= l < 16 ==> FetchedLane(m, ev, src, l) == FetchedLane(n, ev, src, l)
  {
    hide Widen, Address;
    if src.InMem? { SameGpr(AtLoad(m, ev, src), AtLoad(n, ev, src), src.a); }
  }

  lemma FetchedRegister(m: Machine, ev: Ev)
    requires Wf(m) && ev.Fits()
    ensures forall l :: 0 <= l < 16 ==> FetchedLane(m, ev, InReg, l) == m.z[ev.rm][l]
  {
  }

  /** One element of memory in every lane of `r`. */
  method StageOne(em: Em, r: nat, ev: Ev, src: Source)
    requires em.Valid() && em.Mine(r) && ev.Ok() && src.Ok() && src.InMem? && ev.b
    modifies em`ops, em`m, em`b
    ensures em.Valid() && em.b == old(em.b) && em.m == old(em.m).(z := old(em.m).z[r := em.m.z[r]])
    ensures forall l :: 0 <= l < 16 ==> em.m.z[r][l] == FetchedLane(old(em.m), ev, src, l)
  {
    hide Run, Keeps, Address;
    Broadcasts(em, r, src.a, ev.w);
  }

  /** Memory's lanes below the vector length in `r`. */
  method StageAll(em: Em, r: nat, ev: Ev, src: Source)
    requires em.Valid() && em.Mine(r) && ev.Ok() && src.Ok() && src.InMem? && !ev.b
    modifies em`ops, em`m, em`b
    ensures em.Valid() && em.b == old(em.b).(raxUsed := em.b.raxUsed, kUsed := em.b.kUsed)
    ensures Touched(em.b, r, old(em.m), em.m)
    ensures forall l :: 0 <= l < 16 ==>
                          em.m.z[r][l] == if l < Dwords(ev.ll) then FetchedLane(old(em.m), ev, src, l)
                                          else old(em.m).z[r][l]
    ensures if ev.ll != 2 then em.m.k == old(em.m).k[em.b.kscr := Prefix(Dwords(ev.ll))]
            else em.m.k == old(em.m).k && em.m.gpr == old(em.m).gpr
  {
    hide Run, Keeps, Expanded, Widen, Address, PairMask;
    var k := 0;
    if ev.ll != 2 { k := em.MaskImm(VlLanes(ev.ll, 0)); }
    ghost var m := em.m;
    PairMaskIs(m, k);
    LoadUnaligned(em, r, src.a, k);
    LoadPrefix(m, r, Address(m, src.a), Dwords(ev.ll));
    SameGpr(m, AtLoad(old(em.m), ev, src), src.a);
  }

  /** The second source as a register: its own, or a temporary loaded from memory. */
  method Src2(em: Em, ev: Ev, src: Source) returns (r: nat)
    requires em.Valid() && ev.Fits() && (src.InMem? ==> ev.Ok()) && src.Ok() && |em.b.temps| < SLOTS
    modifies em`ops, em`m, em`b
    ensures em.Valid() && r < 32
    ensures em.b == old(em.b).(raxUsed := em.b.raxUsed, kUsed := em.b.kUsed, temps := em.b.temps)
    ensures if src.InReg? then r == ev.rm && em.b == old(em.b) && em.m == old(em.m)
            else r !in em.b.vecs && r !in old(em.b).temps && em.b.temps == old(em.b).temps + [r]
                 && Touched(em.b, r, old(em.m), em.m)
    ensures forall l :: 0 <= l < Dwords(ev.ll) ==> em.m.z[r][l] == FetchedLane(old(em.m), ev, src, l)
    ensures TakesRax(ev, src) ==> em.m.k == old(em.m).k[em.b.kscr := Prefix(Dwords(ev.ll))]
    ensures TakesRax(ev, src) ==> forall l :: Dwords(ev.ll) <= l < 16 ==> em.m.z[r][l] == old(em.m).z[r][l]
    ensures !TakesRax(ev, src) ==> em.m.k == old(em.m).k && em.m.gpr == old(em.m).gpr
  {
    hide Run, Keeps, FetchedLane;
    FetchedRegister(em.m, ev);
    if src.InReg? { return ev.rm; }
    var t := em.Temp();
    r := t.value;
    ghost var m := em.m;
    SameFetched(old(em.m), m, ev, src);
    if ev.b { StageOne(em, r, ev, src); } else { StageAll(em, r, ev, src); }
  }

  lemma PairMaskIs(m: Machine, k: nat)
    requires Wf(m) && k < 8
    ensures PairMask(m, k) == if k == 0 then Prefix(16) else m.k[k]
  {
  }

  method Broadcasts(em: Em, d: nat, a: MemOp, w: nat)
    requires em.Valid() && em.Mine(d) && a.Ok() && w < 2
    modifies em`ops, em`m, em`b
    ensures em.Valid() && em.b == old(em.b)
    ensures em.m == old(em.m).(z := old(em.m).z[d := BroadcastVec(old(em.m), Address(old(em.m), a), w)])
  {
    hide Run, Keeps, BroadcastVec, Address;
    em.Emit(Broadcast(d, a, w));
  }

  // ---- whole registers ----

  lemma MergedAll(m: Machine, d: nat, v: Vec, w: nat)
    requires Wf(m) && d < 32
    ensures Merged(m, d, v, 0, w) == v
  {
  }

  method ZeroAll(em: Em, d: nat, w: nat)
    requires em.Valid() && em.Mine(d) && w < 2
    modifies em`ops, em`m, em`b
    ensures em.Valid() && em.b == old(em.b) && em.m == old(em.m).(z := old(em.m).z[d := Zeros()])
  {
    hide Run, Keeps, Merged;
    MergedAll(em.m, d, Zeros(), w);
    em.Zero(d, 0, w);
  }

  /** A register or a constant copied. */
  method Copy(em: Em, d: nat, src: Src, w: nat)
    requires em.Valid() && em.Mine(d) && SrcOk(src) && w < 2
    modifies em`ops, em`m, em`b
    ensures em.Valid() && em.b == old(em.b) && em.m == old(em.m).(z := old(em.m).z[d := SrcVec(old(em.m), src)])
  {
    hide Run, Keeps, Merged;
    MergedAll(em.m, d, SrcVec(em.m, src), w);
    em.Vmov(d, src, 0, w);
  }

  // ---- qword instructions ----

  /** Only `d`, the scratch mask register, rax, rcx, the flags and the
      scratch area changed. */
  ghost predicate Worked(b: Book, d: nat, m: Machine, n: Machine)
    requires Wf(m) && Wf(n) && d < 32 && b.kscr < 8
  {
    n == m.(z := m.z[d := n.z[d]], k := m.k[b.kscr := n.k[b.kscr]],
    gpr := m.gpr[0 := n.gpr[0]][1 := n.gpr[1]], s := n.s, fl := n.fl)
  }

  /** Qword `j` of a register. */
  function Qw(v: Vec, j: nat): Qword
    requires j < 8
  {
    Join(v[2 * j + 1], v[2 * j])
  }

  /** Qword `j` of the destination as EVEX defines it. */
  ghost function CommitQ(ev: Ev, m: Machine, d: nat, v: Qword, j: nat): Qword
    requires Wf(m) && d < 32 && ev.aaa < 8 && j < 8
  {
    if 2 * j >= Dwords(ev.ll) then 0
    else if ev.aaa == 0 || m.k[ev.aaa][j] then v
    else if ev.z then 0
    else Qw(m.z[d], j)
  }

  lemma CommitQIs(ev: Ev, m: Machine, d: nat, r: Vec, v: Vec, j: nat)
    requires Wf(m) && d < 32 && ev.Ok() && j < 8
    requires forall l :: 0 <= l < 16 ==> v[l] == CommitLane(ev.(w := 1), m, d, r[l], l)
    ensures Qw(v, j) == CommitQ(ev, m, d, Qw(r, j), j)
  {
  }

  lemma FetchedQIs(m: Machine, ev: Ev, src: Source, v: Vec, j: nat)
    requires Wf(m) && ev.Ok() && src.Ok() && j < 8 && 2 * j < Dwords(ev.ll)
    requires forall l :: 0 <= l < Dwords(ev.ll) ==> v[l] == FetchedLane(m, ev, src, l)
    ensures Qw(v, j) == FetchedQ(m, ev, src, j)
  {
    hide FetchedLane;
  }

  lemma CommitBeyond(ev: Ev, m: Machine, d: nat, x: Qword, y: Qword, j: nat)
    requires Wf(m) && d < 32 && ev.aaa < 8 && j < 8 && 2 * j >= Dwords(ev.ll)
    ensures CommitQ(ev, m, d, x, j) == CommitQ(ev, m, d, y, j)
  {
  }

  /** A rewriting begins: the instruction's registers, its destination. */
  method Start(ev: Ev, src: Source, ghost m0: Machine) returns (em: Em)
    requires Wf(m0) && ev.Ok()
    ensures fresh(em) && em.Valid() && em.m0 == m0 && em.m == m0 && !em.flOut
    ensures em.b == Book(Vecs(ev, src), em.b.kscr, [], false, false, false, false, {ev.reg}, {}, false)
    ensures em.b.kscr != ev.aaa
  {
    var masks := {ev.aaa};
    assert 1 !in masks || 2 !in masks;
    em := new Em(Vecs(ev, src), masks, {ev.reg}, {}, m0);
  }

  /** The registers of a compare: its destination is a mask. */
  method StartMask(ev: Ev, src: Source, kd: nat, ghost m0: Machine) returns (em: Em)
    requires Wf(m0) && ev.Fits() && kd < 8
    ensures fresh(em) && em.Valid() && em.m0 == m0 && em.m == m0 && !em.flOut && em.b.kscr != ev.aaa && em.b.kscr != kd
    ensures em.b == Book(em.b.vecs, em.b.kscr, [], false, false, false, false, {}, {kd}, false) && ev.vvvv in em.b.vecs
    ensures src.InReg? ==> ev.rm in em.b.vecs
  {
    var masks := {kd, ev.aaa};
    assert 1 !in masks || 2 !in masks || 3 !in masks;
    em := new Em({ev.vvvv} + (if src.InReg? then {ev.rm} else {}), masks, {}, {kd}, m0);
  }

  /** A rewriting ends: the result in `r` committed, everything restored. */
  method CloseLanes(em: Em, ev: Ev, r: nat) returns (thunk: seq<Op>)
    requires em.Valid() && ev.Ok() && em.b.zOut == {ev.reg} && em.b.kOut == {} && em.b.kscr != ev.aaa && r < 32
    requires !em.flOut && ev.reg !in em.b.temps && em.m.mem == em.m0.mem
    requires em.m.z[ev.reg] == em.m0.z[ev.reg] || (ev.ll == 2 && ev.aaa == 0)
    modifies em`ops, em`m, em`b
    ensures OpsOk(thunk)
    ensures var n, m0 := Run(thunk, em.m0), em.m0;
            && Transparent({ev.reg}, {}, m0, n) && n.mem == m0.mem
            && forall l :: 0 <= l < 16 ==> n.z[ev.reg][l] == CommitLane(ev, m0, ev.reg, old(em.m).z[r][l], l)
  {
    hide Run;
    assert em.m.k[ev.aaa] == em.m0.k[ev.aaa];
    hide Keeps;
    Commit(em, ev.reg, r, ev);
    thunk := em.Finish();
  }

  /** The same for a qword instruction. */
  method Close(em: Em, ev: Ev, r: nat) returns (thunk: seq<Op>)
    requires em.Valid() && ev.Ok() && em.b.zOut == {ev.reg} && em.b.kOut == {} && em.b.kscr != ev.aaa && r < 32
    requires !em.flOut && ev.reg !in em.b.temps && em.m.mem == em.m0.mem && em.m.z[ev.reg] == em.m0.z[ev.reg]
    modifies em`ops, em`m, em`b
    ensures OpsOk(thunk)
    ensures var n, m0 := Run(thunk, em.m0), em.m0;
            && Transparent({ev.reg}, {}, m0, n) && n.mem == m0.mem
            && forall j :: 0 <= j < 8 ==> Qw(n.z[ev.reg], j) == CommitQ(ev, m0, ev.reg, Qw(old(em.m).z[r], j), j)
  {
    hide Run, Keeps, Qw, CommitLane;
    ghost var v := em.m.z[r];
    thunk := CloseLanes(em, ev.(w := 1), r);
    ghost var n, m0 := Run(thunk, em.m0), em.m0;
    forall j | 0 <= j < 8 ensures Qw(n.z[ev.reg], j) == CommitQ(ev, m0, ev.reg, Qw(v, j), j) {
      CommitQIs(ev, m0, ev.reg, v, n.z[ev.reg], j);
    }
  }
}
