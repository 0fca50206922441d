/** The emitter of a thunk: what a sequence clobbers is saved in the scratch
    area on first use and restored at the end. */
module Emitter {
  import opened Common
  import opened Lanes
  import opened Shifts
  import opened Masks
  import opened Card

  const SLOTS := 6

  /** What the emitter knows: the instruction's vector registers, the scratch
      mask register, what it has saved, and the results it may leave. */
  datatype Book = Book(
    vecs: set<nat>, kscr: nat, temps: seq<nat>, kUsed: bool, raxUsed: bool, rcxUsed: bool, flagsUsed: bool,
    zOut: set<nat>, kOut: set<nat>, flOut: bool)
  {
    /** The scratch registers are the instruction's own to use. */
    ghost predicate Sound() {
      && 1 <= kscr < 8 && kscr !in kOut && zOut <= vecs && |vecs| <= 4
      && |temps| <= SLOTS
      && (forall i :: 0 <= i < |temps| ==> temps[i] < 32 && temps[i] !in vecs)
      && (forall i, j :: 0 <= i < j < |temps| ==> temps[i] != temps[j])
      && (kUsed || flagsUsed ==> raxUsed)
    }

    /** An instruction that clobbers nothing unsaved. */
    ghost predicate Allows(op: Op) {
      && OpOk(op)
      && (forall r :: 0 <= r < 32 && WritesZ(op, r) ==> r in zOut || r in temps)
      && (forall k :: 0 <= k < 8 && WritesK(op, k) ==> k in kOut || (k == kscr && kUsed))
      && (forall r :: 0 <= r < 16 && WritesG(op, r) ==> (r == 0 && raxUsed) || (r == 1 && rcxUsed))
      && (WritesFlags(op) ==> flagsUsed || flOut)
      && !op.Spill? && (op.Save? ==> op.c.XferCell? || op.c.Xfer8Cell?)
    }
  }

  /** A call on the emitter: something saved on first use, a temporary, or
      an instruction. */
  datatype Call = UseRax | UseRcx | UseK | UseFlags | NewTemp(z: nat) | Put(op: Op)

  ghost predicate Legal(b: Book, c: Call) {
    match c
    case NewTemp(z) => |b.temps| < SLOTS && z < 32 && z !in b.vecs && z !in b.temps
    case Put(op) => b.Allows(op)
    case _ => true
  }

  function SaveRax(b: Book): seq<Op> {
    if b.raxUsed then [] else [Save(0, RaxCell, true)]
  }

  /** What a call appends to the sequence. */
  function Emitted(b: Book, c: Call): seq<Op> {
    match c
    case UseRax => SaveRax(b)
    case UseRcx => if b.rcxUsed then [] else [Save(1, RcxCell, true)]
    case UseK => if b.kUsed then [] else SaveRax(b) + [KMovRK(0, b.kscr), Save(0, KCell, true)]
    case UseFlags => if b.flagsUsed then [] else SaveRax(b) + [Lahf, SetoAl, Save(0, FlagsCell, true)]
    case NewTemp(z) => [Spill(z, |b.temps|)]
    case Put(op) => [op]
  }

  function After(b: Book, c: Call): Book {
    match c
    case UseRax => b.(raxUsed := true)
    case UseRcx => b.(rcxUsed := true)
    case UseK => if b.kUsed then b else b.(raxUsed := true, kUsed := true)
    case UseFlags => if b.flagsUsed then b else b.(raxUsed := true, flagsUsed := true)
    case NewTemp(z) => b.(temps := b.temps + [z])
    case Put(_) => b
  }

  /** The temporaries' restores, the latest first. */
  function Fills(temps: seq<nat>, n: nat): seq<Op>
    requires n <= |temps|
  {
    if n == 0 then [] else [Fill(temps[n - 1], n - 1)] + Fills(temps, n - 1)
  }

  function RestoreFl(b: Book): seq<Op> {
    if b.flagsUsed then [Restore(0, FlagsCell, true), AddAl127, Sahf] else []
  }

  function RestoreMask(b: Book): seq<Op> {
    if b.kUsed then [Restore(0, KCell, true), KMovKR(b.kscr, 0)] else []
  }

  function RestoreRcx(b: Book): seq<Op> {
    if b.rcxUsed then [Restore(1, RcxCell, true)] else []
  }

  function RestoreRax(b: Book): seq<Op> {
    if b.raxUsed then [Restore(0, RaxCell, true)] else []
  }

  function RestoreFlagsK(b: Book): seq<Op> {
    RestoreFl(b) + RestoreMask(b)
  }

  function RestoreScalars(b: Book): seq<Op> {
    RestoreRcx(b) + RestoreRax(b)
  }

  /** What `finish` appends. */
  function Restores(b: Book): seq<Op> {
    Fills(b.temps, |b.temps|) + (RestoreFlagsK(b) + RestoreScalars(b))
  }

  // ---- what holds between calls ----

  /** The flags as `lahf` and `seto` leave them in a register. */
  predicate HoldsFlags(r: Reg, f: Flags) {
    && r[0] == f.of && !r[1] && !r[2] && !r[3] && !r[4] && !r[5] && !r[6] && !r[7]
    && r[8] == f.cf && r[10] == f.pf && r[12] == f.af && r[14] == f.zf && r[15] == f.sf
  }

  ghost predicate KeepsVectors(b: Book, m0: Machine, m: Machine)
    requires Wf(m0) && Wf(m) && b.Sound()
  {
    && (forall r :: 0 <= r < 32 && r !in b.zOut && r !in b.temps ==> m.z[r] == m0.z[r])
    && (forall i :: 0 <= i < |b.temps| ==> m.s.zs[i] == m0.z[b.temps[i]])
  }

  ghost predicate KeepsMasks(b: Book, m0: Machine, m: Machine)
    requires Wf(m0) && Wf(m) && b.Sound()
  {
    && (forall k :: 0 <= k < 8 && k !in b.kOut && k != b.kscr ==> m.k[k] == m0.k[k])
    && (if b.kUsed then m.s.k == Widen(m0.k[b.kscr]) else m.k[b.kscr] == m0.k[b.kscr])
  }

  ghost predicate KeepsScalars(b: Book, m0: Machine, m: Machine)
    requires Wf(m0) && Wf(m)
  {
    && (forall r :: 2 <= r < 16 ==> m.gpr[r] == m0.gpr[r])
    && (if b.raxUsed then m.s.rax == m0.gpr[0] else m.gpr[0] == m0.gpr[0])
    && (if b.rcxUsed then m.s.rcx == m0.gpr[1] else m.gpr[1] == m0.gpr[1])
    && (b.flOut || if b.flagsUsed then HoldsFlags(m.s.flags, m0.fl) else m.fl == m0.fl)
  }

  /** Everything but the declared results is where it was at entry, or in
      the scratch area. */
  ghost predicate Keeps(b: Book, m0: Machine, m: Machine)
    requires Wf(m0) && Wf(m) && b.Sound()
  {
    && KeepsVectors(b, m0, m) && KeepsMasks(b, m0, m) && KeepsScalars(b, m0, m)
    && m.fx == m0.fx && m.rel == m0.rel
  }

  /** Nothing but the declared results and memory differs from the entry state. */
  ghost predicate Transparent(zOut: set<nat>, kOut: set<nat>, m0: Machine, m: Machine)
    requires Wf(m0) && Wf(m)
  {
    && (forall r :: 0 <= r < 32 && r !in zOut ==> m.z[r] == m0.z[r])
    && (forall k :: 0 <= k < 8 && k !in kOut ==> m.k[k] == m0.k[k])
    && m.gpr == m0.gpr && m.fl == m0.fl
  }

  /** The same, for a sequence that may itself define the flags. */
  ghost predicate GivenBack(b: Book, m0: Machine, m: Machine)
    requires Wf(m0) && Wf(m)
  {
    Transparent(b.zOut, b.kOut, m0, if b.flOut then m.(fl := m0.fl) else m)
  }

  /** The declared results and memory are the same. */
  ghost predicate SameResults(b: Book, m: Machine, n: Machine)
    requires Wf(m) && Wf(n)
  {
    && (forall r :: 0 <= r < 32 && r in b.zOut ==> n.z[r] == m.z[r])
    && (forall k :: 0 <= k < 8 && k in b.kOut ==> n.k[k] == m.k[k])
    && n.mem == m.mem
  }

  // ---- running sequences ----

  lemma {:induction false} RunAppend(a: seq<Op>, c: seq<Op>, m: Machine)
    requires Wf(m) && OpsOk(a) && OpsOk(c)
    ensures OpsOk(a + c) && Run(a + c, m) == Run(c, Run(a, m))
  {
    hide Exec, OpOk;
    if c == [] {
      assert a + c == a;
    } else {
      var d := c[..|c| - 1];
      RunAppend(a, d, m);
      assert (a + c)[..|a + c| - 1] == a + d;
    }
  }

  lemma RunOne(op: Op, m: Machine)
    requires Wf(m) && OpOk(op)
    ensures OpsOk([op]) && Run([op], m) == Exec(op, m)
  {
    hide Exec, OpOk;
    assert Run([], m) == m;
    assert [op][..0] == [];
  }

  lemma RunTwo(o: Op, p: Op, m: Machine)
    requires Wf(m) && OpOk(o) && OpOk(p)
    ensures OpsOk([o, p]) && Run([o, p], m) == Exec(p, Exec(o, m))
  {
    hide Exec, OpOk, Run;
    RunOne(o, m);
    RunOne(p, Exec(o, m));
    RunAppend([o], [p], m);
    assert [o] + [p] == [o, p];
  }

  // ---- every call keeps it ----

  /** A step that changes no more than an allowed instruction. */
  lemma FrameKeeps(b: Book, m0: Machine, m: Machine, n: Machine, op: Op)
    requires Wf(m0) && Wf(m) && Wf(n) && b.Sound() && Keeps(b, m0, m) && b.Allows(op) && Framed(op, m, n)
    ensures Keeps(b, m0, n)
  {
    hide WritesZ, WritesK, WritesG, WritesFlags, WritesMem, OpOk, Widen, HoldsFlags;
    assert n.s.Get(KCell) == m.s.Get(KCell) && n.s.Get(RaxCell) == m.s.Get(RaxCell);
    assert n.s.Get(RcxCell) == m.s.Get(RcxCell) && n.s.Get(FlagsCell) == m.s.Get(FlagsCell);
    assert KeepsVectors(b, m0, n);
    assert KeepsMasks(b, m0, n);
  }

  lemma SaveIs(m: Machine, r: nat, c: Cell)
    requires Wf(m) && r < 16
    ensures Exec(Save(r, c, true), m) == m.(s := m.s.Set(c, m.gpr[r]))
  {
  }

  lemma LoadIs(m: Machine, r: nat, c: Cell, wide: bool)
    requires Wf(m) && r < 16
    ensures Exec(Restore(r, c, wide), m) == m.(gpr := m.gpr[r := if wide then m.s.Get(c) else Low32(m.s.Get(c))])
  {
  }

  /** A vector register to its slot and back. */
  lemma SlotIs(m: Machine, z: nat, slot: nat)
    requires Wf(m) && z < 32 && slot < 6
    ensures Exec(Spill(z, slot), m) == m.(s := m.s.(zs := m.s.zs[slot := m.z[z]]))
    ensures Exec(Fill(z, slot), m) == m.(z := m.z[z := m.s.zs[slot]])
  {
  }

  lemma AddSahf(m: Machine)
    requires Wf(m)
    ensures var a := AddAl(m.gpr[0]);
            Exec(Sahf, Exec(AddAl127, m)) == m.(gpr := m.gpr[0 := a.0], fl := StoreAh(a.0, a.1))
  {
    hide AddAl, StoreAh;
  }

  lemma SahfIs(m: Machine)
    requires Wf(m)
    ensures Exec(Sahf, m) == m.(fl := StoreAh(m.gpr[0], m.fl))
  {
  }

  lemma RestoreGpr(m: Machine, r: nat, c: Cell)
    requires Wf(m) && r < 16
    ensures OpsOk([Restore(r, c, true)])
    ensures Run([Restore(r, c, true)], m) == m.(gpr := m.gpr[r := m.s.Get(c)])
  {
    hide Run, Exec;
    LoadIs(m, r, c, true);
    RunOne(Restore(r, c, true), m);
  }

  lemma KeepsRax(b: Book, m0: Machine, m: Machine)
    requires Wf(m0) && Wf(m) && b.Sound() && Keeps(b, m0, m)
    ensures OpsOk(Emitted(b, UseRax)) && Keeps(After(b, UseRax), m0, Run(Emitted(b, UseRax), m))
    ensures var n := Run(Emitted(b, UseRax), m);
            n == m.(s := m.s.(rax := n.s.rax))
  {
    hide Exec, Widen, HoldsFlags;
    if !b.raxUsed {
      SaveIs(m, 0, RaxCell);
      RunOne(Save(0, RaxCell, true), m);
    }
  }

  lemma KeepsRcx(b: Book, m0: Machine, m: Machine)
    requires Wf(m0) && Wf(m) && b.Sound() && Keeps(b, m0, m)
    ensures OpsOk(Emitted(b, UseRcx)) && Keeps(After(b, UseRcx), m0, Run(Emitted(b, UseRcx), m))
    ensures var n := Run(Emitted(b, UseRcx), m);
            n == m.(s := m.s.(rcx := n.s.rcx))
  {
    hide Exec, Widen, HoldsFlags;
    if !b.rcxUsed {
      SaveIs(m, 1, RcxCell);
      RunOne(Save(1, RcxCell, true), m);
    }
  }

  /** Only rax and the scratch area changed. */
  ghost predicate RaxOnly(m: Machine, n: Machine)
    requires Wf(m) && Wf(n)
  {
    n == m.(gpr := m.gpr[0 := n.gpr[0]], s := n.s) && n.s.xfer == m.s.xfer && n.s.xfer8 == m.s.xfer8
  }

  lemma KMovSave(m: Machine, k: nat)
    requires Wf(m) && k < 8
    ensures OpsOk([KMovRK(0, k), Save(0, KCell, true)])
    ensures Run([KMovRK(0, k), Save(0, KCell, true)], m)
            == m.(gpr := m.gpr[0 := Widen(m.k[k])], s := m.s.(k := Widen(m.k[k])))
  {
    hide Run, Widen;
    RunTwo(KMovRK(0, k), Save(0, KCell, true), m);
  }

  lemma KeepsKSaved(b: Book, m0: Machine, m: Machine, n: Machine)
    requires Wf(m0) && Wf(m) && b.Sound() && Keeps(b, m0, m) && b.raxUsed && !b.kUsed
    requires n == m.(gpr := m.gpr[0 := Widen(m.k[b.kscr])], s := m.s.(k := Widen(m.k[b.kscr])))
    ensures Keeps(b.(kUsed := true), m0, n)
  {
    hide Widen, HoldsFlags;
  }

  lemma KeepsK(b: Book, m0: Machine, m: Machine)
    requires Wf(m0) && Wf(m) && b.Sound() && Keeps(b, m0, m)
    ensures OpsOk(Emitted(b, UseK)) && Keeps(After(b, UseK), m0, Run(Emitted(b, UseK), m))
    ensures RaxOnly(m, Run(Emitted(b, UseK), m)) && (b.kUsed ==> Run(Emitted(b, UseK), m) == m)
  {
    hide Run, Exec, Widen, KeepsVectors, KeepsMasks, KeepsScalars;
    if !b.kUsed {
      KeepsRax(b, m0, m);
      var s := Run(Emitted(b, UseRax), m);
      KMovSave(s, b.kscr);
      RunAppend(Emitted(b, UseRax), [KMovRK(0, b.kscr), Save(0, KCell, true)], m);
      KeepsKSaved(b.(raxUsed := true), m0, s, Run(Emitted(b, UseK), m));
    } else {
      RunNone(m);
    }
  }

  lemma RunNone(m: Machine)
    requires Wf(m)
    ensures Run([], m) == m
  {
  }

  lemma FlagsTaken(m: Machine)
    requires Wf(m)
    ensures Exec(SetoAl, Exec(Lahf, m)) == m.(gpr := m.gpr[0 := SetAl(LoadAh(m.gpr[0], m.fl), m.fl.of)])
  {
    hide LoadAh, SetAl;
  }

  lemma FlagsSaved(m: Machine)
    requires Wf(m)
    ensures OpsOk([Lahf, SetoAl, Save(0, FlagsCell, true)])
    ensures var x := SetAl(LoadAh(m.gpr[0], m.fl), m.fl.of);
            && HoldsFlags(x, m.fl)
            && Run([Lahf, SetoAl, Save(0, FlagsCell, true)], m) == m.(gpr := m.gpr[0 := x], s := m.s.(flags := x))
  {
    hide Run, LoadAh, SetAl, HoldsFlags, Exec;
    HeldFlags(m.gpr[0], m.fl);
    RunTwo(Lahf, SetoAl, m);
    FlagsTaken(m);
    var m1 := Run([Lahf, SetoAl], m);
    SaveIs(m1, 0, FlagsCell);
    RunOne(Save(0, FlagsCell, true), m1);
    RunAppend([Lahf, SetoAl], [Save(0, FlagsCell, true)], m);
    assert [Lahf, SetoAl] + [Save(0, FlagsCell, true)] == [Lahf, SetoAl, Save(0, FlagsCell, true)];
  }

  lemma HeldFlags(r: Reg, f: Flags)
    ensures HoldsFlags(SetAl(LoadAh(r, f), f.of), f)
  {
  }

  lemma KeepsFlagsSaved(b: Book, m0: Machine, m: Machine, n: Machine, x: Reg)
    requires Wf(m0) && Wf(m) && b.Sound() && Keeps(b, m0, m) && b.raxUsed && !b.flagsUsed && HoldsFlags(x, m.fl)
    requires n == m.(gpr := m.gpr[0 := x], s := m.s.(flags := x))
    ensures Keeps(b.(flagsUsed := true), m0, n)
  {
    hide Widen, HoldsFlags;
  }

  lemma KeepsFlags(b: Book, m0: Machine, m: Machine)
    requires Wf(m0) && Wf(m) && b.Sound() && Keeps(b, m0, m)
    ensures OpsOk(Emitted(b, UseFlags)) && Keeps(After(b, UseFlags), m0, Run(Emitted(b, UseFlags), m))
    ensures RaxOnly(m, Run(Emitted(b, UseFlags), m)) && (b.flagsUsed ==> Run(Emitted(b, UseFlags), m) == m)
  {
    hide Run, Exec, Widen, KeepsVectors, KeepsMasks, KeepsScalars, HoldsFlags, LoadAh, SetAl;
    if !b.flagsUsed {
      KeepsRax(b, m0, m);
      var s := Run(Emitted(b, UseRax), m);
      FlagsSaved(s);
      RunAppend(Emitted(b, UseRax), [Lahf, SetoAl, Save(0, FlagsCell, true)], m);
      KeepsFlagsSaved(b.(raxUsed := true), m0, s, Run(Emitted(b, UseFlags), m), SetAl(LoadAh(s.gpr[0], s.fl), s.fl.of));
    } else {
      RunNone(m);
    }
  }

  lemma KeepsTemp(b: Book, m0: Machine, m: Machine, z: nat)
    requires Wf(m0) && Wf(m) && b.Sound() && Keeps(b, m0, m) && Legal(b, NewTemp(z))
    ensures After(b, NewTemp(z)).Sound() && OpsOk(Emitted(b, NewTemp(z)))
    ensures Keeps(After(b, NewTemp(z)), m0, Run(Emitted(b, NewTemp(z)), m))
    ensures var n := Run(Emitted(b, NewTemp(z)), m);
            n == m.(s := m.s.(zs := n.s.zs))
  {
    hide Widen, HoldsFlags, Run, Exec, KeepsMasks, KeepsScalars;
    RunOne(Spill(z, |b.temps|), m);
    SlotIs(m, z, |b.temps|);
    assert m.z[z] == m0.z[z];
    TempRest(b, m0, m, Run(Emitted(b, NewTemp(z)), m), z);
  }

  /** A spill is nothing to the masks and the scalars. */
  lemma TempRest(b: Book, m0: Machine, m: Machine, n: Machine, z: nat)
    requires Wf(m0) && Wf(m) && Wf(n) && b.Sound() && Keeps(b, m0, m) && Legal(b, NewTemp(z))
    requires n == m.(s := m.s.(zs := n.s.zs))
    ensures var c := After(b, NewTemp(z)); c.Sound() && KeepsMasks(c, m0, n) && KeepsScalars(c, m0, n)
  {
    hide Widen, HoldsFlags;
  }

  /** Every legal call keeps what it does not save. */
  lemma KeepsCall(b: Book, m0: Machine, m: Machine, c: Call)
    requires Wf(m0) && Wf(m) && b.Sound() && Keeps(b, m0, m) && Legal(b, c)
    ensures After(b, c).Sound() && OpsOk(Emitted(b, c)) && Keeps(After(b, c), m0, Run(Emitted(b, c), m))
    ensures After(b, c).flOut == b.flOut
  {
    hide Run, Exec, Keeps, OpOk, Framed;
    match c
    case UseRax => KeepsRax(b, m0, m);
    case UseRcx => KeepsRcx(b, m0, m);
    case UseK => KeepsK(b, m0, m);
    case UseFlags => KeepsFlags(b, m0, m);
    case NewTemp(z) => KeepsTemp(b, m0, m, z);
    case Put(op) =>
      ExecFrame(op, m);
      FrameKeeps(b, m0, m, Exec(op, m), op);
      RunOne(op, m);
  }

  // ---- the restores ----

  lemma {:induction false} FillsRestore(temps: seq<nat>, n: nat, m: Machine)
    requires Wf(m) && n <= |temps| <= SLOTS
    requires forall i :: 0 <= i < |temps| ==> temps[i] < 32
    requires forall i, j :: 0 <= i < j < |temps| ==> temps[i] != temps[j]
    ensures OpsOk(Fills(temps, n))
    ensures var r := Run(Fills(temps, n), m);
            && r == m.(z := r.z)
            && (forall i :: 0 <= i < n ==> r.z[temps[i]] == m.s.zs[i])
            && (forall z :: 0 <= z < 32 && z !in temps[..n] ==> r.z[z] == m.z[z])
  {
    hide Run, Exec;
    if n == 0 {
      RunNone(m);
    } else {
      var op := Fill(temps[n - 1], n - 1);
      SlotIs(m, temps[n - 1], n - 1);
      RunOne(op, m);
      var m1 := Exec(op, m);
      FillsRestore(temps, n - 1, m1);
      RunAppend([op], Fills(temps, n - 1), m);
      var r := Run(Fills(temps, n), m);
      assert temps[n - 1] !in temps[..n - 1];
      assert r.z[temps[n - 1]] == m1.z[temps[n - 1]];
      assert forall z :: z in temps[..n - 1] ==> z in temps[..n];
      assert temps[n - 1] in temps[..n];
    }
  }

  lemma FlagsBack(r: Reg, f: Flags)
    requires HoldsFlags(r, f)
    ensures StoreAh(AddAl(r).0, AddAl(r).1) == f
  {
  }

  lemma RestoreFlags(m: Machine)
    requires Wf(m)
    ensures OpsOk([Restore(0, FlagsCell, true), AddAl127, Sahf])
    ensures var n, a := Run([Restore(0, FlagsCell, true), AddAl127, Sahf], m), AddAl(m.s.flags);
            n == m.(gpr := m.gpr[0 := a.0], fl := StoreAh(a.0, a.1))
  {
    hide Run, AddAl, StoreAh, Exec;
    RestoreGpr(m, 0, FlagsCell);
    var m1 := Run([Restore(0, FlagsCell, true)], m);
    RunTwo(AddAl127, Sahf, m1);
    AddSahf(m1);
    RunAppend([Restore(0, FlagsCell, true)], [AddAl127, Sahf], m);
    assert [Restore(0, FlagsCell, true)] + [AddAl127, Sahf] == [Restore(0, FlagsCell, true), AddAl127, Sahf];
  }

  lemma RestoreK(m: Machine, k: nat, v: Mask)
    requires Wf(m) && k < 8 && m.s.k == Widen(v)
    ensures OpsOk([Restore(0, KCell, true), KMovKR(k, 0)])
    ensures var n := Run([Restore(0, KCell, true), KMovKR(k, 0)], m);
            n == m.(gpr := m.gpr[0 := n.gpr[0]], k := m.k[k := v])
  {
    NarrowWiden(v);
    hide Run, Widen, Narrow;
    RunTwo(Restore(0, KCell, true), KMovKR(k, 0), m);
  }

  /** What the four parts behind the temporaries' restores do. */
  lemma RestoreRest(b: Book, m0: Machine, m: Machine)
    requires Wf(m0) && Wf(m) && b.Sound() && KeepsMasks(b, m0, m) && KeepsScalars(b, m0, m)
    ensures OpsOk(RestoreFlagsK(b) + RestoreScalars(b))
    ensures var n := Run(RestoreFlagsK(b) + RestoreScalars(b), m);
            && n == m.(k := n.k, gpr := m0.gpr, fl := n.fl) && (b.flOut || n.fl == m0.fl)
            && (forall k :: 0 <= k < 8 && k !in b.kOut ==> n.k[k] == m0.k[k])
            && (forall k :: 0 <= k < 8 && k in b.kOut ==> n.k[k] == m.k[k])
  {
    hide Run, Exec, Widen, HoldsFlags, OpOk;
    RestoreFlagsMask(b, m0, m);
    var m1 := Run(RestoreFlagsK(b), m);
    if b.rcxUsed { RestoreGpr(m1, 1, RcxCell); } else { RunNone(m1); }
    var m2 := Run(RestoreRcx(b), m1);
    if b.raxUsed { RestoreGpr(m2, 0, RaxCell); } else { RunNone(m2); }
    RunAppend(RestoreRcx(b), RestoreRax(b), m1);
    RunAppend(RestoreFlagsK(b), RestoreScalars(b), m);
    assert Run(RestoreRax(b), m2).gpr == m0.gpr;
  }

  lemma FlagsPart(b: Book, m0: Machine, m: Machine)
    requires Wf(m0) && Wf(m) && b.flagsUsed && KeepsScalars(b, m0, m)
    ensures OpsOk(RestoreFl(b))
    ensures var n := Run(RestoreFl(b), m);
            n == m.(gpr := m.gpr[0 := n.gpr[0]], fl := n.fl) && (b.flOut || n.fl == m0.fl)
  {
    hide Run, HoldsFlags, AddAl, StoreAh;
    RestoreFlags(m);
    if !b.flOut { FlagsBack(m.s.flags, m0.fl); }
  }

  lemma RestoreFlagsMask(b: Book, m0: Machine, m: Machine)
    requires Wf(m0) && Wf(m) && b.Sound() && KeepsMasks(b, m0, m) && KeepsScalars(b, m0, m)
    ensures OpsOk(RestoreFlagsK(b))
    ensures var n := Run(RestoreFlagsK(b), m);
            && n == m.(k := n.k, gpr := m.gpr[0 := n.gpr[0]], fl := n.fl) && (b.flOut || n.fl == m0.fl)
            && (!b.raxUsed ==> n.gpr == m.gpr)
            && (forall k :: 0 <= k < 8 && k !in b.kOut ==> n.k[k] == m0.k[k])
            && (forall k :: 0 <= k < 8 && k in b.kOut ==> n.k[k] == m.k[k])
  {
    hide Run, Exec, Widen, HoldsFlags, OpOk;
    var g, h := RestoreFl(b), RestoreMask(b);
    if b.flagsUsed { FlagsPart(b, m0, m); } else { RunNone(m); }
    var m1 := Run(g, m);
    if b.kUsed { RestoreK(m1, b.kscr, m0.k[b.kscr]); } else { RunNone(m1); }
    RunAppend(g, h, m);
  }

  /** The restores give back everything but the results, and leave those. */
  lemma RestoresTransparent(b: Book, m0: Machine, m: Machine)
    requires Wf(m0) && Wf(m) && b.Sound() && Keeps(b, m0, m)
    ensures OpsOk(Restores(b)) && GivenBack(b, m0, Run(Restores(b), m))
    ensures SameResults(b, m, Run(Restores(b), m)) && Run(Restores(b), m).s == m.s
    ensures b.raxUsed ==> m.s.rax == m0.gpr[0]
  {
    hide Run, Exec, Fills, Widen, HoldsFlags, OpOk, RestoreFlagsK, RestoreScalars;
    FillsRestore(b.temps, |b.temps|, m);
    assert b.temps[..|b.temps|] == b.temps;
    var m1 := Run(Fills(b.temps, |b.temps|), m);
    RestoredVectors(b, m0, m, m1);
    RestoreRest(b, m0, m1);
    RunAppend(Fills(b.temps, |b.temps|), RestoreFlagsK(b) + RestoreScalars(b), m);
  }

  lemma RestoredVectors(b: Book, m0: Machine, m: Machine, n: Machine)
    requires Wf(m0) && Wf(m) && Wf(n) && b.Sound() && KeepsVectors(b, m0, m)
    requires forall i :: 0 <= i < |b.temps| ==> n.z[b.temps[i]] == m.s.zs[i]
    requires forall z :: 0 <= z < 32 && z !in b.temps ==> n.z[z] == m.z[z]
    ensures forall r :: 0 <= r < 32 && r !in b.zOut ==> n.z[r] == m0.z[r]
    ensures forall r :: 0 <= r < 32 && r in b.zOut ==> n.z[r] == m.z[r]
  {
    forall r | 0 <= r < 32 && r !in b.zOut
      ensures n.z[r] == m0.z[r]
    {
      if r in b.temps {
        var i :| 0 <= i < |b.temps| && b.temps[i] == r;
        assert n.z[b.temps[i]] == m.s.zs[i];
      }
    }
  }

  // ---- whole sequences of calls ----

  ghost predicate AllLegal(b: Book, calls: seq<Call>)
    decreases |calls|
  {
    calls == [] || (Legal(b, calls[0]) && AllLegal(After(b, calls[0]), calls[1..]))
  }

  ghost function BookAfter(b: Book, calls: seq<Call>): Book
    decreases |calls|
  {
    if calls == [] then b else BookAfter(After(b, calls[0]), calls[1..])
  }

  ghost function Sequence(b: Book, calls: seq<Call>): seq<Op>
    decreases |calls|
  {
    if calls == [] then [] else Emitted(b, calls[0]) + Sequence(After(b, calls[0]), calls[1..])
  }

  lemma {:induction false} KeepsCalls(b: Book, m0: Machine, m: Machine, calls: seq<Call>)
    requires Wf(m0) && Wf(m) && b.Sound() && Keeps(b, m0, m) && AllLegal(b, calls)
    ensures BookAfter(b, calls).Sound() && OpsOk(Sequence(b, calls))
    ensures Keeps(BookAfter(b, calls), m0, Run(Sequence(b, calls), m))
    ensures BookAfter(b, calls).zOut == b.zOut && BookAfter(b, calls).kOut == b.kOut
    ensures BookAfter(b, calls).flOut == b.flOut
    decreases |calls|
  {
    hide Run, Keeps, Legal, Emitted, OpOk;
    if calls == [] {
      RunNone(m);
    } else {
      var b1, e := After(b, calls[0]), Emitted(b, calls[0]);
      KeepsCall(b, m0, m, calls[0]);
      KeepsCalls(b1, m0, Run(e, m), calls[1..]);
      RunAppend(e, Sequence(b1, calls[1..]), m);
    }
  }

  lemma KeepsEntry(b: Book, m0: Machine)
    requires Wf(m0) && b.Sound() && b.temps == [] && !b.kUsed && !b.raxUsed && !b.rcxUsed && !b.flagsUsed
    ensures Keeps(b, m0, m0)
  {
  }

  // ---- results in general registers and in the flags ----

  /** A result for a general register: it waits in a cell until the saved
      registers are back. */
  datatype Load = Load(r: nat, c: Cell, wide: bool) {
    function Value(s: Scratch): Reg {
      if wide then s.Get(c) else Low32(s.Get(c))
    }
  }

  /** The registers produced, and the cell of the flags byte produced. */
  datatype Exit = Exit(tail: seq<Load>, flags: Option<Cell>) {
    ghost predicate Ok(b: Book) {
      && (forall i :: 0 <= i < |tail| ==> tail[i].r < 16)
      && (flags.Some? <==> b.flOut)
      && (flags.Some? ==> b.raxUsed && forall i :: 0 <= i < |tail| ==> tail[i].r != 0)
    }
  }

  function TailOps(tail: seq<Load>): seq<Op> {
    if tail == [] then []
    else var l := tail[|tail| - 1]; TailOps(tail[..|tail| - 1]) + [Restore(l.r, l.c, l.wide)]
  }

  /** A test clears OF, the byte goes through AH, and AH comes back from the
      saved rax. */
  function FlagsOps(c: Option<Cell>): seq<Op> {
    if c.None? then [] else [TestEax, AhFrom(c.value, false)] + [Sahf, AhFrom(RaxCell, true)]
  }

  /** Register `r` after the loads: the last one's value, or `v`. */
  function Loaded(tail: seq<Load>, v: Reg, s: Scratch, r: nat): Reg {
    if tail == [] then v
    else if tail[|tail| - 1].r == r then tail[|tail| - 1].Value(s)
    else Loaded(tail[..|tail| - 1], v, s, r)
  }

  /** The flags a byte in AH's layout stands for, OF clear. */
  function FlagsByte(r: Reg): Flags {
    Flags(r[0], r[2], r[4], r[6], r[7], false)
  }

  lemma {:induction false} TailLoads(tail: seq<Load>, m: Machine)
    requires Wf(m) && forall i :: 0 <= i < |tail| ==> tail[i].r < 16
    ensures OpsOk(TailOps(tail))
    ensures var n := Run(TailOps(tail), m);
            n == m.(gpr := n.gpr) && forall r :: 0 <= r < 16 ==> n.gpr[r] == Loaded(tail, m.gpr[r], m.s, r)
  {
    hide Run, Exec;
    if tail == [] {
      RunNone(m);
    } else {
      var t, l := tail[..|tail| - 1], tail[|tail| - 1];
      TailLoads(t, m);
      var op, n := Restore(l.r, l.c, l.wide), Run(TailOps(t), m);
      LoadIs(n, l.r, l.c, l.wide);
      RunOne(op, n);
      RunAppend(TailOps(t), [op], m);
    }
  }

  lemma FlagsLeft(m: Machine, c: Cell)
    requires Wf(m) && m.gpr[0] == m.s.rax
    ensures OpsOk(FlagsOps(Some(c)))
    ensures Run(FlagsOps(Some(c)), m) == m.(fl := FlagsByte(m.s.Get(c)))
  {
    hide Run, Exec, PutAh, StoreAh;
    var m1 := Exec(AhFrom(c, false), Exec(TestEax, m));
    RunTwo(TestEax, AhFrom(c, false), m);
    AhIs(m, c);
    RunTwo(Sahf, AhFrom(RaxCell, true), m1);
    SahfIs(m1);
    AhIs(Exec(Sahf, m1), c);
    RunAppend([TestEax, AhFrom(c, false)], [Sahf, AhFrom(RaxCell, true)], m);
    AhRound(m.gpr[0], m.s.Get(c), m1.fl);
    assert m.gpr[0 := m.gpr[0]] == m.gpr;
  }

  lemma AhIs(m: Machine, c: Cell)
    requires Wf(m)
    ensures var n := Exec(AhFrom(c, false), Exec(TestEax, m));
            n == m.(gpr := m.gpr[0 := PutAh(m.gpr[0], m.s.Get(c), 0)], fl := n.fl) && !n.fl.of
    ensures Exec(AhFrom(RaxCell, true), m) == m.(gpr := m.gpr[0 := PutAh(m.gpr[0], m.s.rax, 8)])
  {
    hide PutAh;
  }

  /** Out to the flags, and AH back. */
  lemma AhRound(r: Reg, v: Reg, f: Flags)
    requires !f.of
    ensures StoreAh(PutAh(r, v, 0), f) == FlagsByte(v) && PutAh(PutAh(r, v, 0), r, 8) == r
  {
    var p := PutAh(r, v, 0);
    assert p[8] == v[0] && p[10] == v[2] && p[12] == v[4] && p[14] == v[6] && p[15] == v[7];
    assert p[..8] == r[..8] && p[16..] == r[16..];
    assert r == r[..8] + r[8..16] + r[16..];
  }

  /** What a thunk leaves: its declared vector and mask results and memory as
      the sequence made them, the registers and flags it produces as the
      scratch area held them, all else as at entry. */
  ghost predicate Leaves(b: Book, x: Exit, m0: Machine, m: Machine, n: Machine)
    requires Wf(m0) && Wf(m) && Wf(n)
  {
    && Transparent(b.zOut, b.kOut, m0, n.(gpr := m0.gpr, fl := m0.fl)) && SameResults(b, m, n)
    && (forall r :: 0 <= r < 16 ==> n.gpr[r] == Loaded(x.tail, m0.gpr[r], m.s, r))
    && n.fl == if x.flags.Some? then FlagsByte(m.s.Get(x.flags.value)) else m0.fl
  }

  function Ending(b: Book, x: Exit): seq<Op> {
    Restores(b) + (TailOps(x.tail) + FlagsOps(x.flags))
  }

  lemma {:induction false} LoadedOther(tail: seq<Load>, v: Reg, s: Scratch, r: nat)
    requires forall i :: 0 <= i < |tail| ==> tail[i].r != r
    ensures Loaded(tail, v, s, r) == v
  {
    if tail != [] { LoadedOther(tail[..|tail| - 1], v, s, r); }
  }

  /** The whole of `finish`. */
  lemma EndingLeaves(b: Book, x: Exit, m0: Machine, m: Machine)
    requires Wf(m0) && Wf(m) && b.Sound() && Keeps(b, m0, m) && x.Ok(b)
    ensures OpsOk(Ending(b, x)) && Leaves(b, x, m0, m, Run(Ending(b, x), m))
  {
    hide Run, Exec, Restores, TailOps, Loaded, Keeps, FlagsByte;
    RestoresTransparent(b, m0, m);
    var n := Run(Restores(b), m);
    TailLoads(x.tail, n);
    var t := Run(TailOps(x.tail), n);
    if x.flags.Some? {
      LoadedOther(x.tail, n.gpr[0], n.s, 0);
      FlagsLeft(t, x.flags.value);
    } else {
      RunNone(t);
    }
    RunAppend(TailOps(x.tail), FlagsOps(x.flags), n);
    RunAppend(Restores(b), TailOps(x.tail) + FlagsOps(x.flags), m);
  }

  /** A thunk made by any sequence of legal calls, from a book with nothing
      saved, gives back every register, mask and flag but the results it
      declares, and leaves those. */
  lemma ThunkTransparent(b: Book, x: Exit, m0: Machine, calls: seq<Call>)
    requires Wf(m0) && b.Sound() && AllLegal(b, calls) && x.Ok(BookAfter(b, calls))
    requires b.temps == [] && !b.kUsed && !b.raxUsed && !b.rcxUsed && !b.flagsUsed
    ensures var e := BookAfter(b, calls);
            && OpsOk(Sequence(b, calls)) && OpsOk(Sequence(b, calls) + Ending(e, x))
            && Leaves(b, x, m0, Run(Sequence(b, calls), m0), Run(Sequence(b, calls) + Ending(e, x), m0))
  {
    hide Run, Keeps, AllLegal, BookAfter, Ending, Sequence;
    KeepsEntry(b, m0);
    KeepsCalls(b, m0, m0, calls);
    var e := BookAfter(b, calls);
    EndingLeaves(e, x, m0, Run(Sequence(b, calls), m0));
    RunAppend(Sequence(b, calls), Ending(e, x), m0);
  }

  // ---- the emitter ----

  /** Only `d`, the scratch mask register, rax and the scratch area's saves changed. */
  ghost predicate Touched(b: Book, d: nat, m: Machine, n: Machine)
    requires Wf(m) && Wf(n) && d < 32 && b.kscr < 8
  {
    && n == m.(z := m.z[d := n.z[d]], k := m.k[b.kscr := n.k[b.kscr]], gpr := m.gpr[0 := n.gpr[0]], s := n.s)
    && n.s.xfer == m.s.xfer && n.s.xfer8 == m.s.xfer8
  }

  lemma FreeExists(vecs: set<nat>, temps: seq<nat>)
    requires |vecs| <= 4 && |temps| <= SLOTS
    ensures exists z :: 0 <= z < 32 && z !in vecs && z !in temps
  {
    if forall z :: 0 <= z < 32 ==> z in vecs || z in temps {
      SeqSetSize(temps);
      Pigeons(32, vecs + set i | 0 <= i < |temps| :: temps[i]);
    }
  }

  lemma {:induction false} SeqSetSize(s: seq<nat>)
    ensures |(set i | 0 <= i < |s| :: s[i])| <= |s|
  {
    var t := set i | 0 <= i < |s| :: s[i];
    if s != [] {
      var n := |s| - 1;
      SeqSetSize(s[..n]);
      var u := set i | 0 <= i < n :: s[..n][i];
      assert t == u + {s[n]};
    }
  }

  lemma {:induction false} Pigeons(n: nat, s: set<nat>)
    requires forall z :: 0 <= z < n ==> z in s
    ensures |s| >= n
  {
    if n > 0 { Pigeons(n - 1, s - {n - 1}); }
  }

  function Zeros(): Vec {
    seq(16, _ => 0)
  }

  lemma {:induction false} XorSelf(x: nat, n: nat)
    ensures Bitwise(XorB, x, x, n) == 0
  {
    if n > 0 { XorSelf(x / 2, n - 1); }
  }

  lemma XorSelfLane(x: Lane)
    ensures LaneOp(XorB, x, x) == 0
  {
    hide Bitwise;
    XorSelf(x, 32);
  }

  /** `d` with the lanes of `mask` zeroed. */
  function Cleared(v: Vec, mask: Mask): Vec {
    seq(16, l requires 0 <= l < 16 => if mask[l] then 0 else v[l])
  }

  lemma JoinRun(m: Machine, kd: nat, k2: nat, s1: nat, s2: nat, pred: nat, k: nat, w: nat)
    requires Wf(m) && kd < 8 && k2 < 8 && k2 != kd && s1 < 32 && s2 < 32 && pred < 8 && k < 8 && w < 2
    ensures var four := [KMovRK(1, k2), FCmp(k2, s1, s2, pred, k, w)] + [KOr(kd, k2), KMovKR(k2, 1)];
            && OpsOk(four)
            && Run(four, m) == m.(k := m.k[kd := Or16(m.k[kd], FCmpMask(m, m.z[s1], m.z[s2], pred, k, w))],
                               gpr := m.gpr[1 := Widen(m.k[k2])])
  {
    hide Run, FCmpMask, Widen, Or16, Narrow, Exec;
    var o, p, q, r := KMovRK(1, k2), FCmp(k2, s1, s2, pred, k, w), KOr(kd, k2), KMovKR(k2, 1);
    RunTwo(o, p, m);
    var n := Run([o, p], m);
    RunTwo(q, r, n);
    RunAppend([o, p], [q, r], m);
    JoinFirst(m, k2, s1, s2, pred, k, w);
    JoinLast(n, kd, k2);
    JoinSame(m, n, Run([q, r], n), kd, k2, FCmpMask(m, m.z[s1], m.z[s2], pred, k, w));
  }

  lemma JoinSame(m: Machine, n: Machine, v: Machine, kd: nat, k2: nat, f: Mask)
    requires Wf(m) && Wf(n) && kd < 8 && k2 < 8 && k2 != kd
    requires n == m.(k := m.k[k2 := f], gpr := m.gpr[1 := Widen(m.k[k2])])
    requires v == n.(k := n.k[kd := Or16(n.k[kd], n.k[k2])][k2 := Narrow(n.gpr[1])])
    ensures v == m.(k := m.k[kd := Or16(m.k[kd], f)], gpr := m.gpr[1 := Widen(m.k[k2])])
  {
    hide Widen, Narrow, Or16;
    NarrowWiden(m.k[k2]);
    assert v.k == m.k[kd := Or16(m.k[kd], f)];
  }

  lemma JoinFirst(m: Machine, k2: nat, s1: nat, s2: nat, pred: nat, k: nat, w: nat)
    requires Wf(m) && k2 < 8 && s1 < 32 && s2 < 32 && pred < 8 && k < 8 && w < 2
    ensures Exec(FCmp(k2, s1, s2, pred, k, w), Exec(KMovRK(1, k2), m))
         == m.(k := m.k[k2 := FCmpMask(m, m.z[s1], m.z[s2], pred, k, w)], gpr := m.gpr[1 := Widen(m.k[k2])])
  {
    hide Widen;
    var n := Exec(KMovRK(1, k2), m);
    assert FCmpMask(n, m.z[s1], m.z[s2], pred, k, w) == FCmpMask(m, m.z[s1], m.z[s2], pred, k, w);
  }

  lemma JoinLast(m: Machine, kd: nat, k2: nat)
    requires Wf(m) && kd < 8 && k2 < 8 && k2 != kd
    ensures Exec(KMovKR(k2, 1), Exec(KOr(kd, k2), m))
            == m.(k := m.k[kd := Or16(m.k[kd], m.k[k2])][k2 := Narrow(m.gpr[1])])
  {
    hide Or16, Narrow;
  }

  lemma KeepsJoin(b: Book, m0: Machine, m: Machine, n: Machine, kd: nat)
    requires Wf(m0) && Wf(m) && Wf(n) && b.Sound() && Keeps(b, m0, m) && kd in b.kOut && kd < 8 && b.rcxUsed
    requires n == m.(k := m.k[kd := n.k[kd]], gpr := m.gpr[1 := n.gpr[1]])
    ensures Keeps(b, m0, n)
  {
    hide Widen, HoldsFlags;
  }

  class Em {
    var ops: seq<Op>
    var b: Book
    /** Any machine state at entry, and the state the sequence leads it to. */
    ghost const m0: Machine
    ghost var m: Machine
    /** The sequence defines the flags itself. */
    const flOut: bool

    ghost predicate Valid()
      reads this
    {
      && Wf(m0) && Wf(m) && OpsOk(ops) && m == Run(ops, m0) && b.Sound() && Keeps(b, m0, m) && b.flOut == flOut
    }

    /** The scratch mask register is the highest the instruction does not use. */
    constructor (vecs: set<nat>, masks: set<nat>, zOut: set<nat>, kOut: set<nat>,
                 ghost m0: Machine, flOut: bool := false)
      requires Wf(m0) && zOut <= vecs && |vecs| <= 4 && kOut <= masks
      requires exists k :: 1 <= k < 8 && k !in masks
      ensures Valid() && m == m0 && this.m0 == m0 && this.flOut == flOut
      ensures b.vecs == vecs && b.zOut == zOut && b.kOut == kOut && b.kscr !in masks
      ensures b.temps == [] && !b.kUsed && !b.raxUsed && !b.rcxUsed && !b.flagsUsed
    {
      var k := 7;
      while k in masks
        invariant 1 <= k <= 7 && forall i :: k < i <= 7 ==> i in masks
        decreases k
      {
        k := k - 1;
      }
      ops := [];
      b := Book(vecs, k, [], false, false, false, false, zOut, kOut, flOut);
      this.m0, this.flOut := m0, flOut;
      m := m0;
      new;
      KeepsEntry(b, m0);
      RunNone(m0);
    }

    /** One call: what it appends and what the book says after. */
    method Do(c: Call)
      requires Valid() && Legal(b, c)
      modifies this`ops, this`m, this`b
      ensures Valid() && b == After(old(b), c) && ops == old(ops) + Emitted(old(b), c)
      ensures OpsOk(Emitted(old(b), c)) && m == Run(Emitted(old(b), c), old(m))
    {
      hide Run, Keeps, Exec, Emitted, After, Legal;
      KeepsCall(b, m0, m, c);
      RunAppend(ops, Emitted(b, c), m0);
      ops := ops + Emitted(b, c);
      m := Run(Emitted(b, c), m);
      b := After(b, c);
    }

    /** One instruction. */
    method Emit(op: Op)
      requires Valid() && b.Allows(op)
      modifies this`ops, this`m, this`b
      ensures Valid() && m == Exec(op, old(m)) && b == old(b)
    {
      hide Run, Keeps, Exec;
      RunOne(op, m);
      Do(Put(op));
    }

    /** rax, saved on first use. */
    method Rax()
      requires Valid()
      modifies this`ops, this`m, this`b
      ensures Valid() && b == old(b).(raxUsed := true) && m == old(m).(s := old(m).s.(rax := m.s.rax))
    {
      hide Run, Exec;
      KeepsRax(b, m0, m);
      hide Keeps, Emitted;
      Do(UseRax);
    }

    method Rcx()
      requires Valid()
      modifies this`ops, this`m, this`b
      ensures Valid() && b == old(b).(rcxUsed := true) && m == old(m).(s := old(m).s.(rcx := m.s.rcx))
    {
      hide Run, Exec, Keeps, Emitted;
      KeepsRcx(b, m0, m);
      Do(UseRcx);
    }

    /** The scratch mask register to work with; its value goes to the scratch
        area the first time. */
    method K() returns (k: nat)
      requires Valid()
      modifies this`ops, this`m, this`b
      ensures Valid() && k == b.kscr && RaxOnly(old(m), m) && (old(b).kUsed ==> m == old(m))
      ensures b == old(b).(raxUsed := true, kUsed := true)
    {
      hide Run, Exec, Keeps, Emitted;
      KeepsK(b, m0, m);
      Do(UseK);
      k := b.kscr;
    }

    /** The flags, saved on first use through rax. */
    method Flags()
      requires Valid()
      modifies this`ops, this`m, this`b
      ensures Valid() && RaxOnly(old(m), m) && (old(b).flagsUsed ==> m == old(m))
      ensures b == old(b).(raxUsed := true, flagsUsed := true)
    {
      hide Run, Exec, Keeps, Emitted;
      KeepsFlags(b, m0, m);
      Do(UseFlags);
    }

    method MovEax(imm: Mask)
      requires Valid()
      modifies this`ops, this`m, this`b
      ensures Valid() && RaxOnly(old(m), m) && m.gpr[0] == Widen(imm) && b == old(b).(raxUsed := true)
    {
      hide Run, Keeps;
      Rax();
      Emit(Alu(MovEaxImm(imm)));
    }

    /** An immediate into the scratch mask register, by way of eax. */
    method MaskImm(mask: Mask) returns (k: nat)
      requires Valid()
      modifies this`ops, this`m, this`b
      ensures Valid() && k == b.kscr && b == old(b).(raxUsed := true, kUsed := true)
      ensures m == old(m).(k := old(m).k[k := mask], gpr := old(m).gpr[0 := Widen(mask)], s := m.s)
      ensures m.s.xfer == old(m).s.xfer && m.s.xfer8 == old(m).s.xfer8
    {
      hide Run, Keeps, Widen, Narrow;
      k := K();
      MovEax(mask);
      NarrowWiden(mask);
      Emit(KMovKR(k, 0));
    }

    /** A temporary, the lowest free register; its value is kept. It fails
        exactly when the slots are used up. */
    method Temp() returns (r: Result<nat>)
      requires Valid()
      modifies this`ops, this`m, this`b
      ensures Valid() && (r.Ok? <==> |old(b).temps| < SLOTS)
      ensures r.Ok? ==>
                && r.value < 32 && r.value !in b.vecs && r.value !in old(b).temps
                && b == old(b).(temps := old(b).temps + [r.value])
      ensures r.Ok? ==> m == old(m).(s := old(m).s.(zs := m.s.zs))
      ensures r.Err? ==> m == old(m) && b == old(b) && ops == old(ops)
    {
      hide Run, Exec, Keeps, Emitted;
      FreeExists(b.vecs, b.temps);
      var z: nat := 0;
      while z in b.vecs || z in b.temps
        invariant 0 <= z < 32 && exists i :: z <= i < 32 && i !in b.vecs && i !in b.temps
        decreases 32 - z
      {
        z := z + 1;
      }
      if |b.temps| >= SLOTS { return Err("more temporaries than scratch slots"); }
      KeepsTemp(b, m0, m, z);
      Do(NewTemp(z));
      return Ok(z);
    }

    // ---- the instructions the sequences use ----

    /** A register the sequence may write. */
    ghost predicate Mine(d: nat)
      reads this
    {
      d < 32 && (d in b.zOut || d in b.temps)
    }

    /** A mask register the sequence may write. */
    ghost predicate MineK(k: nat)
      reads this
    {
      k < 8 && (k in b.kOut || (k == b.kscr && b.kUsed))
    }

    method Vmov(d: nat, src: Src, k: nat, w: nat)
      requires Valid() && Mine(d) && SrcOk(src) && k < 8 && w < 2
      modifies this`ops, this`m, this`b
      ensures Valid() && b == old(b) && m == Write(old(m), d, SrcVec(old(m), src), k, w)
    {
      hide Run, Keeps;
      Emit(VMov(d, src, k, w));
    }

    method Bool(op: BoolOp, d: nat, s1: nat, src: Src, k: nat, w: nat)
      requires Valid() && Mine(d) && s1 < 32 && SrcOk(src) && k < 8 && w < 2
      modifies this`ops, this`m, this`b
      ensures Valid() && b == old(b) && m == Write(old(m), d, BoolVec(op, old(m).z[s1], SrcVec(old(m), src)), k, w)
    {
      hide Run, Keeps, BoolVec;
      Emit(VBool(op, d, s1, src, k, w));
    }

    /** Zero by exclusive or with itself. */
    method Zero(d: nat, k: nat, w: nat)
      requires Valid() && Mine(d) && k < 8 && w < 2
      modifies this`ops, this`m, this`b
      ensures Valid() && b == old(b) && m == Write(old(m), d, Zeros(), k, w)
    {
      hide Run, Keeps, Exec, Bitwise, LaneOp;
      forall l | 0 <= l < 16 ensures LaneOp(XorB, m.z[d][l], m.z[d][l]) == 0 { XorSelfLane(m.z[d][l]); }
      assert BoolVec(XorB, m.z[d], m.z[d]) == Zeros();
      hide BoolVec, Zeros, Write;
      Bool(XorB, d, d, R(d), k, w);
    }

    /** The lanes of `mask` cleared, the others kept. */
    method ZeroLanes(d: nat, mask: Mask)
      requires Valid() && Mine(d)
      modifies this`ops, this`m, this`b
      ensures Valid() && b == old(b).(raxUsed := b.raxUsed, kUsed := b.kUsed) && Touched(b, d, old(m), m)
      ensures m.z[d] == Cleared(old(m).z[d], mask)
    {
      hide Run, Keeps, Exec, Widen;
      if mask != Prefix(0) {
        var k := MaskImm(mask);
        Zero(d, k, 0);
      }
      assert m.z[d] == Cleared(old(m).z[d], mask);
    }

    method AddSub(sub: bool, d: nat, s1: nat, src: Src, k: nat)
      requires Valid() && Mine(d) && s1 < 32 && SrcOk(src) && k < 8
      modifies this`ops, this`m, this`b
      ensures Valid() && b == old(b)
      ensures var x, y := old(m).z[s1], SrcVec(old(m), src);
              m == Write(old(m), d, if sub then SubVec(x, y) else AddVec(x, y), k, 0)
    {
      hide Run, Keeps, AddVec, SubVec;
      if sub { Emit(VSub(d, s1, src, k)); } else { Emit(VAdd(d, s1, src, k)); }
    }

    method ShiftImm(kind: ShiftKind, d: nat, s: nat, n: nat, k: nat)
      requires Valid() && Mine(d) && s < 32 && k < 8 && n < 256
      modifies this`ops, this`m, this`b
      ensures Valid() && b == old(b) && m == Write(old(m), d, ShiftVec(kind, old(m).z[s], n), k, 0)
    {
      hide Run, Keeps, ShiftVec;
      Emit(VShift(kind, d, s, n, k));
    }

    method Vpshufd(d: nat, s: nat, imm: nat, k: nat)
      requires Valid() && Mine(d) && s < 32 && k < 8 && imm < 256
      modifies this`ops, this`m, this`b
      ensures Valid() && b == old(b) && m == Write(old(m), d, ShufVec(old(m).z[s], imm), k, 0)
    {
      hide Run, Keeps, ShufVec;
      Emit(VShufD(d, s, imm, k));
    }

    method Cmp(kind: CmpKind, kd: nat, s1: nat, s2: nat)
      requires Valid() && MineK(kd) && s1 < 32 && s2 < 32
      modifies this`ops, this`m, this`b
      ensures Valid() && b == old(b) && m == old(m).(k := old(m).k[kd := CmpMask(kind, old(m).z[s1], old(m).z[s2])])
    {
      hide Run, Keeps, CmpMask;
      Emit(VCmp(kind, kd, s1, s2));
    }

    method Kand(k: nat, k2: nat)
      requires Valid() && MineK(k) && k2 < 8
      modifies this`ops, this`m, this`b
      ensures Valid() && b == old(b) && m == old(m).(k := old(m).k[k := And16(old(m).k[k], old(m).k[k2])])
    {
      hide Run, Keeps, And16;
      Emit(KAnd(k, k2));
    }

    method Knot(k: nat, k2: nat)
      requires Valid() && MineK(k) && k2 < 8
      modifies this`ops, this`m, this`b
      ensures Valid() && b == old(b) && m == old(m).(k := old(m).k[k := Not16(old(m).k[k2])])
    {
      hide Run, Keeps, Not16;
      Emit(KNot(k, k2));
    }

    method KmovRK(r: nat, k: nat)
      requires Valid() && k < 8 && ((r == 0 && b.raxUsed) || (r == 1 && b.rcxUsed))
      modifies this`ops, this`m, this`b
      ensures Valid() && b == old(b) && m == old(m).(gpr := old(m).gpr[r := Widen(old(m).k[k])])
    {
      hide Run, Keeps, Widen;
      Emit(KMovRK(r, k));
    }

    method KmovKR(k: nat, r: nat)
      requires Valid() && MineK(k) && r < 16
      modifies this`ops, this`m, this`b
      ensures Valid() && b == old(b) && m == old(m).(k := old(m).k[k := Narrow(old(m).gpr[r])])
    {
      hide Run, Keeps, Narrow;
      Emit(KMovKR(k, r));
    }

    /** An integer instruction on eax and ecx; the flags are saved first
        where it changes them. */
    method Int(a: AluOp)
      requires Valid() && AluOk(a) && (AluFlags(a) ==> b.flagsUsed) && (if AluEcx(a) then b.rcxUsed else b.raxUsed)
      modifies this`ops, this`m, this`b
      ensures Valid() && b == old(b) && m == old(m).(gpr := m.gpr, fl := m.fl)
      ensures m.gpr == old(m).gpr[(if AluEcx(a) then 1 else 0) := AluValue(a, old(m).gpr[0], old(m).gpr[1], old(m).s)]
    {
      hide Run, Keeps, AluValue;
      Emit(Alu(a));
    }

    /** The low half of a register to a transfer cell, or back. */
    method Store(r: nat, c: Cell)
      requires Valid() && r < 16 && (c.XferCell? || c.Xfer8Cell?)
      modifies this`ops, this`m, this`b
      ensures Valid() && b == old(b)
      ensures m == old(m).(s := old(m).s.Set(c, Stored(old(m).gpr[r], old(m).s.Get(c), false)))
    {
      hide Run, Keeps, Stored;
      Emit(Save(r, c, false));
    }

    method LoadEax(c: Cell)
      requires Valid() && b.raxUsed
      modifies this`ops, this`m, this`b
      ensures Valid() && b == old(b) && m == old(m).(gpr := old(m).gpr[0 := Low32(old(m).s.Get(c))])
    {
      hide Run, Keeps, Low32;
      Emit(Restore(0, c, false));
    }

    method Fcmp(kd: nat, s1: nat, s2: nat, pred: nat, k: nat, w: nat)
      requires Valid() && MineK(kd) && s1 < 32 && s2 < 32 && pred < 8 && k < 8 && w < 2
      modifies this`ops, this`m, this`b
      ensures Valid() && b == old(b)
      ensures m == old(m).(k := old(m).k[kd := FCmpMask(old(m), old(m).z[s1], old(m).z[s2], pred, k, w)])
    {
      hide Run, Keeps, FCmpMask;
      Emit(FCmp(kd, s1, s2, pred, k, w));
    }

    method KmovKK(k: nat, k2: nat)
      requires Valid() && MineK(k) && k2 < 8
      modifies this`ops, this`m, this`b
      ensures Valid() && b == old(b) && m == old(m).(k := old(m).k[k := old(m).k[k2]])
    {
      hide Run, Keeps;
      Emit(KMovKK(k, k2));
    }

    /** A compare into a mask register that is not the sequence's, its value
        held in ecx meanwhile, joined to the result. */
    method FcmpJoin(kd: nat, k2: nat, s1: nat, s2: nat, pred: nat, k: nat, w: nat)
      requires Valid() && kd in b.kOut && kd < 8 && k2 < 8 && k2 != kd && k2 != b.kscr && k2 !in b.kOut && b.rcxUsed
      requires s1 < 32 && s2 < 32 && pred < 8 && k < 8 && w < 2
      modifies this`ops, this`m, this`b
      ensures Valid() && b == old(b)
      ensures var o := old(m);
              m == o.(k := o.k[kd := Or16(o.k[kd], FCmpMask(o, o.z[s1], o.z[s2], pred, k, w))],
                       gpr := o.gpr[1 := Widen(o.k[k2])])
    {
      hide Run, Keeps, FCmpMask, Widen, Or16, Exec;
      var four := [KMovRK(1, k2), FCmp(k2, s1, s2, pred, k, w)] + [KOr(kd, k2), KMovKR(k2, 1)];
      JoinRun(m, kd, k2, s1, s2, pred, k, w);
      RunAppend(ops, four, m0);
      ghost var n := Run(four, m);
      KeepsJoin(b, m0, m, n, kd);
      ops := ops + four;
      m := n;
    }

    /** Everything saved given back, and the results loaded: the thunk's sequence. */
    method FinishWith(x: Exit) returns (thunk: seq<Op>)
      requires Valid() && x.Ok(b)
      ensures OpsOk(thunk) && thunk == ops + Ending(b, x) && Leaves(b, x, m0, m, Run(thunk, m0))
    {
      hide Run, Exec, Keeps, Ending, Leaves;
      EndingLeaves(b, x, m0, m);
      RunAppend(ops, Ending(b, x), m0);
      thunk := ops + Ending(b, x);
    }

    /** The same without results in general registers or flags. */
    method Finish() returns (thunk: seq<Op>)
      requires Valid() && !flOut
      ensures OpsOk(thunk) && thunk == ops + Ending(b, Exit([], None))
      ensures Transparent(b.zOut, b.kOut, m0, Run(thunk, m0)) && SameResults(b, m, Run(thunk, m0))
    {
      hide Run, Keeps, Ending;
      thunk := FinishWith(Exit([], None));
      ghost var n := Run(thunk, m0);
      assert n.gpr == m0.gpr;
    }
  }
}
