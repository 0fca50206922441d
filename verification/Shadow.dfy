/** The registers this host does not have: the upper halves kept in storage,
    the lower halves in the machine, and the inference of writes that
    bypassed the storage. */
module Shadow {
  import opened Common
  import opened Words

  /** 256 and 512 bits. */
  type Half = h: seq<byte> | |h| == 32 witness seq(32, _ => 0)
  type Zmm = z: seq<byte> | |z| == 64 witness seq(64, _ => 0)

  function Zero(): Half {
    seq(32, _ => 0)
  }

  function Low(z: Zmm): Half { z[..32] }

  function High(z: Zmm): Half { z[32..] }

  /** The storage: all registers, and the low halves as they were left. */
  datatype File = File(zmm: seq<Zmm>, lastLow: seq<Half>) {
    ghost predicate Ok() { |zmm| == 32 && |lastLow| == 16 }
  }

  /** Something else has written register `i` since its low half was left. */
  predicate Stale(last: Half, live: Half) {
    live != last
  }

  ghost function InAt(f: File, live: seq<Half>, i: nat): Zmm
    requires f.Ok() && |live| == 16 && i < 16
  {
    live[i] + if Stale(f.lastLow[i], live[i]) then Zero() else High(f.zmm[i])
  }

  /** The storage after taking in the live halves of the registers in `mask`. */
  ghost function SyncedIn(f: File, live: seq<Half>, mask: set<nat>): (g: File)
    requires f.Ok() && |live| == 16
    ensures g.Ok()
  {
    f.(zmm := seq(32, i requires 0 <= i < 32 => if i < 16 && i in mask then InAt(f, live, i) else f.zmm[i]))
  }

  ghost function SyncedLast(f: File, mask: set<nat>): (g: File)
    requires f.Ok()
    ensures g.Ok()
  {
    f.(lastLow := seq(16, i requires 0 <= i < 16 => if i in mask then Low(f.zmm[i]) else f.lastLow[i]))
  }

  ghost function SyncedLive(f: File, live: seq<Half>, mask: set<nat>): (l: seq<Half>)
    requires f.Ok() && |live| == 16
    ensures |l| == 16
  {
    seq(16, i requires 0 <= i < 16 => if i in mask then Low(f.zmm[i]) else live[i])
  }

  class VState {
    const zmm: array<Zmm>
    const lastLow: array<Half>

    ghost predicate Valid()
      reads this, zmm, lastLow
    {
      zmm.Length == 32 && lastLow.Length == 16
    }

    ghost function Contents(): (f: File)
      requires Valid()
      reads this, zmm, lastLow
      ensures f.Ok()
    {
      File(zmm[..], lastLow[..])
    }

    constructor ()
      ensures Valid() && fresh(zmm) && fresh(lastLow)
      ensures Contents() == File(seq(32, _ => Zero() + Zero()), seq(16, _ => Zero()))
    {
      var z: Zmm := Zero() + Zero();
      zmm := new Zmm[32](_ => z);
      lastLow := new Half[16](_ => Zero());
    }

    /** The live halves taken in, an upper half cleared where a write is inferred. */
    method SyncIn(live: array<Half>, mask: set<nat>)
      requires Valid() && live.Length == 16 && live != lastLow
      modifies zmm
      ensures Contents() == SyncedIn(old(Contents()), live[..], mask)
    {
      ghost var f := Contents();
      for i := 0 to 16
        invariant Contents().lastLow == f.lastLow && live[..] == old(live[..])
        invariant forall j :: 0 <= j < i ==> zmm[j] == SyncedIn(f, live[..], mask).zmm[j]
        invariant forall j :: i <= j < 32 ==> zmm[j] == f.zmm[j]
      {
        if i in mask {
          if Stale(lastLow[i], live[i]) { zmm[i] := Low(zmm[i]) + Zero(); }
          zmm[i] := live[i] + High(zmm[i]);
        }
      }
    }

    /** The low halves given back and remembered. */
    method SyncOut(live: array<Half>, mask: set<nat>)
      requires Valid() && live.Length == 16 && live != lastLow
      modifies live, lastLow
      ensures Contents() == SyncedLast(old(Contents()), mask)
      ensures live[..] == SyncedLive(old(Contents()), old(live[..]), mask)
    {
      ghost var f, l := Contents(), live[..];
      for i := 0 to 16
        invariant Contents().zmm == f.zmm
        invariant forall j :: 0 <= j < i ==>
                    live[j] == SyncedLive(f, l, mask)[j] && lastLow[j] == SyncedLast(f, mask).lastLow[j]
        invariant forall j :: i <= j < 16 ==> live[j] == l[j] && lastLow[j] == f.lastLow[j]
      {
        if i in mask {
          live[i] := Low(zmm[i]);
          lastLow[i] := Low(zmm[i]);
        }
      }
    }

    /** The low halves of every register remembered. */
    method NoteWrite()
      requires Valid()
      modifies lastLow
      ensures Contents() == old(Contents()).(lastLow := seq(16, i requires 0 <= i < 16 => Low(old(zmm[i]))))
    {
      ghost var f := Contents();
      for i := 0 to 16
        invariant Contents().zmm == f.zmm
        invariant forall j :: 0 <= j < i ==> lastLow[j] == Low(f.zmm[j])
        invariant forall j :: i <= j < 16 ==> lastLow[j] == f.lastLow[j]
      {
        lastLow[i] := Low(zmm[i]);
      }
    }
  }

  // ---- against the registers real hardware would hold ----

  /** The storage, the live halves, and the registers of the real machine. */
  datatype World = World(f: File, live: seq<Half>, hw: seq<Zmm>) {
    ghost predicate Ok() { f.Ok() && |live| == 16 && |hw| == 32 }
  }

  /** Taking the live halves in would give the real registers. */
  ghost predicate Agrees(w: World)
    requires w.Ok()
  {
    && (forall i :: 0 <= i < 16 ==> w.hw[i] == InAt(w.f, w.live, i))
    && (forall i :: 16 <= i < 32 ==> w.hw[i] == w.f.zmm[i])
  }

  /** An emulated instruction: the registers it works on, and any function
      from their values to new ones. */
  datatype Insn = Insn(regs: seq<nat>, f: seq<Zmm> -> seq<Zmm>)

  ghost function Values(r: seq<Zmm>, regs: seq<nat>): seq<Zmm>
    requires forall j :: 0 <= j < |regs| ==> regs[j] < |r|
  {
    seq(|regs|, j requires 0 <= j < |regs| => r[regs[j]])
  }

  /** The first `n` of the new values stored. */
  ghost function Put(r: seq<Zmm>, regs: seq<nat>, vals: seq<Zmm>, n: nat): (q: seq<Zmm>)
    requires n <= |regs| == |vals| && forall j :: 0 <= j < |regs| ==> regs[j] < |r|
    ensures |q| == |r|
  {
    if n == 0 then r else Put(r, regs, vals, n - 1)[regs[n - 1] := vals[n - 1]]
  }

  ghost function Perform(r: seq<Zmm>, e: Insn): (q: seq<Zmm>)
    requires forall j :: 0 <= j < |e.regs| ==> e.regs[j] < |r|
    ensures |q| == |r|
  {
    var v := e.f(Values(r, e.regs));
    if |v| == |e.regs| then Put(r, e.regs, v, |v|) else r
  }

  datatype Event =
      /** A VEX write: the low half stored, the rest of the register zeroed. */
    | Vex(reg: nat, low: Half)
      /** A legacy SSE write: the rest of the register kept. */
    | Sse(reg: nat, low: Half)
    | Emulated(e: Insn, mask: set<nat>)

  /** The instruction's registers exist, and the mask has those it can miss. */
  ghost predicate Covers(e: Insn, mask: set<nat>) {
    forall j :: 0 <= j < |e.regs| ==> e.regs[j] < 32 && (e.regs[j] < 16 ==> e.regs[j] in mask)
  }

  ghost predicate EventOk(v: Event) {
    match v
    case Vex(reg, _) => reg < 16
    case Sse(reg, _) => reg < 16
    case Emulated(e, mask) => Covers(e, mask)
  }

  /** The instruction on the storage, between taking in and giving back. */
  ghost function Emulate(w: World, e: Insn, mask: set<nat>): (n: World)
    requires w.Ok() && Covers(e, mask)
    ensures n.Ok()
  {
    var g := SyncedIn(w.f, w.live, mask);
    var h := g.(zmm := Perform(g.zmm, e));
    World(SyncedLast(h, mask), SyncedLive(h, w.live, mask), Perform(w.hw, e))
  }

  ghost function Step(w: World, v: Event): (n: World)
    requires w.Ok() && EventOk(v)
    ensures n.Ok()
  {
    match v
    case Vex(i, low) => w.(live := w.live[i := low], hw := w.hw[i := low + Zero()])
    case Sse(i, low) => w.(live := w.live[i := low], hw := w.hw[i := low + High(w.hw[i])])
    case Emulated(e, mask) => Emulate(w, e, mask)
  }

  /** What can be inferred of a write: its low half differs from the one
      remembered, or there is no upper half to lose. */
  ghost predicate Seen(w: World, v: Event)
    requires w.Ok() && EventOk(v)
  {
    match v
    case Vex(i, low) => low != w.f.lastLow[i] || High(w.f.zmm[i]) == Zero()
    case Sse(i, low) =>
      if low != w.f.lastLow[i] then High(w.hw[i]) == Zero()
      else w.live[i] == w.f.lastLow[i] || High(w.f.zmm[i]) == Zero()
    case Emulated(_, _) => true
  }

  lemma JoinHalves(a: Half, b: Half, c: Half)
    ensures a + b == a + c <==> b == c
    ensures Low(a + b) == a && High(a + b) == b
  {
    assert High(a + b) == b && High(a + c) == c;
  }

  /** A write keeps the agreement exactly when it can be inferred. */
  lemma WriteAgrees(w: World, v: Event)
    requires w.Ok() && Agrees(w) && EventOk(v) && !v.Emulated?
    ensures Agrees(Step(w, v)) <==> Seen(w, v)
  {
    var i := v.reg;
    var n := Step(w, v);
    JoinHalves(w.live[i], if Stale(w.f.lastLow[i], w.live[i]) then Zero() else High(w.f.zmm[i]), Zero());
    var top := if v.Vex? then Zero() else High(w.hw[i]);
    JoinHalves(v.low, top, if Stale(w.f.lastLow[i], v.low) then Zero() else High(w.f.zmm[i]));
    assert n.hw[i] == InAt(n.f, n.live, i) <==> Seen(w, v);
    assert forall j :: 0 <= j < 16 && j != i ==> InAt(n.f, n.live, j) == InAt(w.f, w.live, j);
  }

  /** Taking in gives the real registers among those in the mask. */
  lemma InAgrees(w: World, mask: set<nat>)
    requires w.Ok() && Agrees(w)
    ensures forall i :: 0 <= i < 32 && (i < 16 ==> i in mask) ==> SyncedIn(w.f, w.live, mask).zmm[i] == w.hw[i]
  {
  }

  /** Giving back new values keeps the agreement. */
  lemma OutAgrees(w: World, h: File, b: seq<Zmm>, mask: set<nat>)
    requires w.Ok() && Agrees(w) && h.Ok() && |b| == 32 && h.lastLow == w.f.lastLow
    requires forall i :: 0 <= i < 32 && (i < 16 ==> i in mask) ==> h.zmm[i] == b[i]
    requires forall i :: 0 <= i < 16 && i !in mask ==> h.zmm[i] == w.f.zmm[i] && b[i] == w.hw[i]
    ensures Agrees(World(SyncedLast(h, mask), SyncedLive(h, w.live, mask), b))
  {
    var n := World(SyncedLast(h, mask), SyncedLive(h, w.live, mask), b);
    forall i | 0 <= i < 16 ensures n.hw[i] == InAt(n.f, n.live, i) {
      if i in mask { assert Low(h.zmm[i]) + High(h.zmm[i]) == h.zmm[i]; }
    }
  }

  /** Register files that agree on the registers an instruction works on. */
  lemma {:induction false} PutSame(r: seq<Zmm>, s: seq<Zmm>, regs: seq<nat>, vals: seq<Zmm>, n: nat, k: nat)
    requires |r| == |s| && n <= |regs| == |vals| && k < |r|
    requires forall j :: 0 <= j < |regs| ==> regs[j] < |r|
    ensures k in regs[..n] ==> Put(r, regs, vals, n)[k] == Put(s, regs, vals, n)[k]
    ensures k !in regs[..n] ==> Put(r, regs, vals, n)[k] == r[k]
  {
    if n > 0 {
      PutSame(r, s, regs, vals, n - 1, k);
      assert regs[..n] == regs[..n - 1] + [regs[n - 1]];
    }
  }

  lemma PerformSame(r: seq<Zmm>, s: seq<Zmm>, e: Insn, k: nat)
    requires |r| == |s| == 32 && k < 32 && forall j :: 0 <= j < |e.regs| ==> e.regs[j] < 32
    requires forall j :: 0 <= j < |e.regs| ==> r[e.regs[j]] == s[e.regs[j]]
    ensures k in e.regs ==> Perform(r, e)[k] == Perform(s, e)[k]
    ensures k !in e.regs ==> Perform(r, e)[k] == r[k]
  {
    hide Put;
    assert Values(r, e.regs) == Values(s, e.regs);
    var v := e.f(Values(r, e.regs));
    if |v| == |e.regs| {
      PutSame(r, s, e.regs, v, |v|, k);
      assert e.regs[..|v|] == e.regs;
    }
  }

  /** An emulated instruction sees the real registers, and keeps the agreement. */
  lemma EmulateAgrees(w: World, e: Insn, mask: set<nat>)
    requires w.Ok() && Agrees(w) && Covers(e, mask)
    ensures Values(SyncedIn(w.f, w.live, mask).zmm, e.regs) == Values(w.hw, e.regs)
    ensures Agrees(Emulate(w, e, mask))
  {
    hide Perform, Agrees, SyncedLast, SyncedLive, InAt;
    InAgrees(w, mask);
    var g := SyncedIn(w.f, w.live, mask);
    assert forall j :: 0 <= j < |e.regs| ==> g.zmm[e.regs[j]] == w.hw[e.regs[j]];
    forall i | 0 <= i < 32 && (i < 16 ==> i in mask) ensures Perform(g.zmm, e)[i] == Perform(w.hw, e)[i] {
      PerformSame(g.zmm, w.hw, e, i);
      PerformSame(w.hw, g.zmm, e, i);
    }
    forall i | 0 <= i < 16 && i !in mask ensures Perform(g.zmm, e)[i] == w.f.zmm[i] && Perform(w.hw, e)[i] == w.hw[i] {
      PerformSame(g.zmm, w.hw, e, i);
      PerformSame(w.hw, g.zmm, e, i);
    }
    OutAgrees(w, g.(zmm := Perform(g.zmm, e)), Perform(w.hw, e), mask);
  }

  lemma StepAgrees(w: World, v: Event)
    requires w.Ok() && Agrees(w) && EventOk(v) && Seen(w, v)
    ensures Agrees(Step(w, v))
  {
    hide Agrees, Emulate, Seen;
    match v
    case Emulated(e, mask) => EmulateAgrees(w, e, mask);
    case _ => WriteAgrees(w, v);
  }

  // ---- whole runs ----

  ghost predicate RunOk(w: World, vs: seq<Event>)
    requires w.Ok()
    decreases |vs|
  {
    vs == [] || (EventOk(vs[0]) && Seen(w, vs[0]) && RunOk(Step(w, vs[0]), vs[1..]))
  }

  ghost function Run(w: World, vs: seq<Event>): (n: World)
    requires w.Ok() && RunOk(w, vs)
    ensures n.Ok()
    decreases |vs|
  {
    if vs == [] then w else Run(Step(w, vs[0]), vs[1..])
  }

  /** Over every interleaving of emulated instructions and writes that can be
      inferred, the storage after taking in is the real register file. */
  lemma {:induction false} RunAgrees(w: World, vs: seq<Event>, mask: set<nat>)
    requires w.Ok() && Agrees(w) && RunOk(w, vs) && forall i :: 0 <= i < 16 ==> i in mask
    ensures Agrees(Run(w, vs))
    ensures var n := Run(w, vs);
            SyncedIn(n.f, n.live, mask).zmm == n.hw
    decreases |vs|
  {
    hide Agrees, EventOk, Step, Seen, SyncedIn;
    if vs == [] {
      InAgrees(w, mask);
      assert SyncedIn(w.f, w.live, mask).zmm == w.hw;
    } else {
      StepAgrees(w, vs[0]);
      RunAgrees(Step(w, vs[0]), vs[1..], mask);
    }
  }

  /** All registers zero: where every thread begins. */
  ghost function Fresh(): (w: World)
    ensures w.Ok() && Agrees(w)
  {
    World(File(seq(32, _ => Zero() + Zero()), seq(16, _ => Zero())),
          seq(16, _ => Zero()), seq(32, _ => Zero() + Zero()))
  }

  // ---- a write that goes unseen ----

  function Mark(): Half {
    seq(32, _ => 1)
  }

  /** An instruction that fills register 0's upper half. */
  ghost function FillUpper(): Insn {
    Insn([0], (v: seq<Zmm>) => [Zero() + Mark()])
  }

  /** After it, register 0 holds zeroes below and marks above. */
  ghost function Filled(): (w: World)
    ensures w.Ok()
  {
    Step(Fresh(), Emulated(FillUpper(), {0}))
  }

  lemma FillIs(r: seq<Zmm>)
    requires |r| == 32
    ensures Perform(r, FillUpper())[0] == Zero() + Mark()
  {
    var v: seq<Zmm> := [Zero() + Mark()];
    assert FillUpper().f(Values(r, [0])) == v;
    assert Put(r, [0], v, 1) == Put(r, [0], v, 0)[0 := v[0]];
  }

  lemma FilledIs()
    ensures Agrees(Filled()) && Filled().hw[0] == Zero() + Mark()
    ensures Filled().live[0] == Zero() == Filled().f.lastLow[0] && High(Filled().f.zmm[0]) == Mark()
  {
    hide Perform, Agrees, InAt, Zero, Mark;
    var w, e := Fresh(), FillUpper();
    EmulateAgrees(w, e, {0});
    FillIs(w.hw);
    FillIs(SyncedIn(w.f, w.live, {0}).zmm);
    JoinHalves(Zero(), Mark(), Mark());
  }

  /** Clearing the register with VEX then goes unseen, and an SSE write that
      keeps the marks is taken for one that clears them. */
  lemma UnseenWrites()
    ensures !Agrees(Step(Filled(), Vex(0, Zero()))) && !Agrees(Step(Filled(), Sse(0, Mark())))
  {
    hide Filled, Step, Agrees;
    FilledIs();
    JoinHalves(Zero(), Mark(), Mark());
    assert Zero()[0] != Mark()[0];
    WriteAgrees(Filled(), Vex(0, Zero()));
    WriteAgrees(Filled(), Sse(0, Mark()));
  }
}
