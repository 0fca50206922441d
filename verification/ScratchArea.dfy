/** The scratch area as the bytes it is: what the instructions store and load
    at their offsets, and that nothing they keep there overlaps. */
module ScratchArea {
  import opened Common
  import opened Words
  import opened Shifts
  import opened Card
  import Layout
  import Masks
  import Encoding

  const SCRATCH_BYTES := 512

  type Area = a: seq<byte> | |a| == SCRATCH_BYTES witness seq(SCRATCH_BYTES, _ => 0)

  // ---- who owns which bytes ----

  /** What is kept in the area: six vectors and the cells. */
  datatype Place = Slot(i: nat) | At(c: Cell) {
    predicate Ok() { Slot? ==> i < 6 }

    function From(): nat {
      match this case Slot(i) => 64 * i case At(c) => Encoding.CellAt(c)
    }

    function Size(): nat {
      match this case Slot(_) => 64 case At(_) => 8
    }
  }

  /** Every place is inside the area and aligned, and no two share a byte. */
  lemma PlacesApart(p: Place, q: Place)
    requires p.Ok() && q.Ok()
    ensures p.From() + p.Size() <= SCRATCH_BYTES && p.From() % p.Size() == 0
    ensures p != q ==> p.From() + p.Size() <= q.From() || q.From() + q.Size() <= p.From()
  {
  }

  /** The area with `b` stored at `at`. */
  function Put(a: Area, at: nat, b: seq<byte>): Area
    requires at + |b| <= SCRATCH_BYTES
  {
    a[..at] + b + a[at + |b|..]
  }

  lemma PutHere(a: Area, at: nat, b: seq<byte>)
    requires at + |b| <= SCRATCH_BYTES
    ensures Put(a, at, b)[at..at + |b|] == b
  {
  }

  lemma PutApart(a: Area, at: nat, b: seq<byte>, from: nat, n: nat)
    requires at + |b| <= SCRATCH_BYTES && from + n <= SCRATCH_BYTES
    requires at + |b| <= from || from + n <= at
    ensures Put(a, at, b)[from..from + n] == a[from..from + n]
  {
    var t := Put(a, at, b);
    PutBytes(a, at, b);
    hide Put;
    var x, y := t[from..from + n], a[from..from + n];
    forall i | 0 <= i < n
      ensures x[i] == y[i]
    {
      assert t[from + i] == a[from + i];
    }
  }

  lemma PutBytes(a: Area, at: nat, b: seq<byte>)
    requires at + |b| <= SCRATCH_BYTES
    ensures forall p :: 0 <= p < SCRATCH_BYTES ==>
                          Put(a, at, b)[p] == if at <= p < at + |b| then b[p - at] else a[p]
  {
  }

  lemma PutFront(a: Area, at: nat, b: seq<byte>, n: nat)
    requires |b| <= n && at + n <= SCRATCH_BYTES
    ensures Put(a, at, b)[at..at + n] == b + a[at..at + n][|b|..]
  {
    var t := Put(a, at, b);
    PutBytes(a, at, b);
    hide Put;
    var x, y := t[at..at + n], b + a[at..at + n][|b|..];
    forall i | 0 <= i < n
      ensures x[i] == y[i]
    {
      assert t[at + i] == if i < |b| then b[i] else a[at + i];
    }
  }

  // ---- registers as bytes ----

  /** Bit `i` of the number that bits stand for. */
  lemma {:induction false} ValueBit(bits: seq<bool>, at: nat, i: nat)
    requires at + i < |bits|
    ensures Masks.ValueFrom(bits, at) / Pow2(i) % 2 == if bits[at + i] then 1 else 0
    decreases i
  {
    ValueStep(bits, at);
    if i > 0 {
      assert Pow2(i) == 2 * Pow2(i - 1);
      hide Masks.ValueFrom, Pow2;
      ValueBit(bits, at + 1, i - 1);
      HalfFirst(Masks.ValueFrom(bits, at), Pow2(i - 1));
    }
  }

  lemma ValueStep(bits: seq<bool>, at: nat)
    requires at < |bits|
    ensures Masks.ValueFrom(bits, at) % 2 == (if bits[at] then 1 else 0)
    ensures Masks.ValueFrom(bits, at) / 2 == Masks.ValueFrom(bits, at + 1)
  {
  }

  function ByteOf(bits: seq<bool>): byte
    requires |bits| == 8
  {
    Encoding.BitsBack(bits, 0);
    assert Pow2(8) == 256;
    Masks.Value(bits)
  }

  /** A register's bytes, the lowest bits first. */
  function RegBytes(r: Masks.Reg): (b: seq<byte>)
    ensures |b| == 8
  {
    seq(8, i requires 0 <= i < 8 => ByteOf(r[8 * i..8 * i + 8]))
  }

  /** The register that bytes load; what they do not reach is zero. */
  function RegOf(b: seq<byte>): Masks.Reg
    requires |b| <= 8
  {
    seq(64, i requires 0 <= i < 64 => i / 8 < |b| && b[i / 8] / Pow2(i % 8) % 2 == 1)
  }

  /** The first `n` bytes of a register load its low bits. */
  lemma RegBack(r: Masks.Reg, n: nat, i: nat)
    requires n <= 8 && i < 64
    ensures RegOf(RegBytes(r)[..n])[i] == (i < 8 * n && r[i])
  {
    if i < 8 * n {
      var bits := r[8 * (i / 8)..8 * (i / 8) + 8];
      ValueBit(bits, 0, i % 8);
      assert bits[i % 8] == r[i];
    }
  }

  lemma WholeBack(r: Masks.Reg)
    ensures RegOf(RegBytes(r)) == r
  {
    assert RegBytes(r)[..8] == RegBytes(r);
    forall i | 0 <= i < 64 ensures RegOf(RegBytes(r))[i] == r[i] { RegBack(r, 8, i); }
  }

  // ---- the area as the machine's scratch ----

  function VecAt(a: Area, at: nat): Vec
    requires at + 64 <= SCRATCH_BYTES
  {
    Encoding.VecOf(a[at..at + 64])
  }

  function RegAt(a: Area, at: nat): Masks.Reg
    requires at + 8 <= SCRATCH_BYTES
  {
    RegOf(a[at..at + 8])
  }

  /** What the bytes hold at each place. */
  function View(a: Area): (s: Scratch)
    ensures |s.zs| == 6
  {
    Scratch(seq(6, i requires 0 <= i < 6 => VecAt(a, Slot(i).From())), RegAt(a, At(RaxCell).From()),
            RegAt(a, At(RcxCell).From()), RegAt(a, At(KCell).From()), RegAt(a, At(FlagsCell).From()),
            RegAt(a, At(XferCell).From()), RegAt(a, At(Xfer8Cell).From()))
  }

  lemma ViewAt(a: Area, c: Cell)
    ensures View(a).Get(c) == RegAt(a, At(c).From())
  {
  }

  /** The machine with its scratch area. */
  ghost function Seen(m: Machine, a: Area): Machine {
    m.(s := View(a))
  }

  // ---- instructions on bytes ----

  predicate Touches(op: Op) {
    op.Spill? || op.Fill? || op.Save? || op.Restore? || op.AhFrom? || (op.Alu? && op.alu.OrEaxCell?)
  }

  /** Where in the area an instruction's operand is. */
  function OffsetOf(op: Op): nat
    requires Touches(op) && OpOk(op)
  {
    match op
    case Spill(_, i) => Slot(i).From()
    case Fill(_, i) => Slot(i).From()
    case Save(_, c, _) => At(c).From()
    case Restore(_, c, _) => At(c).From()
    case AhFrom(c, second) => At(c).From() + if second then 1 else 0
    case Alu(a) => At(a.c).From()
  }

  /** The operand's offset is the displacement the instruction's bytes end in. */
  lemma AtOffset(op: Op, scratch: int)
    requires Touches(op) && Encoding.Encodable(op)
    ensures var b := Encoding.Bytes(op, scratch);
            |b| >= 4 && Spells(b[|b| - 4..], scratch + OffsetOf(op))
  {
    hide Spells, ToLe, Encoding.Bytes, OffsetOf;
    ToLeSpells(scratch + OffsetOf(op));
    if Encoding.IsVector(op) { VectorTail(op, scratch); } else { ScalarTail(op, scratch); }
  }

  lemma ScalarTail(op: Op, scratch: int)
    requires Touches(op) && Encoding.Encodable(op) && !Encoding.IsVector(op)
    ensures var b := Encoding.Bytes(op, scratch);
            |b| >= 4 && b[|b| - 4..] == ToLe(scratch + OffsetOf(op))
  {
    hide ToLe, Encoding.CellBytes, Encoding.MaskBytes;
    if op.Save? || op.Restore? { CellTail(op.Save?, op.r, scratch + OffsetOf(op), op.wide); }
  }

  lemma VectorTail(op: Op, scratch: int)
    requires Touches(op) && Encoding.Encodable(op) && Encoding.IsVector(op)
    ensures var b := Encoding.Bytes(op, scratch);
            |b| >= 4 && b[|b| - 4..] == ToLe(scratch + OffsetOf(op))
  {
    hide ToLe, Layout.Opening;
  }

  lemma CellTail(store: bool, r: nat, at: int, wide: bool)
    requires r < 16
    ensures var b := Encoding.CellBytes(store, r, at, wide); |b| >= 4 && b[|b| - 4..] == ToLe(at)
  {
    hide ToLe, Encoding.Rex;
  }

  /** An instruction that has an operand in the area stores or loads bytes there. */
  ghost function ByteExec(op: Op, m: Machine, a: Area): (r: (Machine, Area))
    requires Wf(m) && OpOk(op) && Touches(op)
    ensures Wf(r.0)
  {
    var at := OffsetOf(op);
    match op
    case Spill(z, _) => (m, Put(a, at, Encoding.ConstBytes(m.z[z])))
    case Fill(z, _) => (m.(z := m.z[z := Encoding.VecOf(a[at..at + 64])]), a)
    case Save(r, _, wide) => (m, Put(a, at, RegBytes(m.gpr[r])[..if wide then 8 else 4]))
    case Restore(r, _, wide) => (m.(gpr := m.gpr[r := RegOf(a[at..at + if wide then 8 else 4])]), a)
    case AhFrom(_, _) => (m.(gpr := m.gpr[0 := m.gpr[0][..8] + Byte(a[at]) + m.gpr[0][16..]]), a)
    case Alu(_) =>
      var v := Masks.Or32(m.gpr[0], RegOf(a[at..at + 4]));
      (m.(gpr := m.gpr[0 := v], fl := m.fx(v)), a)
  }

  ghost function Step(op: Op, m: Machine, a: Area): (r: (Machine, Area))
    requires Wf(m) && OpOk(op)
    ensures Wf(r.0)
  {
    if Touches(op) then ByteExec(op, m, a) else (Exec(op, Seen(m, a)), a)
  }

  ghost function ByteRun(ops: seq<Op>, m: Machine, a: Area): (r: (Machine, Area))
    requires Wf(m) && OpsOk(ops)
    ensures Wf(r.0)
  {
    if ops == [] then (m, a)
    else
      var (n, b) := ByteRun(ops[..|ops| - 1], m, a);
      Step(ops[|ops| - 1], n, b)
  }

  // ---- the bytes do what the cells do ----

  /** A store to a place shows there and nowhere else. */
  lemma SpillSeen(a: Area, i: nat, v: Vec)
    requires i < 6
    ensures View(Put(a, Slot(i).From(), Encoding.ConstBytes(v))) == View(a).(zs := View(a).zs[i := v])
  {
    hide Encoding.ConstBytes, Encoding.VecOf, RegOf, Put;
    var b := Encoding.ConstBytes(v);
    var t := Put(a, Slot(i).From(), b);
    PutHere(a, Slot(i).From(), b);
    Encoding.VecBack(v);
    forall j | 0 <= j < 6 && j != i
      ensures View(t).zs[j] == View(a).zs[j]
    {
      PlacesApart(Slot(i), Slot(j));
      PutApart(a, Slot(i).From(), b, Slot(j).From(), 64);
    }
    forall c: Cell ensures View(t).Get(c) == View(a).Get(c) { CellApart(a, Slot(i), b, c); }
    SameCells(View(t), View(a).(zs := View(a).zs[i := v]));
  }

  lemma CellApart(a: Area, p: Place, b: seq<byte>, c: Cell)
    requires p.Ok() && p != At(c) && |b| <= p.Size()
    ensures p.From() + |b| <= SCRATCH_BYTES && View(Put(a, p.From(), b)).Get(c) == View(a).Get(c)
  {
    hide RegOf, Put, View;
    PlacesApart(p, At(c));
    PutApart(a, p.From(), b, At(c).From(), 8);
    ViewAt(a, c);
    ViewAt(Put(a, p.From(), b), c);
  }

  /** Scratch areas differ in a slot or a cell. */
  lemma SameCells(s: Scratch, t: Scratch)
    requires s.zs == t.zs && forall c: Cell :: s.Get(c) == t.Get(c)
    ensures s == t
  {
    assert s.Get(RaxCell) == t.Get(RaxCell) && s.Get(RcxCell) == t.Get(RcxCell) && s.Get(KCell) == t.Get(KCell);
    assert s.Get(FlagsCell) == t.Get(FlagsCell) && s.Get(XferCell) == t.Get(XferCell);
    assert s.Get(Xfer8Cell) == t.Get(Xfer8Cell);
  }

  lemma SaveSeen(a: Area, c: Cell, r: Masks.Reg, wide: bool)
    ensures View(Put(a, At(c).From(), RegBytes(r)[..if wide then 8 else 4]))
            == View(a).Set(c, Stored(r, View(a).Get(c), wide))
  {
    hide RegBytes, RegOf, Put, Encoding.VecOf;
    var n := if wide then 8 else 4;
    var b := RegBytes(r)[..n];
    var t := Put(a, At(c).From(), b);
    forall j | 0 <= j < 6
      ensures View(t).zs[j] == View(a).zs[j]
    {
      PlacesApart(At(c), Slot(j));
      PutApart(a, At(c).From(), b, Slot(j).From(), 64);
    }
    forall d: Cell
      ensures View(t).Get(d) == View(a).Set(c, Stored(r, View(a).Get(c), wide)).Get(d)
    {
      if d == c { SaveHere(a, c, r, wide); } else { CellApart(a, At(c), b, d); }
    }
    SameCells(View(t), View(a).Set(c, Stored(r, View(a).Get(c), wide)));
  }

  /** A narrow store leaves the cell's upper half. */
  lemma SaveHere(a: Area, c: Cell, r: Masks.Reg, wide: bool)
    ensures At(c).From() + 8 <= SCRATCH_BYTES
    ensures View(Put(a, At(c).From(), RegBytes(r)[..if wide then 8 else 4])).Get(c) == Stored(r, View(a).Get(c), wide)
  {
    hide View, Encoding.CellAt, RegOf, RegBytes, Stored, Put;
    PlacesApart(At(c), At(c));
    var at, n := At(c).From(), if wide then 8 else 4;
    var b := RegBytes(r)[..n];
    var t := Put(a, at, b);
    ViewAt(a, c);
    ViewAt(t, c);
    PutFront(a, at, b, 8);
    StoredBytes(r, a[at..at + 8], wide);
  }

  /** The low bytes of a register in front of what was there. */
  lemma StoredBytes(r: Masks.Reg, was: seq<byte>, wide: bool)
    requires |was| == 8
    ensures var n := if wide then 8 else 4;
            RegOf(RegBytes(r)[..n] + was[n..]) == Stored(r, RegOf(was), wide)
  {
    var n := if wide then 8 else 4;
    var b := RegBytes(r)[..n] + was[n..];
    hide RegBytes;
    forall i | 0 <= i < 64
      ensures RegOf(b)[i] == Stored(r, RegOf(was), wide)[i]
    {
      RegBack(r, n, i);
      if i < 8 * n { assert b[i / 8] == RegBytes(r)[..n][i / 8]; } else { assert b[i / 8] == was[i / 8]; }
    }
  }

  lemma LoadSeen(a: Area, c: Cell)
    ensures At(c).From() + 8 <= SCRATCH_BYTES
    ensures RegOf(a[At(c).From()..At(c).From() + 8]) == View(a).Get(c)
    ensures RegOf(a[At(c).From()..At(c).From() + 4]) == Masks.Low32(View(a).Get(c))
  {
    hide View, Encoding.CellAt;
    PlacesApart(At(c), At(c));
    var at := At(c).From();
    ViewAt(a, c);
    forall i | 0 <= i < 64
      ensures RegOf(a[at..at + 4])[i] == Masks.Low32(RegAt(a, at))[i]
    {
      if i < 32 { assert a[at..at + 4][i / 8] == a[at..at + 8][i / 8]; }
    }
  }

  lemma ByteSeen(a: Area, c: Cell, second: bool)
    ensures At(c).From() + 8 <= SCRATCH_BYTES
    ensures var i := if second then 1 else 0;
            Byte(a[At(c).From() + i]) == View(a).Get(c)[8 * i..8 * i + 8]
  {
    hide View, Encoding.CellAt;
    PlacesApart(At(c), At(c));
    ViewAt(a, c);
    var at, i := At(c).From(), if second then 1 else 0;
    assert a[at..at + 8][i] == a[at + i];
    var bits := RegAt(a, at)[8 * i..8 * i + 8];
    forall j | 0 <= j < 8
      ensures Byte(a[at + i])[j] == bits[j]
    {
      assert (8 * i + j) / 8 == i && (8 * i + j) % 8 == j;
    }
  }

  /** An instruction on the bytes does what it does on slots and cells. */
  lemma StepRefines(op: Op, m: Machine, a: Area)
    requires Wf(m) && OpOk(op)
    ensures var (n, b) := Step(op, m, a); Seen(n, b) == Exec(op, Seen(m, a))
  {
    hide View, Put, RegBytes, RegOf, Byte, Encoding.ConstBytes, Encoding.VecOf, Stored, Encoding.CellAt;
    if Touches(op) {
      hide Exec;
      TouchRefines(op, m, a);
    } else {
      var was, now := Seen(m, a), Exec(op, Seen(m, a));
      ExecFrame(op, was);
      hide Exec;
      SameCells(now.s, was.s);
    }
  }

  lemma TouchRefines(op: Op, m: Machine, a: Area)
    requires Wf(m) && OpOk(op) && Touches(op)
    ensures var (n, b) := ByteExec(op, m, a); Seen(n, b) == Exec(op, Seen(m, a))
  {
    hide Seen, ByteExec, Exec;
    match op {
      case Spill(z, i) => SpillStep(z, i, m, a);
      case Fill(z, i) => FillStep(z, i, m, a);
      case Save(r, c, wide) => SaveStep(r, c, wide, m, a);
      case Restore(r, c, wide) => RestoreStep(r, c, wide, m, a);
      case AhFrom(c, second) => AhStep(c, second, m, a);
      case Alu(o) => OrStep(o.c, m, a);
    }
  }

  lemma SpillStep(z: nat, i: nat, m: Machine, a: Area)
    requires Wf(m) && z < 32 && i < 6
    ensures var (n, b) := ByteExec(Spill(z, i), m, a); Seen(n, b) == Exec(Spill(z, i), Seen(m, a))
  {
    hide View, Put, Encoding.ConstBytes;
    SpillSeen(a, i, m.z[z]);
  }

  lemma FillStep(z: nat, i: nat, m: Machine, a: Area)
    requires Wf(m) && z < 32 && i < 6
    ensures var (n, b) := ByteExec(Fill(z, i), m, a); Seen(n, b) == Exec(Fill(z, i), Seen(m, a))
  {
    hide View, Encoding.VecOf;
    FillSeen(a, i);
  }

  lemma SaveStep(r: nat, c: Cell, wide: bool, m: Machine, a: Area)
    requires Wf(m) && r < 16
    ensures var (n, b) := ByteExec(Save(r, c, wide), m, a); Seen(n, b) == Exec(Save(r, c, wide), Seen(m, a))
  {
    hide View, Put, RegBytes, Stored;
    SaveSeen(a, c, m.gpr[r], wide);
  }

  lemma RestoreStep(r: nat, c: Cell, wide: bool, m: Machine, a: Area)
    requires Wf(m) && r < 16
    ensures var (n, b) := ByteExec(Restore(r, c, wide), m, a); Seen(n, b) == Exec(Restore(r, c, wide), Seen(m, a))
  {
    hide View, RegOf, Masks.Low32;
    LoadSeen(a, c);
  }

  lemma AhStep(c: Cell, second: bool, m: Machine, a: Area)
    requires Wf(m)
    ensures var (n, b) := ByteExec(AhFrom(c, second), m, a); Seen(n, b) == Exec(AhFrom(c, second), Seen(m, a))
  {
    hide View, Byte;
    ByteSeen(a, c, second);
  }

  lemma OrStep(c: Cell, m: Machine, a: Area)
    requires Wf(m)
    ensures var (n, b) := ByteExec(Alu(OrEaxCell(c)), m, a); Seen(n, b) == Exec(Alu(OrEaxCell(c)), Seen(m, a))
  {
    hide View, RegOf, Masks.Low32, Masks.Or32;
    LoadSeen(a, c);
    OrLow(m.gpr[0], View(a).Get(c));
  }

  lemma FillSeen(a: Area, i: nat)
    requires i < 6
    ensures View(a).zs[i] == VecAt(a, Slot(i).From())
  {
  }

  lemma OrLow(r: Masks.Reg, v: Masks.Reg)
    ensures Masks.Or32(r, Masks.Low32(v)) == Masks.Or32(r, v)
  {
  }

  /** A whole sequence on the bytes does what it does on slots and cells. */
  lemma {:induction false} RunRefines(ops: seq<Op>, m: Machine, a: Area)
    requires Wf(m) && OpsOk(ops)
    ensures var (n, b) := ByteRun(ops, m, a); Seen(n, b) == Run(ops, Seen(m, a))
  {
    hide Step, Exec, View;
    if ops != [] {
      var (n, b) := ByteRun(ops[..|ops| - 1], m, a);
      RunRefines(ops[..|ops| - 1], m, a);
      StepRefines(ops[|ops| - 1], n, b);
    }
  }

  /** An area that holds a given scratch. */
  function AreaOf(s: Scratch): Area
    requires |s.zs| == 6
  {
    seq(SCRATCH_BYTES, p requires 0 <= p < SCRATCH_BYTES =>
      if p < 384 then Encoding.ConstBytes(s.zs[p / 64])[p % 64]
      else if p < 392 then RegBytes(s.rax)[p - 384] else if p < 400 then RegBytes(s.rcx)[p - 392]
      else if p < 408 then RegBytes(s.k)[p - 400]
      else if 416 <= p < 424 then RegBytes(s.flags)[p - 416]
      else if 448 <= p < 456 then RegBytes(s.xfer)[p - 448]
      else if 456 <= p < 464 then RegBytes(s.xfer8)[p - 456] else 0)
  }

  lemma CellBytesOf(s: Scratch, c: Cell)
    requires |s.zs| == 6
    ensures var at := At(c).From(); at + 8 <= SCRATCH_BYTES && AreaOf(s)[at..at + 8] == RegBytes(s.Get(c))
  {
    hide RegBytes, Encoding.ConstBytes;
    var at, a, r := At(c).From(), AreaOf(s), RegBytes(s.Get(c));
    var b := a[at..at + 8];
    forall i | 0 <= i < 8
      ensures b[i] == r[i]
    {
      assert b[i] == a[at + i];
      match c {
        case RaxCell =>
        case RcxCell =>
        case KCell =>
        case FlagsCell =>
        case XferCell =>
        case Xfer8Cell =>
      }
    }
  }

  /** Slots and cells can be anything at once. */
  lemma AreaFor(s: Scratch)
    requires |s.zs| == 6
    ensures View(AreaOf(s)) == s
  {
    hide RegBytes, Encoding.ConstBytes, RegOf, Encoding.VecOf;
    var a := AreaOf(s);
    forall i | 0 <= i < 6
      ensures VecAt(a, Slot(i).From()) == s.zs[i]
    {
      var b := a[64 * i..64 * i + 64];
      assert b == Encoding.ConstBytes(s.zs[i]) by {
        forall j | 0 <= j < 64 ensures b[j] == Encoding.ConstBytes(s.zs[i])[j] { ModUnique(64 * i + j, 64, i, j); }
      }
      Encoding.VecBack(s.zs[i]);
    }
    assert View(a).zs == s.zs;
    forall c: Cell
      ensures View(a).Get(c) == s.Get(c)
    {
      ViewAt(a, c);
      CellBytesOf(s, c);
      WholeBack(s.Get(c));
    }
    SameCells(View(a), s);
  }

  /** A thunk's bytes and references, read and run on the bytes of the scratch
      area, do what its sequence does. */
  lemma BytesRun(ops: seq<Op>, scratch: int, m: Machine, a: Area)
    requires Encoding.AllEncodable(ops) && OpsOk(ops) && Wf(m)
    requires forall i :: 0 <= i < |ops| ==> Encoding.LowRegister(ops[i])
    ensures var d := Encoding.Decoded(Encoding.Codes(ops, scratch), Encoding.Refs(ops), scratch);
            d.Some? && OpsOk(d.value)
            && var (n, b) := ByteRun(d.value, m, a); Seen(n, b) == Run(ops, Seen(m, a))
  {
    hide Encoding.Codes, Encoding.Refs, Encoding.Decoded, Run, ByteRun, View;
    Encoding.BytesMean(ops, scratch, Seen(m, a));
    RunRefines(Encoding.Decoded(Encoding.Codes(ops, scratch), Encoding.Refs(ops), scratch).value, m, a);
  }
}
