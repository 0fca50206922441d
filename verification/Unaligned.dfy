/** The card's pairs of instructions for unaligned memory. Enabled lanes stand
    for consecutive dwords, so a lane meets its own dword only under a mask
    without gaps from lane 0 on. */
module Unaligned {
  import opened Common
  import opened Lanes
  import opened Masks
  import opened Card
  import opened Emitter

  lemma {:induction false} RankPrefix(n: nat, l: nat)
    requires l <= n <= 16
    ensures Rank(Prefix(n), l) == l
  {
    if l > 0 { RankPrefix(n, l - 1); }
  }

  lemma {:induction false} RankMono(k: Mask, l: nat, j: nat)
    requires l < j <= 16 && k[l]
    ensures Rank(k, l) < Rank(k, j)
  {
    if l < j - 1 { RankMono(k, l, j - 1); }
  }

  /** No two lanes share an address. */
  lemma LandsOnce(k: Mask, a: int, l: nat, j: nat, at: int)
    requires l < 16 && j < 16 && Lands(k, a, l, at) && Lands(k, a, j, at)
    ensures l == j
  {
    if l < j { RankMono(k, l, j); }
    if j < l { RankMono(k, j, l); }
  }

  lemma PlusAddress(m: Machine, a: MemOp, delta: int)
    requires Wf(m) && a.Ok()
    ensures a.Plus(delta).Ok() && Address(m, a.Plus(delta)) == Address(m, a) + delta
  {
  }

  lemma SameAddress(m: Machine, n: Machine, a: MemOp)
    requires Wf(m) && Wf(n) && a.Ok() && forall r :: 0 <= r < 16 && a.Uses(r) ==> n.gpr[r] == m.gpr[r]
    ensures Address(m, a) == Address(n, a)
  {
    if a.rip.None? {
      assert a.base.Some? ==> a.Uses(a.base.value);
      assert a.index.Some? ==> a.Uses(a.index.value);
    }
  }

  // ---- loads ----

  /** What the load pair does: the enabled lanes take consecutive dwords. */
  ghost function Expanded(m: Machine, d: nat, at: int, km: Mask): Vec
    requires Wf(m) && d < 32
  {
    seq(16, l requires 0 <= l < 16 => if km[l] then m.mem(at + 4 * Rank(km, l)) else m.z[d][l])
  }

  lemma LoadPair(m: Machine, d: nat, at: int, k: nat)
    requires Wf(m) && d < 32 && k < 8
    ensures Expand(Expand(m, d, at, k, false), d, at, k, true) == m.(z := m.z[d := Expanded(m, d, at, PairMask(m, k))])
  {
    hide Rank;
    var n := Expand(Expand(m, d, at, k, false), d, at, k, true);
    assert n.z[d] == Expanded(m, d, at, PairMask(m, k));
  }

  /** Lanes below `n` from consecutive dwords. */
  lemma LoadPrefix(m: Machine, d: nat, at: int, n: nat)
    requires Wf(m) && d < 32 && n <= 16
    ensures forall l :: 0 <= l < 16 ==>
              Expanded(m, d, at, Prefix(n))[l] == if l < n then m.mem(at + 4 * l) else m.z[d][l]
  {
    hide Rank;
    forall l | 0 <= l < n ensures Rank(Prefix(n), l) == l { RankPrefix(n, l); }
  }

  method LoadUnaligned(em: Em, d: nat, a: MemOp, k: nat)
    requires em.Valid() && em.Mine(d) && a.Ok() && k < 8
    modifies em`ops, em`m, em`b
    ensures em.Valid() && em.b == old(em.b)
    ensures em.m
            == old(em.m).(z := old(em.m).z[d := Expanded(old(em.m), d, Address(old(em.m), a), PairMask(old(em.m), k))])
  {
    hide Run, Keeps, Expand, Expanded, PairMask, Exec;
    ghost var m, at := em.m, Address(em.m, a);
    LoadPair(m, d, at, k);
    em.Emit(LoadLo(d, a, k));
    LoadsAre(m, d, a, k);
    LoadsAre(em.m, d, a, k);
    ghost var n := em.m;
    PlusAddress(m, a, 64);
    SameGpr(m, n, a);
    em.Emit(LoadHi(d, a.Plus(64), k));
  }

  lemma SameGpr(m: Machine, n: Machine, a: MemOp)
    requires Wf(m) && Wf(n) && a.Ok() && n.gpr == m.gpr
    ensures Address(m, a) == Address(n, a)
  {
  }

  lemma LoadsAre(m: Machine, d: nat, a: MemOp, k: nat)
    requires Wf(m) && d < 32 && a.Ok() && k < 8
    ensures Exec(LoadLo(d, a, k), m) == Expand(m, d, Address(m, a), k, false)
    ensures Expand(m, d, Address(m, a), k, false).gpr == m.gpr
    ensures Exec(LoadHi(d, a.Plus(64), k), m) == Expand(m, d, Address(m, a), k, true)
  {
    PlusAddress(m, a, 64);
  }

  // ---- stores ----

  /** What the store pair does: the enabled lanes go to consecutive dwords,
      and no other memory changes. */
  ghost predicate Compressed(m: Machine, n: Machine, at: int, s: nat, km: Mask)
    requires Wf(m) && Wf(n) && s < 32
  {
    && n == m.(mem := n.mem)
    && (forall l: nat, x :: l < 16 && Lands(km, at, l, x) ==> n.mem(x) == m.z[s][l])
    && (forall x :: (forall l: nat :: l < 16 ==> !Lands(km, at, l, x)) ==> n.mem(x) == m.mem(x))
  }

  lemma CompressAt(m: Machine, at: int, s: nat, k: nat, high: bool, x: int, l: nat)
    requires Wf(m) && s < 32 && k < 8 && l < 16 && Lands(PairMask(m, k), at, l, x)
    ensures Compress(m, at, s, k, high).mem(x) == if InPart(at, x, high) then m.z[s][l] else m.mem(x)
  {
    hide Rank, PairMask;
    forall j: nat | j < 16 && Lands(PairMask(m, k), at, j, x) ensures j == l { LandsOnce(PairMask(m, k), at, l, j, x); }
  }

  lemma CompressFrame(m: Machine, at: int, s: nat, k: nat, high: bool)
    requires Wf(m) && s < 32 && k < 8
    ensures var n := Compress(m, at, s, k, high);
            && n == m.(mem := n.mem) && PairMask(n, k) == PairMask(m, k)
            && forall x :: (forall l: nat :: l < 16 ==> !Lands(PairMask(m, k), at, l, x)) ==> n.mem(x) == m.mem(x)
  {
    hide Rank;
  }

  lemma StorePair(m: Machine, at: int, s: nat, k: nat)
    requires Wf(m) && s < 32 && k < 8
    ensures Compressed(m, Compress(Compress(m, at, s, k, false), at, s, k, true), at, s, PairMask(m, k))
  {
    hide Rank, PairMask, Compress;
    CompressFrame(m, at, s, k, false);
    var m1 := Compress(m, at, s, k, false);
    CompressFrame(m1, at, s, k, true);
    var n, km := Compress(m1, at, s, k, true), PairMask(m, k);
    forall l: nat, x | l < 16 && Lands(km, at, l, x) ensures n.mem(x) == m.z[s][l] {
      CompressAt(m, at, s, k, false, x, l);
      CompressAt(m1, at, s, k, true, x, l);
    }
  }

  /** `x` is the address of dword `l` from `at`. */
  predicate DwordAt(at: int, l: nat, x: int) {
    x == at + 4 * l
  }

  /** Through the lowest lanes each lane goes to its own dword. */
  lemma StorePrefix(at: int, len: nat)
    requires len <= 16
    ensures forall l: nat, x :: l < 16 ==> (Lands(Prefix(len), at, l, x) <==> l < len && DwordAt(at, l, x))
  {
    hide Rank;
    forall l: nat, x | l < 16 ensures Lands(Prefix(len), at, l, x) <==> l < len && DwordAt(at, l, x) {
      if l < len { RankPrefix(len, l); }
    }
  }

  method StoreUnaligned(em: Em, a: MemOp, s: nat, k: nat)
    requires em.Valid() && s < 32 && a.Ok() && k < 8
    modifies em`ops, em`m, em`b
    ensures em.Valid() && em.b == old(em.b)
    ensures Compressed(old(em.m), em.m, Address(old(em.m), a), s, PairMask(old(em.m), k))
  {
    hide Run, Keeps, Compress, Compressed, PairMask, Exec;
    ghost var m, at := em.m, Address(em.m, a);
    StorePair(m, at, s, k);
    StoresAre(m, s, a, k);
    em.Emit(StoreLo(a, s, k));
    ghost var n := em.m;
    StoresAre(n, s, a, k);
    PlusAddress(m, a, 64);
    SameGpr(m, n, a);
    em.Emit(StoreHi(a.Plus(64), s, k));
  }

  lemma StoresAre(m: Machine, s: nat, a: MemOp, k: nat)
    requires Wf(m) && s < 32 && a.Ok() && k < 8
    ensures Exec(StoreLo(a, s, k), m) == Compress(m, Address(m, a), s, k, false)
    ensures Compress(m, Address(m, a), s, k, false).gpr == m.gpr
    ensures Exec(StoreHi(a.Plus(64), s, k), m) == Compress(m, Address(m, a), s, k, true)
  {
    PlusAddress(m, a, 64);
  }

}
