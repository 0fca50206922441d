/** Linear probing, as the source's three open-addressing tables share it.
    A table is seen as its slots' keys (`None`: an empty slot); entries are
    never removed. */
module Probing {
  import opened Common

  /** Bitwise and of two naturals, which the tables use to wrap an index. */
  function BitAnd(a: nat, b: nat): nat {
    if a == 0 || b == 0 then 0 else (a % 2) * (b % 2) + 2 * BitAnd(a / 2, b / 2)
  }

  ghost predicate IsPow2(n: nat) {
    exists b: nat :: n == Pow2(b)
  }

  lemma DoublePow2(n: nat)
    requires IsPow2(n)
    ensures IsPow2(2 * n)
  {
    var b: nat :| n == Pow2(b);
    assert 2 * n == Pow2(b + 1);
  }

  lemma {:induction false} AndBelow(a: nat, m: nat)
    ensures BitAnd(a, m) <= m
  {
    if a > 0 && m > 0 { AndBelow(a / 2, m / 2); }
  }

  lemma {:induction false} AndMask(b: nat, i: nat)
    requires i <= Pow2(b)
    ensures BitAnd(i, Pow2(b) - 1) == if i == Pow2(b) then 0 else i
  {
    if b > 0 && i > 0 { AndMask(b - 1, i / 2); }
  }

  /** The slot a key's walk starts at: `hash & (slots - 1)`. */
  function Home<K(!new)>(hash: K -> nat, k: K, n: nat): (h: nat)
    requires n > 0
    ensures h < n
  {
    AndBelow(hash(k), n - 1);
    BitAnd(hash(k), n - 1)
  }

  /** The next slot of a walk: `(i + 1) & (slots - 1)`. */
  function Next(i: nat, n: nat): nat
    requires n > 0
  {
    BitAnd(i + 1, n - 1)
  }

  lemma NextWraps(i: nat, n: nat)
    requires IsPow2(n) && i < n
    ensures Next(i, n) == if i + 1 == n then 0 else i + 1
  {
    var b: nat :| n == Pow2(b);
    AndMask(b, i + 1);
  }

  /** Slots walked from `home` before `i` is reached. */
  function Dist(home: nat, i: nat, n: nat): nat
    requires home < n && i < n
  {
    if home <= i then i - home else i + n - home
  }

  /** The run from the home of `k` to slot `at` is broken at `j`. */
  ghost predicate Gap<K(!new)>(ks: seq<Option<K>>, hash: K -> nat, k: K, at: int, j: int) {
    && 0 <= at < |ks| && 0 <= j < |ks| && ks[j].None?
    && var home := Home(hash, k, |ks|); Dist(home, j, |ks|) < Dist(home, at, |ks|)
  }

  /** The table's keys and where each sits: every taken slot's key once,
      on an unbroken run from its home slot. */
  ghost predicate Probed<K(!new)>(ks: seq<Option<K>>, hash: K -> nat, at: map<K, nat>) {
    && IsPow2(|ks|)
    && (forall k :: k in at ==> at[k] < |ks| && ks[at[k]] == Some(k))
    && (forall i :: 0 <= i < |ks| && ks[i].Some? ==> ks[i].value in at && at[ks[i].value] == i)
    && (forall k, j :: k in at ==> !Gap(ks, hash, k, at[k], j))
    && Taken(ks) == |at|
  }

  /** Slots strictly before `i` on the walk for `k`: all taken, none by `k`. */
  ghost predicate Walked<K(!new)>(ks: seq<Option<K>>, hash: K -> nat, k: K, i: nat) {
    && i < |ks|
    && (forall j :: 0 <= j < |ks|
                    && Dist(Home(hash, k, |ks|), j, |ks|) < Dist(Home(hash, k, |ks|), i, |ks|)
                    ==> ks[j].Some? && ks[j] != Some(k))
  }

  /** A walk that meets an empty slot has proved the key absent. */
  lemma Absent<K(!new)>(ks: seq<Option<K>>, hash: K -> nat, at: map<K, nat>, k: K, i: nat)
    requires Probed(ks, hash, at) && Walked(ks, hash, k, i) && ks[i].None?
    ensures k !in at
  {
    assert k in at ==> !Gap(ks, hash, k, at[k], i);
  }

  /** Taking the empty slot a walk ends at keeps the table probed. */
  lemma Place<K(!new)>(ks: seq<Option<K>>, hash: K -> nat, at: map<K, nat>, k: K, i: nat)
    requires Probed(ks, hash, at) && Walked(ks, hash, k, i) && ks[i].None?
    ensures k !in at
    ensures Probed(ks[i := Some(k)], hash, at[k := i])
  {
    Absent(ks, hash, at, k, i);
    TakenPlace(ks, i, k);
    var us, ut := ks[i := Some(k)], at[k := i];
    forall x, j | x in ut
      ensures !Gap(us, hash, x, ut[x], j)
    {
      if x != k { assert !Gap(ks, hash, x, at[x], j); }
    }
  }

  /** One step of the walk past a taken slot; there is always a next one
      while some slot is empty. */
  lemma Advance<K(!new)>(ks: seq<Option<K>>, hash: K -> nat, k: K, i: nat)
    requires Walked(ks, hash, k, i) && ks[i].Some? && ks[i] != Some(k)
    requires IsPow2(|ks|) && exists e :: 0 <= e < |ks| && ks[e].None?
    ensures var n := Next(i, |ks|);
            Walked(ks, hash, k, n)
            && Dist(Home(hash, k, |ks|), n, |ks|) == Dist(Home(hash, k, |ks|), i, |ks|) + 1
  {
    NextWraps(i, |ks|);
    var e :| 0 <= e < |ks| && ks[e].None?;
    assert Dist(Home(hash, k, |ks|), e, |ks|) > Dist(Home(hash, k, |ks|), i, |ks|);
  }

  /** Taken slots. */
  function Taken<K>(ks: seq<Option<K>>): (c: nat)
    ensures c <= |ks|
  {
    if ks == [] then 0 else Taken(ks[..|ks| - 1]) + if ks[|ks| - 1].Some? then 1 else 0
  }

  lemma {:induction false} SomeFree<K>(ks: seq<Option<K>>)
    requires Taken(ks) < |ks|
    ensures exists e :: 0 <= e < |ks| && ks[e].None?
  {
    if ks[|ks| - 1].Some? {
      SomeFree(ks[..|ks| - 1]);
      var e :| 0 <= e < |ks| - 1 && ks[..|ks| - 1][e].None?;
      assert ks[e].None?;
    }
  }

  lemma {:induction false} TakenPlace<K>(ks: seq<Option<K>>, i: nat, k: K)
    requires i < |ks| && ks[i].None?
    ensures Taken(ks[i := Some(k)]) == Taken(ks) + 1
  {
    var us, l := ks[i := Some(k)], |ks| - 1;
    if i == l {
      assert us[..l] == ks[..l];
    } else {
      TakenPlace(ks[..l], i, k);
      assert us[..l] == ks[..l][i := Some(k)];
    }
  }

  lemma {:induction false} TakenNone<K>(ks: seq<Option<K>>)
    requires forall i :: 0 <= i < |ks| ==> ks[i].None?
    ensures Taken(ks) == 0
  {
    if ks != [] { TakenNone(ks[..|ks| - 1]); }
  }

  lemma ProbedNone<K(!new)>(ks: seq<Option<K>>, hash: K -> nat)
    requires IsPow2(|ks|) && forall i :: 0 <= i < |ks| ==> ks[i].None?
    ensures Probed(ks, hash, map[])
  {
    TakenNone(ks);
  }
}
