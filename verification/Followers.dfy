/** An n-gram's followers: a list sorted by token of how often each came next,
    kept together with the sum and the maximum of those numbers. */
module Followers {
  import opened Common

  /** A token and how often it followed. */
  datatype Pair = Pair(token: Token, count: int)

  datatype Part = Part(pairs: seq<Pair>, sum: int, max: int)

  const NO_PART := Part([], 0, 0)

  /** By token, a token possibly more than once. */
  ghost predicate Ascending(pairs: seq<Pair>) {
    forall i, j :: 0 <= i < j < |pairs| ==> pairs[i].token <= pairs[j].token
  }

  /** By token, each token once. */
  ghost predicate Strict(pairs: seq<Pair>) {
    forall i, j :: 0 <= i < j < |pairs| ==> pairs[i].token < pairs[j].token
  }

  /** How often `t` followed. */
  function Count(pairs: seq<Pair>, t: Token): int {
    if pairs == [] then 0
    else Count(pairs[..|pairs| - 1], t) + if pairs[|pairs| - 1].token == t then pairs[|pairs| - 1].count else 0
  }

  function Sum(pairs: seq<Pair>): int {
    if pairs == [] then 0 else Sum(pairs[..|pairs| - 1]) + pairs[|pairs| - 1].count
  }

  ghost predicate Positive(pairs: seq<Pair>) {
    forall i :: 0 <= i < |pairs| ==> pairs[i].count >= 1
  }

  /** `m` is the largest count, 0 for none. */
  ghost predicate IsMax(pairs: seq<Pair>, m: int) {
    && (forall i :: 0 <= i < |pairs| ==> pairs[i].count <= m)
    && (if pairs == [] then m == 0 else exists i :: 0 <= i < |pairs| && pairs[i].count == m)
  }

  /** Sorted, each token once, every count positive, total and largest exact. */
  ghost predicate Exact(p: Part) {
    Strict(p.pairs) && Positive(p.pairs) && p.sum == Sum(p.pairs) && IsMax(p.pairs, p.max)
  }

  lemma CountPush(s: seq<Pair>, p: Pair, t: Token)
    ensures Count(s + [p], t) == Count(s, t) + if p.token == t then p.count else 0
  {
    assert (s + [p])[..|s|] == s;
  }

  lemma {:induction false} CountAppend(a: seq<Pair>, b: seq<Pair>, t: Token)
    ensures Count(a + b, t) == Count(a, t) + Count(b, t)
    ensures Sum(a + b) == Sum(a) + Sum(b)
  {
    if b == [] {
      assert a + b == a;
    } else {
      CountAppend(a, b[..|b| - 1], t);
      assert (a + b)[..|a + b| - 1] == a + b[..|b| - 1];
    }
  }

  /** A sequence around its element `i`. */
  lemma CountSplit(pairs: seq<Pair>, i: nat, t: Token)
    requires i < |pairs|
    ensures Count(pairs, t)
            == Count(pairs[..i], t) + (if pairs[i].token == t then pairs[i].count else 0) + Count(pairs[i + 1..], t)
    ensures Sum(pairs) == Sum(pairs[..i]) + pairs[i].count + Sum(pairs[i + 1..])
  {
    assert pairs == pairs[..i] + [pairs[i]] + pairs[i + 1..];
    CountAppend(pairs[..i] + [pairs[i]], pairs[i + 1..], t);
    CountAppend(pairs[..i], [pairs[i]], t);
    assert Count([pairs[i]], t) == if pairs[i].token == t then pairs[i].count else 0 by {
      assert [pairs[i]][..0] == [];
    }
  }

  lemma {:induction false} CountAbsent(pairs: seq<Pair>, t: Token)
    requires forall i :: 0 <= i < |pairs| ==> pairs[i].token != t
    ensures Count(pairs, t) == 0
  {
    if pairs != [] { CountAbsent(pairs[..|pairs| - 1], t); }
  }

  lemma CountStrict(pairs: seq<Pair>, i: nat)
    requires Strict(pairs) && i < |pairs|
    ensures Count(pairs, pairs[i].token) == pairs[i].count
  {
    var t := pairs[i].token;
    CountSplit(pairs, i, t);
    CountAbsent(pairs[..i], t);
    CountAbsent(pairs[i + 1..], t);
  }

  /** Binary search for where `t` stands or belongs, in a number of rounds
      fixed by the length. */
  method LowerBound(pairs: seq<Pair>, t: Token) returns (i: nat)
    requires Ascending(pairs)
    ensures i <= |pairs|
    ensures forall j :: 0 <= j < i ==> pairs[j].token < t
    ensures forall j :: i <= j < |pairs| ==> t <= pairs[j].token
  {
    if pairs == [] { return 0; }
    var base, n := 0, |pairs|;
    while n > 1
      invariant 0 <= base && 1 <= n && base + n <= |pairs|
      invariant base > 0 ==> pairs[base].token < t
      invariant forall j :: base + n <= j < |pairs| ==> t <= pairs[j].token
    {
      var half := n / 2;
      if pairs[base + half].token < t {
        base := base + half;
      }
      n := n - half;
    }
    i := base + if pairs[base].token < t then 1 else 0;
  }

  /** The pair of `t`, by scanning; the first if there are several. */
  function CountScan(pairs: seq<Pair>, t: Token): (r: Option<int>)
    ensures r.None? <==> forall i :: 0 <= i < |pairs| ==> pairs[i].token != t
    ensures r.Some? ==> exists i :: 0 <= i < |pairs| && pairs[i] == Pair(t, r.value)
    decreases |pairs|
  {
    if pairs == [] then None
    else if pairs[0].token == t then Some(pairs[0].count)
    else
      var r := CountScan(pairs[1..], t);
      assert forall i :: 0 < i < |pairs| ==> pairs[i] == pairs[1..][i - 1];
      r
  }

  lemma {:induction false} CountScanAt(pairs: seq<Pair>, t: Token, i: nat)
    requires i < |pairs| && pairs[i].token == t && forall j :: 0 <= j < i ==> pairs[j].token != t
    ensures CountScan(pairs, t) == Some(pairs[i].count)
  {
    if i > 0 { CountScanAt(pairs[1..], t, i - 1); }
  }

  method CountIn(pairs: seq<Pair>, t: Token) returns (r: Option<int>)
    requires Ascending(pairs)
    ensures r == CountScan(pairs, t)
  {
    var i := LowerBound(pairs, t);
    if i < |pairs| && pairs[i].token == t {
      CountScanAt(pairs, t, i);
      return Some(pairs[i].count);
    }
    return None;
  }

  /** `c` more of `t`: the count in place, or a new pair in its place. */
  method Add(p: Part, t: Token, c: int) returns (q: Part)
    requires Exact(p) && c >= 1
    ensures Exact(q) && q.pairs != [] && q.sum == p.sum + c
    ensures forall x: Token :: Count(q.pairs, x) == Count(p.pairs, x) + if x == t then c else 0
  {
    hide Sum, Count;
    var i := LowerBound(p.pairs, t);
    var pairs: seq<Pair>;
    if i < |p.pairs| && p.pairs[i].token == t {
      pairs := p.pairs[i := Pair(t, p.pairs[i].count + c)];
      AddedTo(p.pairs, i, c, p.max);
    } else {
      pairs := p.pairs[..i] + [Pair(t, c)] + p.pairs[i..];
      Inserted(p.pairs, i, Pair(t, c), p.max);
    }
    q := Part(pairs, p.sum + c, Max(p.max, pairs[i].count));
  }

  /** Every pair's count added, in order. */
  method AddAll(p: Part, more: seq<Pair>) returns (q: Part)
    requires Exact(p) && Positive(more)
    ensures Exact(q) && (p.pairs != [] || more != [] ==> q.pairs != [])
    ensures forall x: Token :: Count(q.pairs, x) == Count(p.pairs, x) + Count(more, x)
  {
    hide Exact;
    q := p;
    for i := 0 to |more|
      invariant Exact(q) && (p.pairs != [] || i > 0 ==> q.pairs != [])
      invariant forall x: Token :: Count(q.pairs, x) == Count(p.pairs, x) + Count(more[..i], x)
    {
      q := Add(q, more[i].token, more[i].count);
      assert more[..i + 1][..i] == more[..i];
    }
    assert more[..|more|] == more;
  }

  lemma AddedTo(pairs: seq<Pair>, i: nat, c: int, m: int)
    requires i < |pairs| && Strict(pairs) && Positive(pairs) && c >= 1 && IsMax(pairs, m)
    ensures var q := pairs[i := Pair(pairs[i].token, pairs[i].count + c)];
            && Strict(q) && Positive(q) && IsMax(q, Max(m, q[i].count)) && Sum(q) == Sum(pairs) + c
            && forall x: Token :: Count(q, x) == Count(pairs, x) + if x == pairs[i].token then c else 0
  {
    hide Sum, Count;
    AddedMax(pairs, i, c, m);
    AddedCounts(pairs, i, c);
  }

  lemma AddedCounts(pairs: seq<Pair>, i: nat, c: int)
    requires i < |pairs|
    ensures var q := pairs[i := Pair(pairs[i].token, pairs[i].count + c)];
            && Sum(q) == Sum(pairs) + c
            && forall x: Token :: Count(q, x) == Count(pairs, x) + if x == pairs[i].token then c else 0
  {
    hide Sum, Count;
    var q := pairs[i := Pair(pairs[i].token, pairs[i].count + c)];
    assert q[..i] == pairs[..i] && q[i + 1..] == pairs[i + 1..];
    forall x: Token
      ensures Count(q, x) == Count(pairs, x) + if x == pairs[i].token then c else 0
    {
      CountSplit(pairs, i, x);
      CountSplit(q, i, x);
    }
    CountSplit(pairs, i, 0);
    CountSplit(q, i, 0);
  }

  lemma AddedMax(pairs: seq<Pair>, i: nat, c: int, m: int)
    requires i < |pairs| && c >= 1 && IsMax(pairs, m)
    ensures var q := pairs[i := Pair(pairs[i].token, pairs[i].count + c)];
            IsMax(q, Max(m, q[i].count))
  {
    var j :| 0 <= j < |pairs| && pairs[j].count == m;
    var q := pairs[i := Pair(pairs[i].token, pairs[i].count + c)];
    assert q[if m <= q[i].count then i else j].count == Max(m, q[i].count);
  }

  lemma Inserted(pairs: seq<Pair>, i: nat, p: Pair, m: int)
    requires i <= |pairs| && Strict(pairs) && Positive(pairs) && p.count >= 1 && IsMax(pairs, m)
    requires forall j :: 0 <= j < i ==> pairs[j].token < p.token
    requires forall j :: i <= j < |pairs| ==> p.token < pairs[j].token
    ensures var q := pairs[..i] + [p] + pairs[i..];
            && Strict(q) && Positive(q) && IsMax(q, Max(m, q[i].count)) && Sum(q) == Sum(pairs) + p.count
            && forall x: Token :: Count(q, x) == Count(pairs, x) + if x == p.token then p.count else 0
  {
    hide Sum, Count, Strict, IsMax;
    InsertedStrict(pairs, i, p);
    InsertedMax(pairs, i, p, m);
    InsertedCounts(pairs, i, p);
  }

  lemma InsertedStrict(pairs: seq<Pair>, i: nat, p: Pair)
    requires i <= |pairs| && Strict(pairs)
    requires forall j :: 0 <= j < i ==> pairs[j].token < p.token
    requires forall j :: i <= j < |pairs| ==> p.token < pairs[j].token
    ensures Strict(pairs[..i] + [p] + pairs[i..])
  {
    var q := pairs[..i] + [p] + pairs[i..];
    assert forall j :: 0 <= j < i ==> q[j] == pairs[j];
    assert forall j :: i < j < |q| ==> q[j] == pairs[j - 1];
  }

  lemma InsertedMax(pairs: seq<Pair>, i: nat, p: Pair, m: int)
    requires i <= |pairs| && p.count >= 1 && IsMax(pairs, m)
    ensures IsMax(pairs[..i] + [p] + pairs[i..], Max(m, p.count))
  {
    var q := pairs[..i] + [p] + pairs[i..];
    assert q[i] == p;
    if p.count < m {
      var j :| 0 <= j < |pairs| && pairs[j].count == m;
      assert q[if j < i then j else j + 1].count == m;
    }
  }

  lemma InsertedCounts(pairs: seq<Pair>, i: nat, p: Pair)
    requires i <= |pairs|
    ensures var q := pairs[..i] + [p] + pairs[i..];
            && Sum(q) == Sum(pairs) + p.count
            && forall x: Token :: Count(q, x) == Count(pairs, x) + if x == p.token then p.count else 0
  {
    hide Sum, Count;
    var q := pairs[..i] + [p] + pairs[i..];
    assert q[..i] == pairs[..i] && q[i + 1..] == pairs[i..] && pairs == pairs[..i] + pairs[i..];
    forall x: Token
      ensures Count(q, x) == Count(pairs, x) + if x == p.token then p.count else 0
    {
      CountSplit(q, i, x);
      CountAppend(pairs[..i], pairs[i..], x);
    }
    CountSplit(q, i, 0);
    CountAppend(pairs[..i], pairs[i..], 0);
  }

  /** The counts determine the pairs, their total and their largest. */
  lemma {:induction false} SameCounts(a: seq<Pair>, b: seq<Pair>)
    requires Strict(a) && Strict(b) && Positive(a) && Positive(b)
    requires forall t: Token :: Count(a, t) == Count(b, t)
    ensures a == b
  {
    if a == [] || b == [] {
      if a != [] { CountStrict(a, 0); }
      if b != [] { CountStrict(b, 0); }
    } else {
      SameLast(a, b);
      var a', b' := a[..|a| - 1], b[..|b| - 1];
      forall t: Token
        ensures Count(a', t) == Count(b', t)
      {
        assert Count(a, t) == Count(b, t);
      }
      SameCounts(a', b');
      assert a == a' + [a[|a| - 1]] && b == b' + [b[|b| - 1]];
    }
  }

  lemma SameLast(a: seq<Pair>, b: seq<Pair>)
    requires Strict(a) && Strict(b) && Positive(a) && Positive(b) && a != [] && b != []
    requires forall t: Token :: Count(a, t) == Count(b, t)
    ensures a[|a| - 1] == b[|b| - 1]
  {
    var x, y := a[|a| - 1], b[|b| - 1];
    CountStrict(a, |a| - 1);
    CountStrict(b, |b| - 1);
    hide Count;
    if x.token < y.token { CountAbsent(a, y.token); }
    if y.token < x.token { CountAbsent(b, x.token); }
  }

  lemma SamePart(p: Part, q: Part)
    requires Exact(p) && Exact(q) && forall t: Token :: Count(p.pairs, t) == Count(q.pairs, t)
    ensures p == q
  {
    SameCounts(p.pairs, q.pairs);
  }
}
