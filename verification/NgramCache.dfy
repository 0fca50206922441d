/** A cache that learns n-grams. Entries are appended to a list; a hash table
    beside it holds their positions. */
module NgramCache {
  import opened Common
  import opened Probing
  import opened IndexTable
  import opened Followers

  const NGRAM_MAX := 4
  const NULL: Token := -1
  const FIRST_SIZE := 1024

  /** Up to four tokens, the unused positions `NULL`. */
  type Key = k: seq<Token> | |k| == NGRAM_MAX witness [NULL, NULL, NULL, NULL]

  function KeyOf(tokens: seq<Token>): Key
    requires |tokens| <= NGRAM_MAX
  {
    tokens + seq(NGRAM_MAX - |tokens|, _ => NULL)
  }

  /** A key is the n-gram and -1 behind it. */
  lemma KeyOfPads(tokens: seq<Token>, i: nat)
    requires |tokens| <= NGRAM_MAX && i < NGRAM_MAX
    ensures KeyOf(tokens)[i] == if i < |tokens| then tokens[i] else -1
  {
  }

  /** Keys tell n-grams apart, whatever their lengths, as long as no token is `NULL`. */
  lemma KeyOfInjective(a: seq<Token>, b: seq<Token>)
    requires |a| <= NGRAM_MAX && |b| <= NGRAM_MAX && NULL !in a && NULL !in b
    ensures KeyOf(a) == KeyOf(b) <==> a == b
  {
    assert |a| < |b| ==> KeyOf(a)[|a|] == NULL && KeyOf(b)[|a|] == b[|a|];
    assert |b| < |a| ==> KeyOf(b)[|b|] == NULL && KeyOf(a)[|b|] == a[|b|];
    if KeyOf(a) == KeyOf(b) {
      assert a == KeyOf(a)[..|a|] && b == KeyOf(b)[..|b|];
    }
  }

  datatype Entry = Entry(key: Key, part: Part)

  /** How often `t` followed the n-gram of key `k`. */
  function Tally(entries: seq<Entry>, k: Key, t: Token): int {
    if entries == [] then 0
    else
      var e := entries[|entries| - 1];
      Tally(entries[..|entries| - 1], k, t) + if e.key == k then Count(e.part.pairs, t) else 0
  }

  lemma TallyPush(entries: seq<Entry>, e: Entry, k: Key, t: Token)
    ensures Tally(entries + [e], k, t) == Tally(entries, k, t) + if e.key == k then Count(e.part.pairs, t) else 0
  {
    assert (entries + [e])[..|entries|] == entries;
  }

  lemma {:induction false} TallyUpdate(entries: seq<Entry>, i: nat, p: Part, k: Key, t: Token)
    requires i < |entries|
    ensures Tally(entries[i := entries[i].(part := p)], k, t) == Tally(entries, k, t)
            + if entries[i].key == k then Count(p.pairs, t) - Count(entries[i].part.pairs, t) else 0
  {
    var l, us := |entries| - 1, entries[i := entries[i].(part := p)];
    if i == l {
      assert us[..l] == entries[..l];
    } else {
      TallyUpdate(entries[..l], i, p, k, t);
      assert us[..l] == entries[..l][i := entries[i].(part := p)];
    }
  }

  /** Finding by scanning, which the table replaces. */
  function Scan(entries: seq<Entry>, k: Key): (r: Option<Part>)
    ensures r.None? <==> forall e :: e in entries ==> e.key != k
    ensures r.Some? ==> Entry(k, r.value) in entries
  {
    if entries == [] then None
    else if entries[|entries| - 1].key == k then Some(entries[|entries| - 1].part)
    else
      assert forall e :: e in entries ==> e in entries[..|entries| - 1] || e == entries[|entries| - 1];
      Scan(entries[..|entries| - 1], k)
  }

  ghost function KeyList(entries: seq<Entry>): (ks: seq<Key>)
    ensures |ks| == |entries| && forall e :: 0 <= e < |ks| ==> ks[e] == entries[e].key
  {
    seq(|entries|, e requires 0 <= e < |entries| => entries[e].key)
  }

  /** Every part exact, none without followers. */
  ghost predicate AllExact(entries: seq<Entry>) {
    forall e :: 0 <= e < |entries| ==> Exact(entries[e].part) && entries[e].part.pairs != []
  }

  /** The probe loop: the slot that leads to `k`, or the empty slot that ends its run. */
  method Walk(slots: seq<nat>, entries: seq<Entry>, hash: Key -> nat, k: Key) returns (i: nat)
    requires IsPow2(|slots|) && Taken(KeysOf(slots, KeyList(entries))) < |slots| && InRange(slots, |entries|)
    ensures Walked(KeysOf(slots, KeyList(entries)), hash, k, i) && i < |slots|
    ensures slots[i] == 0 || (slots[i] <= |entries| && entries[slots[i] - 1].key == k)
  {
    ghost var keys := KeyList(entries);
    i := Home(hash, k, |slots|);
    while slots[i] != 0 && entries[slots[i] - 1].key != k
      invariant i < |slots| && Walked(KeysOf(slots, keys), hash, k, i)
      decreases |slots| - Dist(Home(hash, k, |slots|), i, |slots|)
    {
      Pass(slots, keys, hash, k, i);
      i := Next(i, |slots|);
    }
  }

  /** The rehash loop: the first empty slot of the run for a key no slot leads to. */
  method WalkFree(slots: seq<nat>, ghost keys: seq<Key>, hash: Key -> nat, k: Key) returns (i: nat)
    requires IsPow2(|slots|) && Taken(KeysOf(slots, keys)) < |slots| && InRange(slots, |keys|) && k !in keys
    ensures Walked(KeysOf(slots, keys), hash, k, i) && i < |slots| && slots[i] == 0
  {
    i := Home(hash, k, |slots|);
    while slots[i] != 0
      invariant i < |slots| && Walked(KeysOf(slots, keys), hash, k, i)
      decreases |slots| - Dist(Home(hash, k, |slots|), i, |slots|)
    {
      Pass(slots, keys, hash, k, i);
      i := Next(i, |slots|);
    }
  }

  lemma FirstSize()
    ensures IsPow2(FIRST_SIZE)
  {
    assert FIRST_SIZE == Pow2(10);
  }

  class Cache {
    var slots: seq<nat>
    var entries: seq<Entry>
    const hash: Key -> nat
    ghost var at: map<Key, nat>

    /** The table is sound; parts may be mid-update. */
    ghost predicate Sound()
      reads this
    {
      && (slots == [] ==> entries == [])
      && (slots != [] ==> Leads(slots, KeyList(entries), hash, at))
      && 2 * |entries| <= |slots|
    }

    ghost predicate Valid()
      reads this
    {
      Sound() && AllExact(entries)
    }

    constructor (hash: Key -> nat)
      ensures Valid() && entries == [] && this.hash == hash
    {
      slots, entries, at := [], [], map[];
      this.hash := hash;
    }

    method Find(k: Key) returns (r: Option<Part>)
      requires Valid()
      ensures r == Scan(entries, k)
    {
      hide Leads, Walked, AllExact, Once, Scan;
      if slots == [] {
        ScanAbsent(entries, k);
        return None;
      }
      ghost var keys := KeyList(entries);
      LeadsRoom(slots, keys, hash, at);
      LeadsOnce(slots, keys, hash, at);
      var i := Walk(slots, entries, hash, k);
      if slots[i] == 0 {
        LeadsAbsent(slots, keys, hash, at, k, i);
        ScanAbsent(entries, k);
        return None;
      }
      ScanAt(entries, slots[i] - 1);
      return Some(entries[slots[i] - 1].part);
    }

    /** The entry of `k`, made without followers when there is none. */
    method PartOf(k: Key) returns (e: nat)
      requires Sound()
      modifies this
      ensures Sound() && e < |entries| && entries[e].key == k
      ensures entries == old(entries) || (entries == old(entries) + [Entry(k, NO_PART)] && e == |old(entries)|)
    {
      hide Leads, Walked;
      if (|entries| + 1) * 2 > |slots| {
        Grow();
      }
      ghost var keys := KeyList(entries);
      LeadsRoom(slots, keys, hash, at);
      var i := Walk(slots, entries, hash, k);
      if slots[i] != 0 {
        return slots[i] - 1;
      }
      LeadsPush(slots, keys, hash, at, k, i);
      entries := entries + [Entry(k, NO_PART)];
      assert KeyList(entries) == keys + [k];
      slots := slots[i := |entries|];
      at := at[k := i];
      return |entries| - 1;
    }

    /** Twice the slots, 1024 at least, every entry's key rehashed. */
    method Grow()
      requires Sound()
      modifies this`slots, this`at
      ensures Sound() && slots != [] && |slots| >= 2 * (|entries| + 1)
    {
      hide Walked, Leads, IsPow2, Taken;
      var size := Max(|slots| * 2, FIRST_SIZE);
      ghost var keys := KeyList(entries);
      if slots != [] {
        LeadsOnce(slots, keys, hash, at);
        DoublePow2(|slots|);
      }
      FirstSize();
      slots := seq(size, _ => 0);
      at := map[];
      LeadsNone(slots, hash);
      assert keys[..0] == [];
      for e := 0 to |entries|
        invariant |slots| == size && Leads(slots, keys[..e], hash, at)
      {
        LeadsRoom(slots, keys[..e], hash, at);
        var i := WalkFree(slots, keys[..e], hash, entries[e].key);
        LeadsPush(slots, keys[..e], hash, at, entries[e].key, i);
        assert keys[..e + 1] == keys[..e] + [keys[e]];
        slots := slots[i := e + 1];
        at := at[entries[e].key := i];
      }
      assert keys[..|entries|] == keys;
    }

    /** The followers `more` added to those of key `k`. */
    method Absorb(k: Key, more: seq<Pair>)
      requires Valid() && Positive(more) && more != []
      modifies this
      ensures Valid()
      ensures forall x: Key, y: Token ::
                Tally(entries, x, y) == Tally(old(entries), x, y) + if x == k then Count(more, y) else 0
      ensures (forall e :: e in old(entries) ==> e.key != k) ==>
                |entries| == |old(entries)| + 1 && entries[..|old(entries)|] == old(entries)
                && entries[|old(entries)|].key == k
    {
      hide Leads, Tally, Count, Exact;
      var e := PartOf(k);
      PartOfExact(old(entries), entries, k, e);
      PartOfTally(old(entries), entries, k);
      var p := AddAll(entries[e].part, more);
      SetTally(entries, e, p, more);
      SetPart(e, p);
    }

    /** The newest `nnew` tokens are counted, each behind every n-gram of the
        given lengths that ends where it stands. */
    method Update(tokens: seq<Token>, nnew: nat, nmin: nat, nmax: nat)
      requires Valid() && nmin >= 1
      modifies this
      ensures Valid()
      ensures forall k: Key, t: Token :: Tally(entries, k, t) == Tally(old(entries), k, t)
                + Occurrences(tokens, Max(|tokens| - nnew, 0), nmin, Min(nmax, NGRAM_MAX), k, t)
    {
      hide Tally, Leads, AllExact, Seen;
      var top, from := Min(nmax, NGRAM_MAX), Max(|tokens| - nnew, 0);
      var n := nmin;
      while n <= top
        invariant n <= Max(nmin, top + 1) && Valid()
        invariant forall k: Key, t: Token :: Tally(entries, k, t) == Tally(old(entries), k, t)
                                                                     + OccurrencesBelow(tokens, from, nmin, n, k, t)
      {
        UpdateOrder(tokens, n, from);
        n := n + 1;
      }
    }

    /** The same for n-grams of one length. */
    method UpdateOrder(tokens: seq<Token>, n: nat, from: nat)
      requires Valid() && 1 <= n <= NGRAM_MAX
      modifies this
      ensures Valid()
      ensures forall k: Key, t: Token :: Tally(entries, k, t) == Tally(old(entries), k, t)
                                                                 + Seen(tokens, n, from, |tokens|, k, t)
    {
      hide Tally, Leads, AllExact, Count, KeyOf;
      var i := Max(from, n);
      while i < |tokens|
        invariant Max(from, n) <= i && Valid()
        invariant forall k: Key, t: Token :: Tally(entries, k, t) == Tally(old(entries), k, t)
                                                                     + Seen(tokens, n, from, Min(i, |tokens|), k, t)
      {
        Absorb(KeyOf(tokens[i - n..i]), [Pair(tokens[i], 1)]);
        CountOne(tokens[i]);
        i := i + 1;
      }
    }

    /** Every count of `other` added. */
    method Merge(other: Cache)
      requires Valid() && other.Valid() && other != this
      modifies this
      ensures Valid()
      ensures forall k: Key, t: Token :: Tally(entries, k, t) == Tally(old(entries), k, t) + Tally(other.entries, k, t)
    {
      hide Leads, Count, Exact;
      for e := 0 to |other.entries|
        invariant Valid() && other.Valid()
        invariant forall k: Key, t: Token ::
                    Tally(entries, k, t) == Tally(old(entries), k, t) + Tally(other.entries[..e], k, t)
      {
        ExactPositive(other.entries[e].part);
        Absorb(other.entries[e].key, other.entries[e].part.pairs);
        assert other.entries[..e + 1][..e] == other.entries[..e];
      }
      assert other.entries[..|other.entries|] == other.entries;
    }

    method SetPart(e: nat, p: Part)
      requires Sound() && e < |entries|
      modifies this`entries
      ensures Sound() && entries == old(entries)[e := old(entries)[e].(part := p)]
    {
      hide Leads;
      assert KeyList(entries[e := entries[e].(part := p)]) == KeyList(entries);
      entries := entries[e := entries[e].(part := p)];
    }
  }

  lemma ScanAbsent(entries: seq<Entry>, k: Key)
    requires k !in KeyList(entries)
    ensures Scan(entries, k).None?
  {
    forall e | e in entries
      ensures e.key != k
    {
      var i :| 0 <= i < |entries| && entries[i] == e;
      assert KeyList(entries)[i] == e.key;
    }
  }

  lemma {:induction false} ScanAt(entries: seq<Entry>, i: nat)
    requires i < |entries| && Once(KeyList(entries))
    ensures Scan(entries, entries[i].key) == Some(entries[i].part)
  {
    var l := |entries| - 1;
    if i < l {
      assert KeyList(entries[..l]) == KeyList(entries)[..l];
      assert KeyList(entries)[i] != KeyList(entries)[l];
      ScanAt(entries[..l], i);
    }
  }

  /** A part made without followers counts for nothing. */
  lemma PartOfTally(before: seq<Entry>, after: seq<Entry>, k: Key)
    requires after == before || after == before + [Entry(k, NO_PART)]
    ensures forall x: Key, y: Token :: Tally(after, x, y) == Tally(before, x, y)
  {
    forall x: Key, y: Token
      ensures Tally(after, x, y) == Tally(before, x, y)
    {
      TallyPush(before, Entry(k, NO_PART), x, y);
    }
  }

  lemma PartOfExact(before: seq<Entry>, after: seq<Entry>, k: Key, e: nat)
    requires AllExact(before) && e < |after|
    requires after == before || (after == before + [Entry(k, NO_PART)] && e == |before|)
    ensures Exact(after[e].part)
    ensures forall x :: 0 <= x < |after| && x != e ==> Exact(after[x].part) && after[x].part.pairs != []
  {
  }

  lemma SetTally(entries: seq<Entry>, e: nat, p: Part, more: seq<Pair>)
    requires e < |entries|
    requires forall y: Token :: Count(p.pairs, y) == Count(entries[e].part.pairs, y) + Count(more, y)
    ensures forall x: Key, y: Token :: Tally(entries[e := entries[e].(part := p)], x, y)
                                       == Tally(entries, x, y) + if x == entries[e].key then Count(more, y) else 0
  {
    hide Count;
    forall x: Key, y: Token
      ensures Tally(entries[e := entries[e].(part := p)], x, y)
           == Tally(entries, x, y) + if x == entries[e].key then Count(more, y) else 0
    {
      TallyUpdate(entries, e, p, x, y);
    }
  }

  lemma ExactPositive(p: Part)
    requires Exact(p)
    ensures Positive(p.pairs)
  {
  }

  lemma CountOne(t: Token)
    ensures forall y: Token :: Count([Pair(t, 1)], y) == if y == t then 1 else 0
  {
    assert [Pair(t, 1)][..0] == [];
  }

  // ---- what the counts mean ----

  /** `t` stands at `i`, after the n-gram of key `k`. */
  predicate Follows(tokens: seq<Token>, n: nat, i: nat, k: Key, t: Token)
    requires n <= NGRAM_MAX && n <= i < |tokens|
  {
    KeyOf(tokens[i - n..i]) == k && tokens[i] == t
  }

  /** How often `t` stands after the n-gram of key `k`, at positions from `from` up to `to`. */
  function Seen(tokens: seq<Token>, n: nat, from: nat, to: nat, k: Key, t: Token): nat
    requires n <= NGRAM_MAX && to <= |tokens|
  {
    if to <= from || to <= n then 0
    else Seen(tokens, n, from, to - 1, k, t) + if Follows(tokens, n, to - 1, k, t) then 1 else 0
  }

  /** The same over every n-gram length from `nmin` to `nmax`. */
  function Occurrences(tokens: seq<Token>, from: nat, nmin: nat, nmax: int, k: Key, t: Token): nat
    requires nmax < nmin || nmax <= NGRAM_MAX
    decreases nmax
  {
    if nmax < nmin then 0
    else Occurrences(tokens, from, nmin, nmax - 1, k, t) + Seen(tokens, nmax, from, |tokens|, k, t)
  }

  /** The same below `n`. */
  function OccurrencesBelow(tokens: seq<Token>, from: nat, nmin: nat, n: nat, k: Key, t: Token): nat
    requires n <= nmin || n <= NGRAM_MAX + 1
  {
    Occurrences(tokens, from, nmin, n - 1, k, t)
  }

  /** The counts of a whole history. */
  function HistoryCount(tokens: seq<Token>, k: Key, t: Token): nat {
    Occurrences(tokens, 0, 1, NGRAM_MAX, k, t)
  }

  lemma {:induction false} SeenSplit(tokens: seq<Token>, u: Token, n: nat, to: nat, k: Key, t: Token)
    requires n <= NGRAM_MAX && to <= |tokens|
    ensures Seen(tokens + [u], n, 0, to, k, t) == Seen(tokens, n, 0, to, k, t)
  {
    hide Follows;
    if to > n {
      SeenSplit(tokens, u, n, to - 1, k, t);
      FollowsPush(tokens, u, n, to - 1, k, t);
    }
  }

  lemma FollowsPush(tokens: seq<Token>, u: Token, n: nat, i: nat, k: Key, t: Token)
    requires n <= NGRAM_MAX && n <= i < |tokens|
    ensures Follows(tokens + [u], n, i, k, t) == Follows(tokens, n, i, k, t)
  {
    hide KeyOf;
    assert (tokens + [u])[i - n..i] == tokens[i - n..i];
  }

  lemma {:induction false} OccurrencesPush(tokens: seq<Token>, u: Token, nmax: nat, k: Key, t: Token)
    requires nmax <= NGRAM_MAX
    ensures Occurrences(tokens + [u], 0, 1, nmax, k, t)
         == Occurrences(tokens, 0, 1, nmax, k, t) + Occurrences(tokens + [u], |tokens|, 1, nmax, k, t)
  {
    hide Seen;
    if nmax > 0 {
      OccurrencesPush(tokens, u, nmax - 1, k, t);
      SeenPush(tokens, u, nmax, k, t);
    }
  }

  lemma SeenPush(tokens: seq<Token>, u: Token, n: nat, k: Key, t: Token)
    requires n <= NGRAM_MAX
    ensures var all := tokens + [u];
            Seen(all, n, 0, |all|, k, t) == Seen(tokens, n, 0, |tokens|, k, t) + Seen(all, n, |tokens|, |all|, k, t)
  {
    hide Follows;
    SeenSplit(tokens, u, n, |tokens|, k, t);
    assert Seen(tokens + [u], n, |tokens|, |tokens|, k, t) == 0;
  }

  /** Counting a history and then one token more is counting the longer
      history: whole-history and one-token updates agree. */
  lemma HistoryPush(tokens: seq<Token>, u: Token, k: Key, t: Token)
    ensures HistoryCount(tokens + [u], k, t)
         == HistoryCount(tokens, k, t) + Occurrences(tokens + [u], |tokens|, 1, NGRAM_MAX, k, t)
  {
    OccurrencesPush(tokens, u, NGRAM_MAX, k, t);
  }

  /** The cache's counts are those of `tokens`. */
  ghost predicate CountsOf(entries: seq<Entry>, tokens: seq<Token>) {
    forall k: Key, t: Token :: Tally(entries, k, t) == HistoryCount(tokens, k, t)
  }

  // ---- what an n-gram's own key counts ----

  /** `t` stands at `i`, right after the tokens of `g`. */
  predicate After(tokens: seq<Token>, g: seq<Token>, i: nat, t: Token)
    requires |g| <= i < |tokens|
  {
    tokens[i - |g|..i] == g && tokens[i] == t
  }

  /** The positions from `from` up to `end` where `t` stands after `g`. */
  ghost function Places(tokens: seq<Token>, g: seq<Token>, from: nat, end: nat, t: Token): set<nat>
    requires end <= |tokens|
  {
    set i: nat | |g| <= i < end && from <= i && After(tokens, g, i, t)
  }

  lemma FollowsAfter(tokens: seq<Token>, g: seq<Token>, n: nat, i: nat, t: Token)
    requires NULL !in tokens && NULL !in g && |g| <= NGRAM_MAX && n <= NGRAM_MAX && n <= i < |tokens|
    ensures Follows(tokens, n, i, KeyOf(g), t) <==> n == |g| && After(tokens, g, i, t)
  {
    hide KeyOf;
    var h := tokens[i - n..i];
    assert NULL !in h;
    KeyOfInjective(h, g);
  }

  lemma {:induction false} SeenPlaces(tokens: seq<Token>, g: seq<Token>, n: nat, from: nat, end: nat, t: Token)
    requires NULL !in tokens && NULL !in g && |g| <= NGRAM_MAX && n <= NGRAM_MAX && end <= |tokens|
    ensures Seen(tokens, n, from, end, KeyOf(g), t) == if n == |g| then |Places(tokens, g, from, end, t)| else 0
    decreases end
  {
    hide KeyOf, Follows, After;
    if end <= from || end <= n {
      assert n == |g| ==> Places(tokens, g, from, end, t) == {};
    } else {
      var i := end - 1;
      SeenPlaces(tokens, g, n, from, i, t);
      FollowsAfter(tokens, g, n, i, t);
      if n == |g| {
        var p, q := Places(tokens, g, from, i, t), Places(tokens, g, from, end, t);
        assert q == if After(tokens, g, i, t) then p + {i} else p;
      }
    }
  }

  /** An n-gram's key counts exactly the positions where its own tokens
      stand before the follower. */
  lemma {:induction false} OccurrencesArePlaces(tokens: seq<Token>, g: seq<Token>, from: nat, nmin: nat, nmax: int,
                                                t: Token)
    requires NULL !in tokens && NULL !in g && |g| <= NGRAM_MAX && nmax <= NGRAM_MAX
    ensures Occurrences(tokens, from, nmin, nmax, KeyOf(g), t)
         == if nmin <= |g| <= nmax then |Places(tokens, g, from, |tokens|, t)| else 0
    decreases nmax
  {
    hide KeyOf, Seen, Places;
    if nmax >= nmin {
      OccurrencesArePlaces(tokens, g, from, nmin, nmax - 1, t);
      SeenPlaces(tokens, g, nmax, from, |tokens|, t);
    }
  }

  /** So does a cache that holds a history's counts. */
  lemma HistoryCountsPlaces(tokens: seq<Token>, g: seq<Token>, t: Token)
    requires NULL !in tokens && NULL !in g && 1 <= |g| <= NGRAM_MAX
    ensures HistoryCount(tokens, KeyOf(g), t) == |Places(tokens, g, 0, |tokens|, t)|
  {
    OccurrencesArePlaces(tokens, g, 0, 1, NGRAM_MAX, t);
  }
}
