/** The prompt lookup drafter: the context's last n tokens found earlier in
    the context through an index, and what followed them there proposed. */
module Lookup {
  import opened Common
  import opened LookupTable

  datatype Pick = First | Latest

  /** The context's last `n` tokens also stand at `s`, with a token after them. */
  predicate Matches(tokens: seq<Token>, n: nat, s: nat) {
    s + n < |tokens| && tokens[s..s + n] == tokens[|tokens| - n..]
  }

  /** The scan the index replaces: the first match at or after `s`. */
  function ScanFirst(tokens: seq<Token>, n: nat, s: nat): (r: Option<nat>)
    ensures r.None? ==> forall x: nat :: s <= x ==> !Matches(tokens, n, x)
    ensures r.Some? ==> Matches(tokens, n, r.value) && s <= r.value
    ensures r.Some? ==> forall x: nat :: s <= x < r.value ==> !Matches(tokens, n, x)
    decreases |tokens| - s
  {
    if s + n >= |tokens| then None
    else if Matches(tokens, n, s) then Some(s)
    else ScanFirst(tokens, n, s + 1)
  }

  /** The latest match below `s`. */
  function ScanLatest(tokens: seq<Token>, n: nat, s: nat): (r: Option<nat>)
    ensures r.None? ==> forall x: nat :: x < s ==> !Matches(tokens, n, x)
    ensures r.Some? ==> Matches(tokens, n, r.value) && r.value < s
    ensures r.Some? ==> forall x: nat :: r.value < x < s ==> !Matches(tokens, n, x)
  {
    if s == 0 then None
    else if Matches(tokens, n, s - 1) then Some(s - 1)
    else ScanLatest(tokens, n, s - 1)
  }

  function Scan(tokens: seq<Token>, n: nat, pick: Pick): (r: Option<nat>)
    ensures r.None? <==> forall x: nat :: !Matches(tokens, n, x)
    ensures r.Some? ==> Matches(tokens, n, r.value)
  {
    match pick
    case First => ScanFirst(tokens, n, 0)
    case Latest => ScanLatest(tokens, n, |tokens|)
  }

  /** Up to `k` tokens from position `from`. */
  function CopyFrom(tokens: seq<Token>, from: nat, k: nat): seq<Token>
    requires from <= |tokens|
  {
    tokens[from..Min(from + k, |tokens|)]
  }

  /** `d` is a copy, of up to `k` tokens, of what followed the first or the
      latest earlier occurrence of the last `n` tokens. */
  ghost predicate Earlier(tokens: seq<Token>, n: nat, k: nat, pick: Pick, d: seq<Token>) {
    exists s: nat ::
      && Matches(tokens, n, s)
      && (forall x: nat :: Matches(tokens, n, x) ==> if pick.First? then s <= x else x <= s)
      && |d| == Min(k, |tokens| - s - n) && forall i :: 0 <= i < |d| ==> d[i] == tokens[s + n + i]
  }

  /** Drafting by scanning the whole context: the longest n-gram of `lo` to
      `hi` tokens that occurred before, and what followed it. */
  function NaiveDraft(tokens: seq<Token>, k: nat, lo: nat, hi: nat, pick: Pick): (r: (seq<Token>, nat))
    requires lo >= 1
    ensures |r.0| <= k
  {
    if k == 0 || hi < lo then ([], 0)
    else match Scan(tokens, hi, pick)
         case Some(s) => (CopyFrom(tokens, s + hi, k), hi)
         case None => NaiveDraft(tokens, k, lo, hi - 1, pick)
  }

  /** The last `n` tokens stand nowhere earlier. */
  ghost predicate New(tokens: seq<Token>, n: nat) {
    forall s: nat :: !Matches(tokens, n, s)
  }

  lemma NoScan(tokens: seq<Token>, n: nat, pick: Pick)
    ensures Scan(tokens, n, pick).None? <==> New(tokens, n)
  {
    hide Matches;
  }

  /** The draft follows an earlier occurrence of its n tokens, and no longer
      n-gram occurred before; there is none only where no n-gram did. */
  ghost predicate Longest(tokens: seq<Token>, k: nat, lo: nat, hi: int, pick: Pick, r: (seq<Token>, nat)) {
    && (forall n :: Max(lo, r.1 + 1) <= n <= hi ==> New(tokens, n))
    && (if r.1 == 0 then r.0 == [] else lo <= r.1 <= hi && Earlier(tokens, r.1, k, pick, r.0))
  }

  /** What the naive search means. */
  lemma {:induction false} DraftIsLongest(tokens: seq<Token>, k: nat, lo: nat, hi: nat, pick: Pick)
    requires lo >= 1 && k > 0
    ensures Longest(tokens, k, lo, hi, pick, NaiveDraft(tokens, k, lo, hi, pick))
    decreases hi
  {
    hide NaiveDraft, Earlier, New, Longest;
    NaiveStep(tokens, k, lo, hi, pick);
    var r := NaiveDraft(tokens, k, lo, hi, pick);
    if hi >= lo && New(tokens, hi) {
      DraftIsLongest(tokens, k, lo, hi - 1, pick);
      LongestOn(tokens, k, lo, hi, pick, r);
    } else {
      LongestHere(tokens, k, lo, hi, pick, r);
    }
  }

  lemma LongestOn(tokens: seq<Token>, k: nat, lo: nat, hi: nat, pick: Pick, r: (seq<Token>, nat))
    requires 1 <= lo <= hi && New(tokens, hi) && Longest(tokens, k, lo, hi - 1, pick, r)
    ensures Longest(tokens, k, lo, hi, pick, r)
  {
    hide Earlier, New;
  }

  lemma LongestHere(tokens: seq<Token>, k: nat, lo: nat, hi: nat, pick: Pick, r: (seq<Token>, nat))
    requires lo >= 1
    requires if hi < lo then r == ([], 0) else r.1 == hi && Earlier(tokens, hi, k, pick, r.0)
    ensures Longest(tokens, k, lo, hi, pick, r)
  {
    hide Earlier, New;
  }

  lemma NaiveStep(tokens: seq<Token>, k: nat, lo: nat, hi: nat, pick: Pick)
    requires lo >= 1 && k > 0
    ensures var (d, found) := NaiveDraft(tokens, k, lo, hi, pick);
            if hi < lo then (d, found) == ([], 0)
            else if New(tokens, hi) then (d, found) == NaiveDraft(tokens, k, lo, hi - 1, pick)
            else found == hi && Earlier(tokens, hi, k, pick, d)
  {
    hide Scan, CopyFrom, Matches, Earlier, New;
    if hi >= lo {
      NoScan(tokens, hi, pick);
      match Scan(tokens, hi, pick)
      case Some(s) => CopyIsEarlier(tokens, hi, k, pick, s);
      case None =>
    }
  }

  lemma CopyIsEarlier(tokens: seq<Token>, n: nat, k: nat, pick: Pick, s: nat)
    requires Scan(tokens, n, pick) == Some(s)
    ensures s + n <= |tokens| && Earlier(tokens, n, k, pick, CopyFrom(tokens, s + n, k))
  {
    ScanEnds(tokens, n, pick);
    hide Scan;
  }

  /** The first match, or the latest. */
  lemma ScanEnds(tokens: seq<Token>, n: nat, pick: Pick)
    ensures var found := Scan(tokens, n, pick);
            found.Some? ==> forall x: nat :: Matches(tokens, n, x) ==>
                                               if pick.First? then found.value <= x else x <= found.value
  {
  }

  /** `d` is a copy of what followed an earlier occurrence of the last `n` tokens. */
  ghost predicate IsCopy(tokens: seq<Token>, n: nat, k: nat, d: seq<Token>) {
    exists s: nat :: Matches(tokens, n, s) && d == CopyFrom(tokens, s + n, k) && d != []
  }

  /** No earlier n-gram shares its key with the context's last n-gram
      without being equal to it. */
  ghost predicate TailKeysDistinct(tokens: seq<Token>, lo: nat, hi: nat, key: seq<Token> -> Key) {
    forall n: nat, s: nat :: lo <= n <= hi && n <= |tokens| && Occurs(tokens, n, key, key(tokens[|tokens| - n..]), s)
                             ==> Matches(tokens, n, s)
  }

  /** The n-gram at `s` has key `k` and a token after it. */
  ghost predicate Occurs(tokens: seq<Token>, n: nat, key: seq<Token> -> Key, k: Key, s: nat) {
    s + n < |tokens| && key(tokens[s..s + n]) == k
  }

  /** The table maps each n-gram's key to its first and last occurrence. */
  ghost predicate Indexed(view: map<Key, Slot>, tokens: seq<Token>, n: nat, key: seq<Token> -> Key) {
    && (forall k :: k in view ==>
                      Occurs(tokens, n, key, k, view[k].first) && Occurs(tokens, n, key, k, view[k].last))
    && (forall s: nat, k :: Occurs(tokens, n, key, k, s) ==> k in view && view[k].first <= s <= view[k].last)
  }

  lemma OccursPush(tokens: seq<Token>, t: Token, n: nat, key: seq<Token> -> Key, k: Key, s: nat)
    ensures Occurs(tokens + [t], n, key, k, s) <==>
            Occurs(tokens, n, key, k, s) || (s + n == |tokens| && key(tokens[s..]) == k)
  {
    if s + n <= |tokens| {
      assert (tokens + [t])[s..s + n] == tokens[s..s + n];
      assert s + n == |tokens| ==> tokens[s..s + n] == tokens[s..];
    }
  }

  /** A new token completes the occurrence of the n-gram just before it. */
  lemma IndexedPush(view: map<Key, Slot>, tokens: seq<Token>, t: Token, n: nat, key: seq<Token> -> Key)
    requires n >= 1 && Indexed(view, tokens, n, key)
    ensures |tokens| < n ==> Indexed(view, tokens + [t], n, key)
    ensures n <= |tokens| ==>
              var s := |tokens| - n;
              Indexed(Noted(view, key(tokens[s..]), s), tokens + [t], n, key)
  {
    forall k, s: nat
      ensures Occurs(tokens + [t], n, key, k, s) <==>
              Occurs(tokens, n, key, k, s) || (s + n == |tokens| && key(tokens[s..]) == k)
    {
      OccursPush(tokens, t, n, key, k, s);
    }
  }

  /** What a hit proves: the indexed occurrence is the scan's. */
  lemma HitIsScan(view: map<Key, Slot>, tokens: seq<Token>, n: nat, key: seq<Token> -> Key, pick: Pick)
    requires 1 <= n < |tokens| && Indexed(view, tokens, n, key)
    requires key(tokens[|tokens| - n..]) in view
    ensures var slot := view[key(tokens[|tokens| - n..])];
            var s := if pick == First then slot.first else slot.last;
            && Occurs(tokens, n, key, key(tokens[|tokens| - n..]), s)
            && (Matches(tokens, n, s) ==> Scan(tokens, n, pick) == Some(s))
  {
    var k := key(tokens[|tokens| - n..]);
    forall x: nat | Matches(tokens, n, x)
      ensures view[k].first <= x <= view[k].last
    {
      assert Occurs(tokens, n, key, k, x);
    }
  }

  /** What a miss proves: there is nothing for the scan to find. */
  lemma MissIsScan(view: map<Key, Slot>, tokens: seq<Token>, n: nat, key: seq<Token> -> Key, pick: Pick)
    requires n >= 1 && Indexed(view, tokens, n, key)
    requires n <= |tokens| ==> key(tokens[|tokens| - n..]) !in view
    ensures Scan(tokens, n, pick).None?
  {
    forall x: nat | Matches(tokens, n, x)
      ensures false
    {
      assert Occurs(tokens, n, key, key(tokens[|tokens| - n..]), x);
    }
  }


  /** A place that has the tail's key without its tokens. */
  lemma KeysMeet(tokens: seq<Token>, lo: nat, hi: nat, n: nat, key: seq<Token> -> Key, s: nat)
    requires 1 <= lo <= n <= hi && n <= |tokens| && Occurs(tokens, n, key, key(tokens[|tokens| - n..]), s)
    ensures s + n < |tokens| && (TailKeysDistinct(tokens, lo, hi, key) ==> Matches(tokens, n, s))
  {
  }

  class Index {
    var tokens: seq<Token>
    const tables: seq<Table>
    const minN: nat
    const maxN: nat
    const pick: Pick
    const key: seq<Token> -> Key

    ghost predicate Valid()
      reads this, tables
    {
      && Shape()
      && (forall i :: minN - 1 <= i < |tables| ==> Indexed(tables[i].View(), tokens, i + 1, key))
    }

    ghost predicate Shape()
      reads this, tables
    {
      && 1 <= minN <= maxN == |tables|
      && (forall g :: key(g) != 0)
      && (forall i, j :: 0 <= i < j < |tables| ==> tables[i] != tables[j])
      && (forall i :: 0 <= i < |tables| ==> tables[i].Valid())
    }

    /** n-grams of at least one token, and a range that is not empty. */
    constructor (minN: nat, maxN: nat, pick: Pick, key: seq<Token> -> Key)
      requires forall g :: key(g) != 0
      ensures Valid() && tokens == [] && fresh(tables)
      ensures this.minN == Max(minN, 1) && this.maxN == Max(maxN, this.minN)
      ensures this.pick == pick && this.key == key
    {
      hide Holds, ViewOf;
      var lo := Max(minN, 1);
      var hi := Max(maxN, lo);
      var ts: seq<Table> := [];
      while |ts| < hi
        invariant |ts| <= hi
        invariant forall i :: 0 <= i < |ts| ==> fresh(ts[i]) && ts[i].Valid() && ts[i].View() == map[]
        invariant forall i, j :: 0 <= i < j < |ts| ==> ts[i] != ts[j]
      {
        var t := new Table();
        ts := ts + [t];
      }
      this.tokens, this.tables, this.minN, this.maxN, this.pick, this.key := [], ts, lo, hi, pick, key;
    }

    /** A token appended. The n-grams that end at its left neighbour gain a
        follower by it, and enter the index. */
    method Push(t: Token)
      requires Valid() && |tokens| < U32
      modifies this, tables
      ensures Valid() && tokens == old(tokens) + [t]
    {
      hide Holds, ViewOf, Indexed, Noted;
      var at := |tokens|;
      for n := minN to maxN + 1
        invariant Shape() && tokens == old(tokens)
        invariant forall i :: minN - 1 <= i < n - 1 ==> Indexed(tables[i].View(), tokens + [t], i + 1, key)
        invariant forall i :: n - 1 <= i < |tables| ==> Indexed(tables[i].View(), tokens, i + 1, key)
      {
        IndexedPush(tables[n - 1].View(), tokens, t, n, key);
        if at >= n {
          var s := at - n;
          assert tokens[s..at] == tokens[s..];
          tables[n - 1].Note(key(tokens[s..at]), s);
        }
      }
      tokens := tokens + [t];
    }

    method Extend(ts: seq<Token>)
      requires Valid() && |tokens| + |ts| <= U32
      modifies this, tables
      ensures Valid() && tokens == old(tokens) + ts
    {
      for i := 0 to |ts|
        invariant Valid() && tokens == old(tokens) + ts[..i]
      {
        Push(ts[i]);
      }
    }

    /** Where the context's last `n` tokens stood before, through the index.
        Two n-grams can share a key, so the place found is read again. */
    method Recall(n: nat) returns (r: Option<nat>)
      requires Valid() && minN <= n <= maxN
      ensures r.Some? ==> Matches(tokens, n, r.value) && r == Scan(tokens, n, pick)
      ensures r.None? && TailKeysDistinct(tokens, minN, maxN, key) ==> Scan(tokens, n, pick).None?
    {
      hide Holds, ViewOf, Indexed, Scan, Occurs, TailKeysDistinct;
      var len := |tokens|;
      ghost var view := tables[n - 1].View();
      assert Indexed(view, tokens, n, key);
      if len < n + 1 {
        return None;
      }
      var hit := tables[n - 1].Find(key(tokens[len - n..]));
      if hit.None? {
        MissIsScan(view, tokens, n, key, pick);
        return None;
      }
      HitIsScan(view, tokens, n, key, pick);
      var s := if pick == First then hit.value.first else hit.value.last;
      KeysMeet(tokens, minN, maxN, n, key, s);
      return if tokens[s..s + n] == tokens[len - n..] then Some(s) else None;
    }

    /** A copy of what came after an earlier occurrence of the context's
        tail, the longest tail that has one; and that tail's length. */
    method Draft(k: nat) returns (d: seq<Token>, n: nat)
      requires Valid()
      ensures |d| <= k && (n == 0 <==> d == [])
      ensures n != 0 ==> minN <= n <= maxN && IsCopy(tokens, n, k, d)
      ensures TailKeysDistinct(tokens, minN, maxN, key) ==> (d, n) == NaiveDraft(tokens, k, minN, maxN, pick)
    {
      hide Indexed, TailKeysDistinct, Scan;
      if k == 0 { return [], 0; }
      n := maxN;
      while n >= minN
        invariant minN - 1 <= n <= maxN
        invariant TailKeysDistinct(tokens, minN, maxN, key) ==>
                    NaiveDraft(tokens, k, minN, maxN, pick) == NaiveDraft(tokens, k, minN, n, pick)
      {
        var s := Recall(n);
        if s.Some? {
          return CopyFrom(tokens, s.value + n, k), n;
        }
        n := n - 1;
      }
      return [], 0;
    }
  }
}
