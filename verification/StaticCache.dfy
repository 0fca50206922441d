/** The static cache, read once and never changed, of 2-grams only.
    All followers stand in one list; a 2-gram's place in it is packed as a
    position (high 40 bits) and a length (low 24 bits). */
module StaticCache {
  import opened Common
  import opened Probing
  import opened IndexTable
  import opened Followers
  import opened NgramCache
  import opened CacheFile

  const NGRAM_STATIC := 2
  const U32 := 0x1_0000_0000
  const LEN_END := 0x100_0000
  const POS_END := 0x100_0000_0000

  datatype Meta = Meta(key: nat, at: nat, sum: int, top: Token, topCount: int)

  datatype Static = Static(slots: seq<nat>, grams: seq<Meta>, pairs: seq<Pair>)

  const NO_STATIC := Static([], [], [])

  /** A token's 32 bits as an unsigned number. */
  function Unsigned(t: Token): nat {
    if t < 0 then t + U32 else t
  }

  /** Both tokens in 64 bits. */
  function Key2(a: Token, b: Token): nat {
    Unsigned(a) * U32 + Unsigned(b)
  }

  lemma Key2Injective(a: Token, b: Token, c: Token, d: Token)
    ensures Key2(a, b) == Key2(c, d) <==> a == c && b == d
  {
  }

  function Pack(pos: nat, len: nat): nat {
    pos * LEN_END + len
  }

  /** The packed place taken apart again. */
  function Place(at: nat): (nat, nat) {
    (at / LEN_END, at % LEN_END)
  }

  lemma PackPlace(pos: nat, len: nat)
    requires len < 0x100_0000
    ensures Pack(pos, len) == pos * 0x100_0000 + len && Place(Pack(pos, len)) == (pos, len)
  {
  }

  /** The best follower so far and its count: the first of the largest. */
  function Best(pairs: seq<Pair>): (Token, int) {
    if pairs == [] then (NULL, 0)
    else
      var (t, c) := Best(pairs[..|pairs| - 1]);
      var p := pairs[|pairs| - 1];
      if p.count > c then (p.token, p.count) else (t, c)
  }

  function RecordKey(r: Record): nat {
    Key2(r.key[0], r.key[1])
  }

  ghost predicate Within(pairs: seq<Pair>, at: nat) {
    Place(at).0 + Place(at).1 <= |pairs|
  }

  function Slice(pairs: seq<Pair>, at: nat): seq<Pair>
    requires Within(pairs, at)
  {
    var (pos, len) := Place(at);
    pairs[pos..pos + len]
  }

  /** `m` describes `r`: its key, its followers through the packed place,
      the sum of their counts and the follower in front. */
  ghost predicate Describes(m: Meta, pairs: seq<Pair>, r: Record) {
    && m.key == RecordKey(r)
    && Within(pairs, m.at) && Slice(pairs, m.at) == r.pairs
    && m.sum == Sum(r.pairs) && (m.top, m.topCount) == Best(r.pairs)
  }

  ghost predicate DescribesAll(grams: seq<Meta>, pairs: seq<Pair>, rs: seq<Record>) {
    |grams| == |rs| && forall i :: 0 <= i < |rs| ==> Describes(grams[i], pairs, rs[i])
  }

  ghost function GramKeys(grams: seq<Meta>): (ks: seq<nat>)
    ensures |ks| == |grams| && forall i :: 0 <= i < |ks| ==> ks[i] == grams[i].key
  {
    seq(|grams|, i requires 0 <= i < |grams| => grams[i].key)
  }

  /** The cache answers for exactly the records `rs`. */
  ghost predicate Answers(s: Static, hash: nat -> nat, rs: seq<Record>) {
    && DescribesAll(s.grams, s.pairs, rs)
    && (s.slots == [] ==> rs == [])
    && (s.slots != [] ==> 2 * |s.grams| <= |s.slots| && exists at :: Leads(s.slots, GramKeys(s.grams), hash, at))
    && (forall i :: 0 <= i < |rs| ==> Ascending(rs[i].pairs))
  }

  /** Finding a 2-gram's record by scanning. */
  function ScanRecords(rs: seq<Record>, a: Token, b: Token): (r: Option<Record>)
    ensures r.None? <==> forall x :: x in rs ==> !(x.key[0] == a && x.key[1] == b)
    ensures r.Some? ==> r.value in rs
  {
    if rs == [] then None
    else if rs[|rs| - 1].key[0] == a && rs[|rs| - 1].key[1] == b then Some(rs[|rs| - 1])
    else
      assert forall x :: x in rs ==> x in rs[..|rs| - 1] || x == rs[|rs| - 1];
      ScanRecords(rs[..|rs| - 1], a, b)
  }

  lemma {:induction false} ScanRecordsAt(rs: seq<Record>, i: nat)
    requires i < |rs| && forall j :: i < j < |rs| ==> RecordKey(rs[j]) != RecordKey(rs[i])
    ensures ScanRecords(rs, rs[i].key[0], rs[i].key[1]) == Some(rs[i])
  {
    if i < |rs| - 1 {
      ScanRecordsAt(rs[..|rs| - 1], i);
    }
  }

  // ---- finding ----

  method Find(s: Static, hash: nat -> nat, ghost rs: seq<Record>, a: Token, b: Token) returns (r: Option<Meta>)
    requires Answers(s, hash, rs)
    ensures r.None? <==> ScanRecords(rs, a, b).None?
    ensures r.Some? ==> ScanRecords(rs, a, b).Some? && Describes(r.value, s.pairs, ScanRecords(rs, a, b).value)
  {
    hide Leads, Walked, ScanRecords, Describes, Ascending;
    if s.slots == [] {
      FindAbsent(s.grams, s.pairs, rs, a, b);
      return None;
    }
    ghost var keys: seq<nat> := GramKeys(s.grams);
    ghost var at: map<nat, nat> :| Leads(s.slots, keys, hash, at);
    LeadsRoom(s.slots, keys, hash, at);
    LeadsOnce(s.slots, keys, hash, at);
    var k := Key2(a, b);
    var i: nat := Home(hash, k, |s.slots|);
    assert Walked(KeysOf(s.slots, keys), hash, k, i) by { WalkedHome(KeysOf(s.slots, keys), hash, k); }
    while s.slots[i] != 0 && s.grams[s.slots[i] - 1].key != k
      invariant i < |s.slots| && Walked(KeysOf(s.slots, keys), hash, k, i)
      decreases |s.slots| - Dist(Home(hash, k, |s.slots|), i, |s.slots|)
    {
      Pass(s.slots, keys, hash, k, i);
      i := Next(i, |s.slots|);
    }
    if s.slots[i] == 0 {
      LeadsAbsent(s.slots, keys, hash, at, k, i);
      FindAbsent(s.grams, s.pairs, rs, a, b);
      return None;
    }
    FindPresent(s.grams, s.pairs, rs, a, b, s.slots[i] - 1);
    return Some(s.grams[s.slots[i] - 1]);
  }

  lemma WalkedHome<K(!new)>(ks: seq<Option<K>>, hash: K -> nat, k: K)
    requires |ks| > 0
    ensures Walked(ks, hash, k, Home(hash, k, |ks|))
  {
  }

  lemma FindAbsent(grams: seq<Meta>, pairs: seq<Pair>, rs: seq<Record>, a: Token, b: Token)
    requires DescribesAll(grams, pairs, rs) && Key2(a, b) !in GramKeys(grams)
    ensures ScanRecords(rs, a, b).None?
  {
    forall x | x in rs
      ensures !(x.key[0] == a && x.key[1] == b)
    {
      var i :| 0 <= i < |rs| && rs[i] == x;
      assert Describes(grams[i], pairs, rs[i]) && GramKeys(grams)[i] == grams[i].key;
    }
  }

  lemma FindPresent(grams: seq<Meta>, pairs: seq<Pair>, rs: seq<Record>, a: Token, b: Token, g: nat)
    requires DescribesAll(grams, pairs, rs) && Once(GramKeys(grams)) && g < |grams| && grams[g].key == Key2(a, b)
    ensures ScanRecords(rs, a, b) == Some(rs[g]) && Describes(grams[g], pairs, rs[g])
  {
    assert Describes(grams[g], pairs, rs[g]);
    Key2Injective(a, b, rs[g].key[0], rs[g].key[1]);
    forall j | g < j < |rs|
      ensures RecordKey(rs[j]) != RecordKey(rs[g])
    {
      assert Describes(grams[j], pairs, rs[j]);
      assert GramKeys(grams)[g] != GramKeys(grams)[j];
    }
    ScanRecordsAt(rs, g);
  }

  // ---- building ----

  /** Only 2-grams, with a length that packs. */
  predicate Packs(r: Record) {
    r.key[2] == NULL && r.key[3] == NULL && |r.pairs| < LEN_END
  }

  function PairTotal(rs: seq<Record>): nat {
    if rs == [] then 0 else PairTotal(rs[..|rs| - 1]) + |rs[|rs| - 1].pairs|
  }

  ghost predicate KeysDiffer(rs: seq<Record>) {
    forall i, j :: 0 <= i < j < |rs| ==> RecordKey(rs[i]) != RecordKey(rs[j])
  }

  /** What a file must hold to become a static cache. */
  ghost predicate Accepted(rs: seq<Record>) {
    && (forall i :: 0 <= i < |rs| ==> Packs(rs[i]))
    && PairTotal(rs) < 0x100_0000_0000 && |rs| < 0xffff_ffff && KeysDiffer(rs)
  }

  function NextPow2(n: nat, p: nat): (r: nat)
    requires p > 0
    ensures r >= n && r >= p
    decreases n - p
  {
    if p >= n then p else NextPow2(n, 2 * p)
  }

  lemma {:induction false} NextPow2Is(n: nat, p: nat)
    requires IsPow2(p)
    ensures IsPow2(NextPow2(n, p))
    decreases n - p
  {
    if p < n {
      DoublePow2(p);
      NextPow2Is(n, 2 * p);
    }
  }

  method Total(pairs: seq<Pair>) returns (sum: int, top: Token, topCount: int)
    ensures sum == Sum(pairs) && (top, topCount) == Best(pairs)
  {
    top, topCount, sum := NULL, 0, 0;
    for i := 0 to |pairs|
      invariant sum == Sum(pairs[..i]) && (top, topCount) == Best(pairs[..i])
    {
      assert pairs[..i + 1][..i] == pairs[..i];
      if pairs[i].count > topCount {
        top, topCount := pairs[i].token, pairs[i].count;
      }
      sum := sum + pairs[i].count;
    }
    assert pairs[..|pairs|] == pairs;
  }

  /** The 2-grams and their followers, or `None` for a record that does not fit. */
  method Gather(rs: seq<Record>) returns (ok: bool, grams: seq<Meta>, pairs: seq<Pair>)
    ensures ok <==> forall i :: 0 <= i < |rs| ==> Packs(rs[i])
    ensures ok ==> DescribesAll(grams, pairs, rs) && |pairs| == PairTotal(rs)
  {
    ok, grams, pairs := true, [], [];
    for i := 0 to |rs|
      invariant ok <==> forall j :: 0 <= j < i ==> Packs(rs[j])
      invariant ok ==> DescribesAll(grams, pairs, rs[..i]) && |pairs| == PairTotal(rs[..i])
    {
      hide Describes, Packs;
      var r := rs[i];
      if !Packs(r) {
        ok := false;
      } else {
        var sum, top, topCount := Total(r.pairs);
        var m := Meta(RecordKey(r), Pack(|pairs|, |r.pairs|), sum, top, topCount);
        if ok { GatherOne(grams, pairs, rs[..i], r, m); }
        pairs := pairs + r.pairs;
        grams := grams + [m];
      }
      assert rs[..i + 1] == rs[..i] + [r] && (rs[..i] + [r])[..i] == rs[..i];
    }
    assert rs[..|rs|] == rs;
  }

  lemma GatherOne(grams: seq<Meta>, pairs: seq<Pair>, rs: seq<Record>, r: Record, m: Meta)
    requires DescribesAll(grams, pairs, rs) && Packs(r)
    requires m.key == RecordKey(r) && m.at == Pack(|pairs|, |r.pairs|)
    requires m.sum == Sum(r.pairs) && (m.top, m.topCount) == Best(r.pairs)
    ensures DescribesAll(grams + [m], pairs + r.pairs, rs + [r])
  {
    PackPlace(|pairs|, |r.pairs|);
    assert Describes(m, pairs + r.pairs, r);
    forall i | 0 <= i < |rs|
      ensures Describes(grams[i], pairs + r.pairs, rs[i])
    {
      assert Describes(grams[i], pairs, rs[i]);
      assert Slice(pairs + r.pairs, grams[i].at) == Slice(pairs, grams[i].at);
    }
  }

  /** The table over the 2-grams; none when a 2-gram comes twice. */
  method Tabulate(grams: seq<Meta>, hash: nat -> nat) returns (r: Option<seq<nat>>)
    ensures r.Some? <==> Once(GramKeys(grams))
    ensures r.Some? ==> r.value != [] && 2 * |grams| <= |r.value|
                        && exists at :: Leads(r.value, GramKeys(grams), hash, at)
  {
    hide Leads, Walked;
    var size := Max(NextPow2(2 * |grams|, 1), FIRST_SIZE);
    assert IsPow2(size) by {
      assert Pow2(0) == 1;
      NextPow2Is(2 * |grams|, 1);
      FirstSize();
    }
    var slots: seq<nat> := seq(size, _ => 0);
    LeadsNone<nat>(slots, hash);
    ghost var keys: seq<nat> := GramKeys(grams);
    ghost var at: map<nat, nat> := map[];
    assert keys[..0] == [];
    for g := 0 to |grams|
      invariant |slots| == size && Leads(slots, keys[..g], hash, at)
    {
      var k := grams[g].key;
      LeadsRoom(slots, keys[..g], hash, at);
      var i: nat := Home(hash, k, size);
      WalkedHome(KeysOf(slots, keys[..g]), hash, k);
      while slots[i] != 0
        invariant i < size && Walked(KeysOf(slots, keys[..g]), hash, k, i)
        decreases size - Dist(Home(hash, k, size), i, size)
      {
        if grams[slots[i] - 1].key == k {
          assert keys[slots[i] - 1] == keys[g];
          return None;
        }
        Pass(slots, keys[..g], hash, k, i);
        i := Next(i, size);
      }
      LeadsPush(slots, keys[..g], hash, at, k, i);
      assert keys[..g + 1] == keys[..g] + [k];
      slots := slots[i := g + 1];
      at := at[k := i];
    }
    assert keys[..|grams|] == keys;
    LeadsOnce(slots, keys, hash, at);
    return Some(slots);
  }

  /** A static cache read from a file's words. It answers for exactly the
      file's records. */
  method Load(w: seq<Token>, hash: nat -> nat) returns (r: Result<Static>)
    ensures r.Ok? <==> Parse(w).Ok? && Accepted(SortRecords(Parse(w).value))
    ensures r.Ok? ==> Answers(r.value, hash, SortRecords(Parse(w).value))
  {
    var got := ReadRecords(w);
    if got.Err? { return Err(got.why); }
    hide Parse, Leads, Packs, Describes, Ascending, SortPairs;
    var rs := got.value;
    var ok, grams, pairs := Gather(rs);
    if !ok { return Err("not a static (2-gram) cache, or 2^24 followers"); }
    if |pairs| >= POS_END || |grams| >= U32 - 1 { return Err("too large"); }
    var slots := Tabulate(grams, hash);
    OnceIsDiffer(grams, pairs, rs);
    if slots.None? { return Err("a 2-gram twice"); }
    forall i | 0 <= i < |rs|
      ensures Ascending(rs[i].pairs)
    {
      SortAscending(Parse(w).value[i].pairs);
    }
    return Ok(Static(slots.value, grams, pairs));
  }

  lemma OnceIsDiffer(grams: seq<Meta>, pairs: seq<Pair>, rs: seq<Record>)
    requires DescribesAll(grams, pairs, rs)
    ensures Once(GramKeys(grams)) <==> KeysDiffer(rs)
  {
    forall i | 0 <= i < |rs|
      ensures GramKeys(grams)[i] == RecordKey(rs[i])
    {
      assert Describes(grams[i], pairs, rs[i]);
    }
  }
}
