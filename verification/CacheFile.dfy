/** Cache files as 32-bit words. Each n-gram takes four words of key and one
    of length, and two more for every (token, count) pair behind them. */
module CacheFile {
  import opened Common
  import opened Words
  import opened IndexTable
  import opened Followers
  import opened NgramCache

  datatype Record = Record(key: Key, pairs: seq<Pair>)

  const I32_END := 0x8000_0000

  /** Every number fits its 32-bit field, and no record is empty. */
  ghost predicate Fits(rs: seq<Record>) {
    forall i :: 0 <= i < |rs| ==> FitsOne(rs[i])
  }

  predicate FitsOne(r: Record) {
    0 < |r.pairs| < I32_END && forall p <- r.pairs :: 1 <= p.count < I32_END
  }

  // ---- writing ----

  function EncodePairs(pairs: seq<Pair>): (w: seq<Token>)
    requires forall p <- pairs :: 1 <= p.count < I32_END
    ensures |w| == 2 * |pairs|
  {
    if pairs == [] then [] else [pairs[0].token, pairs[0].count] + EncodePairs(pairs[1..])
  }

  function EncodeRecord(r: Record): seq<Token>
    requires FitsOne(r)
  {
    r.key + [|r.pairs|] + EncodePairs(r.pairs)
  }

  function Encode(rs: seq<Record>): seq<Token>
    requires Fits(rs)
  {
    if rs == [] then [] else EncodeRecord(rs[0]) + Encode(rs[1..])
  }

  // ---- reading ----

  /** The ways in which a file is not one. */
  datatype Fault = KeyShort | CountShort | NoFollowers | FollowerShort | FollowerNever

  function Message(f: Fault): string {
    match f
    case KeyShort => "a key cut short"
    case CountShort => "a count cut short"
    case NoFollowers => "an n-gram without followers"
    case FollowerShort => "a follower cut short"
    case FollowerNever => "a follower counted no times"
  }

  /** What a reader has so far, then what the rest reads as. */
  function Before<T>(done: seq<T>, r: Result<seq<T>>): Result<seq<T>> {
    match r
    case Ok(more) => Ok(done + more)
    case Err(e) => Err(e)
  }

  lemma BeforeNone<T>(r: Result<seq<T>>)
    ensures Before([], r) == r
  {
    if r.Ok? { assert [] + r.value == r.value; }
  }

  lemma BeforePush<T>(done: seq<T>, x: T, r: Result<seq<T>>)
    ensures Before(done, Before([x], r)) == Before(done + [x], r)
  {
    if r.Ok? { assert done + ([x] + r.value) == done + [x] + r.value; }
  }

  function ParsePairs(w: seq<Token>, n: nat): (r: Result<seq<Pair>>)
    ensures r.Ok? ==> |r.value| == n && 2 * n <= |w| && forall p <- r.value :: 1 <= p.count < I32_END
  {
    if n == 0 then Ok([])
    else if |w| < 2 then Err(Message(FollowerShort))
    else if w[1] <= 0 then Err(Message(FollowerNever))
    else Before([Pair(w[0], w[1])], ParsePairs(w[2..], n - 1))
  }

  /** The records of a file, or why it is not one. */
  function Parse(w: seq<Token>): Result<seq<Record>> {
    if w == [] then Ok([])
    else if |w| < 4 then Err(Message(KeyShort))
    else if |w| < 5 then Err(Message(CountShort))
    else if w[4] <= 0 then Err(Message(NoFollowers))
    else
      var n: nat := w[4];
      match ParsePairs(w[5..], n)
      case Err(e) => Err(e)
      case Ok(ps) => Before([Record(w[..4], ps)], Parse(w[5 + 2 * n..]))
  }

  lemma ParseOnePair(p: Pair, w: seq<Token>, n: nat)
    requires 1 <= p.count < I32_END
    ensures n > 0 ==> ParsePairs([p.token, p.count] + w, n) == Before([p], ParsePairs(w, n - 1))
    ensures ParsePairs(w, 0) == Ok([])
  {
    var v: seq<Token> := [p.token, p.count] + w;
    assert v[2..] == w;
  }

  lemma EncodeHead(pairs: seq<Pair>)
    requires forall p <- pairs :: 1 <= p.count < I32_END
    ensures pairs != [] ==> EncodePairs(pairs) == [pairs[0].token, pairs[0].count] + EncodePairs(pairs[1..])
  {
  }

  lemma {:induction false} ParsePairsEncode(pairs: seq<Pair>, rest: seq<Token>)
    requires forall p <- pairs :: 1 <= p.count < I32_END
    ensures ParsePairs(EncodePairs(pairs) + rest, |pairs|) == Ok(pairs)
  {
    hide EncodePairs, ParsePairs;
    EncodeHead(pairs);
    if pairs == [] {
      ParseOnePair(Pair(0, 1), EncodePairs(pairs) + rest, 0);
    } else {
      var w' := EncodePairs(pairs[1..]) + rest;
      ParsePairsEncode(pairs[1..], rest);
      assert EncodePairs(pairs) + rest == [pairs[0].token, pairs[0].count] + w';
      ParseOnePair(pairs[0], w', |pairs|);
      assert pairs == [pairs[0]] + pairs[1..];
    }
  }

  /** How the parser sees a record in front of more words. */
  lemma ParseRecord(r: Record, rest: seq<Token>)
    requires FitsOne(r)
    ensures Parse(EncodeRecord(r) + rest) == Before([r], Parse(rest))
  {
    hide ParsePairs;
    var w, n := EncodeRecord(r) + rest, |r.pairs|;
    ParsePairsEncode(r.pairs, rest);
    assert w == r.key + [n] + (EncodePairs(r.pairs) + rest);
    assert w[..4] == r.key && w[4] == n && w[5..] == EncodePairs(r.pairs) + rest;
    assert w[5 + 2 * n..] == rest;
  }

  /** Reading what was written gives it back. */
  lemma {:induction false} ParseEncode(rs: seq<Record>)
    requires Fits(rs)
    ensures Parse(Encode(rs)) == Ok(rs)
  {
    if rs != [] {
      hide Parse, EncodeRecord, FitsOne;
      ParseEncode(rs[1..]);
      ParseRecord(rs[0], Encode(rs[1..]));
      assert rs == [rs[0]] + rs[1..];
    }
  }

  lemma {:induction false} EncodeParsePairs(w: seq<Token>, n: nat)
    requires ParsePairs(w, n).Ok?
    ensures EncodePairs(ParsePairs(w, n).value) == w[..2 * n]
  {
    if n > 0 {
      EncodeParsePairs(w[2..], n - 1);
      assert w[..2 * n] == [w[0], w[1]] + w[2..][..2 * (n - 1)];
      var ps := ParsePairs(w[2..], n - 1).value;
      assert ([Pair(w[0], w[1])] + ps)[1..] == ps;
    }
  }

  /** A file is accepted only if writing its records gives the file. */
  lemma {:induction false} EncodeParse(w: seq<Token>)
    requires Parse(w).Ok?
    ensures Fits(Parse(w).value) && Encode(Parse(w).value) == w
    decreases |w|
  {
    if w != [] {
      var n: nat := w[4];
      var r := Record(w[..4], ParsePairs(w[5..], n).value);
      EncodeParseRecord(w, n, r);
      hide ParsePairs, EncodeRecord, FitsOne;
      var tail := w[5 + 2 * n..];
      EncodeParse(tail);
      var rs := Parse(tail).value;
      assert Parse(w).value == [r] + rs;
      assert ([r] + rs)[1..] == rs && ([r] + rs)[0] == r;
    }
  }

  lemma EncodeParseRecord(w: seq<Token>, n: nat, r: Record)
    requires |w| >= 5 && w[4] == n > 0
    requires ParsePairs(w[5..], n).Ok? && r == Record(w[..4], ParsePairs(w[5..], n).value)
    ensures FitsOne(r) && EncodeRecord(r) + w[5 + 2 * n..] == w
  {
    EncodeParsePairs(w[5..], n);
    hide ParsePairs, EncodePairs;
    assert w == w[..4] + [n] + w[5..][..2 * n] + w[5 + 2 * n..];
  }

  // ---- where each word stands ----

  /** Where record `i` starts. */
  function Start(rs: seq<Record>, i: nat): nat
    requires i <= |rs|
  {
    if i == 0 then 0 else Start(rs, i - 1) + 5 + 2 * |rs[i - 1].pairs|
  }

  /** At `at` stand the record's key, the number of its followers, and each
      follower's token and count. */
  ghost predicate LaidOne(w: seq<Token>, at: nat, r: Record) {
    && at + 5 + 2 * |r.pairs| <= |w|
    && (forall i :: 0 <= i < 4 ==> w[at + i] == r.key[i])
    && w[at + 4] == |r.pairs|
    && (forall j :: 0 <= j < |r.pairs| ==>
          w[at + 5 + 2 * j] == r.pairs[j].token && w[at + 6 + 2 * j] == r.pairs[j].count)
  }

  /** The records stand one behind the other and fill the file. */
  ghost predicate Laid(w: seq<Token>, rs: seq<Record>) {
    |w| == Start(rs, |rs|) && forall i :: 0 <= i < |rs| ==> LaidOne(w, Start(rs, i), rs[i])
  }

  lemma {:induction false} PairsLaid(pairs: seq<Pair>, j: nat)
    requires (forall p <- pairs :: 1 <= p.count < I32_END) && j < |pairs|
    ensures EncodePairs(pairs)[2 * j] == pairs[j].token && EncodePairs(pairs)[2 * j + 1] == pairs[j].count
  {
    if j > 0 {
      PairsLaid(pairs[1..], j - 1);
      assert EncodePairs(pairs)[2..] == EncodePairs(pairs[1..]);
    }
  }

  lemma RecordLaid(r: Record, w: seq<Token>)
    requires FitsOne(r) && w == EncodeRecord(r)
    ensures |w| == 5 + 2 * |r.pairs| && LaidOne(w, 0, r)
  {
    hide EncodePairs;
    forall j | 0 <= j < |r.pairs|
      ensures w[5 + 2 * j] == r.pairs[j].token && w[6 + 2 * j] == r.pairs[j].count
    {
      PairsLaid(r.pairs, j);
    }
  }

  lemma {:induction false} StartOn(rs: seq<Record>, i: nat)
    requires rs != [] && 1 <= i <= |rs|
    ensures Start(rs, i) == 5 + 2 * |rs[0].pairs| + Start(rs[1..], i - 1)
  {
    if i > 1 { StartOn(rs, i - 1); }
  }

  lemma {:induction false} EncodeLaid(rs: seq<Record>)
    requires Fits(rs)
    ensures Laid(Encode(rs), rs)
  {
    if rs != [] {
      assert FitsOne(rs[0]);
      EncodeLaid(rs[1..]);
      RecordLaid(rs[0], EncodeRecord(rs[0]));
      LaidOn(EncodeRecord(rs[0]), Encode(rs[1..]), rs);
    }
  }

  lemma LaidOn(v: seq<Token>, w: seq<Token>, rs: seq<Record>)
    requires rs != [] && |v| == 5 + 2 * |rs[0].pairs| && LaidOne(v, 0, rs[0]) && Laid(w, rs[1..])
    ensures Laid(v + w, rs)
  {
    hide Start, LaidOne;
    StartOn(rs, |rs|);
    forall i | 0 <= i < |rs|
      ensures LaidOne(v + w, Start(rs, i), rs[i])
    {
      if i == 0 {
        StartZero(rs);
        LaidBefore(v, w, 0, rs[0]);
      } else {
        StartOn(rs, i);
        assert LaidOne(w, Start(rs[1..], i - 1), rs[1..][i - 1]);
        LaidBehind(v, w, Start(rs[1..], i - 1), rs[i]);
      }
    }
  }

  lemma StartZero(rs: seq<Record>)
    ensures Start(rs, 0) == 0
  {
  }

  lemma LaidBefore(v: seq<Token>, w: seq<Token>, at: nat, r: Record)
    requires LaidOne(v, at, r)
    ensures LaidOne(v + w, at, r)
  {
  }

  lemma LaidBehind(v: seq<Token>, w: seq<Token>, at: nat, r: Record)
    requires LaidOne(w, at, r)
    ensures LaidOne(v + w, |v| + at, r)
  {
  }

  lemma LaidWord(v: seq<Token>, w: seq<Token>, at: nat, r: Record, p: nat)
    requires LaidOne(v, at, r) && LaidOne(w, at, r) && at <= p < at + 5 + 2 * |r.pairs|
    ensures v[p] == w[p]
  {
    if p >= at + 5 {
      var j := (p - at - 5) / 2;
      assert p == at + 5 + 2 * j || p == at + 6 + 2 * j;
      assert w[at + 5 + 2 * j] == r.pairs[j].token == v[at + 5 + 2 * j];
    } else if p < at + 4 {
      assert w[at + (p - at)] == r.key[p - at] == v[at + (p - at)];
    }
  }

  /** One file only holds given records. */
  lemma LaidOnce(v: seq<Token>, w: seq<Token>, rs: seq<Record>)
    requires Laid(v, rs) && Laid(w, rs)
    ensures v == w
  {
    hide Start, LaidOne;
    forall p | 0 <= p < |v|
      ensures v[p] == w[p]
    {
      var i := Holder(rs, p);
      LaidWord(v, w, Start(rs, i), rs[i], p);
    }
  }

  /** The record a word belongs to. */
  lemma Holder(rs: seq<Record>, p: nat) returns (i: nat)
    requires p < Start(rs, |rs|)
    ensures i < |rs| && Start(rs, i) <= p < Start(rs, i) + 5 + 2 * |rs[i].pairs|
  {
    i := |rs|;
    while p < Start(rs, i)
      invariant i <= |rs| && p < Start(rs, |rs|)
      invariant i < |rs| ==> p < Start(rs, i + 1)
    {
      i := i - 1;
    }
  }

  /** A file is read as given records exactly if they fit and stand in it. */
  lemma ParseIsLaid(w: seq<Token>, rs: seq<Record>)
    ensures Parse(w) == Ok(rs) <==> Fits(rs) && Laid(w, rs)
  {
    hide Parse, Encode, Fits, Laid;
    if Parse(w).Ok? {
      EncodeParse(w);
      EncodeLaid(Parse(w).value);
    }
    if Fits(rs) && Laid(w, rs) {
      EncodeLaid(rs);
      LaidOnce(w, Encode(rs), rs);
      ParseEncode(rs);
    }
  }

  // ---- the followers in order ----

  predicate PairLe(a: Pair, b: Pair) {
    a.token < b.token || (a.token == b.token && a.count <= b.count)
  }

  function InsertPair(p: Pair, s: seq<Pair>): (r: seq<Pair>)
    ensures |r| == |s| + 1 && multiset(r) == multiset(s) + multiset{p}
  {
    if s == [] then [p]
    else
      var l := |s| - 1;
      assert s == s[..l] + [s[l]];
      if PairLe(s[l], p) then s + [p] else InsertPair(p, s[..l]) + [s[l]]
  }

  /** The pairs by token, then count. */
  function SortPairs(s: seq<Pair>): (r: seq<Pair>)
    ensures |r| == |s| && multiset(r) == multiset(s)
  {
    if s == [] then []
    else
      assert s == s[..|s| - 1] + [s[|s| - 1]];
      InsertPair(s[|s| - 1], SortPairs(s[..|s| - 1]))
  }

  lemma {:induction false} InsertAscending(p: Pair, s: seq<Pair>)
    requires Ascending(s)
    ensures Ascending(InsertPair(p, s))
  {
    hide InsertPair;
    InsertStep(p, s);
    if s != [] && !PairLe(s[|s| - 1], p) {
      var l := |s| - 1;
      InsertAscending(p, s[..l]);
      InsertBelow(p, s[..l], s[l].token);
    }
  }

  lemma {:induction false} InsertBelow(p: Pair, s: seq<Pair>, top: Token)
    requires p.token <= top && forall i :: 0 <= i < |s| ==> s[i].token <= top
    ensures forall i :: 0 <= i < |InsertPair(p, s)| ==> InsertPair(p, s)[i].token <= top
  {
    if s != [] { InsertBelow(p, s[..|s| - 1], top); }
  }

  lemma {:induction false} SortAscending(s: seq<Pair>)
    ensures Ascending(SortPairs(s))
  {
    if s != [] {
      SortAscending(s[..|s| - 1]);
      InsertAscending(s[|s| - 1], SortPairs(s[..|s| - 1]));
    }
  }

  lemma InsertStep(p: Pair, s: seq<Pair>)
    ensures s == [] || PairLe(s[|s| - 1], p) ==> InsertPair(p, s) == s + [p]
    ensures s != [] && !PairLe(s[|s| - 1], p) ==>
              InsertPair(p, s) == InsertPair(p, s[..|s| - 1]) + [s[|s| - 1]]
  {
  }

  lemma {:induction false} InsertCount(p: Pair, s: seq<Pair>, t: Token)
    ensures Count(InsertPair(p, s), t) == Count(s, t) + if p.token == t then p.count else 0
  {
    hide Count, InsertPair, PairLe;
    InsertStep(p, s);
    if s == [] || PairLe(s[|s| - 1], p) {
      CountPush(s, p, t);
    } else {
      var l := |s| - 1;
      InsertCount(p, s[..l], t);
      CountPush(InsertPair(p, s[..l]), s[l], t);
      CountPush(s[..l], s[l], t);
      assert s == s[..l] + [s[l]];
    }
  }

  lemma {:induction false} SortCount(s: seq<Pair>, t: Token)
    ensures Count(SortPairs(s), t) == Count(s, t)
  {
    if s != [] {
      SortCount(s[..|s| - 1], t);
      InsertCount(s[|s| - 1], SortPairs(s[..|s| - 1]), t);
    }
  }

  function SortRecord(r: Record): Record {
    r.(pairs := SortPairs(r.pairs))
  }

  function SortRecords(rs: seq<Record>): (out: seq<Record>)
    ensures |out| == |rs| && forall i :: 0 <= i < |rs| ==> out[i] == SortRecord(rs[i])
  {
    seq(|rs|, i requires 0 <= i < |rs| => SortRecord(rs[i]))
  }

  // ---- the reader's loops ----

  /** The `n` followers at `pos`. */
  method ReadPairs(w: seq<Token>, pos: nat, n: nat) returns (r: Result<seq<Pair>>)
    requires pos <= |w|
    ensures r == ParsePairs(w[pos..], n)
  {
    hide Message;
    var pairs: seq<Pair> := [];
    var at := pos;
    BeforeNone(ParsePairs(w[pos..], n));
    for i := 0 to n
      invariant pos <= at <= |w|
      invariant ParsePairs(w[pos..], n) == Before(pairs, ParsePairs(w[at..], n - i))
    {
      if at + 1 > |w| || at + 2 > |w| { return Err(Message(FollowerShort)); }
      if w[at + 1] <= 0 { return Err(Message(FollowerNever)); }
      assert w[at..][2..] == w[at + 2..];
      BeforePush(pairs, Pair(w[at], w[at + 1]), ParsePairs(w[at + 2..], n - i - 1));
      pairs := pairs + [Pair(w[at], w[at + 1])];
      at := at + 2;
    }
    assert pairs + [] == pairs;
    return Ok(pairs);
  }

  lemma ReadStep(w: seq<Token>, at: nat, raw: seq<Record>, n: nat, ps: Result<seq<Pair>>)
    requires at + 5 <= |w| && w[at + 4] == n > 0 && ps == ParsePairs(w[at + 5..], n)
    requires Parse(w) == Before(raw, Parse(w[at..]))
    ensures ps.Err? ==> Parse(w) == Err(ps.why)
    ensures ps.Ok? ==> at + 5 + 2 * n <= |w| && |ps.value| == n && Parse(w)
                       == Before(raw + [Record(w[at..at + 4], ps.value)], Parse(w[at + 5 + 2 * n..]))
  {
    hide ParsePairs, Message;
    var v := w[at..];
    assert v[5..] == w[at + 5..] && v[..4] == w[at..at + 4];
    if ps.Ok? {
      assert v[5 + 2 * n..] == w[at + 5 + 2 * n..];
      BeforePush(raw, Record(v[..4], ps.value), Parse(v[5 + 2 * n..]));
    }
  }

  lemma ReadEnds(w: seq<Token>, at: nat, raw: seq<Record>)
    requires at <= |w| && Parse(w) == Before(raw, Parse(w[at..]))
    ensures at == |w| ==> Parse(w) == Ok(raw)
    ensures at < |w| < at + 4 ==> Parse(w) == Err(Message(KeyShort))
    ensures |w| == at + 4 ==> Parse(w) == Err(Message(CountShort))
    ensures |w| > at + 4 && w[at + 4] <= 0 ==> Parse(w) == Err(Message(NoFollowers))
  {
    hide ParsePairs, Message;
    assert raw + [] == raw;
  }

  lemma SortRecordsPush(rs: seq<Record>, r: Record)
    ensures SortRecords(rs + [r]) == SortRecords(rs) + [SortRecord(r)]
  {
  }

  /** The record at `at`, its followers as they stand, after `raw`. */
  method ReadRecord(w: seq<Token>, at: nat, ghost raw: seq<Record>) returns (r: Result<Record>)
    requires at < |w| && Parse(w) == Before(raw, Parse(w[at..]))
    ensures r.Err? ==> Parse(w) == Err(r.why)
    ensures r.Ok? ==> var end := at + 5 + 2 * |r.value.pairs|;
                      end <= |w| && Parse(w) == Before(raw + [r.value], Parse(w[end..]))
  {
    hide ParsePairs, Parse, Before, Message;
    ReadEnds(w, at, raw);
    if at + 4 > |w| { return Err(Message(KeyShort)); }
    if at + 5 > |w| { return Err(Message(CountShort)); }
    if w[at + 4] <= 0 { return Err(Message(NoFollowers)); }
    var n: nat := w[at + 4];
    var ps := ReadPairs(w, at + 5, n);
    ReadStep(w, at, raw, n, ps);
    return if ps.Ok? then Ok(Record(w[at..at + 4], ps.value)) else Err(ps.why);
  }

  /** The records of a file, each record's followers in order. */
  method ReadRecords(w: seq<Token>) returns (r: Result<seq<Record>>)
    ensures r == match Parse(w) case Ok(rs) => Ok(SortRecords(rs)) case Err(e) => Err(e)
  {
    var at := 0;
    var out: seq<Record> := [];
    ghost var raw: seq<Record> := [];
    assert w[0..] == w;
    BeforeNone(Parse(w));
    hide SortRecords, SortRecord, Parse, Before, Message;
    while at < |w|
      invariant at <= |w| && out == SortRecords(raw)
      invariant Parse(w) == Before(raw, Parse(w[at..]))
    {
      var one := ReadRecord(w, at, raw);
      if one.Err? { return Err(one.why); }
      SortRecordsPush(raw, one.value);
      raw := raw + [one.value];
      out := out + [SortRecord(one.value)];
      at := at + 5 + 2 * |one.value.pairs|;
    }
    ReadEnds(w, at, raw);
    return Ok(out);
  }

  /** The words of a file, a last one cut short left off. */
  method WordsOf(b: seq<byte>) returns (w: seq<Token>)
    ensures w == BytesTokens(b)
  {
    hide FromLe;
    w := [];
    var at := 0;
    assert b[0..] == b && w + BytesTokens(b) == BytesTokens(b);
    while at + 4 <= |b|
      invariant at <= |b| && BytesTokens(b) == w + BytesTokens(b[at..])
    {
      assert b[at..][..4] == b[at..at + 4] && b[at..][4..] == b[at + 4..];
      ghost var rest := BytesTokens(b[at + 4..]);
      assert w + ([FromLe(b[at..at + 4])] + rest) == w + [FromLe(b[at..at + 4])] + rest;
      w := w + [FromLe(b[at..at + 4])];
      at := at + 4;
    }
    assert BytesTokens(b[at..]) == [];
  }

  /** The records of a file of bytes, its words the lowest byte first: one
      that ends inside a word reads as the whole words before it. */
  method ReadFile(b: seq<byte>) returns (r: Result<seq<Record>>)
    ensures forall w :: Spelled(b, w) ==> (r.Ok? <==> Parse(w).Ok?) && (r.Err? ==> r.why == Parse(w).why)
    ensures forall w, rs :: Spelled(b, w) && Fits(rs) && Laid(w, rs) ==> r == Ok(SortRecords(rs))
    ensures r.Ok? ==> exists w, rs :: Spelled(b, w) && Fits(rs) && Laid(w, rs)
  {
    hide Parse, Spelled, Laid, Fits, SortRecords;
    var w := WordsOf(b);
    forall v ensures Spelled(b, v) <==> v == w { BytesSpell(b, v); }
    forall rs ensures Fits(rs) && Laid(w, rs) <==> Parse(w) == Ok(rs) { ParseIsLaid(w, rs); }
    r := ReadRecords(w);
  }

  // ---- saving and loading a cache ----

  ghost function RecordsOf(entries: seq<Entry>): (rs: seq<Record>)
    ensures |rs| == |entries|
    ensures forall i :: 0 <= i < |rs| ==> rs[i] == Record(entries[i].key, entries[i].part.pairs)
  {
    seq(|entries|, i requires 0 <= i < |entries| => Record(entries[i].key, entries[i].part.pairs))
  }

  lemma {:induction false} EncodePush(rs: seq<Record>, r: Record)
    requires Fits(rs) && FitsOne(r)
    ensures Fits(rs + [r]) && Encode(rs + [r]) == Encode(rs) + EncodeRecord(r)
  {
    if rs != [] {
      EncodePush(rs[1..], r);
      assert (rs + [r])[1..] == rs[1..] + [r];
    }
  }

  lemma {:induction false} EncodePairsPush(ps: seq<Pair>, p: Pair)
    requires (forall x <- ps :: 1 <= x.count < I32_END) && 1 <= p.count < I32_END
    ensures EncodePairs(ps + [p]) == EncodePairs(ps) + [p.token, p.count]
  {
    if ps != [] {
      EncodePairsPush(ps[1..], p);
      assert (ps + [p])[1..] == ps[1..] + [p];
    }
  }

  /** One entry, written word by word. */
  method WriteRecord(k: Key, pairs: seq<Pair>) returns (v: seq<Token>)
    requires FitsOne(Record(k, pairs))
    ensures v == EncodeRecord(Record(k, pairs))
  {
    hide EncodePairs;
    v := k + [|pairs|];
    assert EncodePairs([]) == [];
    for i := 0 to |pairs|
      invariant v == k + [|pairs|] + EncodePairs(pairs[..i])
    {
      EncodePairsPush(pairs[..i], pairs[i]);
      assert pairs[..i + 1] == pairs[..i] + [pairs[i]];
      v := v + [pairs[i].token, pairs[i].count];
    }
    assert pairs[..|pairs|] == pairs;
  }

  /** The entries in order. */
  method Save(c: Cache) returns (w: seq<Token>)
    requires c.Valid() && Fits(RecordsOf(c.entries))
    ensures w == Encode(RecordsOf(c.entries))
  {
    hide Leads, AllExact, EncodeRecord;
    w := [];
    ghost var rs := RecordsOf(c.entries);
    for e := 0 to |c.entries|
      invariant w == Encode(rs[..e])
    {
      assert FitsOne(rs[e]);
      var v := WriteRecord(c.entries[e].key, c.entries[e].part.pairs);
      EncodePush(rs[..e], rs[e]);
      assert rs[..e + 1] == rs[..e] + [rs[e]];
      w := w + v;
    }
    assert rs[..|rs|] == rs;
  }

  function RecordTally(rs: seq<Record>, k: Key, t: Token): int {
    if rs == [] then 0
    else RecordTally(rs[..|rs| - 1], k, t) + if rs[|rs| - 1].key == k then Count(rs[|rs| - 1].pairs, t) else 0
  }

  /** A cache read from a file's words: every record's counts, or the
      reader's error. */
  method Load(w: seq<Token>, hash: Key -> nat) returns (r: Result<Cache>)
    ensures r.Ok? <==> Parse(w).Ok?
    ensures r.Ok? ==> fresh(r.value) && r.value.Valid()
    ensures r.Ok? ==> forall k: Key, t: Token :: Tally(r.value.entries, k, t) == RecordTally(Parse(w).value, k, t)
    ensures r.Ok? && RecordKeysOnce(Parse(w).value) ==> SameKeys(r.value.entries, Parse(w).value)
  {
    var c := new Cache(hash);
    var got := ReadRecords(w);
    if got.Err? { return Err(got.why); }
    ghost var raw := Parse(w).value;
    EncodeParse(w);
    hide Parse, SortPairs, Fits;
    AbsorbAll(c, got.value, raw);
    return Ok(c);
  }

  method AbsorbAll(c: Cache, rs: seq<Record>, ghost raw: seq<Record>)
    requires c.Valid() && c.entries == [] && Fits(raw) && rs == SortRecords(raw)
    modifies c
    ensures c.Valid()
    ensures forall k: Key, t: Token :: Tally(c.entries, k, t) == RecordTally(raw, k, t)
    ensures RecordKeysOnce(raw) ==> SameKeys(c.entries, raw)
  {
    hide Leads, AllExact, Count, Tally, SortPairs, Fits, SameKeys, RecordKeysOnce, RecordTally, Positive;
    LoadStart(raw);
    for i := 0 to |rs|
      invariant c.Valid()
      invariant forall k: Key, t: Token :: Tally(c.entries, k, t) == RecordTally(raw[..i], k, t)
      invariant RecordKeysOnce(raw) ==> SameKeys(c.entries, raw[..i])
    {
      LoadStep(raw, i);
      ghost var before := c.entries;
      c.Absorb(rs[i].key, rs[i].pairs);
      LoadKeys(raw, i, before, c.entries);
    }
    assert raw[..|raw|] == raw;
  }

  ghost predicate RecordKeysOnce(rs: seq<Record>) {
    forall i, j :: 0 <= i < j < |rs| ==> rs[i].key != rs[j].key
  }

  ghost predicate SameKeys(entries: seq<Entry>, rs: seq<Record>) {
    |entries| == |rs| && forall i :: 0 <= i < |rs| ==> entries[i].key == rs[i].key
  }

  lemma LoadStart(raw: seq<Record>)
    ensures SameKeys([], raw[..0])
    ensures forall k: Key, t: Token :: Tally([], k, t) == 0 && RecordTally(raw[..0], k, t) == 0
  {
  }

  lemma LoadKeys(raw: seq<Record>, i: nat, before: seq<Entry>, after: seq<Entry>)
    requires i < |raw|
    requires (forall e :: e in before ==> e.key != raw[i].key) ==>
               |after| == |before| + 1 && after[..|before|] == before && after[|before|].key == raw[i].key
    ensures RecordKeysOnce(raw) && SameKeys(before, raw[..i]) ==> SameKeys(after, raw[..i + 1])
  {
    if RecordKeysOnce(raw) && SameKeys(before, raw[..i]) {
      forall e | e in before
        ensures e.key != raw[i].key
      {
        var j :| 0 <= j < |before| && before[j] == e;
        assert before[j].key == raw[..i][j].key;
      }
      forall j | 0 <= j <= i
        ensures after[j].key == raw[..i + 1][j].key
      {
        if j < i { assert after[j] == after[..|before|][j] == before[j]; }
      }
    }
  }

  lemma LoadStep(raw: seq<Record>, i: nat)
    requires Fits(raw) && i < |raw|
    ensures Positive(SortPairs(raw[i].pairs)) && SortPairs(raw[i].pairs) != []
    ensures forall k: Key, t: Token :: RecordTally(raw[..i + 1], k, t) == RecordTally(raw[..i], k, t)
                + if k == raw[i].key then Count(SortPairs(raw[i].pairs), t) else 0
  {
    assert FitsOne(raw[i]);
    var s := SortPairs(raw[i].pairs);
    forall j | 0 <= j < |s|
      ensures s[j].count >= 1
    {
      assert s[j] in multiset(s);
    }
    assert raw[..i + 1][..i] == raw[..i];
    forall t: Token
      ensures Count(s, t) == Count(raw[i].pairs, t)
    {
      SortCount(raw[i].pairs, t);
    }
  }

  lemma {:induction false} TallyOfRecords(entries: seq<Entry>, k: Key, t: Token)
    ensures RecordTally(RecordsOf(entries), k, t) == Tally(entries, k, t)
  {
    if entries != [] {
      TallyOfRecords(entries[..|entries| - 1], k, t);
      assert RecordsOf(entries)[..|entries| - 1] == RecordsOf(entries[..|entries| - 1]);
    }
  }

  lemma {:induction false} TallyAt(entries: seq<Entry>, i: nat, t: Token)
    requires i < |entries| && Once(KeyList(entries))
    ensures Tally(entries, entries[i].key, t) == Count(entries[i].part.pairs, t)
  {
    var l := |entries| - 1;
    assert KeyList(entries[..l]) == KeyList(entries)[..l];
    assert forall j :: 0 <= j < l ==> KeyList(entries)[j] != KeyList(entries)[l];
    if i < l {
      TallyAt(entries[..l], i, t);
    } else {
      TallyAbsent(entries[..l], entries[i].key, t);
    }
  }

  lemma {:induction false} TallyAbsent(entries: seq<Entry>, k: Key, t: Token)
    requires forall i :: 0 <= i < |entries| ==> entries[i].key != k
    ensures Tally(entries, k, t) == 0
  {
    if entries != [] { TallyAbsent(entries[..|entries| - 1], k, t); }
  }

  /** Two caches with the same keys in order and the same counts are equal,
      totals and largest counts included. */
  lemma SameEntries(a: seq<Entry>, b: seq<Entry>)
    requires AllExact(a) && AllExact(b) && Once(KeyList(a)) && SameKeys(a, RecordsOf(b))
    requires forall k: Key, t: Token :: Tally(a, k, t) == Tally(b, k, t)
    ensures a == b
  {
    assert KeyList(a) == KeyList(b) by {
      forall i | 0 <= i < |a|
        ensures KeyList(a)[i] == KeyList(b)[i]
      {
        assert a[i].key == RecordsOf(b)[i].key;
      }
    }
    forall i | 0 <= i < |a|
      ensures a[i] == b[i]
    {
      assert a[i].key == RecordsOf(b)[i].key;
      forall t: Token
        ensures Count(a[i].part.pairs, t) == Count(b[i].part.pairs, t)
      {
        TallyAt(a, i, t);
        TallyAt(b, i, t);
      }
      SamePart(a[i].part, b[i].part);
    }
  }

  lemma RecordKeys(entries: seq<Entry>)
    requires Once(KeyList(entries))
    ensures RecordKeysOnce(RecordsOf(entries))
  {
    var rs := RecordsOf(entries);
    forall i, j | 0 <= i < j < |rs|
      ensures rs[i].key != rs[j].key
    {
      assert KeyList(entries)[i] != KeyList(entries)[j];
    }
  }

  /** Loading what was saved rebuilds the cache, entry by entry. */
  method SaveThenLoad(c: Cache, hash: Key -> nat) returns (r: Result<Cache>)
    requires c.Valid() && Fits(RecordsOf(c.entries))
    ensures r.Ok? && r.value.Valid() && r.value.entries == c.entries
  {
    hide Leads, Tally, Count;
    ghost var rs := RecordsOf(c.entries);
    var w := Save(c);
    ParseEncode(rs);
    r := Load(w, hash);
    if c.slots != [] { LeadsOnce(c.slots, KeyList(c.entries), c.hash, c.at); }
    RecordKeys(c.entries);
    forall k: Key, t: Token
      ensures Tally(r.value.entries, k, t) == Tally(c.entries, k, t)
    {
      TallyOfRecords(c.entries, k, t);
    }
    if r.value.slots != [] { LeadsOnce(r.value.slots, KeyList(r.value.entries), r.value.hash, r.value.at); }
    SameEntries(r.value.entries, c.entries);
  }
}
