/** Drafting from the caches. Three are consulted in turn, the request's own,
    the one learned from earlier requests, and the corpus's; within a cache
    longer n-grams go first, and one counts only if its followers are
    numerous and one-sided enough. */
module CacheDraft {
  import opened Common
  import opened Followers
  import opened NgramCache
  import opened CacheFile
  import opened StaticCache

  /** For each place in the search, the fewest occurrences and the least share
      (in percent) of the leading follower that make an n-gram usable. */
  datatype Thresholds = Thresholds(sample: seq<int>, percent: seq<int>) {
    predicate Sized() { |sample| == NGRAM_MAX && |percent| == NGRAM_MAX }
  }

  const LAX := Thresholds([2, 2, 1, 1], [66, 50, 50, 50])
  const STRICT := Thresholds([4, 3, 2, 2], [75, 66, 66, 66])

  datatype Tier = Context | Dynamic | Corpus

  /** The followers that weight a choice: those of the last 2-gram in the
      static cache, where it has them. */
  type Weights = Option<seq<Pair>>

  function Weight(ws: Weights, t: Token): (w: int)
    ensures ws.None? || (forall p <- ws.value :: p.token != t) ==> w == 1
    ensures ws.Some? && !(forall p <- ws.value :: p.token != t) ==>
              exists p <- ws.value :: p.token == t && w == 100 * p.count
  {
    match ws
    case None => 1
    case Some(ps) => match CountScan(ps, t) case None => 1 case Some(c) => 100 * c
  }

  datatype Choice = Choice(score: int, token: Token, count: int)

  /** The highest weighted count so far, the first of equals. */
  function Choose(pairs: seq<Pair>, ws: Weights): Choice {
    if pairs == [] then Choice(0, NULL, 0)
    else
      var best, p := Choose(pairs[..|pairs| - 1], ws), pairs[|pairs| - 1];
      if p.count * Weight(ws, p.token) > best.score
        then Choice(p.count * Weight(ws, p.token), p.token, p.count) else best
  }

  /** What `Choose` means: no follower scores higher, and none of a lower
      token as high. */
  lemma {:induction false} ChooseIsBest(pairs: seq<Pair>, ws: Weights)
    requires Strict(pairs)
    ensures var b := Choose(pairs, ws);
            && b.score >= 0
            && (forall p <- pairs :: p.count * Weight(ws, p.token) <= b.score)
            && (b.score > 0 ==> Pair(b.token, b.count) in pairs && b.score == b.count * Weight(ws, b.token))
            && (forall p <- pairs :: p.token < b.token && b.score > 0 ==> p.count * Weight(ws, p.token) < b.score)
  {
    if pairs != [] {
      var l := |pairs| - 1;
      ChooseIsBest(pairs[..l], ws);
      forall p | p in pairs
        ensures p in pairs[..l] || p == pairs[l]
      {
      }
      assert forall p <- pairs[..l] :: p.token < pairs[l].token;
    }
  }

  lemma {:induction false} ChooseCount(pairs: seq<Pair>, ws: Weights, m: int)
    requires m >= 0 && forall i :: 0 <= i < |pairs| ==> pairs[i].count <= m
    ensures Choose(pairs, ws).count <= m
  {
    if pairs != [] { ChooseCount(pairs[..|pairs| - 1], ws, m); }
  }

  predicate Trusted(p: Part, c: Choice, th: Thresholds, i: nat)
    requires th.Sized() && i < NGRAM_MAX
  {
    Sum(p.pairs) >= th.sample[i] && 100 * c.count >= th.percent[i] * Sum(p.pairs)
  }

  // ---- drafting without any index, window or cached field ----

  function Tail(hist: seq<Token>, n: nat): (win: seq<Token>)
    requires n <= |hist|
    ensures |win| == n
  {
    hist[|hist| - n..]
  }

  /** The choice after the last `n` tokens, every entry scanned. */
  function PlainAt(entries: seq<Entry>, hist: seq<Token>, n: nat, ws: Weights, th: Thresholds, i: nat): Option<Token>
    requires n <= NGRAM_MAX && th.Sized() && i < NGRAM_MAX
  {
    if n > |hist| then None
    else match NgramCache.Scan(entries, KeyOf(Tail(hist, n)))
         case None => None
         case Some(p) =>
           var best := Choose(p.pairs, ws);
           if Trusted(p, best, th, i) then Some(best.token) else None
  }

  /** The choice after the longest trusted n-gram. */
  function PlainPrimary(entries: seq<Entry>, hist: seq<Token>, nmin: nat, n: nat, ws: Weights,
                        th: Thresholds): Option<Token>
    requires 1 <= nmin && n <= NGRAM_MAX && th.Sized()
  {
    if n < nmin then None
    else match PlainAt(entries, hist, n, ws, th, n - nmin)
         case Some(t) => Some(t)
         case None => PlainPrimary(entries, hist, nmin, n - 1, ws, th)
  }

  function PlainNext(ctx: seq<Entry>, dyn: seq<Entry>, rs: seq<Record>, hist: seq<Token>, nmin: nat,
                     nmax: nat): Option<(Token, Tier)>
    requires 1 <= nmin && nmax <= NGRAM_MAX && |hist| >= NGRAM_STATIC
  {
    var st := ScanRecords(rs, hist[|hist| - 2], hist[|hist| - 1]);
    var ws := if st.Some? then Some(st.value.pairs) else None;
    match PlainPrimary(ctx, hist, nmin, nmax, ws, LAX)
    case Some(t) => Some((t, Context))
    case None =>
      match PlainPrimary(dyn, hist, nmin, nmax, ws, STRICT)
      case Some(t) => Some((t, Dynamic))
      case None =>
        if st.Some? && Sum(st.value.pairs) >= LAX.sample[NGRAM_STATIC - 1]
           && 100 * Best(st.value.pairs).1 >= LAX.percent[NGRAM_STATIC - 1] * Sum(st.value.pairs)
        then Some((Best(st.value.pairs).0, Corpus))
        else None
  }

  /** Up to `k` tokens after the whole history, each drafted on. */
  function PlainDraft(ctx: seq<Entry>, dyn: seq<Entry>, rs: seq<Record>, hist: seq<Token>, k: nat, nmin: nat,
                      nmax: nat): (d: seq<(Token, Tier)>)
    requires 1 <= nmin && nmax <= NGRAM_MAX
    ensures |d| <= k
    decreases k
  {
    if k == 0 || |hist| < NGRAM_STATIC then []
    else match PlainNext(ctx, dyn, rs, hist, nmin, nmax)
         case None => []
         case Some(x) => [x] + PlainDraft(ctx, dyn, rs, hist + [x.0], k - 1, nmin, nmax)
  }

  // ---- what the searches mean ----

  /** A follower's weighted count. */
  function Score(p: Pair, ws: Weights): int {
    p.count * Weight(ws, p.token)
  }

  /** Follower `j` scores higher than those before it and no lower than those
      after. */
  ghost predicate Leads(pairs: seq<Pair>, ws: Weights, j: int) {
    && 0 <= j < |pairs| && Score(pairs[j], ws) > 0
    && (forall i :: 0 <= i < j ==> Score(pairs[i], ws) < Score(pairs[j], ws))
    && (forall i :: j < i < |pairs| ==> Score(pairs[i], ws) <= Score(pairs[j], ws))
  }

  /** Seen often enough, `count` times of `total` with the leading follower:
      the longer the n-gram above the shortest, the less is asked, and of
      earlier requests more than of this one. */
  predicate Enough(learned: bool, above: nat, total: int, count: int) {
    if learned then
      if above == 0 then total >= 4 && 100 * count >= 75 * total
      else if above == 1 then total >= 3 && 100 * count >= 66 * total
      else total >= 2 && 100 * count >= 66 * total
    else
      if above == 0 then total >= 2 && 100 * count >= 66 * total
      else if above == 1 then total >= 2 && 100 * count >= 50 * total
      else total >= 1 && 100 * count >= 50 * total
  }

  /** The last `n` tokens have an entry, and `t` leads its followers by enough. */
  ghost predicate Passes(entries: seq<Entry>, hist: seq<Token>, nmin: nat, n: nat, ws: Weights, learned: bool,
                         t: Token)
    requires n <= NGRAM_MAX
  {
    && nmin <= n <= |hist|
    && var found := NgramCache.Scan(entries, KeyOf(hist[|hist| - n..]));
       && found.Some?
       && var ps := found.value.pairs;
          exists j :: Leads(ps, ws, j) && ps[j].token == t && Enough(learned, n - nmin, Sum(ps), ps[j].count)
  }

  /** `t` is from the longest n-gram that passes. */
  ghost predicate Longest(entries: seq<Entry>, hist: seq<Token>, nmin: nat, nmax: nat, ws: Weights, learned: bool,
                          t: Token)
    requires nmax <= NGRAM_MAX
  {
    exists n: nat | nmin <= n <= nmax ::
      && Passes(entries, hist, nmin, n, ws, learned, t)
      && forall longer: nat, u: Token :: n < longer <= nmax ==> !Passes(entries, hist, nmin, longer, ws, learned, u)
  }

  /** No n-gram passes. */
  ghost predicate NonePasses(entries: seq<Entry>, hist: seq<Token>, nmin: nat, nmax: nat, ws: Weights, learned: bool)
    requires nmax <= NGRAM_MAX
  {
    forall n: nat, u: Token :: nmin <= n <= nmax ==> !Passes(entries, hist, nmin, n, ws, learned, u)
  }

  /** `b` is follower `j`, with its score. */
  ghost predicate Chosen(pairs: seq<Pair>, ws: Weights, b: Choice, j: int) {
    Leads(pairs, ws, j) && pairs[j] == Pair(b.token, b.count) && b.score == Score(pairs[j], ws)
  }

  lemma {:induction false} ChooseLeads(pairs: seq<Pair>, ws: Weights)
    ensures var b := Choose(pairs, ws);
            && b.score >= 0 && (forall i :: 0 <= i < |pairs| ==> Score(pairs[i], ws) <= b.score)
            && if b.score == 0 then b.count == 0 else exists j :: Chosen(pairs, ws, b, j)
  {
    if pairs != [] {
      ChooseStep(pairs, ws);
      hide Score, Choose;
      var l := |pairs| - 1;
      ChooseLeads(pairs[..l], ws);
      var a, b := Choose(pairs[..l], ws), Choose(pairs, ws);
      assert pairs == pairs[..l] + [pairs[l]];
      if Score(pairs[l], ws) > a.score {
        NewLeads(pairs[..l], pairs[l], ws, a.score);
      } else if a.score > 0 {
        var j :| Chosen(pairs[..l], ws, a, j);
        StillLeads(pairs[..l], pairs[l], ws, a, j);
      }
    }
  }

  lemma NewLeads(front: seq<Pair>, p: Pair, ws: Weights, score: int)
    requires score >= 0 && forall i :: 0 <= i < |front| ==> Score(front[i], ws) <= score
    requires Score(p, ws) > score
    ensures Chosen(front + [p], ws, Choice(Score(p, ws), p.token, p.count), |front|)
  {
    hide Score;
  }

  lemma StillLeads(front: seq<Pair>, p: Pair, ws: Weights, a: Choice, j: int)
    requires Chosen(front, ws, a, j) && Score(p, ws) <= a.score
    ensures Chosen(front + [p], ws, a, j)
  {
    hide Score;
  }

  lemma ChooseStep(pairs: seq<Pair>, ws: Weights)
    requires pairs != []
    ensures var a, p := Choose(pairs[..|pairs| - 1], ws), pairs[|pairs| - 1];
            Choose(pairs, ws) == if Score(p, ws) > a.score then Choice(Score(p, ws), p.token, p.count) else a
  {
    hide Weight;
  }

  /** Only one follower leads. */
  lemma LeadsOnce(pairs: seq<Pair>, ws: Weights, i: int, j: int)
    requires Leads(pairs, ws, i) && Leads(pairs, ws, j)
    ensures i == j
  {
    hide Score;
  }

  /** What is chosen after one n-gram is what leads there by enough. */
  lemma AtPasses(entries: seq<Entry>, hist: seq<Token>, nmin: nat, n: nat, ws: Weights, learned: bool, t: Token)
    requires 1 <= nmin <= n <= NGRAM_MAX
    ensures PlainAt(entries, hist, n, ws, if learned then STRICT else LAX, n - nmin) == Some(t)
            <==> Passes(entries, hist, nmin, n, ws, learned, t)
  {
    hide NgramCache.Scan, KeyOf, Choose, Score, Leads;
    if n <= |hist| {
      var found := NgramCache.Scan(entries, KeyOf(hist[|hist| - n..]));
      if found.Some? {
        var ps := found.value.pairs;
        var b := Choose(ps, ws);
        ChooseLeads(ps, ws);
        EnoughIs(learned, n - nmin, Sum(ps), b.count);
        hide Enough, Sum, LAX, STRICT;
        forall j, k | Leads(ps, ws, j) && Leads(ps, ws, k)
          ensures j == k
        {
          LeadsOnce(ps, ws, j, k);
        }
        NoneLeads(ps, ws);
      }
    }
  }

  lemma NoneLeads(pairs: seq<Pair>, ws: Weights)
    ensures Choose(pairs, ws).score == 0 ==> forall j :: !Leads(pairs, ws, j)
  {
    hide Score, Choose;
    ChooseLeads(pairs, ws);
  }

  lemma EnoughIs(learned: bool, above: nat, total: int, count: int)
    requires above < NGRAM_MAX
    ensures var th := if learned then STRICT else LAX;
            Enough(learned, above, total, count)
            <==> total >= th.sample[above] && 100 * count >= th.percent[above] * total
    ensures Enough(learned, above, total, count) ==> count > 0
  {
  }

  /** The longest n-gram that passes decides, and there is no choice only if
      none does. */
  lemma {:induction false} PrimaryIsLongest(entries: seq<Entry>, hist: seq<Token>, nmin: nat, n: nat, ws: Weights,
                                            learned: bool)
    requires 1 <= nmin && n <= NGRAM_MAX
    ensures match PlainPrimary(entries, hist, nmin, n, ws, if learned then STRICT else LAX)
            case Some(t) => Longest(entries, hist, nmin, n, ws, learned, t)
            case None => NonePasses(entries, hist, nmin, n, ws, learned)
  {
    hide PlainAt, Passes;
    if n >= nmin {
      forall t: Token
        ensures PlainAt(entries, hist, n, ws, if learned then STRICT else LAX, n - nmin) == Some(t)
                <==> Passes(entries, hist, nmin, n, ws, learned, t)
      {
        AtPasses(entries, hist, nmin, n, ws, learned, t);
      }
      PrimaryIsLongest(entries, hist, nmin, n - 1, ws, learned);
    }
  }

  /** Follower `j` is the first of the most frequent, and has its share. */
  ghost predicate Frequent(pairs: seq<Pair>, j: int) {
    && 0 <= j < |pairs| && 100 * pairs[j].count >= 50 * Sum(pairs)
    && (forall i :: 0 <= i < j ==> pairs[i].count < pairs[j].count)
    && (forall i :: j < i < |pairs| ==> pairs[i].count <= pairs[j].count)
  }

  /** The corpus has seen the pair twice, and `t` first among its most
      frequent followers, half of the time. */
  ghost predicate InCorpus(pairs: seq<Pair>, t: Token) {
    Sum(pairs) >= 2 && exists j :: Frequent(pairs, j) && pairs[j].token == t
  }

  lemma {:induction false} BestIsFirst(pairs: seq<Pair>)
    ensures var (t, c) := Best(pairs);
            && c >= 0 && (forall i :: 0 <= i < |pairs| ==> pairs[i].count <= c)
            && (c > 0 ==> exists j :: 0 <= j < |pairs| && pairs[j] == Pair(t, c)
                                      && forall i :: 0 <= i < j ==> pairs[i].count < c)
  {
    if pairs != [] {
      var l := |pairs| - 1;
      BestIsFirst(pairs[..l]);
      var (a, m) := Best(pairs[..l]);
      assert forall i :: 0 <= i < l ==> pairs[..l][i] == pairs[i];
      if pairs[l].count <= m && m > 0 {
        var j :| 0 <= j < l && pairs[..l][j] == Pair(a, m) && forall i :: 0 <= i < j ==> pairs[..l][i].count < m;
        assert pairs[j] == Pair(a, m) && forall i :: 0 <= i < j ==> pairs[i].count < m;
      }
    }
  }

  lemma CorpusIs(pairs: seq<Pair>, t: Token)
    ensures InCorpus(pairs, t) <==> Sum(pairs) >= 2 && 100 * Best(pairs).1 >= 50 * Sum(pairs) && Best(pairs).0 == t
  {
    hide Sum, Best;
    BestIsFirst(pairs);
    var (b, c) := Best(pairs);
    if Sum(pairs) >= 2 && 100 * c >= 50 * Sum(pairs) {
      var j :| 0 <= j < |pairs| && pairs[j] == Pair(b, c) && forall i :: 0 <= i < j ==> pairs[i].count < c;
      assert Frequent(pairs, j);
      forall i | Frequent(pairs, i)
        ensures i == j
      {
      }
    }
  }

  /** The request's own cache goes first, then the learned one, then the
      corpus; each only where none before it has an n-gram that passes. */
  lemma NextIsRanked(ctx: seq<Entry>, dyn: seq<Entry>, rs: seq<Record>, hist: seq<Token>, nmin: nat, nmax: nat)
    requires 1 <= nmin && nmax <= NGRAM_MAX && |hist| >= NGRAM_STATIC
    ensures var st := ScanRecords(rs, hist[|hist| - 2], hist[|hist| - 1]);
            var ws := if st.Some? then Some(st.value.pairs) else None;
            match PlainNext(ctx, dyn, rs, hist, nmin, nmax)
            case Some((t, Context)) => Longest(ctx, hist, nmin, nmax, ws, false, t)
            case Some((t, Dynamic)) =>
              NonePasses(ctx, hist, nmin, nmax, ws, false) && Longest(dyn, hist, nmin, nmax, ws, true, t)
            case Some((t, Corpus)) =>
              && NonePasses(ctx, hist, nmin, nmax, ws, false) && NonePasses(dyn, hist, nmin, nmax, ws, true)
              && st.Some? && InCorpus(st.value.pairs, t)
            case None =>
              && NonePasses(ctx, hist, nmin, nmax, ws, false) && NonePasses(dyn, hist, nmin, nmax, ws, true)
              && (st.Some? ==> forall t: Token :: !InCorpus(st.value.pairs, t))
  {
    hide PlainPrimary, ScanRecords, Longest, NonePasses, InCorpus, Sum, Best;
    var st := ScanRecords(rs, hist[|hist| - 2], hist[|hist| - 1]);
    var ws := if st.Some? then Some(st.value.pairs) else None;
    PrimaryIsLongest(ctx, hist, nmin, nmax, ws, false);
    PrimaryIsLongest(dyn, hist, nmin, nmax, ws, true);
    if st.Some? {
      forall t: Token
        ensures InCorpus(st.value.pairs, t)
                <==> Sum(st.value.pairs) >= 2 && 100 * Best(st.value.pairs).1 >= 50 * Sum(st.value.pairs)
                     && Best(st.value.pairs).0 == t
      {
        CorpusIs(st.value.pairs, t);
      }
    }
  }

  function TokensOf(d: seq<(Token, Tier)>): (ts: seq<Token>)
    ensures |ts| == |d|
  {
    seq(|d|, i requires 0 <= i < |d| => d[i].0)
  }

  /** Each token is the choice after the history and the draft before it, and
      a draft shorter than asked for ends where there is none. */
  lemma {:induction false} DraftsOn(ctx: seq<Entry>, dyn: seq<Entry>, rs: seq<Record>, hist: seq<Token>, k: nat,
                                    nmin: nat, nmax: nat)
    requires 1 <= nmin && nmax <= NGRAM_MAX && |hist| >= NGRAM_STATIC
    ensures var d := PlainDraft(ctx, dyn, rs, hist, k, nmin, nmax);
            && (forall i :: 0 <= i < |d| ==>
                  PlainNext(ctx, dyn, rs, hist + TokensOf(d[..i]), nmin, nmax) == Some(d[i]))
            && (|d| < k ==> PlainNext(ctx, dyn, rs, hist + TokensOf(d), nmin, nmax) == None)
    decreases k
  {
    hide PlainNext;
    var d := PlainDraft(ctx, dyn, rs, hist, k, nmin, nmax);
    assert hist + TokensOf(d[..0]) == hist;
    if d != [] {
      var more := hist + [d[0].0];
      DraftsOn(ctx, dyn, rs, more, k - 1, nmin, nmax);
      assert PlainDraft(ctx, dyn, rs, more, k - 1, nmin, nmax) == d[1..];
      forall i | 0 < i < |d|
        ensures more + TokensOf(d[1..][..i - 1]) == hist + TokensOf(d[..i]) && d[1..][i - 1] == d[i]
      {
        TokensOn(hist, d[..i]);
        assert d[..i][1..] == d[1..][..i - 1];
      }
      TokensOn(hist, d);
    }
  }

  lemma TokensOn(hist: seq<Token>, d: seq<(Token, Tier)>)
    requires d != []
    ensures hist + [d[0].0] + TokensOf(d[1..]) == hist + TokensOf(d)
  {
  }

  // ---- the drafter ----

  /** The choice among one n-gram's followers. */
  method ChooseIn(pairs: seq<Pair>, ws: Weights) returns (c: Choice)
    requires ws.Some? ==> Ascending(ws.value)
    ensures c == Choose(pairs, ws)
  {
    c := Choice(0, NULL, 0);
    for i := 0 to |pairs|
      invariant c == Choose(pairs[..i], ws)
    {
      assert pairs[..i + 1][..i] == pairs[..i];
      var w := 1;
      if ws.Some? {
        var s := CountIn(ws.value, pairs[i].token);
        if s.Some? { w := 100 * s.value; }
      }
      if pairs[i].count * w > c.score {
        c := Choice(pairs[i].count * w, pairs[i].token, pairs[i].count);
      }
    }
    assert pairs[..|pairs|] == pairs;
  }

  /** The choice after one n-gram: the precheck on the cached total and
      largest count skips an n-gram none of whose followers can pass. */
  method TryAt(c: Cache, hist: seq<Token>, n: nat, ws: Weights, th: Thresholds, i: nat) returns (r: Option<Token>)
    requires c.Valid() && n <= NGRAM_MAX && th.Sized() && i < NGRAM_MAX
    requires ws.Some? ==> Ascending(ws.value)
    ensures r == PlainAt(c.entries, hist, n, ws, th, i)
  {
    hide NgramCache.Scan, Choose, Ascending, KeyOf, AllExact, Exact, Sum;
    if n > |hist| { return None; }
    var part := c.Find(KeyOf(Tail(hist, n)));
    if part.None? { return None; }
    var p := part.value;
    FoundExact(c.entries, KeyOf(Tail(hist, n)));
    Precheck(p, ws);
    if p.sum < th.sample[i] || 100 * p.max < th.percent[i] * p.sum { return None; }
    var best := ChooseIn(p.pairs, ws);
    return if 100 * best.count >= th.percent[i] * p.sum then Some(best.token) else None;
  }

  /** The choice of one cache, the longest n-gram first. */
  method TryPrimary(c: Cache, hist: seq<Token>, nmin: nat, nmax: nat, ws: Weights,
                    th: Thresholds) returns (r: Option<Token>)
    requires c.Valid() && 1 <= nmin && nmax <= NGRAM_MAX && th.Sized()
    requires ws.Some? ==> Ascending(ws.value)
    ensures r == PlainPrimary(c.entries, hist, nmin, nmax, ws, th)
  {
    hide PlainAt, Ascending, AllExact;
    var n := nmax;
    while n >= nmin
      invariant 0 <= n <= nmax
      invariant PlainPrimary(c.entries, hist, nmin, nmax, ws, th) == PlainPrimary(c.entries, hist, nmin, n, ws, th)
    {
      r := TryAt(c, hist, n, ws, th, n - nmin);
      if r.Some? { return; }
      n := n - 1;
    }
    return None;
  }

  lemma FoundExact(entries: seq<Entry>, k: Key)
    requires AllExact(entries) && NgramCache.Scan(entries, k).Some?
    ensures Exact(NgramCache.Scan(entries, k).value)
  {
  }

  /** The cached total is the total, and no choice beats the cached largest. */
  lemma Precheck(p: Part, ws: Weights)
    requires Exact(p)
    ensures p.sum == Sum(p.pairs) && Choose(p.pairs, ws).count <= p.max
  {
    ChooseCount(p.pairs, ws, p.max);
  }

  /** A window that holds the longest n-gram answers as the whole history. */
  lemma WindowAt(entries: seq<Entry>, hist: seq<Token>, win: seq<Token>, n: nat, ws: Weights, th: Thresholds, i: nat)
    requires n <= NGRAM_MAX && th.Sized() && i < NGRAM_MAX
    requires Min(n, |hist|) <= |win| <= |hist| && win == Tail(hist, |win|)
    ensures PlainAt(entries, win, n, ws, th, i) == PlainAt(entries, hist, n, ws, th, i)
  {
    hide NgramCache.Scan, Choose, Trusted;
    if n <= |hist| { assert Tail(win, n) == Tail(hist, n); }
  }

  lemma {:induction false} WindowAnswers(entries: seq<Entry>, hist: seq<Token>, win: seq<Token>, nmin: nat, n: nat,
                                         ws: Weights, th: Thresholds)
    requires 1 <= nmin && n <= NGRAM_MAX && th.Sized()
    requires Min(n, |hist|) <= |win| <= |hist| && win == Tail(hist, |win|)
    ensures PlainPrimary(entries, win, nmin, n, ws, th) == PlainPrimary(entries, hist, nmin, n, ws, th)
  {
    hide PlainAt;
    if n >= nmin {
      WindowAt(entries, hist, win, n, ws, th, n - nmin);
      WindowAnswers(entries, hist, win, nmin, n - 1, ws, th);
    }
  }

  lemma NextInWindow(ctx: seq<Entry>, dyn: seq<Entry>, rs: seq<Record>, hist: seq<Token>, win: seq<Token>, nmin: nat,
                     nmax: nat)
    requires 1 <= nmin && nmax <= NGRAM_MAX && |hist| >= |win| >= NGRAM_STATIC
    requires Min(nmax, |hist|) <= |win| && win == Tail(hist, |win|)
    ensures PlainNext(ctx, dyn, rs, win, nmin, nmax) == PlainNext(ctx, dyn, rs, hist, nmin, nmax)
  {
    hide PlainPrimary, ScanRecords;
    var st := ScanRecords(rs, hist[|hist| - 2], hist[|hist| - 1]);
    var ws := if st.Some? then Some(st.value.pairs) else None;
    WindowAnswers(ctx, hist, win, nmin, nmax, ws, LAX);
    WindowAnswers(dyn, hist, win, nmin, nmax, ws, STRICT);
  }

  /** One drafted token after `win`. */
  method NextToken(win: seq<Token>, nmin: nat, nmax: nat, ctx: Cache, dyn: Cache, statics: Static, hash: nat -> nat,
                   ghost rs: seq<Record>)
    returns (r: Option<(Token, Tier)>)
    requires ctx.Valid() && dyn.Valid() && Answers(statics, hash, rs)
    requires 1 <= nmin && nmax <= NGRAM_MAX && |win| >= NGRAM_STATIC
    ensures r == PlainNext(ctx.entries, dyn.entries, rs, win, nmin, nmax)
  {
    hide PlainPrimary, ScanRecords, Ascending, Best, Sum, AllExact;
    var m := Find(statics, hash, rs, win[|win| - 2], win[|win| - 1]);
    ghost var st := ScanRecords(rs, win[|win| - 2], win[|win| - 1]);
    var ws: Weights := if m.Some? then Some(Slice(statics.pairs, m.value.at)) else None;
    if m.Some? { FoundAscending(statics, hash, rs, win[|win| - 2], win[|win| - 1]); }
    var t := TryPrimary(ctx, win, nmin, nmax, ws, LAX);
    if t.Some? { return Some((t.value, Context)); }
    t := TryPrimary(dyn, win, nmin, nmax, ws, STRICT);
    if t.Some? { return Some((t.value, Dynamic)); }
    if m.Some? && m.value.sum >= LAX.sample[NGRAM_STATIC - 1]
       && 100 * m.value.topCount >= LAX.percent[NGRAM_STATIC - 1] * m.value.sum {
      return Some((m.value.top, Corpus));
    }
    return None;
  }

  lemma FoundAscending(s: Static, hash: nat -> nat, rs: seq<Record>, a: Token, b: Token)
    requires Answers(s, hash, rs) && ScanRecords(rs, a, b).Some?
    ensures Ascending(ScanRecords(rs, a, b).value.pairs)
  {
    var r := ScanRecords(rs, a, b).value;
    var i :| 0 <= i < |rs| && rs[i] == r;
  }

  /** `out` is drafted already, and `win` stands for `hist`, the history with
      it; what is missing is the plain draft after `hist`. */
  ghost predicate Drafting(ctx: seq<Entry>, dyn: seq<Entry>, rs: seq<Record>, whole: seq<(Token, Tier)>,
                           out: seq<(Token, Tier)>, hist: seq<Token>, win: seq<Token>, k: nat, nmin: nat, nmax: nat)
  {
    && 1 <= nmin && nmax <= NGRAM_MAX && NGRAM_STATIC <= |win| <= |hist|
    && Min(nmax, |hist|) <= |win| && win == Tail(hist, |win|)
    && whole == out + PlainDraft(ctx, dyn, rs, hist, k, nmin, nmax)
  }

  lemma DraftStep(ctx: seq<Entry>, dyn: seq<Entry>, rs: seq<Record>, whole: seq<(Token, Tier)>,
                  out: seq<(Token, Tier)>, hist: seq<Token>, win: seq<Token>, k: nat, nmin: nat, nmax: nat)
    requires Drafting(ctx, dyn, rs, whole, out, hist, win, k, nmin, nmax) && k > 0
    ensures match PlainNext(ctx, dyn, rs, win, nmin, nmax)
            case None => whole == out
            case Some(x) =>
              Drafting(ctx, dyn, rs, whole, out + [x], hist + [x.0], win + [x.0], k - 1, nmin, nmax)
  {
    hide PlainNext, PlainDraft, Tail;
    NextInWindow(ctx, dyn, rs, hist, win, nmin, nmax);
    DraftOne(ctx, dyn, rs, hist, k, nmin, nmax);
    match PlainNext(ctx, dyn, rs, win, nmin, nmax) {
      case None =>
        assert out + [] == out;
      case Some(x) =>
        DraftedOn(out, x, PlainDraft(ctx, dyn, rs, hist + [x.0], k - 1, nmin, nmax));
        WindowPush(hist, win, x.0);
    }
  }

  lemma DraftedOn<T>(out: seq<T>, x: T, rest: seq<T>)
    ensures out + ([x] + rest) == out + [x] + rest
  {
  }

  lemma WindowPush(hist: seq<Token>, win: seq<Token>, t: Token)
    requires |win| <= |hist| && win == Tail(hist, |win|)
    ensures win + [t] == Tail(hist + [t], |win| + 1)
  {
  }

  lemma DraftEnd(ctx: seq<Entry>, dyn: seq<Entry>, rs: seq<Record>, whole: seq<(Token, Tier)>,
                 out: seq<(Token, Tier)>, hist: seq<Token>, win: seq<Token>, nmin: nat, nmax: nat)
    requires Drafting(ctx, dyn, rs, whole, out, hist, win, 0, nmin, nmax)
    ensures whole == out
  {
    hide PlainNext;
    assert out + [] == out;
  }

  lemma DraftStart(ctx: seq<Entry>, dyn: seq<Entry>, rs: seq<Record>, hist: seq<Token>, keep: nat, k: nat, nmin: nat,
                   nmax: nat)
    requires 1 <= nmin && nmax <= NGRAM_MAX && |hist| >= NGRAM_STATIC
    requires keep == Min(Max(nmax, NGRAM_STATIC), |hist|)
    ensures Drafting(ctx, dyn, rs, PlainDraft(ctx, dyn, rs, hist, k, nmin, nmax), [], hist, Tail(hist, keep), k, nmin,
                     nmax)
  {
    hide PlainDraft;
    var whole := PlainDraft(ctx, dyn, rs, hist, k, nmin, nmax);
    assert [] + whole == whole;
  }

  /** A draft with its tiers. It looks at a short suffix only, and gives what
      plain scans over the entire history would. */
  method Draft(history: seq<Token>, k: nat, nmin: nat, nmax: nat, ctx: Cache, dyn: Cache, statics: Static,
               hash: nat -> nat, ghost rs: seq<Record>)
    returns (out: seq<(Token, Tier)>)
    requires ctx.Valid() && dyn.Valid() && Answers(statics, hash, rs)
    requires 1 <= nmin && nmax <= NGRAM_MAX
    ensures out == PlainDraft(ctx.entries, dyn.entries, rs, history, k, nmin, nmax)
    ensures |out| <= k
  {
    hide PlainNext, PlainDraft, Answers, AllExact, Exact, Drafting, Cache.Valid;
    out := [];
    DraftNone(ctx.entries, dyn.entries, rs, history, k, nmin, nmax);
    if |history| < NGRAM_STATIC || k == 0 { return; }
    var keep := Min(Max(nmax, NGRAM_STATIC), |history|);
    var win := Tail(history, keep);
    ghost var hist := history;
    ghost var whole := PlainDraft(ctx.entries, dyn.entries, rs, hist, k, nmin, nmax);
    DraftStart(ctx.entries, dyn.entries, rs, hist, keep, k, nmin, nmax);
    while |out| < k
      invariant |out| <= k && |win| >= NGRAM_STATIC
      invariant Drafting(ctx.entries, dyn.entries, rs, whole, out, hist, win, k - |out|, nmin, nmax)
      decreases k - |out|
    {
      DraftStep(ctx.entries, dyn.entries, rs, whole, out, hist, win, k - |out|, nmin, nmax);
      var got := NextToken(win, nmin, nmax, ctx, dyn, statics, hash, rs);
      if got.None? { return; }
      out, win, hist := out + [got.value], win + [got.value.0], hist + [got.value.0];
    }
    DraftEnd(ctx.entries, dyn.entries, rs, whole, out, hist, win, nmin, nmax);
  }

  lemma DraftNone(ctx: seq<Entry>, dyn: seq<Entry>, rs: seq<Record>, hist: seq<Token>, k: nat, nmin: nat, nmax: nat)
    requires 1 <= nmin && nmax <= NGRAM_MAX
    ensures k == 0 || |hist| < NGRAM_STATIC ==> PlainDraft(ctx, dyn, rs, hist, k, nmin, nmax) == []
  {
  }

  lemma DraftOne(ctx: seq<Entry>, dyn: seq<Entry>, rs: seq<Record>, hist: seq<Token>, k: nat, nmin: nat, nmax: nat)
    requires 1 <= nmin && nmax <= NGRAM_MAX && k > 0 && |hist| >= NGRAM_STATIC
    ensures var x := PlainNext(ctx, dyn, rs, hist, nmin, nmax);
            PlainDraft(ctx, dyn, rs, hist, k, nmin, nmax)
            == if x.None? then [] else [x.value] + PlainDraft(ctx, dyn, rs, hist + [x.value.0], k - 1, nmin, nmax)
  {
    hide PlainNext;
  }
}
