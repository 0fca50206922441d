/** Greedy generation with drafts verified by the model. */
module Generation {
  import opened Common
  import opened Words
  import opened Model
  import opened PromptCuts
  import opened Greedy
  import opened Counters
  import Lookup
  import IndexTable
  import LookupTable
  import NgramCache
  import CacheFile
  import StaticCache
  import CacheDraft

  /** The longest decode after the prompt. */
  function WidestBatch(p: Params): nat {
    Max(p.foldMax, 1 + Max(p.kMax, p.cacheK))
  }

  // ---- the prompt ----

  /** Decodes of the prompt's `n` tokens have at most `batch` tokens, later
      ones at most `wide`. */
  ghost predicate Bounded(log: seq<Batch>, n: nat, batch: nat, wide: nat) {
    forall i :: 0 <= i < |log| ==> |log[i].tokens| <= if log[i].pos < n then batch else wide
  }

  lemma BoundedPush(log: seq<Batch>, b: Batch, n: nat, batch: nat, wide: nat)
    requires Bounded(log, n, batch, wide) && |b.tokens| <= if b.pos < n then batch else wide
    ensures Bounded(log + [b], n, batch, wide)
  {
  }

  /** A batch of the prompt as the model sees it: the last one is asked for a
      choice. */
  function Prompted(prompt: seq<Token>, from: nat, end: nat): Batch
    requires from <= end <= |prompt|
  {
    Batch(from, prompt[from..end], if end == |prompt| then 1 else 0)
  }

  /** One batch of the prompt, and the choice after it when it is the last. */
  method PrefillBatch(m: Model, prompt: seq<Token>, from: nat, end: nat) returns (r: Result<Token>)
    requires from < end <= |prompt| && m.cells == prompt[..from] && m.InStep()
    modifies m`cells, m`state, m`log
    ensures r.Ok? && m.cells == prompt[..end] && m.InStep() && m.log == old(m.log) + [Prompted(prompt, from, end)]
    ensures end == |prompt| ==> r.value == m.next(m.banned, prompt)
  {
    assert prompt[..from] + prompt[from..end] == prompt[..end];
    assert end == |prompt| ==> prompt[..from] + prompt[from..end][..end - from - 1 + 1] == prompt;
    var last := end == |prompt|;
    var want: seq<nat> := if last then [end - from - 1] else [];
    var got := m.Decode(prompt[from..end], from, want);
    if got.Err? { return Err("a prompt batch failed"); }
    return Ok(if last then got.value[0] else 0);
  }

  /** The prompt brought into the context batch by batch. The result is what
      the model would say next, 0 where there is no prompt. */
  method Prefill(m: Model, prompt: seq<Token>, ghost wide: nat) returns (r: Result<Token>)
    requires m.batch >= 1 && m.cells == [] && m.InStep() && m.log == []
    modifies m`cells, m`state, m`log
    ensures r.Ok? && m.cells == prompt && m.InStep()
    ensures r.value == if prompt == [] then 0 else m.next(m.banned, prompt)
    ensures Bounded(m.log, |prompt|, m.batch, wide)
    ensures forall b <- m.log :: b.pos < |prompt| && b.rows <= 1
  {
    hide Partition, TailCuts, Bounded;
    var cuts := CutPrompt(|prompt|, m.batch, m.ubatch, m.recurrent);
    ghost var tail := TailCuts(|prompt|, m.batch, m.ubatch, m.recurrent);
    CutsEnd(cuts, m.batch, |prompt|, tail);
    var from := 0;
    r := Ok(0);
    BoundedNone(|prompt|, m.batch, wide);
    for i := 0 to |cuts|
      invariant from == Start(cuts, i) <= |prompt| && m.cells == prompt[..from] && m.InStep()
      invariant r.Ok? && (i == 0 ==> r.value == 0)
      invariant i > 0 && from == |prompt| ==> r.value == m.next(m.banned, prompt)
      invariant Bounded(m.log, |prompt|, m.batch, wide)
      invariant forall b <- m.log :: b.pos < |prompt| && b.rows <= 1
    {
      CutAt(cuts, m.batch, |prompt|, tail, i);
      BoundedPush(m.log, Prompted(prompt, from, cuts[i]), |prompt|, m.batch, wide);
      r := PrefillBatch(m, prompt, from, cuts[i]);
      if r.Err? { return; }
      from := cuts[i];
    }
    assert prompt[..|prompt|] == prompt;
  }

  lemma BoundedNone(n: nat, batch: nat, wide: nat)
    ensures Bounded([], n, batch, wide)
  {
  }

  // ---- verifying a draft ----

  /** What holds between steps: the context and the carried tokens are the
      decided ones, and something carried means the checkpoint is the
      context's own state. */
  ghost predicate Settled(m: Model, decided: seq<Token>, pending: seq<Token>, ckpt: seq<byte>)
    reads m
  {
    && m.cells + pending == decided
    && m.InStep()
    && (pending != [] ==> m.recurrent && ckpt == TokenBytes(m.cells))
  }

  datatype Verdict = Verdict(accepted: nat, next: Token, pending: seq<Token>, ckpt: seq<byte>, restored: bool)

  /** The batch decoded: the model's choice after `cur` and after each token
      of the draft. */
  method Choices(m: Model, cur: Token, draft: seq<Token>, pending: seq<Token>, pos: nat, ghost decided: seq<Token>)
    returns (r: Result<seq<Token>>)
    requires m.cells + pending == decided && m.InStep() && pos == |decided|
    modifies m`cells, m`state, m`log
    ensures r.Ok? && |r.value| == |draft| + 1 && m.InStep()
    ensures forall i :: 0 <= i <= |draft| ==> r.value[i] == m.next(m.banned, decided + [cur] + draft[..i])
    ensures m.cells == old(m.cells) + (pending + [cur] + draft)
    ensures m.log == old(m.log) + [Batch(pos - |pending|, pending + [cur] + draft, 1 + |draft|)]
  {
    var tokens := pending + [cur] + draft;
    var rows: seq<nat> := seq(1 + |draft|, i requires 0 <= i => |pending| + i);
    ghost var before := m.cells;
    r := m.Decode(tokens, pos - |pending|, rows);
    forall i | 0 <= i <= |draft|
      ensures r.value[i] == m.next(m.banned, decided + [cur] + draft[..i])
    {
      JoinBatch(before, pending, cur, draft, i);
    }
  }

  /** `cur` and the draft decoded behind the carried tokens, and what the
      model did not choose itself taken back. Neither way of taking back
      fails. */
  method Verify(m: Model, cur: Token, draft: seq<Token>, pending: seq<Token>, pos: nat, ckpt: seq<byte>,
                ghost decided: seq<Token>)
    returns (r: Result<Verdict>)
    requires Settled(m, decided, pending, ckpt) && draft != [] && pos == |decided|
    modifies m`cells, m`state, m`log
    ensures r.Ok? && r.value.accepted <= |draft|
    ensures var v, h := r.value, decided + [cur];
            && (forall i :: 0 <= i < v.accepted ==> draft[i] == m.next(m.banned, h + draft[..i]))
            && v.next == m.next(m.banned, h + draft[..v.accepted])
            && Settled(m, h + draft[..v.accepted], v.pending, v.ckpt)
            && (v.accepted < |draft| ==> draft[v.accepted] != v.next)
    ensures m.log == old(m.log) + [Batch(pos - |pending|, pending + [cur] + draft, 1 + |draft|)]
    ensures |m.cells| >= old(|m.cells|)
    ensures r.value.pending != [] ==> |r.value.pending| <= |pending| + |draft|
    ensures r.value.restored <==> r.value.accepted < |draft| && m.recurrent && |draft| > m.rsSeq
  {
    hide TokenBytes;
    var buf := ckpt;
    var bounded := m.recurrent && |draft| > m.rsSeq;
    if bounded && pending == [] {
      buf := m.Checkpoint();
    }
    ghost var before := m.cells;
    var got := Choices(m, cur, draft, pending, pos, decided);
    if got.Err? { return Err("the batch failed"); }
    var choice := got.value;
    var j := 0;
    while j < |draft| && choice[j] == draft[j]
      invariant j <= |draft| && forall i :: 0 <= i < j ==> choice[i] == draft[i]
    {
      j := j + 1;
    }
    var back := TakeBack(m, cur, draft, pending, pos, j, bounded, buf, before);
    if back.Err? { return Err("the context could not take the draft back"); }
    assert decided + [cur] + draft[..j] == before + pending + [cur] + draft[..j];
    return Ok(Verdict(j, choice[j], back.value, buf, back.value != []));
  }

  lemma JoinBatch(cells: seq<Token>, pending: seq<Token>, cur: Token, draft: seq<Token>, i: nat)
    requires i <= |draft|
    ensures cells + (pending + [cur] + draft)[..|pending| + i + 1] == cells + pending + [cur] + draft[..i]
  {
  }

  /** The rejected tail of the batch undone. A recurrent model whose state
      cannot be cut goes back to the checkpoint, and the batch's decided
      tokens are carried; any other context is cut. */
  method TakeBack(m: Model, cur: Token, draft: seq<Token>, pending: seq<Token>, pos: nat, j: nat, bounded: bool,
                  ckpt: seq<byte>, ghost before: seq<Token>)
    returns (r: Result<seq<Token>>)
    requires m.cells == before + (pending + [cur] + draft) && m.InStep() && pos == |before| + |pending| && j <= |draft|
    requires bounded == (m.recurrent && |draft| > m.rsSeq)
    requires bounded ==> ckpt == TokenBytes(before)
    requires pending != [] ==> ckpt == TokenBytes(before)
    modifies m`cells, m`state
    ensures r.Ok? && Settled(m, before + pending + [cur] + draft[..j], r.value, ckpt)
    ensures |m.cells| >= |before| && |r.value| <= |pending| + |draft|
    ensures r.value != [] <==> bounded && j < |draft|
  {
    var tokens := pending + [cur] + draft;
    ghost var kept := before + pending + [cur] + draft[..j];
    if j == |draft| {
      assert m.cells + [] == kept;
      return Ok([]);
    }
    var carry := tokens[..|pending| + 1 + j];
    assert before + carry == kept;
    if bounded {
      m.Restore(ckpt);
      var ok := m.Truncate(pos - |pending|);
      if !ok { return Err("the context could not take back after a restore"); }
      return Ok(carry);
    }
    var ok := m.Truncate(pos + 1 + j);
    if !ok { return Err("the context could not take the draft back"); }
    assert m.cells + [] == kept;
    return Ok([]);
  }

  // ---- what the drafters have seen ----

  /** The index and, when kept, the context cache and its history cover
      exactly `all`. */
  ghost predicate Recorded(look: Lookup.Index, cached: bool, hist: seq<Token>, ctx: NgramCache.Cache, all: seq<Token>)
    reads look, look.tables, ctx
  {
    && look.Valid() && look.tokens == all && ctx.Valid()
    && (if cached then hist == all && NgramCache.CountsOf(ctx.entries, all) else ctx.entries == [])
  }

  /** A decided token shown to the drafters. */
  method See(t: Token, look: Lookup.Index, cached: bool, hist: seq<Token>, ctx: NgramCache.Cache, ghost all: seq<Token>)
    returns (h: seq<Token>)
    requires Recorded(look, cached, hist, ctx, all) && |all| < LookupTable.U32
    modifies look, look.tables, ctx
    ensures Recorded(look, cached, h, ctx, all + [t])
  {
    hide Lookup.Indexed, NgramCache.AllExact, IndexTable.Leads;
    hide LookupTable.Holds, NgramCache.Tally, NgramCache.HistoryCount;
    look.Push(t);
    h := hist;
    if cached {
      h := hist + [t];
      ghost var before := ctx.entries;
      ctx.Update(h, 1, 1, NgramCache.NGRAM_MAX);
      SeeOne(before, ctx.entries, hist, t);
    }
  }

  lemma SeeOne(before: seq<NgramCache.Entry>, after: seq<NgramCache.Entry>, hist: seq<Token>, t: Token)
    requires NgramCache.CountsOf(before, hist)
    requires forall k: NgramCache.Key, u: Token :: NgramCache.Tally(after, k, u) == NgramCache.Tally(before, k, u)
                + NgramCache.Occurrences(hist + [t], |hist|, 1, NgramCache.NGRAM_MAX, k, u)
    ensures NgramCache.CountsOf(after, hist + [t])
  {
    hide NgramCache.Tally, NgramCache.HistoryCount, NgramCache.Occurrences;
    forall k: NgramCache.Key, u: Token
      ensures NgramCache.Tally(after, k, u) == NgramCache.HistoryCount(hist + [t], k, u)
    {
      NgramCache.HistoryPush(hist, t, k, u);
    }
  }

  /** The drafters at the start of a request. */
  method Begin(p: Params, prompt: seq<Token>, cached: bool, key: seq<Token> -> LookupTable.Key,
               hash: NgramCache.Key -> nat)
    returns (look: Lookup.Index, hist: seq<Token>, ctx: NgramCache.Cache)
    requires (forall g :: key(g) != 0) && |prompt| <= LookupTable.U32
    ensures fresh(look) && fresh(look.tables) && fresh(ctx)
    ensures Recorded(look, cached, hist, ctx, prompt) && Drafts(look, p)
  {
    hide Lookup.Indexed, NgramCache.AllExact, IndexTable.Leads;
    hide LookupTable.Holds, NgramCache.Tally, NgramCache.Occurrences;
    look := new Lookup.Index(p.minN, p.maxN, p.pick, key);
    look.Extend(prompt);
    ctx := new NgramCache.Cache(hash);
    hist := [];
    if cached {
      hist := prompt;
      NoTally();
      ctx.Update(hist, |hist|, 1, NgramCache.NGRAM_MAX);
    }
  }

  lemma NoTally()
    ensures forall k: NgramCache.Key, u: Token :: NgramCache.Tally([], k, u) == 0
  {
  }

  // ---- drafting ----

  /** A token other than the last, for drafts meant to be rejected; 32-bit,
      with the remainder's sign as the machine gives it. */
  function JunkToken(cur: Token): Token {
    var v := if cur == 0x7fff_ffff then -0x8000_0000 else cur + 1;
    if v >= 0 then v % 1000 else -((-v) % 1000)
  }

  /** A small token other than the last. */
  lemma JunkDiffers(cur: Token)
    ensures -1000 < JunkToken(cur) < 1000 && JunkToken(cur) != cur
    ensures 0 <= cur < 0x7fff_ffff ==> JunkToken(cur) == (cur + 1) % 1000
  {
  }

  /** The draft after `cur` as plain searches give it, the n-gram's length and
      the tiers: junk if asked for; else the exact match, and the caches'
      draft where there is none or they alone may draft. */
  function Picked(p: Params, cur: Token, k: nat, room: nat, tokens: seq<Token>, lo: nat, hi: nat, pick: Lookup.Pick,
                  hist: seq<Token>, ctx: seq<NgramCache.Entry>, dyn: seq<NgramCache.Entry>,
                  rs: seq<CacheFile.Record>): (seq<Token>, nat, seq<CacheDraft.Tier>)
    requires lo >= 1
  {
    if p.kMax == 0 || room == 0 then ([], 0, [])
    else if p.junk then (seq(Min(k, room), _ => JunkToken(cur)), 0, [])
    else
      var (d, n) := if p.drafter.Caches? then ([], 0) else Lookup.NaiveDraft(tokens, Min(k, room), lo, hi, pick);
      if d == [] && !p.drafter.Exact?
        then var c := CacheDraft.PlainDraft(ctx, dyn, rs, hist, Min(p.cacheK, room), 1, NgramCache.NGRAM_MAX);
             (CacheDraft.TokensOf(c), 0, TiersOf(c))
        else (d, n, [])
  }

  /** Junk if it is asked for; else the exact match, but that the caches
      draft where they are the drafter, or there is no match and both are. */
  lemma PickedRanks(p: Params, cur: Token, k: nat, room: nat, tokens: seq<Token>, lo: nat, hi: nat,
                    pick: Lookup.Pick, hist: seq<Token>, ctx: seq<NgramCache.Entry>, dyn: seq<NgramCache.Entry>,
                    rs: seq<CacheFile.Record>)
    requires lo >= 1
    ensures var (d, n, tiers) := Picked(p, cur, k, room, tokens, lo, hi, pick, hist, ctx, dyn, rs);
            var (exact, e) := Lookup.NaiveDraft(tokens, Min(k, room), lo, hi, pick);
            var c := CacheDraft.PlainDraft(ctx, dyn, rs, hist, Min(p.cacheK, room), 1, NgramCache.NGRAM_MAX);
            if p.kMax == 0 || room == 0 then d == []
            else if p.junk then
              |d| == Min(k, room) && n == 0 && tiers == [] && forall i :: 0 <= i < |d| ==> d[i] == JunkToken(cur)
            else
              && (p.drafter.Exact? || (p.drafter.Both? && exact != []) ==> (d, n, tiers) == (exact, e, []))
              && (p.drafter.Caches? || (p.drafter.Both? && exact == []) ==>
                    |d| == |tiers| == |c| && n == 0 && forall i :: 0 <= i < |c| ==> (d[i], tiers[i]) == c[i])
  {
    hide Lookup.NaiveDraft, CacheDraft.PlainDraft, JunkToken;
  }

  function TiersOf(d: seq<(Token, CacheDraft.Tier)>): (r: seq<CacheDraft.Tier>)
    ensures |r| == |d|
  {
    seq(|d|, i requires 0 <= i < |d| => d[i].1)
  }

  /** The draft after `cur`: the plain searches', unless the index was misled
      by n-grams that share a key. Even then it is a copy of an earlier
      passage or the caches' plain draft. */
  method PickDraft(p: Params, cur: Token, k: nat, room: nat, look: Lookup.Index, hist: seq<Token>,
                   ctx: NgramCache.Cache,
                   dyn: NgramCache.Cache, statics: StaticCache.Static, hash2: nat -> nat,
                   ghost rs: seq<CacheFile.Record>)
    returns (draft: seq<Token>, n: nat, tiers: seq<CacheDraft.Tier>)
    requires look.Valid() && ctx.Valid() && dyn.Valid() && StaticCache.Answers(statics, hash2, rs) && k <= p.kMax
    ensures |draft| <= room && |draft| <= Max(p.kMax, p.cacheK) && (tiers != [] ==> |tiers| == |draft|)
    ensures p.kMax == 0 ==> draft == []
    ensures p.junk || p.drafter.Caches? || Lookup.TailKeysDistinct(look.tokens, look.minN, look.maxN, look.key) ==>
              (draft, n, tiers) == Picked(p, cur, k, room, look.tokens, look.minN, look.maxN, look.pick, hist,
                                          ctx.entries, dyn.entries, rs)
    ensures !p.junk && tiers == [] && draft != [] ==>
              !p.drafter.Caches? && Lookup.IsCopy(look.tokens, n, Min(k, room), draft)
    ensures (tiers == [] ==> |draft| <= Min(k, room)) && (p.junk ==> n == 0)
    ensures tiers != [] ==>
              var d := CacheDraft.PlainDraft(ctx.entries, dyn.entries, rs, hist, Min(p.cacheK, room), 1,
                                             NgramCache.NGRAM_MAX);
              !p.junk && !p.drafter.Exact? && draft == CacheDraft.TokensOf(d) && tiers == TiersOf(d)
  {
    hide Lookup.Indexed, Lookup.IsCopy, NgramCache.AllExact, IndexTable.Leads, Lookup.TailKeysDistinct;
    hide LookupTable.Holds, StaticCache.Answers, CacheDraft.PlainDraft, Lookup.NaiveDraft;
    draft, n, tiers := [], 0, [];
    if p.kMax == 0 || room == 0 { return; }
    if p.junk {
      draft := seq(Min(k, room), _ => JunkToken(cur));
      return;
    }
    if p.drafter != Caches {
      draft, n := look.Draft(Min(k, room));
    }
    if draft == [] && p.drafter != Exact {
      var d := CacheDraft.Draft(hist, Min(p.cacheK, room), 1, NgramCache.NGRAM_MAX, ctx, dyn, statics, hash2, rs);
      draft, n, tiers := CacheDraft.TokensOf(d), 0, TiersOf(d);
    }
  }

  // ---- the loop ----

  /** The loop's variables. */
  datatype Run = Run(o: Outcome, cur: Token, pos: nat, pending: seq<Token>, ckpt: seq<byte>, k: nat, hist: seq<Token>)

  /** At every loop head: the output is the model's own so far, `cur` its
      next token, and the context with the carried tokens is the prompt and
      the output. */
  ghost predicate Going(m: Model, job: Job, p: Params, s: Run)
    reads m
  {
    && job.IsGreedy(s.o.tokens) && job.Live(s.o.tokens) && s.cur == job.Choice(job.prompt + s.o.tokens)
    && s.pos == |job.prompt| + |s.o.tokens|
    && Settled(m, job.prompt + s.o.tokens, s.pending, s.ckpt)
    && Sized(m, job, p, s.pending)
    && Balanced(s.o) && !s.o.eog && s.k <= p.kMax
    && (p.kMax == 0 && s.o.tokens != [] ==> |job.prompt| + |s.o.tokens| < job.nCtx)
  }

  /** Batches so far are within bounds, and the carried tokens leave room. */
  ghost predicate Sized(m: Model, job: Job, p: Params, pending: seq<Token>)
    reads m
  {
    && |m.cells| >= |job.prompt| && Bounded(m.log, |job.prompt|, m.batch, WidestBatch(p))
    && (pending != [] ==> |pending| + 1 <= WidestBatch(p))
  }

  /** `job` is what `m` is asked. */
  ghost predicate Asks(m: Model, job: Job, p: Params)
    reads m
  {
    job.next == m.next && job.ban == m.banned && job.isEog == m.isEog
    && job.nCtx == m.nCtx && job.nPredict == p.nPredict
  }

  /** How far the model's state can be cut, where it has one. */
  ghost function RecallOf(m: Model): Option<nat> {
    if m.recurrent then Some(m.rsSeq) else None
  }

  /** The counters hold the drafts verified and the batches decoded. */
  ghost predicate Tallied(m: Model, job: Job, p: Params, tries: seq<Try>, o: Outcome, due: nat)
    reads m
  {
    Logged(job, p, RecallOf(m), m.log, tries, o, due)
  }

  /** Agreed tokens are emitted one by one until one of them ends generation. */
  method Accept(o: Outcome, accepted: seq<Token>, isEog: Token -> bool, look: Lookup.Index, cached: bool,
                hist: seq<Token>, ctx: NgramCache.Cache, ghost before: seq<Token>)
    returns (c: Outcome, h: seq<Token>, ghost n: nat)
    requires Recorded(look, cached, hist, ctx, before) && |before| + |accepted| <= LookupTable.U32
    requires !o.eog
    modifies look, look.tables, ctx
    ensures n <= |accepted| && c == o.(tokens := o.tokens + accepted[..n], eog := c.eog)
    ensures forall i :: 0 <= i < n - 1 ==> !isEog(accepted[i])
    ensures if c.eog then n >= 1 && isEog(accepted[n - 1])
            else n == |accepted| && forall i :: 0 <= i < n ==> !isEog(accepted[i])
    ensures Recorded(look, cached, h, ctx, before + accepted[..n])
  {
    hide Recorded;
    c, h, n := o, hist, 0;
    assert before + accepted[..0] == before;
    assert o.tokens + accepted[..0] == o.tokens;
    for i := 0 to |accepted|
      invariant c == o.(tokens := o.tokens + accepted[..i]) && n == i
      invariant forall x :: 0 <= x < i ==> !isEog(accepted[x])
      invariant Recorded(look, cached, h, ctx, before + accepted[..i])
    {
      h := See(accepted[i], look, cached, h, ctx, before + accepted[..i]);
      assert before + accepted[..i] + [accepted[i]] == before + accepted[..i + 1];
      assert o.tokens + accepted[..i] + [accepted[i]] == o.tokens + accepted[..i + 1];
      c, n := c.(tokens := c.tokens + [accepted[i]]), i + 1;
      if isEog(accepted[i]) {
        c := c.(eog := true);
        return;
      }
    }
  }

  /** The carried tokens decoded on their own. */
  method Flush(m: Model, pending: seq<Token>, pos: nat, ckpt: seq<byte>,
               ghost decided: seq<Token>) returns (r: Result<()>)
    requires Settled(m, decided, pending, ckpt) && pos == |decided|
    modifies m`cells, m`state, m`log
    ensures r.Ok? && Settled(m, decided, [], ckpt) && m.log == old(m.log) + [Batch(pos - |pending|, pending, 0)]
    ensures |m.cells| >= old(|m.cells|)
  {
    var got := m.Decode(pending, pos - |pending|, []);
    assert m.cells + [] == m.cells;
    return if got.Ok? then Ok(()) else Err("the carried tokens failed");
  }

  /** A step without a draft: the carried tokens and `cur`. */
  method Plain(m: Model, cur: Token, pending: seq<Token>, pos: nat, ckpt: seq<byte>,
               ghost decided: seq<Token>) returns (r: Result<Token>)
    requires Settled(m, decided, pending, ckpt) && pos == |decided|
    modifies m`cells, m`state, m`log
    ensures r.Ok? && r.value == m.next(m.banned, decided + [cur]) && Settled(m, decided + [cur], [], ckpt)
    ensures m.log == old(m.log) + [Batch(pos - |pending|, pending + [cur], 1)] && |m.cells| >= old(|m.cells|)
  {
    var tokens := pending + [cur];
    assert m.cells + tokens == decided + [cur] && tokens[..|pending| + 1] == tokens;
    var got := m.Decode(tokens, pos - |pending|, [|pending|]);
    assert m.cells + [] == m.cells;
    return if got.Ok? then Ok(got.value[0]) else Err("the batch failed");
  }

  /** Generation has ended, with a correct output. */
  ghost predicate Finished(m: Model, job: Job, p: Params, s: Run)
    reads m
  {
    && job.Correct(s.o.tokens) && s.o.tokens != []
    && (s.o.eog <==> job.isEog(s.o.tokens[|s.o.tokens| - 1]))
    && (p.kMax == 0 ==> |s.o.tokens| == job.PlainLength())
    && Bounded(m.log, |job.prompt|, m.batch, WidestBatch(p)) && Balanced(s.o)
  }

  /** The stream after an accepted draft. */
  lemma AfterDraft(job: Job, out: seq<Token>, d: seq<Token>, last: Token, room: nat)
    requires job.IsGreedy(out) && job.Live(out) && out != [] && |d| + 1 <= room
    requires |out| + room < job.nPredict && |job.prompt| + |out| + room <= job.nCtx
    requires job.Agreed(out, d)
    requires last == job.next(job.ban, job.prompt + out + d) && job.isEog(last)
    ensures job.Correct(out + d + [last]) && |out + d + [last]| == job.PlainLength()
  {
    job.GreedyExtend(out, d);
    job.LiveExtend(out, d);
    assert job.prompt + (out + d) == job.prompt + out + d;
    job.GreedyPush(out + d, last);
    job.LiveIsCorrect(out + d, last);
  }

  /** `cur` has joined the output without ending it; the context and the
      carried tokens end just before it. */
  ghost predicate Ready(m: Model, job: Job, p: Params, s: Run, decided: seq<Token>)
    reads m
  {
    && decided + [s.cur] == job.prompt + s.o.tokens && s.o.tokens != [] && s.pos == |decided|
    && job.IsGreedy(s.o.tokens) && job.Live(s.o.tokens)
    && |s.o.tokens| < job.nPredict && |job.prompt| + |s.o.tokens| < job.nCtx
    && Settled(m, decided, s.pending, s.ckpt) && Sized(m, job, p, s.pending)
    && Balanced(s.o) && !s.o.eog && s.k <= p.kMax
  }

  /** The draft verified: what is kept, and the sizes. */
  method Judge(m: Model, ghost job: Job, p: Params, s: Run, draft: seq<Token>,
               ghost decided: seq<Token>) returns (r: Result<Verdict>)
    requires Asks(m, job, p) && Ready(m, job, p, s, decided)
    requires draft != [] && |s.pending| + 1 + |draft| <= WidestBatch(p)
    modifies m`cells, m`state, m`log
    ensures r.Ok? && r.value.accepted <= |draft|
    ensures var v, d, h := r.value, draft[..r.value.accepted], job.prompt + s.o.tokens;
            && job.Says(s.o.tokens, d) && v.next == job.next(job.ban, h + d)
            && Settled(m, h + d, v.pending, v.ckpt) && Sized(m, job, p, v.pending)
            && (v.accepted < |draft| ==> draft[v.accepted] != v.next)
    ensures r.value.restored <==> r.value.accepted < |draft| && m.recurrent && |draft| > m.rsSeq
    ensures m.log == old(m.log) + [Batch(s.pos - |s.pending|, s.pending + [s.cur] + draft, 1 + |draft|)]
  {
    hide Bounded, Balanced, Settled, Job.IsGreedy, Job.Live;
    SettledSize(m, decided, s.pending, s.ckpt);
    BoundedPush(m.log, Batch(s.pos - |s.pending|, s.pending + [s.cur] + draft, 1 + |draft|), |job.prompt|, m.batch,
                WidestBatch(p));
    r := Verify(m, s.cur, draft, s.pending, s.pos, s.ckpt, decided);
    PrefixChoices(job, s.o.tokens, draft, r.value.accepted);
  }

  /** A draft judged and counted. */
  method Weigh(m: Model, ghost job: Job, p: Params, s: Run, draft: seq<Token>, n: nat, tiers: seq<CacheDraft.Tier>,
               ghost decided: seq<Token>, ghost tries: seq<Try>)
    returns (r: Result<Verdict>, o: Outcome, ghost x: Try)
    requires Asks(m, job, p) && Ready(m, job, p, s, decided) && Tallied(m, job, p, tries, s.o, |s.pending|)
    requires draft != [] && |s.pending| + 1 + |draft| <= WidestBatch(p) && (tiers != [] ==> |tiers| == |draft|)
    modifies m`cells, m`state, m`log
    ensures r.Ok? && r.value.accepted <= |draft|
    ensures var v, d, h := r.value, draft[..r.value.accepted], job.prompt + s.o.tokens;
            && job.Says(s.o.tokens, d) && v.next == job.next(job.ban, h + d)
            && Settled(m, h + d, v.pending, v.ckpt) && Sized(m, job, p, v.pending)
            && (v.accepted < |draft| ==> draft[v.accepted] != v.next)
    ensures Balanced(o) && o.tokens == s.o.tokens && o.eog == s.o.eog
    ensures x == Try(s.o.tokens, draft, n, tiers, r.value.accepted, r.value.restored, s.k)
    ensures Tallied(m, job, p, tries + [x], o, 0)
  {
    hide Bounded, Balanced, Settled, Sized, Job.IsGreedy, Job.Live, Job.Says, Counted, Total, Ready, Tallied;
    ReadyIs(m, job, p, s, decided);
    ReadyRoom(m, job, p, s, decided);
    ghost var before := m.log;
    TallyLog(m, job, p, tries, s.o, |s.pending|);
    r := Judge(m, job, p, s, draft, decided);
    x := Try(s.o.tokens, draft, n, tiers, r.value.accepted, r.value.restored, s.k);
    o := Count(s.o, n, tiers, |draft|, r.value.accepted, r.value.restored);
    TallyTry(m, job, p, before, tries, s, o, x, r.value.next);
  }

  /** A step with a draft. */
  method Speculate(m: Model, ghost job: Job, p: Params, s: Run, draft: seq<Token>, n: nat,
                   tiers: seq<CacheDraft.Tier>, room: nat,
                   look: Lookup.Index, cached: bool, ctx: NgramCache.Cache, ghost decided: seq<Token>,
                   ghost tries: seq<Try>)
    returns (r: Result<Run>, done: bool, ghost x: Try)
    requires Asks(m, job, p) && Ready(m, job, p, s, decided)
    requires Recorded(look, cached, s.hist, ctx, job.prompt + s.o.tokens)
    requires draft != [] && |draft| <= room && |draft| <= Max(p.kMax, p.cacheK) && (tiers != [] ==> |tiers| == |draft|)
    requires |s.pending| + 1 + |draft| <= WidestBatch(p)
    requires |s.o.tokens| + room < job.nPredict && |job.prompt| + |s.o.tokens| + room <= job.nCtx
    requires job.Longest() <= LookupTable.U32
    requires p.adapt ==> p.kMin <= p.kMax
    requires p.kMax > 0 && Tallied(m, job, p, tries, s.o, |s.pending|)
    modifies m`cells, m`state, m`log, look, look.tables, ctx
    ensures r.Ok? && (if done then Finished(m, job, p, r.value) else Going(m, job, p, r.value))
    ensures s.o.tokens <= r.value.o.tokens
    ensures job.Agreed(s.o.tokens, draft) ==> !done && r.value.o.tokens == s.o.tokens + draft
    ensures Recorded(look, cached, r.value.hist, ctx, job.prompt + r.value.o.tokens)
    ensures x.out == s.o.tokens && x.draft == draft && x.n == n && x.tiers == tiers && x.k == s.k
    ensures Tallied(m, job, p, tries + [x], r.value.o, 0) && (!done ==> Adapts(p, x, r.value.k))
  {
    hide Recorded, Bounded, Balanced, Settled, Job.IsGreedy, Job.Live, Job.Correct, Job.PlainLength, Job.Choice;
    hide WidestBatch, Job.Overruns, Job.Stream, Job.AtEog, Job.Ends, Job.Agreed, Counted, Total;
    hide Lookup.Index.Valid, NgramCache.Cache.Valid, Going, Finished, Sized, Ready, Job.Says, Tallied, Honest;
    hide NextK, Adapts;
    ReadyIs(m, job, p, s, decided);
    var v, o;
    v, o, x := Weigh(m, job, p, s, draft, n, tiers, decided, tries);
    if v.Err? { return Err("a step failed"), true, x; }
    var j := v.value.accepted;
    AgreedWhole(job, s.o.tokens, draft, j, v.value.next);
    var c, h, cut := Accept(o, draft[..j], m.isEog, look, cached, s.hist, ctx, job.prompt + s.o.tokens);
    ghost var d := draft[..j];
    Assoc(job.prompt, s.o.tokens, d[..cut]);
    BalancedSame(o, c);
    TallyGrow(m, job, p, tries + [x], o, c);
    var s' := s.(o := c, cur := v.value.next, pos := s.pos + 1 + j,
                 pending := v.value.pending, ckpt := v.value.ckpt, hist := h);
    SettledSize(m, job.prompt + s.o.tokens + d, s'.pending, s'.ckpt);
    if c.eog {
      SpeculateEnd(job, s.o.tokens, d, cut, room);
      FinishedIs(m, job, p, s');
      return Ok(s'), true, x;
    }
    assert d[..cut] == d;
    SpeculateOn(job, s.o.tokens, d, room);
    s' := s'.(k := NextK(p, s.k, |draft|, tiers, j));
    NextKAdapts(p, x);
    GoingIs(m, job, p, s');
    return Ok(s'), false, x;
  }

  /** The limit after a draft of `len` tokens, `j` of them accepted. */
  function NextK(p: Params, k: nat, len: nat, tiers: seq<CacheDraft.Tier>, j: nat): nat
    requires p.adapt ==> Max(p.kMin, 1) <= p.kMax
  {
    if !p.adapt || tiers != [] then k
    else if j == len then Min(k * 2, p.kMax)
    else Clamp(j + 1, Max(p.kMin, 1), p.kMax)
  }

  lemma NextKAdapts(p: Params, x: Try)
    requires p.adapt ==> Max(p.kMin, 1) <= p.kMax
    ensures var k := NextK(p, x.k, |x.draft|, x.tiers, x.accepted);
            Adapts(p, x, k) && (x.k <= p.kMax ==> k <= p.kMax)
  {
  }

  /** Rust's `clamp`. */
  function Clamp(x: nat, lo: nat, hi: nat): nat
    requires lo <= hi
  {
    if x < lo then lo else if x > hi then hi else x
  }

  /** A batch starts behind the prompt. */
  lemma ReadyRoom(m: Model, job: Job, p: Params, s: Run, decided: seq<Token>)
    requires Ready(m, job, p, s, decided)
    ensures s.pos - |s.pending| >= |job.prompt|
  {
    hide Bounded;
    assert |m.cells + s.pending| == |decided|;
  }

  lemma TallyLog(m: Model, job: Job, p: Params, tries: seq<Try>, o: Outcome, due: nat)
    ensures Tallied(m, job, p, tries, o, due) <==> Logged(job, p, RecallOf(m), m.log, tries, o, due)
  {
  }

  lemma TallyGrow(m: Model, job: Job, p: Params, tries: seq<Try>, o: Outcome, c: Outcome)
    requires Tallied(m, job, p, tries, o, 0) && o.tokens <= c.tokens && c == o.(tokens := c.tokens, eog := c.eog)
    ensures Tallied(m, job, p, tries, c, 0)
  {
    hide Logged;
    LoggedGrow(job, p, RecallOf(m), m.log, tries, o, c, 0);
  }

  lemma TallyTry(m: Model, job: Job, p: Params, log: seq<Batch>, tries: seq<Try>, s: Run, o: Outcome, x: Try,
                 next: Token)
    requires Logged(job, p, RecallOf(m), log, tries, s.o, |s.pending|) && s.pos - |s.pending| >= |job.prompt|
    requires m.log == log + [Batch(s.pos - |s.pending|, s.pending + [s.cur] + x.draft, 1 + |x.draft|)]
    requires x.out == s.o.tokens != [] && x.draft != [] && x.accepted <= |x.draft|
    requires x.tiers != [] ==> |x.tiers| == |x.draft|
    requires job.Says(x.out, x.draft[..x.accepted])
    requires x.accepted < |x.draft| ==> x.draft[x.accepted] != next
    requires next == job.next(job.ban, job.prompt + x.out + x.draft[..x.accepted])
    requires x.restored <==> x.accepted < |x.draft| && m.recurrent && |x.draft| > m.rsSeq
    requires o.steps == s.o.steps + 1 && o.draftN == s.o.draftN + |x.draft| && o.tokens == s.o.tokens
    requires o.draftAccepted == s.o.draftAccepted + x.accepted
    requires o.restores == s.o.restores + if x.restored then 1 else 0
    requires o.carried == s.o.carried && o.flushes == s.o.flushes && |o.byTier| == |s.o.byTier| == 3
    requires Counted(s.o, o, x.n, x.tiers, |x.draft|, x.accepted)
    ensures Tallied(m, job, p, tries + [x], o, 0)
  {
    hide Logged, Counted, Job.Says;
    LoggedTry(job, p, RecallOf(m), log, tries, s.o, o, m.log[|log|], x, |s.pending|);
  }

  lemma ReadyIs(m: Model, job: Job, p: Params, s: Run, decided: seq<Token>)
    requires Ready(m, job, p, s, decided)
    ensures s.o.tokens != [] && s.pos + 1 == |job.prompt| + |s.o.tokens| && s.pos == |decided|
    ensures decided + [s.cur] == job.prompt + s.o.tokens
    ensures Settled(m, decided, s.pending, s.ckpt) && Sized(m, job, p, s.pending)
    ensures job.IsGreedy(s.o.tokens) && job.Live(s.o.tokens)
    ensures |s.o.tokens| < job.nPredict && |job.prompt| + |s.o.tokens| < job.nCtx
    ensures Balanced(s.o) && !s.o.eog && s.k <= p.kMax
  {
    assert |decided + [s.cur]| == |job.prompt + s.o.tokens|;
  }

  lemma FinishedIs(m: Model, job: Job, p: Params, s: Run)
    requires job.Correct(s.o.tokens) && s.o.tokens != [] && p.kMax > 0
    requires s.o.eog && job.isEog(s.o.tokens[|s.o.tokens| - 1])
    requires Sized(m, job, p, s.pending) && Balanced(s.o)
    ensures Finished(m, job, p, s)
  {
  }

  lemma GoingIs(m: Model, job: Job, p: Params, s: Run)
    requires job.IsGreedy(s.o.tokens) && job.Live(s.o.tokens) && s.cur == job.Choice(job.prompt + s.o.tokens)
    requires s.pos == |job.prompt| + |s.o.tokens| && Settled(m, job.prompt + s.o.tokens, s.pending, s.ckpt)
    requires Sized(m, job, p, s.pending) && Balanced(s.o) && !s.o.eog && s.k <= p.kMax && p.kMax > 0
    ensures Going(m, job, p, s)
  {
  }

  /** A draft the model agrees with is accepted whole. */
  lemma AgreedWhole(job: Job, out: seq<Token>, draft: seq<Token>, j: nat, next: Token)
    requires j <= |draft| && next == job.next(job.ban, job.prompt + out + draft[..j])
    requires j < |draft| ==> draft[j] != next
    ensures job.Agreed(out, draft) ==> draft[..j] == draft && forall i :: 0 <= i < |draft| ==> !job.isEog(draft[i])
  {
  }

  lemma SettledSize(m: Model, decided: seq<Token>, pending: seq<Token>, ckpt: seq<byte>)
    requires Settled(m, decided, pending, ckpt)
    ensures |decided| == |m.cells| + |pending|
  {
  }

  lemma PrefixChoices(job: Job, out: seq<Token>, draft: seq<Token>, j: nat)
    requires j <= |draft| && forall i :: 0 <= i < j ==> draft[i] == job.next(job.ban, job.prompt + out + draft[..i])
    ensures job.Says(out, draft[..j])
  {
    forall i | 0 <= i < j
      ensures draft[..j][..i] == draft[..i]
    {
    }
  }

  lemma SpeculateOn(job: Job, out: seq<Token>, d: seq<Token>, room: nat)
    requires job.IsGreedy(out) && job.Live(out) && out != [] && |d| <= room
    requires |out| + room < job.nPredict && |job.prompt| + |out| + room <= job.nCtx
    requires job.Says(out, d)
    requires forall i :: 0 <= i < |d| ==> !job.isEog(d[i])
    ensures job.IsGreedy(out + d) && job.Live(out + d)
    ensures job.Choice(job.prompt + (out + d)) == job.next(job.ban, job.prompt + out + d)
    ensures job.prompt + (out + d) == job.prompt + out + d
  {
    assert job.prompt + (out + d) == job.prompt + out + d;
    job.GreedyExtend(out, d);
    job.LiveExtend(out, d);
  }

  lemma SpeculateEnd(job: Job, out: seq<Token>, d: seq<Token>, cut: nat, room: nat)
    requires job.IsGreedy(out) && job.Live(out) && out != [] && 1 <= cut <= |d| <= room
    requires |out| + room < job.nPredict && |job.prompt| + |out| + room <= job.nCtx
    requires job.Says(out, d)
    requires (forall i :: 0 <= i < cut - 1 ==> !job.isEog(d[i])) && job.isEog(d[cut - 1])
    ensures job.Correct(out + d[..cut]) && |out + d[..cut]| == job.PlainLength()
    ensures (out + d[..cut])[|out| + cut - 1] == d[cut - 1]
  {
    hide Job.IsGreedy, Job.Live, Job.Correct, Job.PlainLength;
    var e := d[..cut - 1];
    forall i | 0 <= i < |e|
      ensures e[i] == job.next(job.ban, job.prompt + out + e[..i])
    {
      assert e[..i] == d[..i];
    }
    AfterDraft(job, out, e, d[cut - 1], room);
    assert out + d[..cut] == out + e + [d[cut - 1]];
  }

  /** The output with its last token, where generation ends. */
  lemma TurnEnd(job: Job, p: Params, out: seq<Token>, last: Token)
    requires job.IsGreedy(out) && job.Live(out) && last == job.Choice(job.prompt + out)
    requires p.kMax == 0 && out != [] ==> |job.prompt| + |out| < job.nCtx
    requires job.isEog(last) || |out| + 1 >= job.nPredict || |job.prompt| + |out| + 1 >= job.nCtx
    ensures job.Correct(out + [last]) && (p.kMax == 0 ==> |out| + 1 == job.PlainLength())
  {
    job.GreedyPush(out, last);
    job.LiveIsCorrect(out, last);
  }

  /** The output with a token that does not end it. */
  lemma TurnOn(job: Job, out: seq<Token>, cur: Token)
    requires job.IsGreedy(out) && job.Live(out) && cur == job.Choice(job.prompt + out)
    requires !job.isEog(cur) && |out| + 1 < job.nPredict && |job.prompt| + |out| + 1 < job.nCtx
    ensures job.IsGreedy(out + [cur]) && job.Live(out + [cur])
    ensures job.prompt + out + [cur] == job.prompt + (out + [cur])
    ensures job.Choice(job.prompt + (out + [cur])) == job.next(job.ban, job.prompt + out + [cur])
  {
    assert job.prompt + out + [cur] == job.prompt + (out + [cur]);
    job.GreedyPush(out, cur);
    job.LiveExtend(out, [cur]);
  }

  // ---- the extra token, of a drafter's own making ----

  /** The index was made with the request's limits. */
  ghost predicate Drafts(look: Lookup.Index, p: Params) {
    look.minN == Max(p.minN, 1) && look.maxN == Max(p.maxN, look.minN) && look.pick == p.pick
  }

  /** The model says `c` after anything, and the prompt says nothing else. */
  ghost predicate Repeats(job: Job, c: Token) {
    && (forall ban, ctx :: job.next(ban, ctx) == c)
    && (forall i :: 0 <= i < |job.prompt| ==> job.prompt[i] == c)
  }

  /** A request whose first draft, an exact match by single tokens, is the
      model's own and fills the context: a model that repeats the prompt's one
      token for ever, and a prompt that reaches as far as the room after it. */
  ghost predicate Fills(job: Job, p: Params) {
    && p.drafter.Exact? && !p.junk && !p.adapt && p.minN == 1 && p.maxN == 1 && p.nPredict == job.nPredict
    && !NeverOverruns(job.prompt, job.nPredict, job.nCtx)
    && (forall t :: !job.isEog(t)) && (exists c :: Repeats(job, c))
    && var room := job.nCtx - |job.prompt| - 1;
       room <= p.kMax && room <= if p.pick.First? then |job.prompt| else Min(1, |job.prompt|)
  }

  /** For any token there is such a request, whatever lengths leave room for
      the extra token but not for more than the prompt again. */
  lemma FillsFor(c: Token, n: nat, nPredict: nat, nCtx: nat)
    requires n + 1 < nCtx < n + nPredict && nCtx <= 2 * n + 1
    ensures Fills(Endless(c, n, nPredict, nCtx), Copying(nPredict, nCtx))
  {
    assert Repeats(Endless(c, n, nPredict, nCtx), c);
  }

  /** A model that says `c` for ever, after `n` times `c`. */
  function Endless(c: Token, n: nat, nPredict: nat, nCtx: nat): Job {
    Job((_: bool, _: seq<Token>) => c, false, (_: Token) => false, seq(n, _ => c), nPredict, nCtx)
  }

  /** Drafts by exact match of single tokens. */
  function Copying(nPredict: nat, kMax: nat): Params {
    Params(nPredict, kMax, 0, false, 1, 1, Lookup.First, 0, false, Exact, 0, false, false, false)
  }

  lemma FillingDraft(job: Job, p: Params, tokens: seq<Token>, hist: seq<Token>, ctx: seq<NgramCache.Entry>,
                     dyn: seq<NgramCache.Entry>, rs: seq<CacheFile.Record>, cur: Token,
                     key: seq<Token> -> LookupTable.Key)
    requires Fills(job, p) && job.IsGreedy([cur]) && tokens == job.prompt + [cur]
    ensures Lookup.TailKeysDistinct(tokens, 1, 1, key)
    ensures var room := job.nCtx - |job.prompt| - 1;
            var d := Picked(p, cur, p.kMax, room, tokens, 1, 1, p.pick, hist, ctx, dyn, rs).0;
            |d| == room && job.Agreed([cur], d)
  {
    hide Lookup.Scan, Lookup.Matches, CacheDraft.PlainDraft, Lookup.NaiveDraft, Picked;
    var c :| Repeats(job, c);
    var room := job.nCtx - |job.prompt| - 1;
    assert [cur][..0] == [] && job.prompt + [] == job.prompt;
    assert cur == job.Choice(job.prompt + [cur][..0]);
    SameTokens(tokens, c, p.pick, room);
    var e := Lookup.NaiveDraft(tokens, room, 1, 1, p.pick).0;
    PickedCopy(p, cur, room, tokens, hist, ctx, dyn, rs);
    forall i | 0 <= i < |e|
      ensures e[i] == job.next(job.ban, job.prompt + [cur] + e[..i])
    {
    }
  }

  lemma PickedCopy(p: Params, cur: Token, room: nat, tokens: seq<Token>, hist: seq<Token>,
                   ctx: seq<NgramCache.Entry>, dyn: seq<NgramCache.Entry>, rs: seq<CacheFile.Record>)
    requires p.drafter.Exact? && !p.junk && 0 < room <= p.kMax
    ensures Picked(p, cur, p.kMax, room, tokens, 1, 1, p.pick, hist, ctx, dyn, rs).0
            == Lookup.NaiveDraft(tokens, room, 1, 1, p.pick).0
  {
    hide Lookup.NaiveDraft, CacheDraft.PlainDraft;
  }

  /** In a context of one token over and over any place matches, and the copy
      is that token. */
  lemma SameTokens(tokens: seq<Token>, c: Token, pick: Lookup.Pick, k: nat)
    requires |tokens| >= 2 && forall i :: 0 <= i < |tokens| ==> tokens[i] == c
    requires 0 < k <= if pick.First? then |tokens| - 1 else 1
    ensures forall s: nat :: s + 1 < |tokens| ==> Lookup.Matches(tokens, 1, s)
    ensures var d := Lookup.NaiveDraft(tokens, k, 1, 1, pick).0;
            |d| == k && forall i :: 0 <= i < k ==> d[i] == c
  {
    hide Lookup.Scan;
    forall s: nat | s + 1 < |tokens| ensures Lookup.Matches(tokens, 1, s) {
      assert tokens[s..s + 1] == [c] == tokens[|tokens| - 1..];
    }
    var s := Lookup.Scan(tokens, 1, pick);
    assert Lookup.Matches(tokens, 1, 0) && Lookup.Matches(tokens, 1, |tokens| - 2);
    FirstOrLatest(tokens, pick);
    assert s == Some(if pick.First? then 0 else |tokens| - 2);
  }

  lemma FirstOrLatest(tokens: seq<Token>, pick: Lookup.Pick)
    requires |tokens| >= 2 && forall s: nat :: s + 1 < |tokens| ==> Lookup.Matches(tokens, 1, s)
    ensures Lookup.Scan(tokens, 1, pick) == Some(if pick.First? then 0 else |tokens| - 2)
  {
    assert Lookup.Matches(tokens, 1, 0) && Lookup.Matches(tokens, 1, |tokens| - 2);
    hide Lookup.Matches;
  }

  /** Its first token ends nothing. */
  lemma FillingOn(job: Job, p: Params)
    ensures Fills(job, p) ==> (forall t :: !job.isEog(t)) && 1 < job.nPredict && |job.prompt| + 1 < job.nCtx
  {
  }

  /** What holds at the loop's head, and once it is `done`. */
  ghost predicate Head(m: Model, job: Job, p: Params, look: Lookup.Index, cached: bool, ctx: NgramCache.Cache,
                       tries: seq<Try>, s: Run, done: bool)
    reads m, look, look.tables, ctx
  {
    && (if done then Finished(m, job, p, s) else Going(m, job, p, s))
    && Recorded(look, cached, s.hist, ctx, job.prompt + s.o.tokens)
    && Tallied(m, job, p, tries, s.o, 0)
    && (if done then Limited(p, tries) else LimitNow(p, tries, s.k))
    && Filling(job, p, s, done)
  }

  /** One turn of the loop: `cur` joins the output, and unless that ends
      generation, a step is made. */
  method Turn(m: Model, ghost job: Job, p: Params, s: Run, look: Lookup.Index, cached: bool, ctx: NgramCache.Cache,
              dyn: NgramCache.Cache, statics: StaticCache.Static, hash2: nat -> nat, ghost rs: seq<CacheFile.Record>,
              ghost tries: seq<Try>)
    returns (r: Result<Run>, done: bool, ghost more: seq<Try>)
    requires Asks(m, job, p) && Drafts(look, p) && Head(m, job, p, look, cached, ctx, tries, s, false)
    requires dyn.Valid() && ctx != dyn && StaticCache.Answers(statics, hash2, rs)
    requires job.Longest() <= LookupTable.U32
    requires p.adapt && p.kMax > 0 ==> p.kMin <= p.kMax
    modifies m`cells, m`state, m`log, look, look.tables, ctx
    ensures r.Ok? && Head(m, job, p, look, cached, ctx, more, r.value, done)
    ensures s.o.tokens + [s.cur] <= r.value.o.tokens && (!done ==> |r.value.o.tokens| < job.nPredict)
    ensures Told(job, p, tries) ==> Told(job, p, more)
  {
    hide Recorded, Bounded, Balanced, Settled, Sized, Going, Finished, Ready, StaticCache.Answers, Head;
    hide Job.IsGreedy, Job.Live, Job.Correct, Job.PlainLength, Job.Choice, Fills, Filling, Drafts;
    hide Lookup.Index.Valid, NgramCache.Cache.Valid, WidestBatch, Tallied, Told, LimitNow, Limited;
    HeadIs(m, job, p, look, cached, ctx, tries, s);
    GoingHas(m, job, p, s);
    ghost var decided := job.prompt + s.o.tokens;
    LiveLength(job, s.o.tokens);
    var h := See(s.cur, look, cached, s.hist, ctx, decided);
    var s1 := s.(o := s.o.(tokens := s.o.tokens + [s.cur], eog := m.isEog(s.cur)), hist := h);
    BalancedSame(s.o, s1.o);
    TallyGrow(m, job, p, tries, s.o, s1.o);
    Assoc(job.prompt, s.o.tokens, [s.cur]);
    if s1.o.eog || |s1.o.tokens| >= p.nPredict || s.pos + 1 >= m.nCtx {
      TurnEnd(job, p, s.o.tokens, s.cur);
      LimitIs(p, tries, s.k);
      r, done, more := Ok(s1), true, tries;
      FinishedAt(m, job, p, s1);
    } else {
      TurnOn(job, s.o.tokens, s.cur);
      ReadyBack(m, job, p, s1, decided);
      r, done, more := Step(m, job, p, s1, look, cached, ctx, dyn, statics, hash2, rs, decided, tries);
    }
    FillingTurn(job, p, s, r.value, done);
    HeadBack(m, job, p, look, cached, ctx, more, r.value, done);
  }

  lemma GoingHas(m: Model, job: Job, p: Params, s: Run)
    requires Going(m, job, p, s)
    ensures job.IsGreedy(s.o.tokens) && job.Live(s.o.tokens) && s.cur == job.Choice(job.prompt + s.o.tokens)
    ensures s.pos == |job.prompt + s.o.tokens| && Settled(m, job.prompt + s.o.tokens, s.pending, s.ckpt)
    ensures Sized(m, job, p, s.pending) && Balanced(s.o) && !s.o.eog && s.k <= p.kMax
    ensures p.kMax == 0 && s.o.tokens != [] ==> |job.prompt| + |s.o.tokens| < job.nCtx
  {
  }

  lemma HeadIs(m: Model, job: Job, p: Params, look: Lookup.Index, cached: bool, ctx: NgramCache.Cache,
               tries: seq<Try>, s: Run)
    requires Head(m, job, p, look, cached, ctx, tries, s, false)
    ensures Going(m, job, p, s) && Recorded(look, cached, s.hist, ctx, job.prompt + s.o.tokens)
    ensures Tallied(m, job, p, tries, s.o, 0)
    ensures LimitNow(p, tries, s.k) && Filling(job, p, s, false)
  {
    hide Going, Recorded, Tallied, LimitNow, Filling;
  }

  lemma HeadBack(m: Model, job: Job, p: Params, look: Lookup.Index, cached: bool, ctx: NgramCache.Cache,
                 tries: seq<Try>, s: Run, done: bool)
    requires if done then Finished(m, job, p, s) else Going(m, job, p, s)
    requires Recorded(look, cached, s.hist, ctx, job.prompt + s.o.tokens) && Tallied(m, job, p, tries, s.o, 0)
    requires (if done then Limited(p, tries) else LimitNow(p, tries, s.k)) && Filling(job, p, s, done)
    ensures Head(m, job, p, look, cached, ctx, tries, s, done)
  {
    hide Finished, Going, Recorded, Tallied, Limited, LimitNow, Filling;
  }

  lemma FinishedAt(m: Model, job: Job, p: Params, s: Run)
    requires job.Correct(s.o.tokens) && s.o.tokens != []
    requires s.o.eog <==> job.isEog(s.o.tokens[|s.o.tokens| - 1])
    requires p.kMax == 0 ==> |s.o.tokens| == job.PlainLength()
    requires Sized(m, job, p, s.pending) && Balanced(s.o)
    ensures Finished(m, job, p, s)
  {
    hide Bounded, Balanced, Job.Correct, Job.PlainLength;
  }

  /** Of a request whose first draft fills the context: the context is filled
      by the first turn, and the second ends past it. */
  ghost predicate Filling(job: Job, p: Params, s: Run, done: bool) {
    Fills(job, p) ==>
      if done then |job.prompt| + |s.o.tokens| > job.nCtx
      else (s.o.tokens == [] && s.k == p.kMax) || |job.prompt| + |s.o.tokens| >= job.nCtx
  }

  lemma FillingFirst(job: Job, p: Params, s: Run)
    requires s.o.tokens == [] && First(p, s.k)
    ensures Filling(job, p, s, false)
  {
  }

  lemma FillingTurn(job: Job, p: Params, s: Run, next: Run, done: bool)
    requires Filling(job, p, s, false) && s.o.tokens + [s.cur] <= next.o.tokens
    requires Fills(job, p) && s.o.tokens == [] && s.k == p.kMax ==>
               if job.isEog(s.cur) || 1 >= job.nPredict || |job.prompt| + 1 >= job.nCtx then true
               else !done && |job.prompt| + |next.o.tokens| == job.nCtx
    ensures Filling(job, p, next, done)
  {
    FillingOn(job, p);
    hide Fills;
  }

  lemma FillingDone(job: Job, p: Params, s: Run)
    requires Filling(job, p, s, true)
    ensures Fills(job, p) ==> |job.prompt| + |s.o.tokens| > job.nCtx
  {
  }

  lemma LimitIs(p: Params, tries: seq<Try>, k: nat)
    requires LimitNow(p, tries, k)
    ensures Limited(p, tries)
  {
  }

  /** A step after `cur`: drafted and verified, or plain. */
  method Step(m: Model, ghost job: Job, p: Params, s: Run, look: Lookup.Index, cached: bool, ctx: NgramCache.Cache,
              dyn: NgramCache.Cache, statics: StaticCache.Static, hash2: nat -> nat,
              ghost rs: seq<CacheFile.Record>, ghost decided: seq<Token>, ghost tries: seq<Try>)
    returns (r: Result<Run>, done: bool, ghost more: seq<Try>)
    requires Asks(m, job, p) && Ready(m, job, p, s, decided) && Drafts(look, p)
    requires Recorded(look, cached, s.hist, ctx, job.prompt + s.o.tokens)
    requires dyn.Valid() && ctx != dyn && StaticCache.Answers(statics, hash2, rs)
    requires job.Longest() <= LookupTable.U32
    requires p.adapt && p.kMax > 0 ==> p.kMin <= p.kMax
    requires Tallied(m, job, p, tries, s.o, 0) && LimitNow(p, tries, s.k)
    modifies m`cells, m`state, m`log, look, look.tables, ctx
    ensures r.Ok? && (if done then Finished(m, job, p, r.value) else Going(m, job, p, r.value))
    ensures s.o.tokens <= r.value.o.tokens && (!done ==> |r.value.o.tokens| < job.nPredict)
    ensures Fills(job, p) && s.o.tokens == [s.cur] && s.k == p.kMax ==>
              !done && |job.prompt| + |r.value.o.tokens| == job.nCtx
    ensures Recorded(look, cached, r.value.hist, ctx, job.prompt + r.value.o.tokens)
    ensures Tallied(m, job, p, more, r.value.o, 0) && (Told(job, p, tries) ==> Told(job, p, more))
    ensures Limited(p, more) && (!done ==> LimitNow(p, more, r.value.k))
    ensures p.junk || p.drafter.Caches?
            || Lookup.TailKeysDistinct(job.prompt + s.o.tokens, look.minN, look.maxN, look.key) ==>
              var room := Min(p.nPredict - |s.o.tokens| - 1, m.nCtx - s.pos - 1);
              var (d, n, tiers) := Picked(p, s.cur, s.k, room, job.prompt + s.o.tokens, look.minN, look.maxN,
                                          look.pick, s.hist, old(ctx.entries), dyn.entries, rs);
              Tried(tries, more, s, d, n, tiers)
  {
    hide Recorded, Bounded, Balanced, Settled, Ready, Going, Finished, Drafts, Tallied, Told, LimitNow, Limited, Tried;
    hide StaticCache.Answers, Job.IsGreedy, Job.Live, Job.Correct, Job.PlainLength, From;
    hide Fills, Picked, Job.Agreed, Lookup.TailKeysDistinct, Lookup.IsCopy;
    hide Lookup.Index.Valid, NgramCache.Cache.Valid, WidestBatch;
    ReadyIs(m, job, p, s, decided);
    var room := Min(p.nPredict - |s.o.tokens| - 1, m.nCtx - s.pos - 1);
    RecordedValid(look, cached, s.hist, ctx, job.prompt + s.o.tokens);
    if Fills(job, p) && s.o.tokens == [s.cur] && s.k == p.kMax {
      FillingRoom(m, job, p, s, look, decided);
      RecordedValid(look, cached, s.hist, ctx, job.prompt + s.o.tokens);
      FillingDraft(job, p, look.tokens, s.hist, ctx.entries, dyn.entries, rs, s.cur, look.key);
    }
    var draft, n, tiers := PickDraft(p, s.cur, s.k, room, look, s.hist, ctx, dyn, statics, hash2, rs);
    SourceIs(job, p, s.o.tokens, s.k, room, draft, n, tiers, look.tokens);
    r, done, more := Take(m, job, p, s, draft, n, tiers, room, look, cached, ctx, decided, tries);
    if Told(job, p, tries) { ToldPush(job, p, tries, more, s, draft, n, tiers); }
  }

  /** Every draft is from where the settings let it be from. */
  ghost predicate Told(job: Job, p: Params, tries: seq<Try>) {
    forall x <- tries :: Sourced(job, p, x)
  }

  /** The step's draft joins the drafts verified, if it is one. */
  ghost predicate Tried(tries: seq<Try>, more: seq<Try>, s: Run, draft: seq<Token>, n: nat,
                        tiers: seq<CacheDraft.Tier>)
  {
    if draft == [] then more == tries
    else
      && |more| == |tries| + 1 && more[..|tries|] == tries
      && var x := more[|tries|];
         x.out == s.o.tokens && x.draft == draft && x.n == n && x.tiers == tiers && x.k == s.k
  }

  /** Where a draft is from. */
  ghost predicate From(job: Job, p: Params, out: seq<Token>, k: nat, draft: seq<Token>, n: nat,
                       tiers: seq<CacheDraft.Tier>)
  {
    forall x: Try :: x.out == out && x.draft == draft && x.n == n && x.tiers == tiers && x.k == k && draft != [] ==>
                       Sourced(job, p, x)
  }

  lemma SourceIs(job: Job, p: Params, out: seq<Token>, k: nat, room: nat, draft: seq<Token>, n: nat,
                 tiers: seq<CacheDraft.Tier>, tokens: seq<Token>)
    requires tokens == job.prompt + out && (tiers == [] ==> |draft| <= k)
    requires tiers != [] ==> !p.junk && !p.drafter.Exact?
    requires p.junk ==> n == 0
    requires !p.junk && tiers == [] && draft != [] ==>
               !p.drafter.Caches? && Lookup.IsCopy(tokens, n, Min(k, room), draft)
    ensures From(job, p, out, k, draft, n, tiers)
  {
  }

  lemma ToldPush(job: Job, p: Params, tries: seq<Try>, more: seq<Try>, s: Run, draft: seq<Token>, n: nat,
                 tiers: seq<CacheDraft.Tier>)
    requires Told(job, p, tries) && Tried(tries, more, s, draft, n, tiers)
    requires From(job, p, s.o.tokens, s.k, draft, n, tiers)
    ensures Told(job, p, more)
  {
    hide Sourced;
    if draft != [] { assert more == tries + [more[|tries|]]; }
  }

  /** A step with the draft picked for it, empty or not. */
  method Take(m: Model, ghost job: Job, p: Params, s: Run, draft: seq<Token>, n: nat, tiers: seq<CacheDraft.Tier>,
              room: nat, look: Lookup.Index, cached: bool, ctx: NgramCache.Cache, ghost decided: seq<Token>,
              ghost tries: seq<Try>)
    returns (r: Result<Run>, done: bool, ghost more: seq<Try>)
    requires Asks(m, job, p) && Ready(m, job, p, s, decided)
    requires Recorded(look, cached, s.hist, ctx, job.prompt + s.o.tokens)
    requires room == Min(p.nPredict - |s.o.tokens| - 1, m.nCtx - s.pos - 1)
    requires |draft| <= room && |draft| <= Max(p.kMax, p.cacheK) && (tiers != [] ==> |tiers| == |draft|)
    requires job.Longest() <= LookupTable.U32
    requires (p.adapt && p.kMax > 0 ==> p.kMin <= p.kMax) && (p.kMax == 0 ==> draft == [])
    requires Tallied(m, job, p, tries, s.o, 0) && LimitNow(p, tries, s.k)
    modifies m`cells, m`state, m`log, look, look.tables, ctx
    ensures r.Ok? && (if done then Finished(m, job, p, r.value) else Going(m, job, p, r.value))
    ensures s.o.tokens <= r.value.o.tokens && (!done ==> |r.value.o.tokens| < job.nPredict)
    ensures job.Agreed(s.o.tokens, draft) ==> !done && r.value.o.tokens == s.o.tokens + draft
    ensures Recorded(look, cached, r.value.hist, ctx, job.prompt + r.value.o.tokens)
    ensures Tallied(m, job, p, more, r.value.o, 0) && Tried(tries, more, s, draft, n, tiers)
    ensures Limited(p, more) && (!done ==> LimitNow(p, more, r.value.k))
  {
    hide Recorded, Bounded, Balanced, Settled, Job.IsGreedy, Job.Live, Job.Correct, Job.PlainLength, Job.Choice;
    hide Job.Agreed, Tallied, Adapts, Ready, Going, Finished, Sized, LimitNow, Limited;
    more := tries;
    ReadyRoom(m, job, p, s, decided);
    ReadyIs(m, job, p, s, decided);
    ghost var before := m.log;
    TallyLog(m, job, p, tries, s.o, 0);
    var pending, ok, flushed := Fold(m, job, p, s, draft, decided);
    if !ok { return Err("the carried tokens failed"), true, more; }
    var o := s.o.(carried := s.o.carried + |pending|, flushes := s.o.flushes + if flushed then 1 else 0);
    BalancedSame(s.o, o);
    TallyFold(m, job, p, before, tries, s, o, pending, flushed);
    var s' := s.(o := o, pending := pending);
    ReadyBack(m, job, p, s', decided);
    if draft == [] {
      LimitIs(p, tries, s.k);
      r := Coast(m, job, p, s', decided, tries);
      return r, false, more;
    }
    ghost var x;
    r, done, x := Speculate(m, job, p, s', draft, n, tiers, room, look, cached, ctx, decided, tries);
    more := tries + [x];
    LimitedPush(p, tries, x, r.value.k, done);
    if !done { GoingLength(m, job, p, r.value); }
  }

  /** A step without a draft. */
  method Coast(m: Model, ghost job: Job, p: Params, s: Run, ghost decided: seq<Token>, ghost tries: seq<Try>)
    returns (r: Result<Run>)
    requires Asks(m, job, p) && Ready(m, job, p, s, decided) && Tallied(m, job, p, tries, s.o, |s.pending|)
    requires |s.pending| + 1 <= WidestBatch(p)
    modifies m`cells, m`state, m`log
    ensures r.Ok? && Going(m, job, p, r.value) && Tallied(m, job, p, tries, r.value.o, 0)
    ensures r.value == s.(cur := r.value.cur, pos := s.pos + 1, pending := [])
  {
    hide Bounded, Balanced, Settled, Job.IsGreedy, Job.Live, Job.Choice, Tallied;
    ReadyIs(m, job, p, s, decided);
    ReadyRoom(m, job, p, s, decided);
    SettledSize(m, decided, s.pending, s.ckpt);
    BoundedPush(m.log, Batch(s.pos - |s.pending|, s.pending + [s.cur], 1), |job.prompt|, m.batch, WidestBatch(p));
    ghost var log := m.log;
    TallyLog(m, job, p, tries, s.o, |s.pending|);
    var next := Plain(m, s.cur, s.pending, s.pos, s.ckpt, decided);
    TallyPlain(m, job, p, tries, s.o, s.pos - |s.pending|, s.pending, s.cur, log);
    ChoiceAfter(job, s.o.tokens, decided + [s.cur]);
    return if next.Ok? then Ok(s.(cur := next.value, pos := s.pos + 1, pending := [])) else Err("a step failed");
  }

  lemma ChoiceAfter(job: Job, out: seq<Token>, all: seq<Token>)
    requires all == job.prompt + out && out != []
    ensures job.Choice(all) == job.next(job.ban, all)
  {
  }

  lemma ReadyBack(m: Model, job: Job, p: Params, s: Run, decided: seq<Token>)
    requires decided + [s.cur] == job.prompt + s.o.tokens && s.o.tokens != [] && s.pos == |decided|
    requires job.IsGreedy(s.o.tokens) && job.Live(s.o.tokens)
    requires |s.o.tokens| < job.nPredict && |job.prompt| + |s.o.tokens| < job.nCtx
    requires Settled(m, decided, s.pending, s.ckpt) && Sized(m, job, p, s.pending)
    requires Balanced(s.o) && !s.o.eog && s.k <= p.kMax
    ensures Ready(m, job, p, s, decided)
  {
  }

  lemma GoingLength(m: Model, job: Job, p: Params, s: Run)
    requires Going(m, job, p, s)
    ensures s.o.tokens != [] ==> |s.o.tokens| < job.nPredict && |job.prompt| + |s.o.tokens| <= job.nCtx
  {
    LiveLength(job, s.o.tokens);
  }

  lemma LimitedPush(p: Params, tries: seq<Try>, x: Try, k: nat, done: bool)
    requires LimitNow(p, tries, x.k) && (!done ==> Adapts(p, x, k))
    ensures Limited(p, tries + [x]) && (!done ==> LimitNow(p, tries + [x], k))
  {
    hide Adapts, First;
  }

  lemma TallyFold(m: Model, job: Job, p: Params, log: seq<Batch>, tries: seq<Try>, s: Run, o: Outcome,
                  pending: seq<Token>, flushed: bool)
    requires Logged(job, p, RecallOf(m), log, tries, s.o, 0) && s.pos - |s.pending| >= |job.prompt|
    requires m.log == if flushed then log + [Batch(s.pos - |s.pending|, s.pending, 0)] else log
    requires o == s.o.(carried := s.o.carried + |pending|, flushes := s.o.flushes + if flushed then 1 else 0)
    ensures Tallied(m, job, p, tries, o, |pending|)
  {
    hide Logged;
    var c := if flushed then s.o.(flushes := s.o.flushes + 1) else s.o;
    if flushed { LoggedFlush(job, p, RecallOf(m), log, tries, s.o, c, m.log[|log|]); }
    LoggedDue(job, p, RecallOf(m), m.log, tries, c, o, |pending|);
  }

  lemma TallyPlain(m: Model, job: Job, p: Params, tries: seq<Try>, o: Outcome, pos: nat, pending: seq<Token>,
                   cur: Token, log: seq<Batch>)
    requires Logged(job, p, RecallOf(m), log, tries, o, |pending|) && pos >= |job.prompt|
    requires m.log == log + [Batch(pos, pending + [cur], 1)]
    ensures Tallied(m, job, p, tries, o, 0)
  {
    hide Logged;
    LoggedPlain(job, p, RecallOf(m), log, tries, o, m.log[|log|], |pending|);
  }

  lemma LiveLength(job: Job, out: seq<Token>)
    requires job.Live(out)
    ensures out != [] ==> |out| < job.nPredict && |job.prompt| + |out| <= job.nCtx
  {
    if out != [] { assert job.GoesOn(out, |out| - 1); }
  }

  lemma FillingRoom(m: Model, job: Job, p: Params, s: Run, look: Lookup.Index, decided: seq<Token>)
    requires Asks(m, job, p) && Ready(m, job, p, s, decided) && Drafts(look, p) && Fills(job, p)
    requires s.o.tokens == [s.cur]
    ensures Min(p.nPredict - 2, m.nCtx - s.pos - 1) == job.nCtx - |job.prompt| - 1
    ensures look.minN == look.maxN == 1 && look.pick == p.pick && job.IsGreedy([s.cur])
  {
    assert |decided + [s.cur]| == |job.prompt| + 1;
  }

  lemma RecordedValid(look: Lookup.Index, cached: bool, hist: seq<Token>, ctx: NgramCache.Cache, all: seq<Token>)
    requires Recorded(look, cached, hist, ctx, all)
    ensures look.Valid() && ctx.Valid() && look.tokens == all
  {
  }

  /** Carried tokens are decoded on their own if together with the draft they
      would make the batch wider than `foldMax`. */
  method Fold(m: Model, ghost job: Job, p: Params, s: Run, draft: seq<Token>, ghost decided: seq<Token>)
    returns (pending: seq<Token>, ok: bool, flushed: bool)
    requires Settled(m, decided, s.pending, s.ckpt) && Sized(m, job, p, s.pending) && s.pos == |decided|
    requires |draft| <= Max(p.kMax, p.cacheK)
    modifies m`cells, m`state, m`log
    ensures ok && Settled(m, decided, pending, s.ckpt) && Sized(m, job, p, pending)
    ensures |pending| + 1 + |draft| <= WidestBatch(p)
    ensures flushed <==> draft != [] && s.pending != [] && |s.pending| + 1 + |draft| > p.foldMax
    ensures pending == if flushed then [] else s.pending
    ensures m.log == if flushed then old(m.log) + [Batch(s.pos - |s.pending|, s.pending, 0)] else old(m.log)
  {
    hide Bounded, TokenBytes;
    pending, ok, flushed := s.pending, true, false;
    if draft != [] && pending != [] && |pending| + 1 + |draft| > p.foldMax {
      BoundedPush(m.log, Batch(s.pos - |pending|, pending, 0), |job.prompt|, m.batch, WidestBatch(p));
      var f := Flush(m, pending, s.pos, s.ckpt, decided);
      pending, ok, flushed := [], f.Ok?, true;
    }
  }

  // ---- generation ----

  /** The request as the model is asked it. */
  ghost function JobOf(m: Model, prompt: seq<Token>, p: Params): Job {
    Job(m.next, p.ignoreEos, m.isEog, prompt, p.nPredict, m.nCtx)
  }

  ghost predicate Learned(before: seq<NgramCache.Entry>, after: seq<NgramCache.Entry>, tokens: seq<Token>) {
    forall k: NgramCache.Key, t: Token :: NgramCache.Tally(after, k, t)
                                          == NgramCache.Tally(before, k, t) + NgramCache.HistoryCount(tokens, k, t)
  }

  /** The occurrence counts of several requests together. */
  function LearnedCount(requests: seq<seq<Token>>, k: NgramCache.Key, t: Token): nat {
    if requests == [] then 0
    else LearnedCount(requests[..|requests| - 1], k, t) + NgramCache.HistoryCount(requests[|requests| - 1], k, t)
  }

  /** After any sequence of learned requests the dynamic cache holds the sum of their counts. */
  lemma {:induction false} LearnedSum(states: seq<seq<NgramCache.Entry>>, requests: seq<seq<Token>>,
                                      k: NgramCache.Key, t: Token)
    requires |states| == |requests| + 1
    requires forall i :: 0 <= i < |requests| ==> Learned(states[i], states[i + 1], requests[i])
    ensures NgramCache.Tally(states[|requests|], k, t)
            == NgramCache.Tally(states[0], k, t) + LearnedCount(requests, k, t)
  {
    hide NgramCache.Tally, NgramCache.HistoryCount;
    var n := |requests|;
    if n > 0 {
      LearnedSum(states[..n], requests[..n - 1], k, t);
      assert Learned(states[n - 1], states[n - 1 + 1], requests[n - 1]);
    }
  }

  /** Greedy generation after `prompt`. Whatever is drafted, the output is
      the model's own greedy stream, no decode fails, every decode is within
      its bound, the counters are the sums over the drafts the model was shown,
      and the dynamic cache learns exactly the request's tokens. */
  method Generate(m: Model, prompt: seq<Token>, p: Params, dyn: NgramCache.Cache, statics: StaticCache.Static,
                  learning: bool,
                  key: seq<Token> -> LookupTable.Key, hash: NgramCache.Key -> nat, hash2: nat -> nat,
                  ghost rs: seq<CacheFile.Record>)
    returns (r: Result<Outcome>, ghost tries: seq<Try>)
    requires m.batch >= 1 && dyn.Valid() && StaticCache.Answers(statics, hash2, rs)
    requires forall g :: key(g) != 0
    requires JobOf(m, prompt, p).Longest() <= LookupTable.U32
    requires p.adapt && p.kMax > 0 ==> p.kMin <= p.kMax
    modifies m, dyn
    ensures r.Ok?
    ensures var o, job := r.value, JobOf(m, prompt, p);
            && job.Correct(o.tokens) && o.tokens != [] && job.CanEnd(0, |o.tokens|)
            && (o.eog <==> m.isEog(o.tokens[|o.tokens| - 1]))
            && (p.kMax == 0 || NeverOverruns(prompt, p.nPredict, m.nCtx) ==> |o.tokens| == job.PlainLength())
            && (Fills(job, p) ==> |o.tokens| == job.PlainLength() + 1)
    ensures Bounded(m.log, |prompt|, m.batch, WidestBatch(p)) && Balanced(r.value)
    ensures var job := JobOf(m, prompt, p);
            Tallied(m, job, p, tries, r.value, 0) && Told(job, p, tries) && Limited(p, tries)
    ensures dyn.Valid()
    ensures if learning && p.learn then Learned(old(dyn.entries), dyn.entries, prompt + r.value.tokens)
            else dyn.entries == old(dyn.entries)
  {
    hide Recorded, Bounded, Balanced, Going, StaticCache.Answers, Learned, Job.Correct, Job.PlainLength, Job.CanEnd;
    hide NgramCache.AllExact, IndexTable.Leads, Fills, Lookup.Index.Valid, NgramCache.Cache.Valid;
    hide Tallied, Told, Limited, Head, Drafts, NeverOverruns;
    tries := [];
    ghost var job := JobOf(m, prompt, p);
    var begun := Open(m, job, prompt, p);
    if begun.Err? { return Err("the prompt failed"), tries; }
    var learn := learning && p.learn;
    var cached := p.drafter != Exact || learn;
    var look, hist, ctx := Begin(p, prompt, cached, key, hash);
    var s := begun.value.(hist := hist);
    assert prompt + [] == prompt;
    HeadStart(m, job, p, look, cached, ctx, begun.value, hist);
    NoStatic(hash2);
    var end;
    end, tries := Loop(m, job, p, s, look, cached, ctx, dyn, if p.useStatic then statics else StaticCache.NO_STATIC,
                    hash2, if p.useStatic then rs else []);
    if end.Err? { return Err("a step failed"), tries; }
    s := end.value;
    HeadEnd(m, job, p, look, cached, ctx, tries, s);
    if learn {
      Learn(look, s.hist, ctx, dyn, prompt + s.o.tokens);
    }
    CorrectEnds(job, s.o.tokens);
    if Fills(job, p) { FillingEnd(job, p, s.o.tokens); }
    return Ok(s.o), tries;
  }

  lemma FillingEnd(job: Job, p: Params, out: seq<Token>)
    requires Fills(job, p) && job.Correct(out) && |job.prompt| + |out| > job.nCtx
    ensures |out| == job.PlainLength() + 1
  {
    hide Job.Stream, Job.PlainLength;
    EndlessOverruns(job);
  }

  lemma HeadStart(m: Model, job: Job, p: Params, look: Lookup.Index, cached: bool, ctx: NgramCache.Cache, s: Run,
                  hist: seq<Token>)
    requires Going(m, job, p, s) && s.o.tokens == [] && First(p, s.k) && Tallied(m, job, p, [], s.o, 0)
    requires Recorded(look, cached, hist, ctx, job.prompt)
    ensures Head(m, job, p, look, cached, ctx, [], s.(hist := hist), false)
  {
    hide Recorded, Tallied;
    assert job.prompt + [] == job.prompt;
    LimitNone(p, s.k);
    FillingFirst(job, p, s.(hist := hist));
  }

  lemma HeadEnd(m: Model, job: Job, p: Params, look: Lookup.Index, cached: bool, ctx: NgramCache.Cache,
                tries: seq<Try>, s: Run)
    requires Head(m, job, p, look, cached, ctx, tries, s, true)
    ensures job.Correct(s.o.tokens) && s.o.tokens != []
    ensures s.o.eog <==> job.isEog(s.o.tokens[|s.o.tokens| - 1])
    ensures p.kMax == 0 ==> |s.o.tokens| == job.PlainLength()
    ensures Bounded(m.log, |job.prompt|, m.batch, WidestBatch(p)) && Balanced(s.o)
    ensures Fills(job, p) ==> |job.prompt| + |s.o.tokens| > job.nCtx
    ensures Recorded(look, cached, s.hist, ctx, job.prompt + s.o.tokens)
    ensures Tallied(m, job, p, tries, s.o, 0) && Limited(p, tries)
  {
    hide Job.Correct, Job.PlainLength, Bounded, Balanced, Recorded, Tallied, Limited, Fills;
    FillingDone(job, p, s);
  }

  method Loop(m: Model, ghost job: Job, p: Params, start: Run, look: Lookup.Index, cached: bool, ctx: NgramCache.Cache,
              dyn: NgramCache.Cache, statics: StaticCache.Static, hash2: nat -> nat, ghost rs: seq<CacheFile.Record>)
    returns (r: Result<Run>, ghost tries: seq<Try>)
    requires Asks(m, job, p) && Head(m, job, p, look, cached, ctx, [], start, false) && Drafts(look, p)
    requires dyn.Valid() && ctx != dyn && StaticCache.Answers(statics, hash2, rs)
    requires job.Longest() <= LookupTable.U32
    requires p.adapt && p.kMax > 0 ==> p.kMin <= p.kMax
    modifies m`cells, m`state, m`log, look, look.tables, ctx
    ensures r.Ok? && Head(m, job, p, look, cached, ctx, tries, r.value, true) && Told(job, p, tries)
  {
    hide StaticCache.Answers, Drafts, Fills, Told, Head, TurnsLeft;
    hide Job.Longest, Lookup.Index.Valid, NgramCache.Cache.Valid;
    tries := [];
    ToldNone(job, p);
    var s, done := start, false;
    while !done
      invariant Asks(m, job, p) && dyn.Valid()
      invariant Head(m, job, p, look, cached, ctx, tries, s, done) && Told(job, p, tries)
      decreases TurnsLeft(job, s, done)
    {
      ghost var more;
      var next, end;
      next, end, more := Turn(m, job, p, s, look, cached, ctx, dyn, statics, hash2, rs, tries);
      if next.Err? { return Err("a step failed"), more; }
      OneTurn(job, s, next.value, end);
      s, done, tries := next.value, end, more;
    }
    return Ok(s), tries;
  }

  ghost function TurnsLeft(job: Job, s: Run, done: bool): nat {
    if done then 0 else 1 + Max(0, job.nPredict - |s.o.tokens|)
  }

  lemma OneTurn(job: Job, s: Run, next: Run, done: bool)
    requires s.o.tokens + [s.cur] <= next.o.tokens && (!done ==> |next.o.tokens| < job.nPredict)
    ensures TurnsLeft(job, next, done) < TurnsLeft(job, s, false)
  {
  }

  lemma ToldNone(job: Job, p: Params)
    ensures Told(job, p, [])
  {
  }

  lemma LimitNone(p: Params, k: nat)
    requires First(p, k)
    ensures LimitNow(p, [], k)
  {
  }

  /** The model cleared and the prompt decoded; the loop's variables at the start. */
  method Open(m: Model, ghost job: Job, prompt: seq<Token>, p: Params) returns (r: Result<Run>)
    requires m.batch >= 1 && job == JobOf(m, prompt, p)
    modifies m
    ensures r.Ok? && Asks(m, job, p) && Going(m, job, p, r.value) && r.value.o.tokens == []
    ensures First(p, r.value.k) && Tallied(m, job, p, [], r.value.o, 0)
  {
    hide Bounded, Balanced, TokenBytes;
    m.Clear();
    m.BanEog(p.ignoreEos);
    var cur := Prefill(m, prompt, WidestBatch(p));
    if cur.Err? { return Err("the prompt failed"); }
    var k := if p.adapt then Min(Max(p.kMin, 1), p.kMax) else p.kMax;
    var o := Outcome([], |prompt|, 0, 0, 0, 0, 0, 0, [], [NO_ORDER, NO_ORDER, NO_ORDER], false);
    BalancedNone(o);
    LoggedNone(job, p, RecallOf(m), m.log, o);
    hide Logged;
    assert prompt + [] == prompt;
    return Ok(Run(o, cur.value, |prompt|, [], [], k, []));
  }

  lemma NoStatic(hash2: nat -> nat)
    ensures StaticCache.Answers(StaticCache.NO_STATIC, hash2, [])
  {
  }

  /** The request's counts join the dynamic cache. */
  method Learn(ghost look: Lookup.Index, ghost hist: seq<Token>, ctx: NgramCache.Cache, dyn: NgramCache.Cache,
               ghost all: seq<Token>)
    requires Recorded(look, true, hist, ctx, all) && dyn.Valid() && ctx != dyn
    modifies dyn
    ensures dyn.Valid() && Learned(old(dyn.entries), dyn.entries, all)
  {
    hide NgramCache.AllExact, NgramCache.Tally, NgramCache.HistoryCount, Lookup.Indexed;
    if ctx.entries != [] {
      dyn.Merge(ctx);
    } else {
      NoTally();
    }
  }

  // ---- the extra token, in a run ----

  /** A draft of the model's own choices. */
  method OwnDraft(m: Model, ghost job: Job, out: seq<Token>, prompt: seq<Token>, len: nat) returns (d: seq<Token>)
    requires job.next == m.next && job.ban == m.banned && job.prompt == prompt && forall t :: !job.isEog(t)
    ensures |d| == len && job.Agreed(out, d)
  {
    d := [];
    while |d| < len
      invariant |d| <= len && job.Agreed(out, d)
    {
      var t := m.next(m.banned, prompt + out + d);
      forall i | 0 <= i < |d + [t]|
        ensures (d + [t])[i] == job.next(job.ban, prompt + out + (d + [t])[..i])
      {
        assert (d + [t])[..i] == d[..i] && d[..|d|] == d;
      }
      d := d + [t];
    }
  }

  /** The loop's own steps, the first with a draft that fills the context
      exactly: they end one token after plain generation, for every prompt
      and limits that leave room for it and a model that never ends. */
  method Overrun(m: Model, prompt: seq<Token>, p: Params, dyn: NgramCache.Cache, statics: StaticCache.Static,
                 key: seq<Token> -> LookupTable.Key, hash: NgramCache.Key -> nat, hash2: nat -> nat,
                 ghost rs: seq<CacheFile.Record>)
    returns (r: Result<Outcome>)
    requires m.batch >= 1 && dyn.Valid() && StaticCache.Answers(statics, hash2, rs)
    requires forall g :: key(g) != 0
    requires JobOf(m, prompt, p).Longest() <= LookupTable.U32
    requires !NeverOverruns(prompt, p.nPredict, m.nCtx) && forall t :: !m.isEog(t)
    requires (p.adapt ==> p.kMin <= p.kMax) && m.nCtx - |prompt| - 1 <= p.kMax
    modifies m
    ensures r.Ok? && |r.value.tokens| == JobOf(m, prompt, p).PlainLength() + 1
  {
    hide Recorded, Bounded, Balanced, Settled, StaticCache.Answers, WidestBatch, Drafts;
    hide Job.IsGreedy, Job.Live, Job.Correct, Job.PlainLength, Job.Choice, Job.Agreed, Job.Stream, Tallied, First;
    hide Going, Finished, Sized, Ready, LimitNow, Limited, Filling, Head, Told, Tried, Adapts;
    ghost var job := JobOf(m, prompt, p);
    var begun := Open(m, job, prompt, p);
    if begun.Err? { return Err("the prompt failed"); }
    var look, hist, ctx := Begin(p, prompt, true, key, hash);
    assert prompt + [] == prompt;
    var s := begun.value;
    GoingHas(m, job, p, s);
    var h := See(s.cur, look, true, hist, ctx, prompt);
    var o := s.o.(tokens := s.o.tokens + [s.cur]);
    BalancedSame(s.o, o);
    TurnOn(job, s.o.tokens, s.cur);
    var room := Min(p.nPredict - 2, m.nCtx - |prompt| - 1);
    var draft := OwnDraft(m, job, o.tokens, prompt, room);
    assert prompt + [s.cur] == prompt + o.tokens;
    TallyGrow(m, job, p, [], s.o, o);
    var s1 := s.(o := o, hist := h);
    ReadyBack(m, job, p, s1, prompt);
    LimitNone(p, s.k);
    ghost var tries, more;
    var t, done, last, end;
    t, done, tries := Take(m, job, p, s1, draft, 0, [], room, look, true, ctx, prompt, []);
    if t.Err? { return Err("a step failed"); }
    assert |t.value.o.tokens| == m.nCtx - |prompt|;
    FillingFull(job, p, t.value);
    HeadBack(m, job, p, look, true, ctx, tries, t.value, false);
    last, end, more := Turn(m, job, p, t.value, look, true, ctx, dyn, statics, hash2, rs, tries);
    if last.Err? { return Err("a step failed"); }
    EndlessOverruns(job);
    TooLong(m, job, p, look, ctx, more, last.value, end);
    return Ok(last.value.o);
  }

  lemma FillingFull(job: Job, p: Params, s: Run)
    requires |job.prompt| + |s.o.tokens| >= job.nCtx
    ensures Filling(job, p, s, false)
  {
    hide Fills;
  }

  /** Past the context's end an output is no longer live, and it is the overrun. */
  lemma TooLong(m: Model, job: Job, p: Params, look: Lookup.Index, ctx: NgramCache.Cache, tries: seq<Try>, s: Run,
                done: bool)
    requires Head(m, job, p, look, true, ctx, tries, s, done)
    requires job.PlainLength() == job.nCtx - |job.prompt| && |job.prompt| + |s.o.tokens| > job.nCtx
    requires s.o.tokens != []
    ensures |s.o.tokens| == job.PlainLength() + 1
  {
    hide Recorded, Tallied, LimitNow, Limited, Filling, Settled, Bounded, Balanced, Job.IsGreedy, Job.PlainLength;
    if !done { LiveLength(job, s.o.tokens); }
  }
}
