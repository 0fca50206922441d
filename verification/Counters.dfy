/** What a request's counters hold: the drafts that were verified, counted by
    the n-gram or the caches they came from, and the batches that carried
    tokens along. */
module Counters {
  import opened Common
  import opened Model
  import opened Greedy
  import Lookup
  import CacheDraft

  datatype Drafter = Exact | Caches | Both

  datatype Params = Params(
    nPredict: nat, kMax: nat, kMin: nat, adapt: bool, minN: nat, maxN: nat, pick: Lookup.Pick, foldMax: nat,
    junk: bool, drafter: Drafter, cacheK: nat, ignoreEos: bool, learn: bool, useStatic: bool)

  datatype Order = Order(steps: nat, drafted: nat, accepted: nat)

  const NO_ORDER := Order(0, 0, 0)

  datatype Outcome = Outcome(
    tokens: seq<Token>, promptN: nat, draftN: nat, draftAccepted: nat, steps: nat,
    restores: nat, carried: nat, flushes: nat, byN: seq<Order>, byTier: seq<Order>, eog: bool)

  // ---- counting ----

  function Total(os: seq<Order>): Order {
    TotalTo(os, |os|)
  }

  function TotalTo(os: seq<Order>, n: nat): Order
    requires n <= |os|
  {
    if n == 0 then NO_ORDER else Plus(TotalTo(os, n - 1), os[n - 1])
  }

  function Plus(a: Order, b: Order): Order {
    Order(a.steps + b.steps, a.drafted + b.drafted, a.accepted + b.accepted)
  }

  lemma {:induction false} TotalUpdate(os: seq<Order>, i: nat, d: Order, n: nat)
    requires i < |os| && n <= |os|
    ensures TotalTo(os[i := Plus(os[i], d)], n) == if i < n then Plus(TotalTo(os, n), d) else TotalTo(os, n)
  {
    if n > 0 { TotalUpdate(os, i, d, n - 1); }
  }

  lemma {:induction false} TotalPad(os: seq<Order>, more: seq<Order>, n: nat)
    requires n <= |os + more| && forall i :: 0 <= i < |more| ==> more[i] == NO_ORDER
    ensures TotalTo(os + more, n) == TotalTo(os, Min(n, |os|))
  {
    if n > 0 { TotalPad(os, more, n - 1); }
  }

  /** Every draft is counted once, by the n-gram it followed or by the
      caches it came from. */
  ghost predicate Balanced(o: Outcome) {
    && |o.byTier| == 3
    && Total(o.byN).steps + Total(o.byTier).steps == o.steps
    && Total(o.byN).drafted + Total(o.byTier).drafted == o.draftN
    && Total(o.byN).accepted + Total(o.byTier).accepted == o.draftAccepted
  }

  function TierIndex(t: CacheDraft.Tier): nat {
    match t case Context => 0 case Dynamic => 1 case Corpus => 2
  }

  /** What the tiers of a draft, `j` of its tokens accepted, add to tier `t`. */
  function TierOrder(tiers: seq<CacheDraft.Tier>, j: nat, t: CacheDraft.Tier): Order
    requires tiers != [] && j <= |tiers|
  {
    Order(if tiers[0] == t then 1 else 0, multiset(tiers)[t], multiset(tiers[..j])[t])
  }

  /** The first `i` tokens of a draft are counted under their tiers. */
  ghost predicate Tiered(byTier: seq<Order>, r: seq<Order>, tiers: seq<CacheDraft.Tier>, i: nat, j: nat)
    requires |byTier| == |r| == 3 && i <= |tiers| && tiers != []
  {
    forall t: CacheDraft.Tier :: r[TierIndex(t)] == Plus(byTier[TierIndex(t)],
      Order(if tiers[0] == t then 1 else 0, multiset(tiers[..i])[t], multiset(tiers[..Min(i, j)])[t]))
  }

  lemma TieredPush(byTier: seq<Order>, r: seq<Order>, tiers: seq<CacheDraft.Tier>, i: nat, j: nat)
    requires |byTier| == |r| == 3 && i < |tiers| && Tiered(byTier, r, tiers, i, j)
    ensures var t, d := TierIndex(tiers[i]), Order(0, 1, if i < j then 1 else 0);
            Tiered(byTier, r[t := Plus(r[t], d)], tiers, i + 1, j)
  {
    assert tiers[..i + 1] == tiers[..i] + [tiers[i]];
    assert multiset(tiers[..i + 1]) == multiset(tiers[..i]) + multiset{tiers[i]};
  }

  lemma TieredAll(byTier: seq<Order>, r: seq<Order>, tiers: seq<CacheDraft.Tier>, j: nat)
    requires |byTier| == |r| == 3 && tiers != [] && j <= |tiers| && Tiered(byTier, r, tiers, |tiers|, j)
    ensures forall t: CacheDraft.Tier :: r[TierIndex(t)] == Plus(byTier[TierIndex(t)], TierOrder(tiers, j, t))
  {
    assert tiers[..|tiers|] == tiers;
  }

  method CountTiers(byTier: seq<Order>, tiers: seq<CacheDraft.Tier>, j: nat) returns (r: seq<Order>)
    requires |byTier| == 3 && tiers != [] && j <= |tiers|
    ensures |r| == 3 && Total(r) == Plus(Total(byTier), Order(1, |tiers|, j))
    ensures forall t: CacheDraft.Tier :: r[TierIndex(t)] == Plus(byTier[TierIndex(t)], TierOrder(tiers, j, t))
  {
    hide TotalTo, Tiered, TierOrder;
    var t0 := TierIndex(tiers[0]);
    r := byTier[t0 := Plus(byTier[t0], Order(1, 0, 0))];
    TotalUpdate(byTier, t0, Order(1, 0, 0), |byTier|);
    TieredNone(byTier, tiers, j);
    for i := 0 to |tiers|
      invariant |r| == 3 && Total(r) == Plus(Total(byTier), Order(1, i, Min(i, j)))
      invariant Tiered(byTier, r, tiers, i, j)
    {
      var t := TierIndex(tiers[i]);
      var d := Order(0, 1, if i < j then 1 else 0);
      TotalUpdate(r, t, d, |r|);
      TieredPush(byTier, r, tiers, i, j);
      r := r[t := Plus(r[t], d)];
    }
    TieredAll(byTier, r, tiers, j);
  }

  lemma TieredNone(byTier: seq<Order>, tiers: seq<CacheDraft.Tier>, j: nat)
    requires |byTier| == 3 && tiers != []
    ensures var t0 := TierIndex(tiers[0]);
            Tiered(byTier, byTier[t0 := Plus(byTier[t0], Order(1, 0, 0))], tiers, 0, j)
  {
  }

  function OrderAt(byN: seq<Order>, i: nat): Order {
    if i < |byN| then byN[i] else NO_ORDER
  }

  /** A draft has entered the counters: under its n-gram's length, or under
      the tiers of its tokens; and nowhere else. */
  ghost predicate Counted(o: Outcome, c: Outcome, n: nat, tiers: seq<CacheDraft.Tier>, len: nat, j: nat)
    requires |o.byTier| == |c.byTier| == 3 && j <= len && (tiers != [] ==> |tiers| == len)
  {
    if tiers == [] then
      && c.byTier == o.byTier
      && OrderAt(c.byN, n) == Plus(OrderAt(o.byN, n), Order(1, len, j))
      && forall i: nat :: i != n ==> OrderAt(c.byN, i) == OrderAt(o.byN, i)
    else
      && c.byN == o.byN
      && forall t: CacheDraft.Tier ::
           c.byTier[TierIndex(t)] == Plus(o.byTier[TierIndex(t)], TierOrder(tiers, j, t))
  }

  method Count(o: Outcome, n: nat, tiers: seq<CacheDraft.Tier>, len: nat, j: nat, restored: bool)
    returns (c: Outcome)
    requires Balanced(o) && (tiers != [] ==> |tiers| == len) && j <= len
    ensures Balanced(c) && c.tokens == o.tokens && c.eog == o.eog && c.promptN == o.promptN
    ensures c.steps == o.steps + 1 && c.draftN == o.draftN + len && c.draftAccepted == o.draftAccepted + j
    ensures c.restores == o.restores + (if restored then 1 else 0) && c.carried == o.carried && c.flushes == o.flushes
    ensures |o.byTier| == |c.byTier| == 3 && Counted(o, c, n, tiers, len, j)
  {
    hide TierOrder, TotalTo;
    c := o.(steps := o.steps + 1, draftN := o.draftN + len, draftAccepted := o.draftAccepted + j,
    restores := o.restores + if restored then 1 else 0);
    if tiers == [] {
      var byN := CountOrder(o.byN, n, Order(1, len, j));
      c := c.(byN := byN);
    } else {
      var byTier := CountTiers(o.byTier, tiers, j);
      c := c.(byTier := byTier);
    }
  }

  method CountOrder(byN: seq<Order>, n: nat, d: Order) returns (r: seq<Order>)
    ensures Total(r) == Plus(Total(byN), d)
    ensures OrderAt(r, n) == Plus(OrderAt(byN, n), d)
    ensures forall i: nat :: i != n ==> OrderAt(r, i) == OrderAt(byN, i)
  {
    hide TotalTo;
    var padded := byN;
    if |byN| <= n {
      var more := seq(n + 1 - |byN|, _ => NO_ORDER);
      padded := byN + more;
      TotalPad(byN, more, |padded|);
    }
    TotalUpdate(padded, n, d, |padded|);
    r := padded[n := Plus(padded[n], d)];
  }

  lemma BalancedNone(o: Outcome)
    requires o.byN == [] && |o.byTier| == 3 && forall i :: 0 <= i < |o.byTier| ==> o.byTier[i] == NO_ORDER
    requires o.steps == 0 && o.draftN == 0 && o.draftAccepted == 0
    ensures Balanced(o)
  {
    hide TotalTo;
    TotalZero(o.byN, |o.byN|);
    TotalZero(o.byTier, |o.byTier|);
  }

  lemma {:induction false} TotalZero(os: seq<Order>, n: nat)
    requires n <= |os| && forall i :: 0 <= i < |os| ==> os[i] == NO_ORDER
    ensures TotalTo(os, n) == NO_ORDER
  {
    if n > 0 { TotalZero(os, n - 1); }
  }

  lemma BalancedSame(o: Outcome, c: Outcome)
    requires Balanced(o) && c == o.(tokens := c.tokens, eog := c.eog, carried := c.carried, flushes := c.flushes)
    ensures Balanced(c)
  {
  }

  // ---- the drafts verified ----

  /** A draft that was verified: behind which output, of what n-gram or from
      which caches, how many of its tokens were accepted, and whether the
      context went back to a checkpoint for it. `k` is how many tokens an exact
      match might have. */
  datatype Try = Try(out: seq<Token>, draft: seq<Token>, n: nat, tiers: seq<CacheDraft.Tier>, accepted: nat,
                     restored: bool, k: nat)

  /** The tokens drafted, and those accepted. */
  function DraftedIn(tries: seq<Try>): nat {
    if tries == [] then 0 else DraftedIn(tries[..|tries| - 1]) + |tries[|tries| - 1].draft|
  }

  function AcceptedIn(tries: seq<Try>): nat {
    if tries == [] then 0 else AcceptedIn(tries[..|tries| - 1]) + tries[|tries| - 1].accepted
  }

  function RestoredIn(tries: seq<Try>): nat {
    if tries == [] then 0 else RestoredIn(tries[..|tries| - 1]) + if tries[|tries| - 1].restored then 1 else 0
  }

  /** The drafts that followed an n-gram of `n` tokens. */
  function OrderN(tries: seq<Try>, n: nat): Order {
    if tries == [] then NO_ORDER
    else
      var x, sum := tries[|tries| - 1], OrderN(tries[..|tries| - 1], n);
      if x.tiers == [] && x.n == n then Plus(sum, Order(1, |x.draft|, x.accepted)) else sum
  }

  /** The drafts that began with a token of tier `t`, and the tokens from it. */
  function OrderT(tries: seq<Try>, t: CacheDraft.Tier): Order {
    if tries == [] then NO_ORDER
    else
      var x, sum := tries[|tries| - 1], OrderT(tries[..|tries| - 1], t);
      if x.tiers != [] && x.accepted <= |x.tiers| then Plus(sum, TierOrder(x.tiers, x.accepted, t)) else sum
  }

  // ---- the batches ----

  /** The drafts the model was shown: a batch with more than one choice wanted
      ends in one. */
  function Shown(log: seq<Batch>): seq<seq<Token>> {
    if log == [] then []
    else
      var b, sum := log[|log| - 1], Shown(log[..|log| - 1]);
      if 1 < b.rows <= |b.tokens| then sum + [b.tokens[|b.tokens| - b.rows + 1..]] else sum
  }

  /** The tokens that rode in front, behind a prompt of `n`. */
  function Riding(log: seq<Batch>, n: nat): int {
    if log == [] then 0
    else
      var b := log[|log| - 1];
      Riding(log[..|log| - 1], n) + if b.pos >= n && b.rows > 0 then |b.tokens| - b.rows else 0
  }

  /** The batches no choice was wanted of, behind a prompt of `n`. */
  function Unasked(log: seq<Batch>, n: nat): nat {
    if log == [] then 0
    else
      var b := log[|log| - 1];
      Unasked(log[..|log| - 1], n) + if b.pos >= n && b.rows == 0 then 1 else 0
  }

  function DraftsOf(tries: seq<Try>): seq<seq<Token>> {
    seq(|tries|, i requires 0 <= i < |tries| => tries[i].draft)
  }

  /** A verified draft was counted with as many tokens as the model agreed to
      one after the other. It is taken back through a checkpoint where a recurrent state
      can be cut by no more than `rs` tokens. */
  ghost predicate Honest(job: Job, p: Params, rs: Option<nat>, x: Try) {
    && x.out != [] && x.draft != [] && x.accepted <= |x.draft|
    && job.Says(x.out, x.draft[..x.accepted])
    && (x.accepted < |x.draft| ==>
          x.draft[x.accepted] != job.next(job.ban, job.prompt + x.out + x.draft[..x.accepted]))
    && (x.restored <==> x.accepted < |x.draft| && rs.Some? && |x.draft| > rs.value)
    && (x.tiers != [] ==> |x.tiers| == |x.draft|)
  }

  /** A draft is junk, a copy of what followed its n-gram in the context, or
      the caches'. */
  ghost predicate Sourced(job: Job, p: Params, x: Try) {
    if x.tiers != [] then !p.junk && !p.drafter.Exact?
    else |x.draft| <= x.k && if p.junk then x.n == 0
         else !p.drafter.Caches? && Lookup.IsCopy(job.prompt + x.out, x.n, |x.draft|, x.draft)
  }

  /** How many tokens an exact match may have after `x`: twice as many where
      all were accepted, else one more than were, within the limits. The
      caches' drafts change nothing. */
  ghost predicate Adapts(p: Params, x: Try, k: nat) {
    if !p.adapt || x.tiers != [] then k == x.k
    else if x.accepted == |x.draft| then k == Min(2 * x.k, p.kMax)
    else
      && Max(p.kMin, 1) <= k <= p.kMax
      && (k == x.accepted + 1 || (k == Max(p.kMin, 1) && k > x.accepted + 1) || (k == p.kMax && k < x.accepted + 1))
  }

  /** The limit at the start, and from draft to draft. */
  ghost predicate Limited(p: Params, tries: seq<Try>) {
    && (tries != [] ==> First(p, tries[0].k))
    && forall i :: 0 <= i < |tries| - 1 ==> Adapts(p, tries[i], tries[i + 1].k)
  }

  ghost predicate First(p: Params, k: nat) {
    k == if p.adapt then Min(Max(p.kMin, 1), p.kMax) else p.kMax
  }

  /** `k` is the limit after the drafts. */
  ghost predicate LimitNow(p: Params, tries: seq<Try>, k: nat) {
    Limited(p, tries) && if tries == [] then First(p, k) else Adapts(p, tries[|tries| - 1], k)
  }

  /** The counters are the sums over the drafts verified and over the batches
      decoded; the drafts are those the model was shown. `due` carried tokens
      are counted ahead of their batch. */
  ghost predicate Logged(job: Job, p: Params, rs: Option<nat>, log: seq<Batch>, tries: seq<Try>, o: Outcome,
                         due: nat)
  {
    && o.steps == |tries| && o.draftN == DraftedIn(tries) && o.draftAccepted == AcceptedIn(tries)
    && o.restores == RestoredIn(tries) && |o.byTier| == 3
    && (forall n: nat :: OrderAt(o.byN, n) == OrderN(tries, n))
    && (forall t: CacheDraft.Tier :: o.byTier[TierIndex(t)] == OrderT(tries, t))
    && (forall x <- tries :: Honest(job, p, rs, x) && x.out <= o.tokens)
    && Shown(log) == DraftsOf(tries)
    && o.carried == Riding(log, |job.prompt|) + due && o.flushes == Unasked(log, |job.prompt|)
  }

  lemma {:induction false} PromptOnly(log: seq<Batch>, n: nat)
    requires forall b <- log :: b.pos < n && b.rows <= 1
    ensures Shown(log) == [] && Riding(log, n) == 0 && Unasked(log, n) == 0
  {
    if log != [] { PromptOnly(log[..|log| - 1], n); }
  }

  lemma LoggedNone(job: Job, p: Params, rs: Option<nat>, log: seq<Batch>, o: Outcome)
    requires forall b <- log :: b.pos < |job.prompt| && b.rows <= 1
    requires o.byN == [] && o.byTier == [NO_ORDER, NO_ORDER, NO_ORDER]
    requires o.steps == o.draftN == o.draftAccepted == o.restores == o.carried == o.flushes == 0
    ensures Logged(job, p, rs, log, [], o, 0)
  {
    PromptOnly(log, |job.prompt|);
  }

  /** The output grows, the counters stay. */
  lemma LoggedGrow(job: Job, p: Params, rs: Option<nat>, log: seq<Batch>, tries: seq<Try>, o: Outcome, c: Outcome,
                   due: nat)
    requires Logged(job, p, rs, log, tries, o, due) && o.tokens <= c.tokens
    requires c == o.(tokens := c.tokens, eog := c.eog)
    ensures Logged(job, p, rs, log, tries, c, due)
  {
    hide Honest, OrderN, OrderT, Shown, Riding, Unasked;
  }

  lemma BatchPush(log: seq<Batch>, b: Batch, n: nat)
    requires b.pos >= n
    ensures Riding(log + [b], n) == Riding(log, n) + if b.rows > 0 then |b.tokens| - b.rows else 0
    ensures Unasked(log + [b], n) == Unasked(log, n) + if b.rows == 0 then 1 else 0
    ensures Shown(log + [b])
            == Shown(log) + if 1 < b.rows <= |b.tokens| then [b.tokens[|b.tokens| - b.rows + 1..]] else []
  {
    assert (log + [b])[..|log|] == log;
  }

  lemma TryPush(tries: seq<Try>, x: Try)
    ensures DraftedIn(tries + [x]) == DraftedIn(tries) + |x.draft|
    ensures AcceptedIn(tries + [x]) == AcceptedIn(tries) + x.accepted
    ensures RestoredIn(tries + [x]) == RestoredIn(tries) + if x.restored then 1 else 0
    ensures DraftsOf(tries + [x]) == DraftsOf(tries) + [x.draft]
  {
    assert (tries + [x])[..|tries|] == tries;
  }

  lemma OrderPush(tries: seq<Try>, x: Try, n: nat, t: CacheDraft.Tier)
    ensures OrderN(tries + [x], n)
            == if x.tiers == [] && x.n == n then Plus(OrderN(tries, n), Order(1, |x.draft|, x.accepted))
               else OrderN(tries, n)
    ensures OrderT(tries + [x], t)
            == if x.tiers != [] && x.accepted <= |x.tiers|
               then Plus(OrderT(tries, t), TierOrder(x.tiers, x.accepted, t)) else OrderT(tries, t)
  {
    hide TierOrder;
    assert (tries + [x])[..|tries|] == tries;
  }

  /** A batch with a flush before it, or without: no draft in it. */
  lemma LoggedPlain(job: Job, p: Params, rs: Option<nat>, log: seq<Batch>, tries: seq<Try>, o: Outcome, b: Batch,
                    due: nat)
    requires Logged(job, p, rs, log, tries, o, due) && b.pos >= |job.prompt|
    requires b.rows == 1 && |b.tokens| == due + 1
    ensures Logged(job, p, rs, log + [b], tries, o, 0)
  {
    hide Honest, OrderN, OrderT, Shown, Riding, Unasked;
    BatchPush(log, b, |job.prompt|);
  }

  lemma LoggedFlush(job: Job, p: Params, rs: Option<nat>, log: seq<Batch>, tries: seq<Try>, o: Outcome, c: Outcome,
                    b: Batch)
    requires Logged(job, p, rs, log, tries, o, 0) && b.pos >= |job.prompt| && b.rows == 0
    requires c == o.(flushes := o.flushes + 1)
    ensures Logged(job, p, rs, log + [b], tries, c, 0)
  {
    hide Honest, OrderN, OrderT, Shown, Riding, Unasked;
    BatchPush(log, b, |job.prompt|);
  }

  lemma LoggedDue(job: Job, p: Params, rs: Option<nat>, log: seq<Batch>, tries: seq<Try>, o: Outcome, c: Outcome,
                  due: nat)
    requires Logged(job, p, rs, log, tries, o, 0) && c == o.(carried := o.carried + due)
    ensures Logged(job, p, rs, log, tries, c, due)
  {
    hide Honest, OrderN, OrderT, Shown, Riding, Unasked;
  }

  /** A draft verified and counted. */
  lemma LoggedTry(job: Job, p: Params, rs: Option<nat>, log: seq<Batch>, tries: seq<Try>, o: Outcome, c: Outcome,
                  b: Batch, x: Try, due: nat)
    requires Logged(job, p, rs, log, tries, o, due) && Honest(job, p, rs, x) && x.out <= o.tokens <= c.tokens
    requires b.pos >= |job.prompt| && b.rows == 1 + |x.draft| && |b.tokens| == due + b.rows
    requires b.tokens[due + 1..] == x.draft
    requires c.steps == o.steps + 1 && c.draftN == o.draftN + |x.draft|
    requires c.draftAccepted == o.draftAccepted + x.accepted && c.restores == o.restores + if x.restored then 1 else 0
    requires c.carried == o.carried && c.flushes == o.flushes && |c.byTier| == 3
    requires Counted(o, c, x.n, x.tiers, |x.draft|, x.accepted)
    ensures Logged(job, p, rs, log + [b], tries + [x], c, 0)
  {
    assert x.draft != [] by { hide TierOrder; }
    hide Honest, OrderN, OrderT, Shown, Riding, Unasked, TierOrder;
    BatchPush(log, b, |job.prompt|);
    TryPush(tries, x);
    forall n: nat ensures OrderAt(c.byN, n) == OrderN(tries + [x], n) { OrderPush(tries, x, n, CacheDraft.Context); }
    forall t: CacheDraft.Tier ensures c.byTier[TierIndex(t)] == OrderT(tries + [x], t) { OrderPush(tries, x, 0, t); }
  }
}
