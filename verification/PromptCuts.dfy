/** Where a prompt's batches end. */
module PromptCuts {
  import opened Common

  /** The cuts near the end of a prompt that a recurrent model needs, so that
      its state can be checkpointed there. */
  function TailCuts(n: nat, batch: nat, ubatch: nat, recurrent: bool): (t: seq<nat>)
    ensures forall i :: 0 <= i < |t| ==> t[i] <= n
    ensures forall i, j :: 0 <= i < j < |t| ==> t[i] <= t[j]
    ensures recurrent && Min(batch, 4 + ubatch) < n ==> n - Min(batch, 4 + ubatch) in t
    ensures recurrent && Min(batch, 4) < n ==> n - Min(batch, 4) in t
    ensures forall c <- t :: recurrent && (n - c == Min(batch, 4 + ubatch) || n - c == Min(batch, 4))
  {
    var far, near := Min(batch, 4 + ubatch), Min(batch, 4);
    if !recurrent then []
    else (if far < n then [n - far] else []) + (if near < n then [n - near] else [])
  }

  /** Where a batch that starts at `at` ends when it is as long as it may be. */
  function Longest(at: nat, n: nat, batch: nat): nat {
    Min(at + batch, n)
  }

  /** A batch from `at` to `end`: not empty, not too long, and cut short
      only by a cut of `tail`. */
  ghost predicate CutOk(at: nat, end: nat, batch: nat, n: nat, tail: seq<nat>) {
    at < end <= Longest(at, n, batch) && (end == Longest(at, n, batch) || end in tail)
  }

  /** Ascending cuts of `n` tokens into batches of at most `batch`, every
      cut of `tail` among them, and no batch cut short but by one of those. */
  ghost predicate Partition(cuts: seq<nat>, at: nat, batch: nat, n: nat, tail: seq<nat>) {
    && (forall i :: 0 <= i < |cuts| ==> CutOk(Start(cuts, i), cuts[i], batch, n, tail))
    && at == Start(cuts, |cuts|)
    && (forall c :: c in tail && 0 < c <= at ==> c in cuts)
  }

  /** Where batch `i` starts. */
  function Start(cuts: seq<nat>, i: nat): nat
    requires i <= |cuts|
  {
    if i == 0 then 0 else cuts[i - 1]
  }

  method CutPrompt(n: nat, batch: nat, ubatch: nat, recurrent: bool) returns (cuts: seq<nat>)
    requires batch >= 1
    ensures Partition(cuts, n, batch, n, TailCuts(n, batch, ubatch, recurrent))
  {
    var tail := TailCuts(n, batch, ubatch, recurrent);
    cuts := [];
    var at := 0;
    while at < n
      invariant at <= n && Partition(cuts, at, batch, n, tail)
    {
      var end := Longest(at, n, batch);
      var i := 0;
      while i < |tail| && !(at < tail[i] < end)
        invariant 0 <= i <= |tail|
        invariant forall j :: 0 <= j < i ==> !(at < tail[j] < end)
      {
        i := i + 1;
      }
      if i < |tail| { end := tail[i]; }
      Extend(cuts, at, batch, n, tail, end);
      cuts := cuts + [end];
      at := end;
    }
  }

  lemma Extend(cuts: seq<nat>, at: nat, batch: nat, n: nat, tail: seq<nat>, end: nat)
    requires Partition(cuts, at, batch, n, tail) && CutOk(at, end, batch, n, tail)
    requires forall c :: c in tail ==> !(at < c < end)
    ensures Partition(cuts + [end], end, batch, n, tail)
  {
    hide CutOk;
    var more := cuts + [end];
    forall i | 0 <= i < |more|
      ensures CutOk(Start(more, i), more[i], batch, n, tail)
    {
      assert Start(more, i) == Start(cuts, i);
    }
  }

  lemma CutsEnd(cuts: seq<nat>, batch: nat, n: nat, tail: seq<nat>)
    requires Partition(cuts, n, batch, n, tail)
    ensures Start(cuts, |cuts|) == n && (n == 0 <==> cuts == [])
  {
    if n == 0 && cuts != [] {
      CutAt(cuts, batch, n, tail, 0);
    }
  }

  lemma CutAt(cuts: seq<nat>, batch: nat, n: nat, tail: seq<nat>, i: nat)
    requires Partition(cuts, n, batch, n, tail) && i < |cuts|
    ensures Start(cuts, i) < cuts[i] <= n && cuts[i] - Start(cuts, i) <= batch
  {
    assert CutOk(Start(cuts, i), cuts[i], batch, n, tail);
  }
}
