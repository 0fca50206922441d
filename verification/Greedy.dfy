/** Plain greedy generation, which speculative generation must reproduce. */
module Greedy {
  import opened Common
  import opened Model

  /** A request: the model's choices and its ends, the prompt, the limits. */
  datatype Job = Job(next: Chooser, ban: bool, isEog: Token -> bool, prompt: seq<Token>, nPredict: nat, nCtx: nat) {

    /** What the model says after a context. Nothing can be asked of an empty
        one, so generation starts there from token 0. */
    function Choice(ctx: seq<Token>): Token {
      if ctx == [] then 0 else next(ban, ctx)
    }

    /** The first `n` tokens of the model's greedy stream. */
    function Stream(n: nat): (s: seq<Token>)
      ensures |s| == n
    {
      if n == 0 then [] else
      var s := Stream(n - 1);
      s + [Choice(prompt + s)]
    }

    /** Generation one token at a time ends after `n` tokens: at the first
        end-of-generation token, at `nPredict`, or at the context's end. */
    predicate Ends(n: nat)
      requires n >= 1
    {
      AtEog(n) || n >= nPredict || |prompt| + n >= nCtx
    }

    predicate AtEog(n: nat)
      requires n >= 1
    {
      isEog(Stream(n)[n - 1])
    }

    /** Where it ends, from `n` tokens on. */
    function EndFrom(n: nat): (r: nat)
      requires n >= 1
      ensures n <= r <= Max(n, nPredict) && Ends(r)
      ensures forall i :: n <= i < r ==> !Ends(i)
      decreases nPredict - n
    {
      if Ends(n) then n else EndFrom(n + 1)
    }

    /** How many tokens plain generation gives. */
    function PlainLength(): nat {
      EndFrom(1)
    }

    /** The most tokens the prompt and an output can come to. */
    function Longest(): nat {
      Min(|prompt| + Max(1, nPredict), Max(|prompt|, nCtx) + 1)
    }

    /** Every token is the model's own choice after those before it. */
    ghost predicate IsGreedy(out: seq<Token>) {
      forall i :: 0 <= i < |out| ==> out[i] == Choice(prompt + out[..i])
    }

    /** No end before the last token, but that the context may have filled
        exactly one token earlier. */
    ghost predicate Live(out: seq<Token>) {
      && (out != [] ==> |prompt| + 1 < nCtx)
      && forall i :: 0 <= i < |out| ==> GoesOn(out, i)
    }

    /** Token `i` ends nothing. */
    predicate GoesOn(out: seq<Token>, i: nat)
      requires i < |out|
    {
      !isEog(out[i]) && i + 1 < nPredict && |prompt| + i + 1 <= nCtx
    }

    lemma {:induction false} GreedyIsStream(out: seq<Token>)
      requires IsGreedy(out)
      ensures out == Stream(|out|)
    {
      if out != [] {
        var l := |out| - 1;
        assert IsGreedy(out[..l]) by {
          forall i | 0 <= i < l
            ensures out[..l][i] == Choice(prompt + out[..l][..i])
          {
            assert out[..l][..i] == out[..i];
          }
        }
        GreedyIsStream(out[..l]);
        assert out == out[..l] + [out[l]];
      }
    }

    lemma GreedyPush(out: seq<Token>, t: Token)
      requires IsGreedy(out) && t == Choice(prompt + out)
      ensures IsGreedy(out + [t])
    {
      forall i | 0 <= i < |out + [t]|
        ensures (out + [t])[i] == Choice(prompt + (out + [t])[..i])
      {
        assert (out + [t])[..i] == out[..i] && out[..|out|] == out;
      }
    }

    /** `d` is what the model says after `out`, token by token. */
    ghost predicate Says(out: seq<Token>, d: seq<Token>) {
      forall i :: 0 <= i < |d| ==> d[i] == next(ban, prompt + out + d[..i])
    }

    lemma {:induction false} GreedyExtend(out: seq<Token>, d: seq<Token>)
      requires IsGreedy(out) && prompt + out != [] && Says(out, d)
      ensures IsGreedy(out + d)
    {
      if d == [] {
        assert out + d == out;
      } else {
        var l := |d| - 1;
        forall i | 0 <= i < l
          ensures d[..l][i] == next(ban, prompt + out + d[..l][..i])
        {
          assert d[..l][..i] == d[..i];
        }
        GreedyExtend(out, d[..l]);
        assert prompt + out + d[..l] == prompt + (out + d[..l]);
        GreedyPush(out + d[..l], d[l]);
        assert out + d == out + d[..l] + [d[l]];
      }
    }

    /** A draft the model agrees with throughout, after `out`. */
    ghost predicate Agreed(out: seq<Token>, d: seq<Token>) {
      Says(out, d) && forall i :: 0 <= i < |d| ==> !isEog(d[i])
    }

    lemma LiveExtend(out: seq<Token>, d: seq<Token>)
      requires Live(out) && forall i :: 0 <= i < |d| ==> !isEog(d[i])
      requires d != [] ==> |out| + |d| < nPredict && |prompt| + |out| + |d| <= nCtx && |prompt| + 1 < nCtx
      ensures Live(out + d)
    {
      forall i | 0 <= i < |out + d|
        ensures GoesOn(out + d, i)
      {
        if i < |out| { assert GoesOn(out, i); } else { assert !isEog(d[i - |out|]); }
      }
    }

    lemma {:induction false} StreamPrefix(n: nat, i: nat)
      requires i <= n
      ensures Stream(n)[..i] == Stream(i)
    {
      if i < n {
        StreamPrefix(n - 1, i);
        assert Stream(n)[..i] == Stream(n - 1)[..i];
      }
    }

    /** What speculative generation may give: the stream up to plain
        generation's end, or one token more where the context ended it. */
    ghost predicate Correct(out: seq<Token>) {
      && out == Stream(|out|)
      && var n := PlainLength();
      || |out| == n
      || (|out| == n + 1 && Overruns())
    }

    /** Plain generation ends at the context's end, after two tokens or more,
        and would go on otherwise. */
    predicate Overruns() {
      var n := PlainLength();
      n >= 2 && |prompt| + n == nCtx && !AtEog(n) && n < nPredict
    }

    /** An output that met no end before its last token is correct. */
    lemma LiveIsCorrect(out: seq<Token>, last: Token)
      requires IsGreedy(out + [last]) && Live(out)
      requires isEog(last) || |out| + 1 >= nPredict || |prompt| + |out| + 1 >= nCtx
      ensures Correct(out + [last])
    {
      var all := out + [last];
      GreedyIsStream(all);
      forall i | 1 <= i <= |all|
        ensures Stream(i)[i - 1] == all[i - 1]
      {
        StreamPrefix(|all|, i);
        assert Stream(i)[i - 1] == Stream(|all|)[i - 1];
      }
      assert Ends(|all|);
      var n := PlainLength();
      assert n <= |all|;
      if n < |all| {
        assert GoesOn(out, n - 1) && GoesOn(out, |out| - 1);
        assert out[n - 1] == all[n - 1];
      }
    }

    // ---- what drafts can change ----

    /** How many draft tokens a step after `l` tokens may carry. */
    function Room(l: nat): int {
      Min(nPredict - l - 1, nCtx - |prompt| - l)
    }

    /** No end-of-generation token from `i` tokens up to `j`. */
    ghost predicate NoEog(i: nat, j: nat) {
      forall x :: 1 <= i <= x <= j ==> !AtEog(x)
    }

    /** With the model's next token the output has `n + 1` tokens; a step then
        accepts any number of drafted tokens that fits. `total` is where this
        can end for some drafts. */
    ghost predicate CanEnd(n: nat, total: nat)
      decreases Max(nPredict - n, 0)
    {
      var l := n + 1;
      if Ends(l) then total == l
      else exists a: nat :: a <= Room(l) && Goes(l, a, total)
    }

    /** A step after `l` tokens accepts `a` drafted ones. */
    ghost predicate Goes(l: nat, a: nat, total: nat)
      requires l >= 1 && !Ends(l) && a <= Room(l)
      decreases Max(nPredict - l, 0) + 1, 0
    {
      if NoEog(l + 1, l + a) then CanEnd(l + a, total)
      else l < total <= l + a && AtEog(total) && NoEog(l + 1, total - 1)
    }

    /** Nothing has ended generation within `n` tokens, though the context may be full. */
    ghost predicate AliveAt(n: nat) {
      && (n > 0 ==> |prompt| + 1 < nCtx)
      && forall i :: 1 <= i <= n ==> !AtEog(i) && i < nPredict && |prompt| + i <= nCtx
    }

    lemma {:induction false} CanEndOnly(n: nat, total: nat)
      requires AliveAt(n) && CanEnd(n, total)
      ensures total == PlainLength() || (total == PlainLength() + 1 && Overruns())
      decreases Max(nPredict - n, 0)
    {
      hide Stream;
      var l := n + 1;
      if Ends(l) {
        assert n > 0 ==> !AtEog(n);
      } else {
        var a: nat :| a <= Room(l) && Goes(l, a, total);
        assert !AtEog(l);
        if NoEog(l + 1, l + a) {
          CanEndOnly(l + a, total);
        } else {
          forall i | 1 <= i < total
            ensures !Ends(i)
          {
            assert i <= n ==> !AtEog(i);
          }
          assert Ends(total);
        }
      }
    }

    lemma {:induction false} CanEndPlain(n: nat)
      requires n < PlainLength()
      ensures CanEnd(n, PlainLength())
      decreases PlainLength() - n
    {
      hide Stream;
      var l := n + 1;
      if !Ends(l) {
        CanEndPlain(l);
        assert NoEog(l + 1, l + 0);
        assert Goes(l, 0, PlainLength());
      }
    }

    lemma {:induction false} CanOverrun(n: nat)
      requires Overruns() && n + 2 <= PlainLength()
      ensures CanEnd(n, PlainLength() + 1)
      decreases PlainLength() - n
    {
      hide Stream;
      var l, e := n + 1, PlainLength();
      assert !Ends(l);
      if l == e - 1 {
        assert Ends(e + 1) && CanEnd(e, e + 1);
        assert NoEog(l + 1, l + 1) && 1 <= Room(l);
        assert Goes(l, 1, e + 1);
      } else {
        CanOverrun(l);
        assert NoEog(l + 1, l + 0);
        assert Goes(l, 0, e + 1);
      }
    }

    /** Over all drafts, generation can end exactly at plain generation's end
        and, where that is the context's, one token later. */
    lemma DraftsCanEnd(total: nat)
      ensures CanEnd(0, total) <==> total == PlainLength() || (total == PlainLength() + 1 && Overruns())
    {
      if CanEnd(0, total) { CanEndOnly(0, total); }
      CanEndPlain(0);
      if Overruns() { CanOverrun(0); }
    }
  }

  /** A correct output ends where some drafts end, and where the lengths rule
      the extra token out, where plain generation does. */
  lemma CorrectEnds(job: Job, out: seq<Token>)
    requires job.Correct(out)
    ensures job.CanEnd(0, |out|)
    ensures NeverOverruns(job.prompt, job.nPredict, job.nCtx) ==> |out| == job.PlainLength()
  {
    hide Job.Stream, Job.CanEnd;
    job.DraftsCanEnd(|out|);
  }

  /** Drafts cannot lengthen the output, whatever the model: the limit on
      tokens comes no later than the context's end, or the prompt leaves no
      room for a second token. */
  predicate NeverOverruns(prompt: seq<Token>, nPredict: nat, nCtx: nat) {
    |prompt| + nPredict <= nCtx || nCtx <= |prompt| + 1
  }

  /** A caller who knows only the lengths can rule the extra token out exactly then. */
  lemma OverrunsExactly(prompt: seq<Token>, nPredict: nat, nCtx: nat)
    ensures NeverOverruns(prompt, nPredict, nCtx) <==>
            forall next, ban, isEog :: !Job(next, ban, isEog, prompt, nPredict, nCtx).Overruns()
  {
    hide Job.Stream;
    if !NeverOverruns(prompt, nPredict, nCtx) {
      var job := Job((_: bool, _: seq<Token>) => 0, false, (_: Token) => false, prompt, nPredict, nCtx);
      EndlessOverruns(job);
    }
  }

  /** A model that never ends by itself overruns wherever the lengths allow. */
  lemma EndlessOverruns(job: Job)
    requires !NeverOverruns(job.prompt, job.nPredict, job.nCtx) && forall t :: !job.isEog(t)
    ensures job.PlainLength() == job.nCtx - |job.prompt| && job.Overruns()
  {
    hide Job.Stream;
    var n := job.PlainLength();
    assert job.Ends(n) && !job.AtEog(n);
    if n > 1 { assert !job.Ends(n - 1); }
  }

  /** Then some drafts give one token more than plain generation. */
  lemma OverrunHappens(job: Job)
    requires !NeverOverruns(job.prompt, job.nPredict, job.nCtx) && forall t :: !job.isEog(t)
    ensures job.CanEnd(0, job.nCtx - |job.prompt| + 1)
  {
    hide Job.Stream, Job.CanEnd;
    EndlessOverruns(job);
    job.DraftsCanEnd(job.nCtx - |job.prompt| + 1);
  }
}
