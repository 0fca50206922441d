/** Generation run against a known output, and when it gives that output. */
module Replay {
  import opened Common
  import opened Model
  import opened Greedy
  import opened Counters
  import opened Generation
  import LookupTable
  import NgramCache
  import CacheFile
  import StaticCache

  /** An output generation would stop at: no end before its last token, and
      an end there. */
  ghost predicate WholeOutput(output: seq<Token>, isEog: Token -> bool, nPredict: nat) {
    && 0 < |output| <= Max(1, nPredict)
    && (forall i :: 0 <= i < |output| - 1 ==> !isEog(output[i]))
    && (isEog(output[|output| - 1]) || |output| >= nPredict)
  }

  /** The replay's greedy stream is the output it replays. */
  lemma {:induction false} ReplayStream(job: Job, output: seq<Token>, n: nat)
    requires job.prompt != [] && n <= |output|
    requires forall ban, ctx :: job.next(ban, ctx) == ReplayNext(job.prompt + output, ctx)
    ensures job.Stream(n) == output[..n]
  {
    if n > 0 {
      ReplayStream(job, output, n - 1);
      var ctx := job.prompt + output[..n - 1];
      assert (job.prompt + output)[..|ctx|] == ctx;
      assert output[..n] == output[..n - 1] + [output[n - 1]];
    }
  }

  /** Where plain generation on the replay ends, when it is at the output's end. */
  lemma ReplayLength(job: Job, output: seq<Token>)
    requires job.prompt != [] && job.nCtx == |job.prompt| + |output| + 1
    requires forall ban, ctx :: job.next(ban, ctx) == ReplayNext(job.prompt + output, ctx)
    ensures job.PlainLength() == |output| <==> WholeOutput(output, job.isEog, job.nPredict)
    ensures job.PlainLength() <= |output| + 1
  {
    var n := job.PlainLength();
    forall i | 1 <= i <= |output|
      ensures job.AtEog(i) <==> job.isEog(output[i - 1])
    {
      ReplayStream(job, output, i);
      assert output[..i][i - 1] == output[i - 1];
    }
    hide ReplayNext;
    assert job.Ends(|output| + 1);
    if WholeOutput(output, job.isEog, job.nPredict) {
      assert job.Ends(|output|);
      assert n <= |output| && (job.AtEog(n) <==> job.isEog(output[n - 1]));
    }
    if n == |output| {
      forall i | 0 <= i < |output| - 1
        ensures !job.isEog(output[i])
      {
        assert !job.Ends(i + 1);
      }
    }
  }

  /** A request replayed: it gives the recorded output back exactly when
      that is where generation stops, whatever is drafted. */
  method Simulate(prompt: seq<Token>, output: seq<Token>, isEog: Token -> bool, recurrent: bool, rsSeq: nat, p: Params,
                  dyn: NgramCache.Cache, statics: StaticCache.Static, learning: bool,
                  key: seq<Token> -> LookupTable.Key, hash: NgramCache.Key -> nat, hash2: nat -> nat,
                  ghost rs: seq<CacheFile.Record>)
    returns (r: Result<Outcome>)
    requires prompt != [] && dyn.Valid() && StaticCache.Answers(statics, hash2, rs)
    requires forall g :: key(g) != 0
    requires |prompt| + Min(Max(1, p.nPredict), |output| + 2) <= LookupTable.U32
    requires p.adapt && p.kMax > 0 ==> p.kMin <= p.kMax
    modifies dyn
    ensures r.Ok? <==> WholeOutput(output, isEog, p.nPredict)
    ensures r.Ok? ==> r.value.tokens == output && Balanced(r.value)
  {
    hide StaticCache.Answers, Balanced, Bounded, Learned, WholeOutput, Job.PlainLength, Job.Stream, ReplayNext;
    hide Tallied, Told, Limited;
    var full := prompt + output;
    var m := new Model((ban, ctx) => ReplayNext(full, ctx), isEog, recurrent, rsSeq, |full| + 1, 512, 512);
    var got;
    ghost var tries;
    got, tries := Generate(m, prompt, p, dyn, statics, learning, key, hash, hash2, rs);
    if got.Err? { return Err("generation failed"); }
    ghost var job := JobOf(m, prompt, p);
    ReplayLength(job, output);
    if |got.value.tokens| == |output| { ReplayAll(job, output); }
    if got.value.tokens != output { return Err("the engine's output left the model's"); }
    return Ok(got.value);
  }

  lemma ReplayAll(job: Job, output: seq<Token>)
    requires job.prompt != []
    requires forall ban, ctx :: job.next(ban, ctx) == ReplayNext(job.prompt + output, ctx)
    ensures job.Stream(|output|) == output
  {
    ReplayStream(job, output, |output|);
    assert output[..|output|] == output;
  }
}
