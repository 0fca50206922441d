/** The model behind generation. It remembers which tokens it has been fed,
    in cells and, if recurrent, in a state as well, and its greedy choice is
    any function of the tokens that come before. */
module Model {
  import opened Common
  import opened Words

  /** The greedy choice after a context, end-of-generation tokens skipped or not. */
  type Chooser = (bool, seq<Token>) -> Token

  /** A decode: where it started, its tokens, and behind how many of them the
      model's choice was wanted. */
  datatype Batch = Batch(pos: nat, tokens: seq<Token>, rows: nat)

  class Model {
    const next: Chooser
    const isEog: Token -> bool
    const recurrent: bool
    const rsSeq: nat
    const nCtx: nat
    const batch: nat
    const ubatch: nat
    var cells: seq<Token>
    var state: seq<Token>
    var banned: bool
    ghost var log: seq<Batch>

    constructor (next: Chooser, isEog: Token -> bool, recurrent: bool, rsSeq: nat, nCtx: nat, batch: nat, ubatch: nat)
      ensures this.next == next && this.isEog == isEog && this.recurrent == recurrent && this.rsSeq == rsSeq
      ensures this.nCtx == nCtx && this.batch == batch && this.ubatch == ubatch
    {
      this.next, this.isEog, this.recurrent, this.rsSeq := next, isEog, recurrent, rsSeq;
      this.nCtx, this.batch, this.ubatch := nCtx, batch, ubatch;
      cells, state, banned, log := [], [], false, [];
    }

    /** The recurrent state, where there is one, is the cells'. */
    ghost predicate InStep()
      reads this
    {
      recurrent ==> state == cells
    }

    method Clear()
      modifies this
      ensures cells == [] && state == [] && log == [] && banned == old(banned)
    {
      cells, state, log := [], [], [];
    }

    method BanEog(on: bool)
      modifies this`banned
      ensures banned == on
    {
      banned := on;
    }

    /** Feeds `tokens` to the model and reports its choice behind the wanted
        ones. They have to continue what was fed before, from `pos0` on;
        otherwise the call fails and changes nothing. */
    method Decode(tokens: seq<Token>, pos0: nat, want: seq<nat>) returns (r: Result<seq<Token>>)
      requires forall i :: 0 <= i < |want| ==> want[i] < |tokens|
      modifies this`cells, this`state, this`log
      ensures r.Ok? <==> old(pos0 == |cells| && InStep())
      ensures r.Err? ==> cells == old(cells) && state == old(state) && log == old(log)
      ensures r.Ok? ==> InStep() && cells == old(cells) + tokens && log == old(log) + [Batch(pos0, tokens, |want|)]
      ensures r.Ok? && !recurrent ==> state == old(state)
      ensures r.Ok? ==> |r.value| == |want|
                        && forall i :: 0 <= i < |want| ==>
                             r.value[i] == next(banned, old(cells) + tokens[..want[i] + 1])
    {
      if pos0 != |cells| { return Err("a decode that does not continue the context"); }
      if recurrent && state != cells { return Err("the recurrent state does not match the cells"); }
      var out: seq<Token> := [];
      for i := 0 to |want|
        invariant |out| == i
        invariant forall j :: 0 <= j < i ==> out[j] == next(banned, cells + tokens[..want[j] + 1])
      {
        out := out + [next(banned, cells + tokens[..want[i] + 1])];
      }
      cells := cells + tokens;
      if recurrent { state := state + tokens; }
      log := log + [Batch(pos0, tokens, |want|)];
      return Ok(out);
    }

    /** Forgets everything from `from` on, unless that is more than the
        recurrent state can lose. */
    method Truncate(from: nat) returns (ok: bool)
      modifies this`cells, this`state
      ensures ok <==> !old(recurrent && |state| > from && |state| - from > rsSeq)
      ensures !ok ==> cells == old(cells) && state == old(state)
      ensures ok ==> cells == old(cells[..Min(from, |cells|)])
      ensures ok ==> state == if recurrent then old(state[..Min(from, |state|)]) else old(state)
    {
      if recurrent && |state| > from {
        if |state| - from > rsSeq { return false; }
        state := state[..from];
      }
      cells := cells[..Min(from, |cells|)];
      return true;
    }

    method Checkpoint() returns (buf: seq<byte>)
      ensures buf == TokenBytes(state)
    {
      buf := TokenBytes(state);
    }

    /** A checkpoint's bytes bring back the tokens they were made from. */
    method Restore(buf: seq<byte>)
      modifies this`state
      ensures forall ts :: buf == TokenBytes(ts) ==> state == ts
    {
      state := BytesTokens(buf);
      forall ts | buf == TokenBytes(ts) ensures state == ts {
        TokensRoundTrip(ts);
      }
    }
  }

  // ---- the replay of a known output ----

  /** What a replay of `full` chooses: the token that follows where the
      context is a start of `full`, and -1 anywhere else. */
  function ReplayNext(full: seq<Token>, ctx: seq<Token>): Token {
    if |ctx| < |full| && ctx == full[..|ctx|] then full[|ctx|] else -1
  }

  /** The replay's answers, from one count of the tokens that agree. */
  method ReplayChoices(full: seq<Token>, cells: seq<Token>, tokens: seq<Token>,
                       want: seq<nat>) returns (out: seq<Token>)
    requires forall i :: 0 <= i < |want| ==> want[i] < |tokens|
    ensures |out| == |want|
    ensures forall i :: 0 <= i < |want| ==> out[i] == ReplayNext(full, cells + tokens[..want[i] + 1])
  {
    var all := cells + tokens;
    var good := 0;
    while good < |all| && good < |full| && all[good] == full[good]
      invariant good <= |all| && good <= |full| && all[..good] == full[..good]
    {
      good := good + 1;
    }
    out := [];
    for i := 0 to |want|
      invariant |out| == i
      invariant forall j :: 0 <= j < i ==> out[j] == ReplayNext(full, cells + tokens[..want[j] + 1])
    {
      var q := |cells| + want[i];
      ghost var ctx := cells + tokens[..want[i] + 1];
      assert ctx == all[..q + 1];
      if q < good {
        assert full[..q + 1] == full[..good][..q + 1] == all[..good][..q + 1];
      } else if q < |full| {
        assert ctx[good] == all[good] && full[..|ctx|][good] == full[good];
      }
      out := out + [if q < good && q + 1 < |full| then full[q + 1] else -1];
    }
  }
}
