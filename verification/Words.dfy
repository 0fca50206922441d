/** Little-endian bytes of 32-bit integers. */
module Words {
  import opened Common

  type byte = b: int | 0 <= b < 256

  const U32 := 0x1_0000_0000

  /** The 32 bits of an integer, as an unsigned number (`as i32` then `as u32`). */
  function Low32(v: int): (u: nat)
    ensures u < U32
  {
    v % U32
  }

  /** 32 bits read as a signed integer. */
  function Signed(u: nat): (v: int)
    requires u < U32
    ensures -0x8000_0000 <= v < 0x8000_0000
  {
    if u < 0x8000_0000 then u else u - U32
  }

  function ToLe(v: int): (b: seq<byte>)
    ensures |b| == 4
  {
    var u := Low32(v);
    [u % 256, u / 256 % 256, u / 65536 % 256, u / 16777216]
  }

  function FromLe(b: seq<byte>): (v: Token)
    requires |b| == 4
  {
    Signed(b[0] as int + 256 * (b[1] as int) + 65536 * (b[2] as int) + 16777216 * (b[3] as int))
  }

  /** Four bytes carry an integer modulo 2^32. */
  lemma LeRoundTrip(v: int)
    ensures FromLe(ToLe(v)) == Signed(Low32(v))
    ensures -0x8000_0000 <= v < 0x8000_0000 ==> FromLe(ToLe(v)) == v
  {
    var u := Low32(v);
    var a, b, c := u / 256, u / 65536, u / 16777216;
    assert b == a / 256 && c == b / 256;
  }

  /** And an integer its four bytes. */
  lemma LeBack(b: seq<byte>)
    requires |b| == 4
    ensures ToLe(FromLe(b)) == b
  {
    hide Low32, Signed;
    var u := b[0] as int + 256 * (b[1] as int) + 65536 * (b[2] as int) + 16777216 * (b[3] as int);
    LowSigned(u);
    LeDigits(b[0], b[1], b[2], b[3]);
  }

  lemma LowSigned(u: nat)
    requires u < U32
    ensures Low32(Signed(u)) == u
  {
  }

  lemma LeDigits(a: byte, b: byte, c: byte, d: byte)
    ensures var u := a + 256 * b + 65536 * c + 16777216 * d;
            u % 256 == a && u / 256 % 256 == b && u / 65536 % 256 == c && u / 16777216 == d
  {
    var u := a + 256 * b + 65536 * c + 16777216 * d;
    assert u / 256 == b + 256 * c + 65536 * d;
    assert u / 65536 == c + 256 * d;
  }

  /** The bits 8i to 8i + 7. */
  function Digit(v: int, i: nat): byte {
    Low32(v) / Pow2(8 * i) % 256
  }

  /** Byte `i` carries the bits 8i to 8i + 7. */
  predicate Spells(b: seq<byte>, v: int) {
    |b| == 4 && forall i :: 0 <= i < 4 ==> b[i] == Digit(v, i)
  }

  lemma Digits(v: int)
    ensures var u := Low32(v);
            Digit(v, 0) == u % 256 && Digit(v, 1) == u / 256 % 256 && Digit(v, 2) == u / 65536 % 256
            && Digit(v, 3) == u / 16777216
  {
    assert Pow2(8 * 0) == 1 && Pow2(8 * 1) == 256 && Pow2(8 * 2) == 65536 && Pow2(8 * 3) == 16777216;
  }

  /** An integer's bytes are its digits, the lowest first. */
  lemma ToLeSpells(v: int)
    ensures Spells(ToLe(v), v)
  {
    Digits(v);
    hide Digit, Low32;
    var b := ToLe(v);
    forall i | 0 <= i < 4
      ensures b[i] == Digit(v, i)
    {
      if i == 0 {} else if i == 1 {} else if i == 2 {} else { assert i == 3; }
    }
  }

  /** Four bytes read as `v` exactly if they are its digits. */
  lemma FromLeSpells(b: seq<byte>, v: Token)
    requires |b| == 4
    ensures Spells(b, v) <==> FromLe(b) == v
  {
    var u := FromLe(b);
    LeBack(b);
    ToLeSpells(u);
    if Spells(b, v) {
      ToLeSpells(v);
      assert ToLe(v) == b by { hide Digit, ToLe; assert forall i :: 0 <= i < 4 ==> ToLe(v)[i] == Digit(v, i); }
      LeRoundTrip(v);
    }
  }

  /** The bytes determine the 32 bits. */
  lemma SpellsOnce(b: seq<byte>, v: int, w: int)
    requires Spells(b, v) && Spells(b, w)
    ensures Low32(v) == Low32(w)
  {
    SpellsSigned(b, v);
    SpellsSigned(b, w);
    LowSigned(Low32(v));
    LowSigned(Low32(w));
  }

  lemma LowFits(v: Token, w: int)
    requires Low32(v) == Low32(w)
    ensures v == w <==> -0x8000_0000 <= w < 0x8000_0000
  {
  }

  lemma SpellsSigned(b: seq<byte>, v: int)
    requires Spells(b, v)
    ensures FromLe(b) == Signed(Low32(v))
  {
    LowSigned(Low32(v));
    SpellsLow(b, v, Signed(Low32(v)));
    FromLeSpells(b, Signed(Low32(v)));
  }

  lemma SpellsLow(b: seq<byte>, v: int, w: int)
    requires Low32(v) == Low32(w)
    ensures Spells(b, v) <==> Spells(b, w)
  {
    hide Low32;
  }

  /** The words of bytes, a last one cut short left off. */
  ghost predicate Spelled(b: seq<byte>, w: seq<Token>) {
    |w| == |b| / 4 && forall i :: 0 <= i < |w| ==> Spells(b[4 * i..4 * i + 4], w[i])
  }

  function TokenBytes(ts: seq<Token>): (b: seq<byte>)
    ensures |b| == 4 * |ts|
  {
    if ts == [] then [] else ToLe(ts[0]) + TokenBytes(ts[1..])
  }

  /** Whole groups of four bytes; a shorter rest is dropped. */
  function BytesTokens(b: seq<byte>): seq<Token> {
    if |b| < 4 then [] else [FromLe(b[..4])] + BytesTokens(b[4..])
  }

  lemma {:induction false} TokensRoundTrip(ts: seq<Token>)
    ensures BytesTokens(TokenBytes(ts)) == ts
  {
    hide FromLe, ToLe, Low32, Signed;
    if ts != [] {
      LeRoundTrip(ts[0]);
      TokensRoundTrip(ts[1..]);
      var b := TokenBytes(ts);
      assert b[..4] == ToLe(ts[0]) && b[4..] == TokenBytes(ts[1..]);
    }
  }

  /** What is left of a last word is no word. */
  lemma {:induction false} TornTail(ts: seq<Token>, rest: seq<byte>)
    requires |rest| < 4
    ensures BytesTokens(TokenBytes(ts) + rest) == ts
  {
    hide FromLe, ToLe, Low32, Signed;
    if ts == [] {
      assert TokenBytes(ts) + rest == rest;
    } else {
      LeRoundTrip(ts[0]);
      TornTail(ts[1..], rest);
      var b := TokenBytes(ts) + rest;
      assert b[..4] == ToLe(ts[0]) && b[4..] == TokenBytes(ts[1..]) + rest;
    }
  }

  /** Reading whole words reads what the bytes spell, and nothing else is spelled. */
  lemma {:induction false} BytesSpell(b: seq<byte>, w: seq<Token>)
    ensures Spelled(b, w) <==> w == BytesTokens(b)
  {
    hide Spells, FromLe;
    if |b| >= 4 && w != [] {
      BytesSpell(b[4..], w[1..]);
      SpelledRest(b, w);
      FromLeSpells(b[..4], w[0]);
      assert w == [w[0]] + w[1..];
    }
  }

  lemma SpelledRest(b: seq<byte>, w: seq<Token>)
    requires |b| >= 4 && w != []
    ensures Spelled(b, w) <==> Spells(b[..4], w[0]) && Spelled(b[4..], w[1..])
  {
    hide Spells;
    assert |b[4..]| / 4 == |b| / 4 - 1;
    forall i: nat | i < |b| / 4 - 1
      ensures b[4..][4 * i..4 * i + 4] == b[4 * (i + 1)..4 * (i + 1) + 4]
    {
    }
    if Spelled(b, w) {
      assert b[4 * 0..4 * 0 + 4] == b[..4];
      forall i | 0 <= i < |w[1..]|
        ensures Spells(b[4..][4 * i..4 * i + 4], w[1..][i])
      {
        assert Spells(b[4 * (i + 1)..4 * (i + 1) + 4], w[i + 1]);
      }
    }
    if Spells(b[..4], w[0]) && Spelled(b[4..], w[1..]) {
      forall i | 0 <= i < |w|
        ensures Spells(b[4 * i..4 * i + 4], w[i])
      {
        if i == 0 {
          assert b[4 * 0..4 * 0 + 4] == b[..4];
        } else {
          assert Spells(b[4..][4 * (i - 1)..4 * (i - 1) + 4], w[1..][i - 1]);
          assert b[4..][4 * (i - 1)..4 * (i - 1) + 4] == b[4 * i..4 * i + 4];
        }
      }
    }
  }
}
