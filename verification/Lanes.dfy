/** 32-bit lanes and the 64-bit lanes pairs of them make. */
module Lanes {
  import opened Common

  const W32 := 0x1_0000_0000
  const W64 := 0x1_0000_0000_0000_0000

  type Lane = x: nat | x < W32
  type Qword = x: nat | x < W64

  function Join(hi: Lane, lo: Lane): Qword {
    hi * W32 + lo
  }

  // ---- 32-bit operations ----

  function Add(a: Lane, b: Lane): Lane {
    (a + b) % W32
  }

  function Sub(a: Lane, b: Lane): Lane {
    (a - b) % W32
  }

  /** The signed value of a lane. */
  function Signed32(a: Lane): int {
    if a < 0x8000_0000 then a else a - W32
  }

  /** Shifts by an immediate; counts of 32 or more empty the lane, or leave its sign. */
  function Sll(a: Lane, n: nat): Lane {
    if n >= 32 then 0 else (a * Pow2(n)) % W32
  }

  function Srl(a: Lane, n: nat): Lane {
    if n >= 32 then 0 else Quot(a, Pow2(n))
  }

  function Sra(a: Lane, n: nat): Lane {
    (Signed32(a) / Pow2(if n >= 32 then 31 else n)) % W32
  }

  function Quot(a: nat, p: nat): (q: nat)
    requires p >= 1
    ensures q <= a
  {
    DivLess(a, p);
    a / p
  }

  lemma DivLess(a: nat, p: nat)
    requires p >= 1
    ensures a / p <= a
  {
    assert a == p * (a / p) + a % p;
    assert p * (a / p) >= a / p by { MulMono(1, p, a / p); }
  }

  lemma MulMono(a: int, b: int, c: int)
    requires a <= b && 0 <= c
    ensures a * c <= b * c
  {
  }

  // ---- 64-bit operations ----

  function Add64(a: Qword, b: Qword): Qword {
    (a + b) % W64
  }

  function Sub64(a: Qword, b: Qword): Qword {
    (a - b) % W64
  }

  function Signed64(a: Qword): int {
    if a < 0x8000_0000_0000_0000 then a else a - W64
  }

  /** One wrap is all a sum or difference of reduced numbers needs. */
  lemma WrapOnce(x: int, m: int)
    requires m > 0 && -m <= x < 2 * m
    ensures x % m == if x < 0 then x + m else if x < m then x else x - m
  {
    var q, r := x / m, x % m;
    if q >= 2 { MulMono(2, q, m); }
    if q <= -2 { MulMono(q, -2, m); }
  }

  /** Add with the carry of the low halves. */
  lemma AddHalves(a: Lane, a': Lane, b: Lane, b': Lane)
    ensures var lo := Add(a, b);
            var hi := Add(a', b');
            Add64(Join(a', a), Join(b', b)) == Join(if lo < a then Add(hi, 1) else hi, lo)
  {
    WrapOnce(a + b, W32);
    WrapOnce(a' + b', W32);
    WrapOnce(Add(a', b') + 1, W32);
    WrapOnce(Join(a', a) + Join(b', b), W64);
  }

  /** Subtract with the borrow of the low halves. */
  lemma SubHalves(a: Lane, a': Lane, b: Lane, b': Lane)
    ensures var lo := Sub(a, b);
            var hi := Sub(a', b');
            Sub64(Join(a', a), Join(b', b)) == Join(if a < b then Sub(hi, 1) else hi, lo)
  {
    WrapOnce(a - b, W32);
    WrapOnce(a' - b', W32);
    WrapOnce(Sub(a', b') - 1, W32);
    WrapOnce(Join(a', a) - Join(b', b), W64);
  }

  lemma LessHalves(a: Lane, a': Lane, b: Lane, b': Lane)
    ensures Join(a', a) < Join(b', b) <==> a' < b' || (a' == b' && a < b)
    ensures Join(a', a) == Join(b', b) <==> a' == b' && a == b
    ensures Signed64(Join(a', a)) < Signed64(Join(b', b)) <==> Signed32(a') < Signed32(b') || (a' == b' && a < b)
  {
  }
}
