/** 64-bit shifts composed from 32-bit shifts of the two halves. */
module Shifts {
  import opened Common
  import opened Lanes

  // ---- bitwise operations ----

  datatype BoolOp = AndB | AndnB | OrB | XorB

  /** One bit of the result; `AndnB` complements its first operand. */
  function Eval(op: BoolOp, a: bool, b: bool): bool {
    match op
    case AndB => a && b
    case AndnB => !a && b
    case OrB => a || b
    case XorB => a != b
  }

  function BitOf(b: bool): nat { if b then 1 else 0 }

  /** The operation on the low `n` bits. */
  function Bitwise(op: BoolOp, a: nat, b: nat, n: nat): nat
    decreases n
  {
    if n == 0 then 0
    else BitOf(Eval(op, a % 2 == 1, b % 2 == 1)) + 2 * Bitwise(op, a / 2, b / 2, n - 1)
  }

  lemma {:induction false} BitwiseBound(op: BoolOp, a: nat, b: nat, n: nat)
    ensures Bitwise(op, a, b, n) < Pow2(n)
  {
    if n > 0 { BitwiseBound(op, a / 2, b / 2, n - 1); }
  }

  lemma HalfFirst(x: nat, p: nat)
    requires p >= 1
    ensures x / (2 * p) == x / 2 / p
  {
    var q, r := x / 2 / p, x / 2 % p;
    assert x / 2 == p * q + r;
    assert x == 2 * (p * q) + 2 * r + x % 2;
    MulAssoc(2, p, q);
    ModUnique(x, 2 * p, q, 2 * r + x % 2);
  }

  /** Bit `i` of the operation is the operation on bits `i`. */
  lemma {:induction false} BitwiseBit(op: BoolOp, a: nat, b: nat, n: nat, i: nat)
    requires i < n
    ensures Bitwise(op, a, b, n) / Pow2(i) % 2 == 1 <==> Eval(op, a / Pow2(i) % 2 == 1, b / Pow2(i) % 2 == 1)
    decreases n
  {
    if i > 0 {
      var p := Pow2(i - 1);
      BitwiseBit(op, a / 2, b / 2, n - 1, i - 1);
      assert Pow2(i) == 2 * p && Bitwise(op, a, b, n) / 2 == Bitwise(op, a / 2, b / 2, n - 1);
      hide Bitwise, Pow2;
      HalfFirst(Bitwise(op, a, b, n), p);
      HalfFirst(a, p);
      HalfFirst(b, p);
    }
  }

  lemma PowAdd(a: nat, b: nat)
    ensures Pow2(a) * Pow2(b) == Pow2(a + b)
  {
    if a > 0 {
      PowAdd(a - 1, b);
      assert Pow2(a) * Pow2(b) == 2 * (Pow2(a - 1) * Pow2(b)) by { MulAssoc(2, Pow2(a - 1), Pow2(b)); }
    }
  }

  lemma MulAssoc(a: int, b: int, c: int)
    ensures a * b * c == a * (b * c)
  {
  }

  lemma Pow32()
    ensures Pow2(32) == W32
  {
    assert Pow2(8) == 256;
    PowAdd(8, 8);
    PowAdd(16, 16);
    assert Pow2(16) == 65536;
  }

  function LaneOp(op: BoolOp, a: Lane, b: Lane): Lane {
    BitwiseBound(op, a, b, 32);
    Pow32();
    Bitwise(op, a, b, 32)
  }

  /** Or of bits that do not meet is their sum. */
  lemma {:induction false} OrDisjoint(x: nat, y: nat, k: nat, n: nat)
    requires k <= n && y < Pow2(k) && x < Pow2(n) && x % Pow2(k) == 0
    ensures Bitwise(OrB, x, y, n) == x + y
    decreases n
  {
    if n > 0 {
      if k == 0 {
        OrDisjoint(x / 2, 0, 0, n - 1);
      } else {
        HalveMultiple(x, Pow2(k - 1));
        OrDisjoint(x / 2, y / 2, k - 1, n - 1);
      }
    }
  }

  lemma HalveMultiple(x: nat, p: nat)
    requires p >= 1 && x % (2 * p) == 0
    ensures x % 2 == 0 && (x / 2) % p == 0
  {
    var q := x / (2 * p);
    assert x == 2 * p * q + x % (2 * p);
    MulAssoc(2, p, q);
    assert x == 2 * (p * q);
    ModUnique(p * q, p, q, 0);
  }

  lemma ModUnique(a: int, n: int, q: int, r: int)
    requires n > 0 && 0 <= r < n && a == n * q + r
    ensures a % n == r && a / n == q
  {
    var q', r' := a / n, a % n;
    assert a == n * q' + r';
    assert n * (q' - q) == r - r' by { MulSub(n, q', q); }
    if q' > q { MulMono(1, q' - q, n); }
    if q' < q { MulMono(q' - q, -1, n); }
  }

  lemma MulSub(n: int, a: int, b: int)
    ensures n * (a - b) == n * a - n * b
  {
  }

  // ---- the halves of a shift ----

  function Sll64(x: Qword, n: nat): Qword {
    if n >= 64 then 0 else (x * Pow2(n)) % W64
  }

  function Srl64(x: Qword, n: nat): Qword {
    if n >= 64 then 0 else Quot(x, Pow2(n))
  }

  function Sra64(x: Qword, n: nat): Qword {
    (Signed64(x) / Pow2(if n >= 64 then 63 else n)) % W64
  }

  /** A left shift keeps the low bits, moved up: `x p mod pq` is `(x mod q) p`. */
  lemma LeftPart(x: nat, p: nat, q: nat)
    requires p >= 1 && q >= 1
    ensures p * q >= 1 && (x * p) % (p * q) == (x % q) * p && (x * p) / (p * q) == x / q
  {
    var a, b := x / q, x % q;
    assert x == q * a + b;
    assert x * p == (p * q) * a + b * p by {
      assert x * p == (q * a) * p + b * p;
      assert (q * a) * p == (p * q) * a;
    }
    assert 0 <= b * p < q * p by { MulStrict(b, q, p); }
    assert p * q >= 1 by { MulMono(1, p, q); }
    ModUnique(x * p, p * q, a, b * p);
  }

  lemma MulStrict(a: int, b: int, c: int)
    requires 0 <= a < b && c >= 1
    ensures 0 <= a * c < b * c
  {
  }

  /** A multiple of `p` below `q p`, and a number below `p`, stay below `q p`. */
  lemma BelowProduct(h: nat, l: nat, p: nat, q: nat)
    requires h < q && l < p
    ensures h * p + l < p * q
  {
    MulMono(h, q - 1, p);
    assert (q - 1) * p == p * q - p;
  }

  lemma DivBelow(x: nat, p: nat, q: nat)
    requires p >= 1 && q >= 1 && x < p * q
    ensures x / q < p
  {
    assert x == q * (x / q) + x % q;
    if x / q >= p { MulMono(p, x / q, q); }
  }

  lemma {:induction false} OrComm(a: nat, b: nat, n: nat)
    ensures Bitwise(OrB, a, b, n) == Bitwise(OrB, b, a, n)
    decreases n
  {
    if n > 0 { OrComm(a / 2, b / 2, n - 1); }
  }

  /** Or of a left-shifted lane and the bits shifted into it. */
  lemma OrParts(h: nat, l: nat, k: nat, bits: nat)
    requires k <= bits && l < Pow2(k) && h < Pow2(bits - k)
    ensures h * Pow2(k) + l < Pow2(bits)
    ensures Bitwise(OrB, h * Pow2(k), l, bits) == h * Pow2(k) + l
    ensures Bitwise(OrB, l, h * Pow2(k), bits) == h * Pow2(k) + l
  {
    hide Bitwise, Pow2;
    PowAdd(k, bits - k);
    BelowProduct(h, l, Pow2(k), Pow2(bits - k));
    ModUnique(h * Pow2(k), Pow2(k), h, 0);
    OrDisjoint(h * Pow2(k), l, k, bits);
    OrComm(h * Pow2(k), l, bits);
  }

  /** A shifted lane in terms of what stays and what leaves. */
  lemma SllIs(x: Lane, n: nat)
    requires 0 < n < 32
    ensures Sll(x, n) == (x % Pow2(32 - n)) * Pow2(n) && x / Pow2(32 - n) < Pow2(n)
  {
    Pow32();
    PowAdd(n, 32 - n);
    LeftPart(x, Pow2(n), Pow2(32 - n));
    DivBelow(x, Pow2(n), Pow2(32 - n));
  }

  lemma SllHalves(hi: Lane, lo: Lane, n: nat)
    requires 0 < n < 32
    ensures Sll64(Join(hi, lo), n) == Join(LaneOp(OrB, Sll(hi, n), Srl(lo, 32 - n)), Sll(lo, n))
  {
    hide Bitwise, Pow2, Sll;
    SllIs(lo, n);
    SllIs(hi, n);
    OrParts(hi % Pow2(32 - n), lo / Pow2(32 - n), n, 32);
    Pow32();
    PowAdd(n, 32 - n);
    SllAlgebra(hi, lo, Pow2(n), Pow2(32 - n));
  }

  lemma SllAlgebra(hi: Lane, lo: Lane, p: nat, q: nat)
    requires p >= 1 && q >= 1 && p * q == W32
    ensures ((hi * W32 + lo) * p) % W64 == ((hi % q) * p + lo / q) * W32 + (lo % q) * p
  {
    SllSum(hi, lo, p, q);
    DivBelow(lo, p, q);
    BelowProduct(hi % q, lo / q, p, q);
    BelowProduct(lo % q, 0, p, q);
    var h, l, x := (hi % q) * p + lo / q, (lo % q) * p, (hi * W32 + lo) * p;
    assert h < W32 && l < W32 && x == W64 * (hi / q) + (h * W32 + l);
    TopUnique(x, hi / q, h, l);
  }

  lemma TopUnique(x: int, t: int, h: nat, l: nat)
    requires h < W32 && l < W32 && x == W64 * t + (h * W32 + l)
    ensures x % W64 == h * W32 + l
  {
    ModUnique(x, W64, t, h * W32 + l);
  }

  lemma SllSum(hi: nat, lo: nat, p: nat, q: nat)
    requires p >= 1 && q >= 1 && p * q == W32
    ensures (hi * W32 + lo) * p == W64 * (hi / q) + ((hi % q) * p + lo / q) * W32 + (lo % q) * p
  {
    LeftPart(lo, p, q);
    LeftPart(hi, p, q);
    assert hi * p == W32 * (hi / q) + (hi % q) * p;
    assert lo * p == W32 * (lo / q) + (lo % q) * p;
    assert (hi * W32 + lo) * p == (hi * p) * W32 + lo * p;
  }

  lemma SllHigh(hi: Lane, lo: Lane, n: nat)
    requires 32 <= n < 64
    ensures Sll64(Join(hi, lo), n) == Join(Sll(lo, n - 32), 0)
  {
    hide Pow2;
    var p := Pow2(n - 32);
    Pow32();
    PowAdd(32, n - 32);
    var c, r := (lo * p) / W32, (lo * p) % W32;
    assert lo * p == W32 * c + r;
    assert Pow2(n) == W32 * p;
    assert Join(hi, lo) * (W32 * p) == W64 * (hi * p + c) + r * W32 by {
      assert Join(hi, lo) * (W32 * p) == (hi * p) * W64 + (lo * p) * W32;
    }
    ModUnique(Join(hi, lo) * Pow2(n), W64, hi * p + c, r * W32);
  }

  lemma SrlHalves(hi: Lane, lo: Lane, n: nat)
    requires 0 < n < 32
    ensures Srl64(Join(hi, lo), n) == Join(Srl(hi, n), LaneOp(OrB, Srl(lo, n), Sll(hi, 32 - n)))
  {
    hide Bitwise, Pow2, Sll;
    LowLane(hi, lo, n);
    Pow32();
    PowAdd(n, 32 - n);
    var p, q := Pow2(n), Pow2(32 - n);
    SrlSum(hi, lo, p, q);
    ModUnique(Join(hi, lo), p, (hi / p) * W32 + (hi % p) * q + lo / p, lo % p);
  }

  /** The low lane of a right shift: its own bits moved down, the high
      lane's low bits above them. */
  lemma LowLane(hi: Lane, lo: Lane, n: nat)
    requires 0 < n < 32
    ensures LaneOp(OrB, Srl(lo, n), Sll(hi, 32 - n)) == (hi % Pow2(n)) * Pow2(32 - n) + lo / Pow2(n)
  {
    hide Bitwise, Pow2, Sll;
    SllIs(hi, 32 - n);
    SllIs(lo, 32 - n);
    OrParts(hi % Pow2(n), lo / Pow2(n), 32 - n, 32);
  }

  lemma SrlSum(hi: int, lo: int, p: nat, q: nat)
    requires p >= 1 && p * q == W32
    ensures hi * W32 + lo == p * ((hi / p) * W32 + (hi % p) * q + lo / p) + lo % p
  {
    var a, b, c := hi / p, hi % p, lo / p;
    assert hi == p * a + b && lo == p * c + lo % p;
    assert hi * W32 == p * (a * W32) + b * (p * q);
    assert b * (p * q) == p * (b * q);
    assert p * (a * W32 + b * q + c) == p * (a * W32) + p * (b * q) + p * c;
  }

  /** The whole low half and more shifted out: floor of the high half. */
  lemma FloorHigh(h: int, lo: Lane, p: nat)
    requires p >= 1
    ensures (h * W32 + lo) / (W32 * p) == h / p
  {
    var a, b := h / p, h % p;
    assert h == p * a + b;
    assert h * W32 + lo == (W32 * p) * a + (W32 * b + lo);
    assert W32 * b + lo < W32 * p by { MulMono(b, p - 1, W32); }
    ModUnique(h * W32 + lo, W32 * p, a, W32 * b + lo);
  }

  lemma SrlHigh(hi: Lane, lo: Lane, n: nat)
    requires 32 <= n < 64
    ensures Srl64(Join(hi, lo), n) == Join(0, Srl(hi, n - 32))
  {
    Pow32();
    PowAdd(32, n - 32);
    FloorHigh(hi, lo, Pow2(n - 32));
  }

  lemma SraHalves(hi: Lane, lo: Lane, n: nat)
    requires 0 < n < 32
    ensures Sra64(Join(hi, lo), n) == Join(Sra(hi, n), LaneOp(OrB, Srl(lo, n), Sll(hi, 32 - n)))
  {
    hide Bitwise, Pow2, Sll, Srl, LaneOp;
    LowLane(hi, lo, n);
    Pow32();
    PowAdd(n, 32 - n);
    var p, q, sh := Pow2(n), Pow2(32 - n), Signed32(hi);
    SignedMod(hi, p, q);
    SrlSum(sh, lo, p, q);
    var a, c := sh / p, (hi % p) * q + lo / p;
    ModUnique(sh * W32 + lo, p, a * W32 + c, lo % p);
    assert Signed64(Join(hi, lo)) == sh * W32 + lo;
    SignedJoin(a, c);
  }

  lemma SignedJoin(a: int, c: nat)
    requires c < W32
    ensures (a * W32 + c) % W64 == (a % W32) * W32 + c
  {
    var q, r := a / W32, a % W32;
    assert a == W32 * q + r;
    ModUnique(a * W32 + c, W64, q, r * W32 + c);
  }

  lemma SignedMod(hi: Lane, p: nat, q: nat)
    requires p >= 1 && p * q == W32
    ensures Signed32(hi) % p == hi % p
  {
    if hi >= 0x8000_0000 {
      var a := hi / p;
      assert hi == p * a + hi % p;
      MulSub(p, a, q);
      ModUnique(hi - W32, p, a - q, hi % p);
    }
  }

  /** The floor of a signed lane keeps its sign and stays a signed lane. */
  lemma SignedFloor(h: Lane, p: nat)
    requires p >= 1
    ensures var v := Signed32(h) / p;
            -0x8000_0000 <= v < 0x8000_0000 && (v < 0 <==> h >= 0x8000_0000)
  {
    var s := Signed32(h);
    var v := s / p;
    assert s == p * v + s % p;
    if v >= 0x8000_0000 { MulMono(1, p, v); }
    if v >= 0 { MulMono(0, v, p); } else { MulMono(v, -1, p); }
    if v < -0x8000_0000 {
      MulMono(v + 1, -0x8000_0000, p);
      MulMono(1, p, 0x8000_0000);
    }
  }

  lemma SignLane(h: Lane)
    ensures Sra(h, 31) == if h >= 0x8000_0000 then W32 - 1 else 0
  {
    Pow31();
  }

  lemma Pow31()
    ensures Pow2(31) == 0x8000_0000
  {
    Pow32();
    PowAdd(1, 31);
    assert Pow2(1) == 2;
  }

  lemma SraHigh(hi: Lane, lo: Lane, n: nat)
    requires 32 <= n
    ensures n < 64 ==> Sra64(Join(hi, lo), n) == Join(Sra(hi, 31), Sra(hi, n - 32))
    ensures n >= 64 ==> Sra64(Join(hi, lo), n) == Join(Sra(hi, 31), Sra(hi, 31))
  {
    var m := if n < 64 then n - 32 else 31;
    var p := Pow2(m);
    Pow32();
    PowAdd(32, m);
    SignLane(hi);
    FloorHigh(Signed32(hi), lo, p);
    SignedFloor(hi, p);
    assert Signed64(Join(hi, lo)) == Signed32(hi) * W32 + lo;
    var v := Signed32(hi) / p;
    WrapOnce(v, W32);
    WrapOnce(v, W64);
    assert Sra64(Join(hi, lo), n) == v % W64;
    assert Sra(hi, m) == v % W32;
  }
}
