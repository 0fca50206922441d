/** The card's 16-bit masks and 64-bit general registers, bit by bit, and
    the bit arithmetic the sequences do on masks in a register. */
module Masks {

  /** Bit `l` of a mask selects lane `l`. */
  type Mask = s: seq<bool> | |s| == 16 witness seq(16, _ => false)

  type Reg = s: seq<bool> | |s| == 64 witness seq(64, _ => false)

  /** The number the bits from `i` up stand for. */
  function ValueFrom(bits: seq<bool>, i: nat): nat
    requires i <= |bits|
    decreases |bits| - i
  {
    if i == |bits| then 0 else (if bits[i] then 1 else 0) + 2 * ValueFrom(bits, i + 1)
  }

  function Value(bits: seq<bool>): nat {
    ValueFrom(bits, 0)
  }

  function And16(a: Mask, b: Mask): Mask
  {
    seq(16, l requires 0 <= l < 16 => a[l] && b[l])
  }

  function Or16(a: Mask, b: Mask): Mask
  {
    seq(16, l requires 0 <= l < 16 => a[l] || b[l])
  }

  function Not16(a: Mask): Mask
  {
    seq(16, l requires 0 <= l < 16 => !a[l])
  }

  // ---- masks given as numbers ----

  /** The low `n` lanes. */
  function Prefix(n: nat): Mask
  {
    seq(16, l => l < n)
  }

  function From(n: nat): Mask
  {
    seq(16, l => l >= n)
  }

  /** 0x5555 and 0xaaaa. */
  function Even(): Mask
  {
    seq(16, l => l % 2 == 0)
  }

  function Odd(): Mask
  {
    seq(16, l => l % 2 == 1)
  }

  /** 0x3333 and 0x0f0f. */
  function Pairs(): Mask {
    seq(16, l => l % 4 < 2)
  }

  function Quads(): Mask {
    seq(16, l => l % 8 < 4)
  }

  // ---- vector lengths ----

  /** Dword lanes of a vector length: 128 (0), 256 (1) or 512 (2) bits. */
  function Dwords(ll: nat): nat {
    if ll == 0 then 4 else if ll == 1 then 8 else 16
  }

  /** The lanes of a vector length field, dwords (w 0) or qwords (w 1); 8 for
      a field that is no length. */
  function VlCount(ll: nat, w: nat): nat {
    if ll > 2 then 8 else if w == 0 then Dwords(ll) else Dwords(ll) / 2
  }

  /** A length's lanes fill it: `ll` doubles 128 bits. */
  lemma LanesFill(ll: nat, w: nat)
    requires ll <= 2 && w < 2
    ensures var bits := if ll == 0 then 128 else if ll == 1 then 256 else 512;
            32 * Dwords(ll) == bits && VlCount(ll, w) * (if w == 0 then 32 else 64) == bits
  {
  }

  function VlLanes(ll: nat, w: nat): Mask {
    Prefix(VlCount(ll, w))
  }

  /** The lanes a narrow write must clear. */
  function Upper(ll: nat): Mask {
    From(Dwords(ll))
  }

  // ---- in a general register ----

  function Widen(m: Mask): Reg
  {
    seq(64, i requires 0 <= i < 64 => i < 16 && m[i])
  }

  function Narrow(r: Reg): Mask
  {
    r[..16]
  }

  lemma WidenBit(c: Mask, i: nat)
    requires i < 16
    ensures Widen(c)[i] == c[i]
  {
  }

  lemma NarrowWiden(m: Mask)
    ensures Narrow(Widen(m)) == m
  {
  }

  /** 32-bit register operations clear the upper half. */
  function Shl32(r: Reg, n: nat): Reg
  {
    seq(64, i requires 0 <= i < 64 => n <= i < 32 && r[i - n])
  }

  function Shr32(r: Reg, n: nat): Reg
  {
    seq(64, i requires 0 <= i < 64 => i + n < 32 && r[i + n])
  }

  function And32(a: Reg, b: Reg): Reg
  {
    seq(64, i requires 0 <= i < 64 => i < 32 && a[i] && b[i])
  }

  function Or32(a: Reg, b: Reg): Reg
  {
    seq(64, i requires 0 <= i < 64 => i < 32 && (a[i] || b[i]))
  }

  function Not32(a: Reg): Reg
  {
    seq(64, i requires 0 <= i < 64 => i < 32 && !a[i])
  }

  function Low32(a: Reg): Reg
  {
    seq(64, i requires 0 <= i < 64 => i < 32 && a[i])
  }

  /** `and eax, 0x5555; shl eax, 1`: each even bit moved up one. */
  function CarryUp(r: Reg): Reg {
    Shl32(And32(r, Widen(Even())), 1)
  }

  lemma CarryUpBit(c: Mask, l: nat)
    requires l < 16
    ensures Narrow(CarryUp(Widen(c)))[l] <==> l % 2 == 1 && c[l - 1]
  {
  }

  /** `mov ecx, eax; shr ecx, n; or eax, ecx; and eax, mask`. */
  function FoldDown(r: Reg, n: nat, mask: Mask): Reg {
    And32(Or32(r, Shr32(Low32(r), n)), Widen(mask))
  }

  /** `mov ecx, eax; shl ecx, n; or eax, ecx; and eax, mask`. */
  function FoldUp(r: Reg, n: nat, mask: Mask): Reg {
    And32(Or32(r, Shl32(Low32(r), n)), Widen(mask))
  }

  /** The even bits packed down, the rest zero. */
  function PackEven(r: Reg): Reg {
    FoldDown(FoldDown(FoldDown(And32(r, Widen(Even())), 1, Pairs()), 2, Quads()), 4, Prefix(8))
  }

  lemma FoldBit(r: Reg, n: nat, mask: Mask, i: nat)
    requires i < 16 && n <= 16
    ensures FoldDown(r, n, mask)[i] == ((r[i] || r[i + n]) && mask[i])
    ensures FoldUp(r, n, mask)[i] == ((r[i] || (n <= i && r[i - n])) && mask[i])
  {
  }

  lemma And32Bit(r: Reg, m: Mask, i: nat)
    requires i < 16
    ensures And32(r, Widen(m))[i] == (r[i] && m[i])
  {
  }

  lemma PackEvenBit(r: Reg, l: nat)
    requires l < 16
    ensures PackEven(r)[l] <==> l < 8 && r[2 * l]
  {
    hide FoldDown, FoldUp, And32, Widen;
    var a := And32(r, Widen(Even()));
    var b := FoldDown(a, 1, Pairs());
    var c := FoldDown(b, 2, Quads());
    FoldBit(c, 4, Prefix(8), l);
    if l < 8 {
      PackTwo(r, l);
      PackTwo(r, l + 4);
    }
  }

  /** After two steps: four bits packed in every eight. */
  lemma PackTwo(r: Reg, i: nat)
    requires i < 12
    ensures var c := FoldDown(FoldDown(And32(r, Widen(Even())), 1, Pairs()), 2, Quads());
            c[i] == (i % 8 < 4 && r[i / 8 * 8 + i % 8 * 2])
  {
    hide FoldDown, FoldUp, And32, Widen;
    FoldBit(FoldDown(And32(r, Widen(Even())), 1, Pairs()), 2, Quads(), i);
    PackOne(r, i);
    PackOne(r, i + 2);
  }

  /** After one step: two bits packed in every four. */
  lemma PackOne(r: Reg, i: nat)
    requires i < 15
    ensures FoldDown(And32(r, Widen(Even())), 1, Pairs())[i] == (i % 4 < 2 && r[i / 4 * 4 + i % 4 * 2])
  {
    hide FoldDown, FoldUp, And32, Widen;
    FoldBit(And32(r, Widen(Even())), 1, Pairs(), i);
    And32Bit(r, Even(), i);
    And32Bit(r, Even(), i + 1);
  }

  /** Pairs of bits, both taking the lower one's value. */
  function SpreadEven(r: Reg): Reg {
    var e := And32(r, Widen(Even()));
    Or32(e, Shl32(Low32(e), 1))
  }

  lemma SpreadEvenBit(r: Reg, l: nat)
    requires l < 16
    ensures SpreadEven(r)[l] <==> r[l / 2 * 2]
  {
    hide And32, Or32, Widen, Shl32, Low32;
    OrShlBit(And32(r, Widen(Even())), l);
    And32Bit(r, Even(), l);
    if l > 0 { And32Bit(r, Even(), l - 1); }
  }

  lemma OrShlBit(e: Reg, l: nat)
    requires l < 16
    ensures Or32(e, Shl32(Low32(e), 1))[l] == (e[l] || (l > 0 && e[l - 1]))
  {
  }

  /** Every bit of the low byte doubled, within `limit`. */
  function Spread(r: Reg, limit: Mask): Reg {
    FoldUp(FoldUp(FoldUp(FoldUp(And32(r, Widen(Prefix(8))), 4, Quads()), 2, Pairs()), 1, Even()), 1, limit)
  }

  lemma SpreadBit(r: Reg, limit: Mask, l: nat)
    requires l < 16
    ensures Spread(r, limit)[l] <==> r[l / 2] && limit[l]
  {
    hide FoldDown, FoldUp, And32, Widen;
    FoldBit(FoldUp(FoldUp(FoldUp(And32(r, Widen(Prefix(8))), 4, Quads()), 2, Pairs()), 1, Even()), 1, limit, l);
    SpreadThree(r, l);
    if l > 0 { SpreadThree(r, l - 1); }
  }

  lemma SpreadThree(r: Reg, i: nat)
    requires i < 16
    ensures FoldUp(FoldUp(FoldUp(And32(r, Widen(Prefix(8))), 4, Quads()), 2, Pairs()), 1, Even())[i]
            == (i % 2 == 0 && r[i / 2])
  {
    hide FoldDown, FoldUp, And32, Widen;
    FoldBit(FoldUp(FoldUp(And32(r, Widen(Prefix(8))), 4, Quads()), 2, Pairs()), 1, Even(), i);
    SpreadTwo(r, i);
    if i > 0 { SpreadTwo(r, i - 1); }
  }

  lemma SpreadTwo(r: Reg, i: nat)
    requires i < 16
    ensures FoldUp(FoldUp(And32(r, Widen(Prefix(8))), 4, Quads()), 2, Pairs())[i] == (i % 4 < 2 && r[i / 4 * 2 + i % 4])
  {
    hide FoldDown, FoldUp, And32, Widen;
    FoldBit(FoldUp(And32(r, Widen(Prefix(8))), 4, Quads()), 2, Pairs(), i);
    SpreadOne(r, i);
    if i > 1 { SpreadOne(r, i - 2); }
  }

  lemma SpreadOne(r: Reg, i: nat)
    requires i < 16
    ensures FoldUp(And32(r, Widen(Prefix(8))), 4, Quads())[i] == (i % 8 < 4 && r[i / 8 * 4 + i % 8])
  {
    hide FoldDown, FoldUp, And32, Widen;
    FoldBit(And32(r, Widen(Prefix(8))), 4, Quads(), i);
    And32Bit(r, Prefix(8), i);
    if i > 3 { And32Bit(r, Prefix(8), i - 4); }
  }
}
