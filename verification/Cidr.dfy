// Integer ranges of IPv4 blocks.
// Models _fast_cidr_range of hunt/ip_blacklist.py; section 3.1 of RFC 4632 is the prefix notation.

module Cidr {
  import opened Wrappers
  import opened PyText

  function Pow2(n: nat): (p: nat)
    ensures p > 0
  {
    if n == 0 then 1 else 2 * Pow2(n - 1)
  }

  // ---- The bitwise operators of unbounded non-negative integers ----

  function BitAnd(a: nat, b: nat): nat {
    if a == 0 || b == 0 then 0
    else 2 * BitAnd(a / 2, b / 2) + if a % 2 == 1 && b % 2 == 1 then 1 else 0
  }

  function BitOr(a: nat, b: nat): nat
    decreases a + b
  {
    if a == 0 then b
    else if b == 0 then a
    else 2 * BitOr(a / 2, b / 2) + if a % 2 == 1 || b % 2 == 1 then 1 else 0
  }

  function ShiftLeft(a: nat, n: nat): nat {
    a * Pow2(n)
  }

  const ALL32: nat := 0xFFFF_FFFF

  /** `~a & 0xFFFFFFFF` for `a` within 32 bits. */
  function Complement32(a: nat): nat
    requires a <= ALL32
  {
    ALL32 - a
  }

  lemma {:induction false} OrDisjoint(a: nat, n: nat, b: nat)
    requires b < Pow2(n)
    ensures BitOr(a * Pow2(n), b) == a * Pow2(n) + b
    decreases n
  {
    if n > 0 && b > 0 && a > 0 {
      var p := Pow2(n - 1);
      assert a * Pow2(n) == 2 * (a * p);
      OrDisjoint(a, n - 1, b / 2);
      assert a * Pow2(n) / 2 == a * p && a * Pow2(n) % 2 == 0;
    }
  }

  /** Masking with n low ones keeps the remainder. */
  lemma {:induction false} AndLowOnes(v: nat, n: nat)
    ensures BitAnd(v, Pow2(n) - 1) == v % Pow2(n)
    decreases n
  {
    if n > 0 {
      AndLowOnes(v / 2, n - 1);
      ModHalve(v, Pow2(n - 1));
    }
  }

  /** Masking with ones at the positions n .. n + m clears the low n bits. */
  lemma {:induction false} AndHighOnes(v: nat, n: nat, m: nat)
    requires v < Pow2(n + m)
    ensures Pow2(n) <= Pow2(n + m) && BitAnd(v, Pow2(n + m) - Pow2(n)) == v - v % Pow2(n)
    decreases n + m
  {
    var mask := Pow2(n + m) - Pow2(n);
    if n > 0 {
      AndHighOnes(v / 2, n - 1, m);
      assert mask % 2 == 0 && mask / 2 == Pow2(n - 1 + m) - Pow2(n - 1);
      ModHalve(v, Pow2(n - 1));
      AndStep(v, mask);
    } else if m > 0 {
      AndHighOnes(v / 2, 0, m - 1);
      assert mask % 2 == 1 && mask / 2 == Pow2(m - 1) - Pow2(0);
      AndStep(v, mask);
    }
  }

  lemma AndStep(a: nat, b: nat)
    ensures BitAnd(a, b) == 2 * BitAnd(a / 2, b / 2) + if a % 2 == 1 && b % 2 == 1 then 1 else 0
  {
  }

  // ---- Division, without powers in sight ----

  lemma MulLe(a: int, b: int, p: nat)
    ensures a <= b ==> a * p <= b * p
  {
  }

  lemma DivideUnique(x: nat, p: nat, q: nat, r: nat)
    requires r < p && x == q * p + r
    ensures x / p == q && x % p == r
  {
    MulLe(x / p + 1, q, p);
    MulLe(q + 1, x / p, p);
    assert x == x / p * p + x % p;
  }

  lemma ModHalve(v: nat, p: nat)
    requires p > 0
    ensures v % (2 * p) == 2 * (v / 2 % p) + v % 2
  {
    var q, r := v / 2 / p, v / 2 % p;
    assert v / 2 == q * p + r;
    assert q * (2 * p) == 2 * (q * p);
    DivideUnique(v, 2 * p, q, 2 * r + v % 2);
  }

  /** The greatest multiple of `p` not above `a`. */
  function AlignDown(a: nat, p: nat): nat
    requires p > 0
  {
    a - a % p
  }

  lemma SameQuotient(x: nat, a: nat, p: nat)
    requires p > 0
    ensures AlignDown(a, p) <= x <= AlignDown(a, p) + p - 1 <==> x / p == a / p
  {
    var q := a / p;
    assert a == q * p + a % p && x == x / p * p + x % p;
    if q * p <= x <= q * p + p - 1 {
      DivideUnique(x, p, q, x - q * p);
    }
  }

  lemma FitsBelow(a: nat, p: nat, n: nat)
    requires p > 0 && a < n * p
    ensures AlignDown(a, p) + p <= n * p
    ensures AlignDown(a, p) % p == 0
  {
    var q := a / p;
    assert a == q * p + a % p;
    MulLe(n, q, p);
    MulLe(q + 1, n, p);
    DivideUnique(q * p, p, q, 0);
  }

  lemma Distribute(m: int, ratio: int, e: int, small: int)
    ensures (m * ratio + e) * small == m * (ratio * small) + e * small
  {
  }

  lemma SplitTwice(b: nat, small: nat, ratio: nat, k: nat, r: nat, m: nat, e: nat)
    requires b == k * small + r && r < small && k == m * ratio + e && e < ratio
    ensures b == m * (ratio * small) + (e * small + r) && 0 <= e * small + r < ratio * small
  {
    Distribute(m, ratio, e, small);
    MulLe(e + 1, ratio, small);
    MulLe(0, e, small);
  }

  /** Dividing by a product is dividing twice. */
  lemma DivideTwice(b: nat, small: nat, ratio: nat, big: nat)
    requires small > 0 && ratio > 0 && big == ratio * small
    ensures big > 0
    ensures b % big == b / small % ratio * small + b % small
  {
    var k, r := b / small, b % small;
    var m, e := k / ratio, k % ratio;
    assert b == k * small + r;
    SplitTwice(b, small, ratio, k, r, m, e);
    DivideUnique(b, big, m, e * small + r);
  }

  /** An aligned block of size `small` lies inside the aligned block of size `ratio * small`. */
  lemma FinerInside(b: nat, small: nat, ratio: nat, big: nat)
    requires small > 0 && ratio > 0 && big == ratio * small
    ensures big > 0 && AlignDown(b, big) <= AlignDown(b, small)
    ensures AlignDown(b, small) + small <= AlignDown(b, big) + big
  {
    DivideTwice(b, small, ratio, big);
    var e := b / small % ratio;
    MulLe(e + 1, ratio, small);
    MulLe(0, e, small);
  }

  // ---- Blocks ----

  function Size(plen: nat): nat
    requires plen <= 32
  {
    Pow2(32 - plen)
  }

  /** The first and last address of the aligned block of size 2^(32-plen) around `addr`. */
  function BlockLo(addr: nat, plen: nat): nat
    requires plen <= 32
  {
    AlignDown(addr, Size(plen))
  }

  function BlockHi(addr: nat, plen: nat): nat
    requires plen <= 32
  {
    BlockLo(addr, plen) + Size(plen) - 1
  }

  /** Sharing the first `plen` of 32 bits. */
  predicate SamePrefix(x: nat, y: nat, plen: nat)
    requires plen <= 32
  {
    x / Size(plen) == y / Size(plen)
  }

  lemma {:induction false} PowAdd(a: nat, b: nat)
    ensures Pow2(a + b) == Pow2(a) * Pow2(b)
  {
    if a > 0 {
      PowAdd(a - 1, b);
      assert 2 * Pow2(a - 1) * Pow2(b) == Pow2(a) * Pow2(b);
    }
  }

  lemma Pow32()
    ensures Pow2(32) == ALL32 + 1
  {
    assert Pow2(8) == 256;
    PowAdd(8, 8);
    PowAdd(16, 16);
  }

  /** A block holds exactly the addresses sharing the prefix. */
  lemma InBlock(x: nat, addr: nat, plen: nat)
    requires plen <= 32
    ensures BlockLo(addr, plen) <= x <= BlockHi(addr, plen) <==> SamePrefix(x, addr, plen)
  {
    SameQuotient(x, addr, Size(plen));
  }

  lemma BlockFits(addr: nat, plen: nat)
    requires plen <= 32 && addr <= ALL32
    ensures BlockLo(addr, plen) <= addr <= BlockHi(addr, plen) <= ALL32
    ensures BlockLo(addr, plen) % Size(plen) == 0
  {
    PowAdd(plen, 32 - plen);
    Pow32();
    FitsBelow(addr, Size(plen), Pow2(plen));
    InBlock(addr, addr, plen);
  }

  /** Two blocks are nested, the longer prefix inside the shorter one, or disjoint. */
  lemma NestedOrDisjoint(a: nat, p: nat, b: nat, q: nat)
    requires p <= q <= 32
    ensures if SamePrefix(a, b, p)
            then BlockLo(a, p) <= BlockLo(b, q) <= BlockHi(b, q) <= BlockHi(a, p)
            else BlockHi(b, q) < BlockLo(a, p) || BlockHi(a, p) < BlockLo(b, q)
  {
    PowAdd(q - p, 32 - q);
    FinerInside(b, Size(q), Pow2(q - p), Size(p));
    BlocksOfOneSize(a, b, Size(p));
  }

  lemma BlocksOfOneSize(a: nat, b: nat, p: nat)
    requires p > 0
    ensures if a / p == b / p then AlignDown(a, p) == AlignDown(b, p)
            else AlignDown(a, p) + p <= AlignDown(b, p) || AlignDown(b, p) + p <= AlignDown(a, p)
  {
    assert a == a / p * p + a % p && b == b / p * p + b % p;
    MulLe(a / p + 1, b / p, p);
    MulLe(b / p + 1, a / p, p);
  }

  // ---- The parser ----

  /** `Library` is what the fast parser leaves to the address library. */
  datatype RangeResult = Known(lo: nat, hi: nat) | Rejected | Library

  /** An octet of digits up to 255. */
  function OctetOf(s: string): Option<nat> {
    if s == "" || !AllDigits(s) then None
    else
      match ParseInt(s, 10)
      case Some(n) => if 0 <= n <= 255 then Some(n) else None
      case None => None
  }

  function AddressOf(octets: seq<string>): Option<nat> {
    if octets == [] then Some(0)
    else
      var init, last := AddressOf(octets[..|octets| - 1]), OctetOf(octets[|octets| - 1]);
      if init.Some? && last.Some? then Some(init.value * 256 + last.value) else None
  }

  function PrefixOf(text: string): Option<int> {
    if text == "" then Some(32) else ParseInt(text, 10)
  }

  /** The meaning of an entry, without bit operations. */
  function RangeOf(entry: string): RangeResult {
    var (ip, prefix) := Partition(entry, '/');
    var octets := SplitOn(ip, '.');
    if |octets| != 4 || PrefixOf(prefix).None? then Library
    else if !(0 <= PrefixOf(prefix).value <= 32) then Rejected
    else
      match AddressOf(octets)
      case None => Library
      case Some(a) => Known(BlockLo(a, PrefixOf(prefix).value), BlockHi(a, PrefixOf(prefix).value))
  }

  function Pow256(n: nat): nat {
    if n == 0 then 1 else 256 * Pow256(n - 1)
  }

  lemma {:induction false} AddressBound(octets: seq<string>)
    requires AddressOf(octets).Some?
    ensures AddressOf(octets).value < Pow256(|octets|)
    decreases |octets|
  {
    if octets != [] {
      AddressBound(octets[..|octets| - 1]);
    }
  }

  lemma {:induction false} AddressPrefix(octets: seq<string>, k: nat)
    requires k <= |octets| && AddressOf(octets[..k]).None?
    ensures AddressOf(octets).None?
    decreases |octets| - k
  {
    if k < |octets| {
      assert octets[..k + 1][..k] == octets[..k];
      AddressPrefix(octets, k + 1);
    } else {
      assert octets[..k] == octets;
    }
  }

  /** The low 32 bits of 32 ones shifted left: ones above the shift. */
  lemma ShiftedOnes(p: nat)
    requires 1 <= p <= ALL32 + 1
    ensures ALL32 * p % (ALL32 + 1) == ALL32 + 1 - p
  {
    DivideUnique(ALL32 * p, ALL32 + 1, p - 1, ALL32 + 1 - p);
  }

  function Mask(plen: nat): nat
    requires plen <= 32
  {
    BitAnd(ShiftLeft(ALL32, 32 - plen), ALL32)
  }

  lemma MaskValue(plen: nat)
    requires plen <= 32
    ensures Size(plen) <= ALL32 + 1 && Mask(plen) == ALL32 + 1 - Size(plen)
  {
    Pow32();
    PowAdd(plen, 32 - plen);
    MulLe(1, Pow2(plen), Size(plen));
    AndLowOnes(ALL32 * Size(plen), 32);
    ShiftedOnes(Size(plen));
  }

  lemma MaskedLow(v: nat, n: nat, m: nat, top: nat, mask: nat)
    requires top == Pow2(n + m) && v < top && mask + Pow2(n) == top
    ensures BitAnd(v, mask) == AlignDown(v, Pow2(n))
  {
    AndHighOnes(v, n, m);
  }

  lemma BlockOfMask(v: nat, plen: nat, mask: nat)
    requires plen <= 32 && v <= ALL32 && mask <= ALL32 && mask + Size(plen) == ALL32 + 1
    ensures BitAnd(v, mask) == BlockLo(v, plen)
    ensures BitOr(BlockLo(v, plen), Complement32(mask)) == BlockHi(v, plen)
  {
    Pow32();
    MaskedLow(v, 32 - plen, plen, ALL32 + 1, mask);
    OrAligned(v, 32 - plen);
  }

  /** The bit operations of the fast parser give the aligned block of the prefix. */
  lemma MaskedBlock(v: nat, plen: nat)
    requires plen <= 32 && v <= ALL32
    ensures Mask(plen) <= ALL32
    ensures BitAnd(v, Mask(plen)) == BlockLo(v, plen)
    ensures BitOr(BitAnd(v, Mask(plen)), Complement32(Mask(plen))) == BlockHi(v, plen)
  {
    MaskValue(plen);
    BlockOfMask(v, plen, Mask(plen));
  }

  lemma OrAligned(v: nat, n: nat)
    ensures BitOr(AlignDown(v, Pow2(n)), Pow2(n) - 1) == AlignDown(v, Pow2(n)) + Pow2(n) - 1
  {
    DivMod(v, Pow2(n));
    OrDisjoint(v / Pow2(n), n, Pow2(n) - 1);
  }

  lemma DivMod(v: nat, p: nat)
    requires p > 0
    ensures v / p * p == AlignDown(v, p)
  {
  }

  method FastCidrRange(entry: string) returns (r: RangeResult)
    ensures r == RangeOf(entry)
  {
    var (ip, prefix) := Partition(entry, '/');
    var octets := SplitOn(ip, '.');
    if |octets| != 4 {
      return Library;
    }
    var plen := PrefixOf(prefix);
    if plen.None? {
      return Library;
    }
    if !(0 <= plen.value <= 32) {
      return Rejected;
    }
    var val := 0;
    for i := 0 to 4
      invariant AddressOf(octets[..i]) == Some(val)
    {
      assert octets[..i + 1][..i] == octets[..i];
      var n := OctetOf(octets[i]);
      if n.None? {
        AddressPrefix(octets, i + 1);
        return Library;
      }
      assert Pow2(8) == 256;
      OrDisjoint(val, 8, n.value);
      val := BitOr(ShiftLeft(val, 8), n.value);
    }
    assert octets[..4] == octets;
    AddressBound(octets);
    assert Pow256(4) == ALL32 + 1;
    MaskedBlock(val, plen.value);
    var mask := Mask(plen.value);
    var lo := BitAnd(val, mask);
    return Known(lo, BitOr(lo, Complement32(mask)));
  }

  // ---- Rendering and reading back ----

  function Octets(addr: nat): (octets: seq<nat>)
    ensures |octets| == 4 && forall i :: 1 <= i < 4 ==> octets[i] < 256
  {
    [addr / 0x100_0000, addr / 0x1_0000 % 256, addr / 0x100 % 256, addr % 256]
  }

  function Dotted(addr: nat): string {
    var o := Octets(addr);
    Decimal(o[0]) + "." + (Decimal(o[1]) + "." + (Decimal(o[2]) + "." + Decimal(o[3])))
  }

  lemma OctetOfDecimal(n: nat)
    requires n <= 255
    ensures OctetOf(Decimal(n)) == Some(n)
  {
    ParseIntDecimal(n);
  }

  lemma NotIn(s: string, c: char)
    requires AllDigits(s) && !('0' <= c <= '9')
    ensures c !in s
  {
  }

  lemma SplitDotted(addr: nat)
    ensures var o := Octets(addr);
            SplitOn(Dotted(addr), '.') == [Decimal(o[0]), Decimal(o[1]), Decimal(o[2]), Decimal(o[3])]
  {
    var o := Octets(addr);
    var a, b, c, d := Decimal(o[0]), Decimal(o[1]), Decimal(o[2]), Decimal(o[3]);
    NotIn(a, '.');
    NotIn(b, '.');
    NotIn(c, '.');
    NotIn(d, '.');
    SplitNone(d, '.');
    SplitFirst(c, d, '.');
    SplitFirst(b, c + "." + d, '.');
    SplitFirst(a, b + "." + (c + "." + d), '.');
    assert c + "." + d == c + ['.'] + d;
    assert b + "." + (c + "." + d) == b + ['.'] + (c + "." + d);
    assert Dotted(addr) == a + ['.'] + (b + "." + (c + "." + d));
  }

  lemma NoSlash(addr: nat)
    ensures '/' !in Dotted(addr)
  {
    var o := Octets(addr);
    NotIn(Decimal(o[0]), '/');
    NotIn(Decimal(o[1]), '/');
    NotIn(Decimal(o[2]), '/');
    NotIn(Decimal(o[3]), '/');
  }

  lemma AddressOfDotted(addr: nat)
    requires addr <= ALL32
    ensures AddressOf(SplitOn(Dotted(addr), '.')) == Some(addr)
  {
    var o := Octets(addr);
    var a, b, c, d := Decimal(o[0]), Decimal(o[1]), Decimal(o[2]), Decimal(o[3]);
    SplitDotted(addr);
    OctetOfDecimal(o[0]);
    OctetOfDecimal(o[1]);
    OctetOfDecimal(o[2]);
    OctetOfDecimal(o[3]);
    FourOctets(a, b, c, d);
    RecombineOctets(addr);
  }

  lemma FourOctets(a: string, b: string, c: string, d: string)
    requires OctetOf(a).Some? && OctetOf(b).Some? && OctetOf(c).Some? && OctetOf(d).Some?
    ensures AddressOf([a, b, c, d]) ==
      Some(((OctetOf(a).value * 256 + OctetOf(b).value) * 256 + OctetOf(c).value) * 256 + OctetOf(d).value)
  {
    AddressSnoc([], a);
    assert [] + [a] == [a];
    AddressSnoc([a], b);
    assert [a] + [b] == [a, b];
    AddressSnoc([a, b], c);
    assert [a, b] + [c] == [a, b, c];
    AddressSnoc([a, b, c], d);
    assert [a, b, c] + [d] == [a, b, c, d];
  }

  lemma AddressSnoc(octets: seq<string>, last: string)
    requires AddressOf(octets).Some? && OctetOf(last).Some?
    ensures AddressOf(octets + [last]) == Some(AddressOf(octets).value * 256 + OctetOf(last).value)
  {
    assert (octets + [last])[..|octets|] == octets;
  }

  lemma TwoBytes(a: nat)
    ensures a / 256 / 256 == a / 0x1_0000
  {
  }

  lemma RecombineOctets(addr: nat)
    ensures var o := Octets(addr); ((o[0] * 256 + o[1]) * 256 + o[2]) * 256 + o[3] == addr
  {
    var b := addr / 256;
    TwoBytes(addr);
    TwoBytes(b);
    assert addr / 0x100_0000 == b / 256 / 256;
    assert addr / 0x1_0000 == b / 256;
    assert (b / 256 / 256 * 256 + b / 256 % 256) * 256 + b % 256 == b;
  }

  /** Every octet combination and prefix length: the entry reads back as its aligned block. */
  lemma ReadBack(addr: nat, plen: nat)
    requires addr <= ALL32 && plen <= 32
    ensures RangeOf(Dotted(addr)) == Known(addr, addr)
    ensures RangeOf(Dotted(addr) + "/" + Decimal(plen)) == Known(BlockLo(addr, plen), BlockHi(addr, plen))
  {
    NoSlash(addr);
    PartitionFirst(Dotted(addr), Decimal(plen), '/');
    SplitDotted(addr);
    AddressOfDotted(addr);
    ParseIntDecimal(plen);
    assert Pow2(0) == 1;
  }
}
