/** Addresses and prefixes as net/netip has them: an address is a number of its family's width. */
module Net {
  import opened Bytes

  datatype Family = V4 | V6

  datatype Addr = Addr(fam: Family, ip: nat)

  /** `bits` is -1 for a prefix netip calls invalid. */
  datatype Prefix = Prefix(fam: Family, ip: nat, bits: int)

  function BitLen(fam: Family): nat {
    if fam.V4? then 32 else 128
  }

  function ByteLen(fam: Family): nat {
    if fam.V4? then 4 else 16
  }

  function Pow2(n: nat): (m: nat)
    ensures m > 0
  {
    if n == 0 then 1 else 2 * Pow2(n - 1)
  }

  predicate GoodAddr(a: Addr) {
    a.ip < Span(ByteLen(a.fam))
  }

  function PrefixFrom(a: Addr, bits: int): Prefix {
    Prefix(a.fam, a.ip, if 0 <= bits <= BitLen(a.fam) then bits else -1)
  }

  predicate InRange(p: Prefix) {
    0 <= p.bits <= BitLen(p.fam) && p.ip < Span(ByteLen(p.fam))
  }

  /** The number of addresses in a prefix of this length. */
  function Width(fam: Family, bits: nat): (m: nat)
    requires bits <= BitLen(fam)
    ensures m > 0
  {
    Pow2(BitLen(fam) - bits)
  }

  /** The largest multiple of `w` up to `n`. */
  function Floor(n: nat, w: nat): nat
    requires w > 0
  {
    n - n % w
  }

  /** Prefix.Masked: the host bits cleared. */
  function Masked(p: Prefix): Prefix
    requires InRange(p)
  {
    p.(ip := Floor(p.ip, Width(p.fam, p.bits)))
  }

  predicate IsMasked(p: Prefix)
    requires InRange(p)
  {
    p.ip % Width(p.fam, p.bits) == 0
  }

  /** The first `bits` bits of the address and of the prefix agree. */
  predicate Covers(p: Prefix, a: Addr)
    requires InRange(p)
  {
    p.fam == a.fam && p.ip / Width(p.fam, p.bits) == a.ip / Width(p.fam, p.bits)
  }

  const MAPPED_FIRST: nat := 0xffff_0000_0000

  /** Addr.Unmap: an IPv4-mapped IPv6 address becomes the IPv4 address inside it. */
  function Unmap(a: Addr): Addr {
    if a.fam.V6? && MAPPED_FIRST <= a.ip < MAPPED_FIRST + 0x1_0000_0000
    then Addr(V4, a.ip - MAPPED_FIRST)
    else a
  }

  lemma UnmapGood(a: Addr)
    requires GoodAddr(a)
    ensures GoodAddr(Unmap(a))
  {
    SpanValues();
  }

  /** A prefix covers the addresses of its family from its own with the host bits cleared on, as many as there are
      ways to set them. */
  lemma CoversRange(p: Prefix, a: Addr)
    requires InRange(p)
    ensures var size := Pow2((if p.fam == V4 then 32 else 128) - p.bits);
            Covers(p, a) <==> p.fam == a.fam && p.ip - p.ip % size <= a.ip < p.ip - p.ip % size + size
  {
    SameBlock(p.ip, a.ip, Width(p.fam, p.bits));
  }

  lemma SameBlock(x: nat, y: nat, w: nat)
    requires w > 0
    ensures x / w == y / w <==> x - x % w <= y < x - x % w + w
  {
    Parts(x, w);
    Parts(y, w);
    if x - x % w <= y < x - x % w + w {
      QuotientUnique(y, w, x / w, y - (x - x % w));
    }
  }

  /** The longest prefixes cover one address; each bit less doubles what a prefix covers, up to all there are. */
  lemma Sizes()
    ensures Pow2(0) == 1 && (forall n: nat :: Pow2(n + 1) == Pow2(n) + Pow2(n))
    ensures Pow2(32) == 0x1_0000_0000 && Pow2(128) == 0x1_0000_0000_0000_0000_0000_0000_0000_0000
  {
    SpanIsPow2(4);
    SpanIsPow2(16);
    SpanValues();
  }

  lemma {:induction false} SpanIsPow2(k: nat)
    ensures Pow2(8 * k) == Span(k)
  {
    if k > 0 {
      SpanIsPow2(k - 1);
      Eightfold(8 * (k - 1));
    }
  }

  lemma Eightfold(n: nat)
    ensures Pow2(n + 8) == 256 * Pow2(n)
  {
    assert Pow2(n + 2) == 4 * Pow2(n);
    assert Pow2(n + 4) == 4 * Pow2(n + 2);
    assert Pow2(n + 6) == 4 * Pow2(n + 4);
  }

  /** Of the addresses of the newer family those that begin with eighty zero bits and sixteen ones stand for one of the
      older family, the rest of their bits; all others stand for themselves. */
  lemma UnmapMeans(a: Addr)
    ensures Unmap(a) == if a.fam == V6 && a.ip / 0x1_0000_0000 == 0xffff then Addr(V4, a.ip % 0x1_0000_0000) else a
  {
  }

  /** A masked prefix covers an address exactly when it is that address's own prefix of the length. */
  lemma CoversIffOwnPrefix(p: Prefix, a: Addr)
    requires InRange(p) && IsMasked(p) && GoodAddr(a) && p.fam == a.fam
    ensures InRange(PrefixFrom(a, p.bits))
    ensures Covers(p, a) <==> p == Masked(PrefixFrom(a, p.bits))
  {
    FloorIff(p.ip, a.ip, Width(p.fam, p.bits));
  }

  /** An address's own prefix of any length is masked and covers the address. */
  lemma OwnPrefixCovers(a: Addr, bits: nat)
    requires GoodAddr(a) && bits <= BitLen(a.fam)
    ensures var p := Masked(PrefixFrom(a, bits)); InRange(p) && IsMasked(p) && Covers(p, a)
  {
    var w := Width(a.fam, bits);
    FloorIsMultiple(a.ip, w);
    FloorIff(Floor(a.ip, w), a.ip, w);
  }

  lemma FloorIsMultiple(n: nat, w: nat)
    requires w > 0
    ensures Floor(n, w) % w == 0
  {
    Parts(n, w);
    QuotientUnique(Floor(n, w), w, n / w, 0);
  }

  lemma QuotientUnique(n: nat, w: nat, q: nat, r: nat)
    requires r < w && n == w * q + r
    ensures n / w == q && n % w == r
  {
    Parts(n, w);
    var d := n / w - q;
    assert w * d == w * (n / w) - w * q;
    NoSmallProduct(w, d);
  }

  lemma NoSmallProduct(w: nat, d: int)
    requires 0 - w < w * d < w
    ensures d == 0
  {
  }

  lemma FloorIff(x: nat, y: nat, w: nat)
    requires w > 0 && x % w == 0
    ensures x / w == y / w <==> x == Floor(y, w)
  {
    Parts(x, w);
    Parts(y, w);
    if x == Floor(y, w) {
      SameQuotient(w, x / w, y / w);
    }
  }

  lemma Parts(n: nat, w: nat)
    requires w > 0
    ensures n == w * (n / w) + n % w
  {
  }

  lemma SameQuotient(w: nat, x: nat, y: nat)
    requires w > 0 && w * x == w * y
    ensures x == y
  {
    assert w * (y - x) == w * y - w * x == 0;
    NoSmallProduct(w, y - x);
  }
}
