/** What the seed hash is, on the numbers themselves: which byte of which field goes where, and FNV-1a by its published values. */
module SeedLayout {
  import opened Numbers
  import opened Clamping
  import opened Seed

  /** Four bytes from `at` on are a whole number's, lowest first; a negative one counts in two's complement. */
  predicate Little(bytes: seq<Octet>, at: nat, n: int)
    requires at + 4 <= |bytes|
  {
    && bytes[at] == n % 256 && bytes[at + 1] == n / 256 % 256
    && bytes[at + 2] == n / 65536 % 256 && bytes[at + 3] == n / 16777216 % 256
  }

  lemma QuotientUnique(x: int, p: int, k: int, r: int)
    requires p > 0 && x == k * p + r && 0 <= r < p
    ensures x / p == k
  {
    var q, t := x / p, x % p;
    assert x == q * p + t;
    assert (k - q) * p == t - r;
    SmallMultiple(k - q, p);
  }

  /** A byte of the low 32 bits, where p * m is 2^32 and m a multiple of 256. */
  lemma LowByte(n: int, p: int, m: int)
    requires p > 0 && p * (256 * m) == TWO32
    ensures n % TWO32 / p % 256 == n / p % 256
  {
    var q, w := n / TWO32, n % TWO32;
    var k, r := w / p, w % p;
    assert n == q * TWO32 + w && w == k * p + r;
    calc {
      n;
      q * (p * (256 * m)) + (k * p + r);
      (q * (256 * m) + k) * p + r;
    }
    QuotientUnique(n, p, q * (256 * m) + k, r);
    assert q * (256 * m) == q * m * 256;
    ModWraps(k, q * m, 256);
  }

  lemma LowWord(n: int)
    ensures var w := n % TWO32;
      && w % 256 == n % 256 && w / 256 % 256 == n / 256 % 256
      && w / 65536 % 256 == n / 65536 % 256 && w / 16777216 % 256 == n / 16777216 % 256
  {
    LowByte(n, 1, 16777216);
    LowByte(n, 256, 65536);
    LowByte(n, 65536, 256);
    LowByte(n, 16777216, 1);
    assert n % TWO32 / 1 == n % TWO32 && n / 1 == n;
  }

  lemma PartIsLittle(parts: seq<int>, i: nat, n: int)
    requires i < |parts| && forall j :: 0 <= j < |parts| ==> 0 <= parts[j] < TWO32
    requires parts[i] == n % TWO32
    ensures Little(Bytes(parts), 4 * i, n)
  {
    BytesAt(parts, i, 0);
    BytesAt(parts, i, 1);
    BytesAt(parts, i, 2);
    BytesAt(parts, i, 3);
    LowWord(n);
  }

  lemma WholePart(n: int)
    ensures ToUint32(Finite(n as real)) == n % TWO32
  {
    assert Trunc(n as real) == n;
  }

  /**
   * The 28 bytes that are hashed, by field: tier, price, start instant, whole droplets, rounded velocity,
   * rounded thousandths of tilt, whole milliseconds of hold.
   */
  lemma SeedBytes(s: BurnSeed) returns (bytes: seq<Octet>)
    ensures |bytes| == 28 && HashOf(s) == Fnv1a(bytes)
    ensures Little(bytes, 0, s.tierIndex) && Little(bytes, 4, s.amountCents) && Little(bytes, 8, s.timestampMs)
    ensures Little(bytes, 12, Trunc(s.telemetry.dropletsLanded))
    ensures Little(bytes, 16, (s.telemetry.peakVelocity + 0.5).Floor)
    ensures Little(bytes, 20, (1000.0 * s.telemetry.tiltEnergy + 0.5).Floor)
    ensures Little(bytes, 24, Trunc(s.telemetry.holdMs))
  {
    hide Little, Fnv1a, Bytes;
    var p := Parts(s);
    bytes := Bytes(p);
    WholePart(s.tierIndex);
    WholePart(s.amountCents);
    WholePart(s.timestampMs);
    WholePart(Round(s.telemetry.peakVelocity));
    WholePart(Round(s.telemetry.tiltEnergy * 1000.0));
    PartIsLittle(p, 0, s.tierIndex);
    PartIsLittle(p, 1, s.amountCents);
    PartIsLittle(p, 2, s.timestampMs);
    PartIsLittle(p, 3, Trunc(s.telemetry.dropletsLanded));
    PartIsLittle(p, 4, Round(s.telemetry.peakVelocity));
    PartIsLittle(p, 5, Round(s.telemetry.tiltEnergy * 1000.0));
    PartIsLittle(p, 6, Trunc(s.telemetry.holdMs));
  }

  /** The high bits and the low k bits of an exclusive or. */
  lemma {:induction false} XorSplit(a: int, b: int, n: nat, k: nat, p: int, c: int, d: int)
    requires a >= 0 && b >= 0 && p == Pow2(k) && c == a / p && d == b / p
    ensures c >= 0 && d >= 0 && XorBits(a, b, n + k) == p * XorBits(c, d, n) + XorBits(a, b, k)
  {
    if k > 0 {
      var q := Pow2(k - 1);
      assert p == 2 * q;
      hide XorBits, XorBit, Pow2;
      HalfQuotient(a, q);
      HalfQuotient(b, q);
      XorSplit(a / 2, b / 2, n, k - 1, q, c, d);
      XorFirst(a, b, n + k);
      XorFirst(a, b, k);
      Recombine(q, XorBits(c, d, n), XorBits(a / 2, b / 2, k - 1), XorBit(a % 2, b % 2));
    } else {
      assert p == 1 && c == a && d == b;
    }
  }

  lemma XorFirst(a: int, b: int, n: nat)
    requires a >= 0 && b >= 0 && n > 0
    ensures XorBits(a, b, n) == 2 * XorBits(a / 2, b / 2, n - 1) + XorBit(a % 2, b % 2)
  {
  }

  lemma Recombine(p: int, high: int, low: int, bit: int)
    ensures 2 * (p * high + low) + bit == (2 * p) * high + (2 * low + bit)
  {
  }

  lemma HalfQuotient(a: int, p: int)
    requires a >= 0 && p > 0
    ensures a / 2 / p == a / (2 * p)
  {
    var h, t := a / 2, a % 2;
    var q, r := h / p, h % p;
    assert a == q * (2 * p) + (2 * r + t);
    QuotientUnique(a, 2 * p, q, 2 * r + t);
  }

  lemma {:induction false} XorZero(a: int, n: nat)
    requires 0 <= a < Pow2(n)
    ensures XorBits(a, 0, n) == a
  {
    if n > 0 {
      XorZero(a / 2, n - 1);
    }
  }

  /** A byte only touches the low eight bits. */
  lemma XorByte(h: Word, b: Octet)
    ensures Xor(h, b) == h / 256 * 256 + XorBits(h, b, 8)
  {
    assert Pow2(8) == 256;
    assert Pow2(16) == 65536;
    assert Pow2(24) == 16777216;
    XorSplit(h, b, 24, 8, 256, h / 256, 0);
    XorZero(h / 256, 24);
  }

  /** A byte by its bits, highest first. */
  datatype Bits = Bits(b7: int, b6: int, b5: int, b4: int, b3: int, b2: int, b1: int, b0: int)
  {
    predicate Ok()
    {
      0 <= b7 < 2 && 0 <= b6 < 2 && 0 <= b5 < 2 && 0 <= b4 < 2 && 0 <= b3 < 2 && 0 <= b2 < 2 && 0 <= b1 < 2 && 0 <= b0 < 2
    }

    /** These bits below those of `high`. */
    function Below(high: int): int { Nibble(Nibble(high, b7, b6, b5, b4), b3, b2, b1, b0) }

    function Value(): int { Below(0) }
  }

  function EachBit(a: Bits, b: Bits): Bits
  {
    Bits(XorBit(a.b7, b.b7), XorBit(a.b6, b.b6), XorBit(a.b5, b.b5), XorBit(a.b4, b.b4),
         XorBit(a.b3, b.b3), XorBit(a.b2, b.b2), XorBit(a.b1, b.b1), XorBit(a.b0, b.b0))
  }

  /** The low eight bits of an exclusive or are those of the two bytes, one by one. */
  lemma XorOctet(high: nat, a: Bits, b: Bits)
    requires a.Ok() && b.Ok()
    ensures a.Below(high) >= 0 && b.Value() >= 0
    ensures XorBits(a.Below(high), b.Value(), 8) == EachBit(a, b).Value()
  {
    hide XorBits, XorBit, Nibble;
    XorNothing(high, 0);
    XorNibble(high, a.b7, a.b6, a.b5, a.b4, 0, b.b7, b.b6, b.b5, b.b4, 0);
    XorNibble(Nibble(high, a.b7, a.b6, a.b5, a.b4), a.b3, a.b2, a.b1, a.b0,
              Nibble(0, b.b7, b.b6, b.b5, b.b4), b.b3, b.b2, b.b1, b.b0, 4);
  }

  lemma BelowIs(a: Bits, high: int)
    ensures a.Below(high) == 256 * high + a.Value()
  {
  }

  function Nibble(p: int, x3: int, x2: int, x1: int, x0: int): int { 2 * (2 * (2 * (2 * p + x3) + x2) + x1) + x0 }

  lemma XorNibble(p: int, x3: int, x2: int, x1: int, x0: int, q: int, y3: int, y2: int, y1: int, y0: int, n: nat)
    requires p >= 0 && 0 <= x3 < 2 && 0 <= x2 < 2 && 0 <= x1 < 2 && 0 <= x0 < 2
    requires q >= 0 && 0 <= y3 < 2 && 0 <= y2 < 2 && 0 <= y1 < 2 && 0 <= y0 < 2
    ensures Nibble(p, x3, x2, x1, x0) >= 0 && Nibble(q, y3, y2, y1, y0) >= 0
    ensures XorBits(Nibble(p, x3, x2, x1, x0), Nibble(q, y3, y2, y1, y0), n + 4)
      == Nibble(XorBits(p, q, n), XorBit(x3, y3), XorBit(x2, y2), XorBit(x1, y1), XorBit(x0, y0))
  {
    hide XorBits, XorBit;
    XorHalves(p, x3, q, y3, n);
    XorHalves(2 * p + x3, x2, 2 * q + y3, y2, n + 1);
    XorHalves(2 * (2 * p + x3) + x2, x1, 2 * (2 * q + y3) + y2, y1, n + 2);
    XorHalves(2 * (2 * (2 * p + x3) + x2) + x1, x0, 2 * (2 * (2 * q + y3) + y2) + y1, y0, n + 3);
  }

  lemma XorNothing(a: nat, b: nat)
    ensures XorBits(a, b, 0) == 0
  {
  }

  /** One byte b more: the state h ends in the bits of `low`, y is their exclusive or, and r its product with the prime. */
  lemma Turned(seen: seq<Octet>, h: Word, low: Bits, b: Bits, y: int, r: Word)
    requires low.Ok() && b.Ok() && 0 <= b.Value() < 256 && Fnv1a(seen) == h && h % 256 == low.Value()
    requires y == h / 256 * 256 + EachBit(low, b).Value() && y * 16777619 % 4294967296 == r
    ensures Fnv1a(seen + [b.Value()]) == r
  {
    hide Fnv1a, XorBits, EachBit, Fold, Bits.Value, Bits.Below;
    BelowIs(low, h / 256);
    XorOctet(h / 256, low, b);
    XorByte(h, b.Value());
    FnvSnoc(seen, b.Value());
    FoldIs(h, b.Value());
  }

  lemma FnvOfA()
    ensures Fnv1a([0x61]) == 0xe40c292c
  {
    hide Fnv1a;
    FnvEmpty();
    var none: seq<Octet> := [];
    Turned(none, 0x811c9dc5, Bits(1, 1, 0, 0, 0, 1, 0, 1), Bits(0, 1, 1, 0, 0, 0, 0, 1), 0x811c9da4, 0xe40c292c);
    assert none + [0x61] == [0x61];
  }

  lemma FnvOfF()
    ensures Fnv1a([0x66]) == 0xe30c2799
  {
    hide Fnv1a;
    FnvEmpty();
    var none: seq<Octet> := [];
    Turned(none, 0x811c9dc5, Bits(1, 1, 0, 0, 0, 1, 0, 1), Bits(0, 1, 1, 0, 0, 1, 1, 0), 0x811c9da3, 0xe30c2799);
    assert none + [0x66] == [0x66];
  }

  lemma FnvOfFo()
    ensures Fnv1a([0x66, 0x6f]) == 0x6222e842
  {
    hide Fnv1a;
    FnvOfF();
    Turned([0x66], 0xe30c2799, Bits(1, 0, 0, 1, 1, 0, 0, 1), Bits(0, 1, 1, 0, 1, 1, 1, 1), 0xe30c27f6, 0x6222e842);
    assert [0x66] + [0x6f] == [0x66, 0x6f];
  }

  lemma FnvOfFoo()
    ensures Fnv1a([0x66, 0x6f, 0x6f]) == 0xa9f37ed7
  {
    hide Fnv1a;
    FnvOfFo();
    Turned([0x66, 0x6f], 0x6222e842, Bits(0, 1, 0, 0, 0, 0, 1, 0), Bits(0, 1, 1, 0, 1, 1, 1, 1), 0x6222e82d, 0xa9f37ed7);
    assert [0x66, 0x6f] + [0x6f] == [0x66, 0x6f, 0x6f];
  }

  lemma FnvOfFoob()
    ensures Fnv1a([0x66, 0x6f, 0x6f, 0x62]) == 0x3f5076ef
  {
    hide Fnv1a;
    FnvOfFoo();
    Turned([0x66, 0x6f, 0x6f], 0xa9f37ed7, Bits(1, 1, 0, 1, 0, 1, 1, 1), Bits(0, 1, 1, 0, 0, 0, 1, 0), 0xa9f37eb5, 0x3f5076ef);
    assert [0x66, 0x6f, 0x6f] + [0x62] == [0x66, 0x6f, 0x6f, 0x62];
  }

  lemma FnvOfFooba()
    ensures Fnv1a([0x66, 0x6f, 0x6f, 0x62, 0x61]) == 0x39aaa18a
  {
    hide Fnv1a;
    FnvOfFoob();
    Turned([0x66, 0x6f, 0x6f, 0x62], 0x3f5076ef, Bits(1, 1, 1, 0, 1, 1, 1, 1), Bits(0, 1, 1, 0, 0, 0, 0, 1), 0x3f50768e, 0x39aaa18a);
    assert [0x66, 0x6f, 0x6f, 0x62] + [0x61] == [0x66, 0x6f, 0x6f, 0x62, 0x61];
  }

  /** The published values of FNV-1a on the empty input, "a" and "foobar". */
  lemma PublishedValues()
    ensures Fnv1a([]) == 0x811c9dc5
    ensures Fnv1a([0x61]) == 0xe40c292c
    ensures Fnv1a([0x66, 0x6f, 0x6f, 0x62, 0x61, 0x72]) == 0xbf9cf968
  {
    hide Fnv1a;
    FnvEmpty();
    FnvOfA();
    FnvOfFooba();
    Turned([0x66, 0x6f, 0x6f, 0x62, 0x61], 0x39aaa18a, Bits(1, 0, 0, 0, 1, 0, 1, 0), Bits(0, 1, 1, 1, 0, 0, 1, 0), 0x39aaa1f8, 0xbf9cf968);
    assert [0x66, 0x6f, 0x6f, 0x62, 0x61] + [0x72] == [0x66, 0x6f, 0x6f, 0x62, 0x61, 0x72];
  }

  /** What reaches the hash of a number: its whole part modulo 2^32, and nothing of what is not a number. */
  lemma WordInNumbers(v: Num)
    ensures 0 <= ToUint32(v) < 4294967296
    ensures match v
      case Finite(x) =>
        var whole := if x < 0.0 then -((-x).Floor) else x.Floor;
        (whole - ToUint32(v)) % 4294967296 == 0
      case _ => ToUint32(v) == 0
  {
    if v.Finite? {
      var t := Trunc(v.v);
      assert t - t % TWO32 == t / TWO32 * TWO32;
      ModWraps(0, t / TWO32, TWO32);
    }
  }
}
