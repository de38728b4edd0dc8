/** The seed hash: FNV-1a over the four low bytes of seven numbers, in a fixed order. */
module Seed {
  import opened Numbers
  import opened Sim
  import opened Clamping
  import Rarity

  const TWO32: int := 4294967296
  datatype BurnSeed = BurnSeed(tierIndex: int, amountCents: int, timestampMs: int, telemetry: Telemetry)

  // ---- ToUint32 --------------------------------------------------------------------------

  /** ECMAScript's ToUint32: truncate towards zero, then wrap modulo 2^32; zero for the rest. */
  function ToUint32(v: Num): (r: int)
    ensures 0 <= r < TWO32
  {
    if v.Finite? then Trunc(v.v) % TWO32 else 0
  }

  lemma ToUint32Wraps(n: int, k: int)
    ensures ToUint32(Finite((n + k * TWO32) as real)) == ToUint32(Finite(n as real))
  {
    assert Trunc((n + k * TWO32) as real) == n + k * TWO32;
    assert Trunc(n as real) == n;
    ModWraps(n, k, TWO32);
  }

  lemma ModWraps(n: int, k: int, m: int)
    requires m > 0
    ensures (n + k * m) % m == n % m
  {
    var q, r := n / m, n % m;
    assert n + k * m == (q + k) * m + r;
    ModUnique(n + k * m, q + k, r, m);
  }

  lemma ModUnique(x: int, q: int, r: int, m: int)
    requires m > 0 && x == q * m + r && 0 <= r < m
    ensures x % m == r
  {
    var q', r' := x / m, x % m;
    assert x == q' * m + r';
    assert (q - q') * m == r' - r;
    SmallMultiple(q - q', m);
  }

  lemma SmallMultiple(k: int, m: int)
    requires m > 0 && -m < k * m < m
    ensures k == 0
  {
  }

  // ---- the parts -------------------------------------------------------------------------

  type Octet = b: int | 0 <= b < 256

  /** The seven numbers, each reduced to 32 bits. */
  function Parts(s: BurnSeed): (p: seq<int>)
    ensures |p| == 7 && forall i :: 0 <= i < 7 ==> 0 <= p[i] < TWO32
  {
    [ ToUint32(Finite(s.tierIndex as real)),
      ToUint32(Finite(s.amountCents as real)),
      ToUint32(Finite(s.timestampMs as real)),
      ToUint32(Finite(s.telemetry.dropletsLanded)),
      ToUint32(Finite(Round(s.telemetry.peakVelocity) as real)),
      ToUint32(Finite(Round(s.telemetry.tiltEnergy * 1000.0) as real)),
      ToUint32(Finite(s.telemetry.holdMs)) ]
  }

  /** Byte b of a part, lowest first. */
  function Byte(p: int, b: nat): Octet
    requires 0 <= p < TWO32 && b < 4
  {
    p / [1, 256, 65536, 16777216][b] % 256
  }

  /** The bytes of the parts in the order the loops visit them. */
  function Bytes(parts: seq<int>): (r: seq<Octet>)
    requires forall i :: 0 <= i < |parts| ==> 0 <= parts[i] < TWO32
    ensures |r| == 4 * |parts|
  {
    if parts == [] then []
    else
      var n := |parts| - 1;
      Bytes(parts[..n]) + [Byte(parts[n], 0), Byte(parts[n], 1), Byte(parts[n], 2), Byte(parts[n], 3)]
  }

  // ---- folding bytes into a state, in general ---------------------------------------------

  function FoldAll<S, B>(step: (S, B) -> S, s0: S, bytes: seq<B>): S
  {
    if bytes == [] then s0 else step(FoldAll(step, s0, bytes[..|bytes| - 1]), bytes[|bytes| - 1])
  }

  /** A step that loses neither the state nor the byte. */
  ghost predicate Lossless<S(!new), B(!new)>(step: (S, B) -> S)
  {
    && (forall s, t, b :: step(s, b) == step(t, b) ==> s == t)
    && (forall s, b, c :: step(s, b) == step(s, c) ==> b == c)
  }

  /** Byte strings that differ in exactly one place leave different states behind. */
  lemma {:induction false} OneByteMatters<S(!new), B(!new)>(step: (S, B) -> S, s0: S, p: seq<B>, q: seq<B>, k: nat)
    requires Lossless(step)
    requires |p| == |q| && k < |p| && p[k] != q[k]
    requires forall i :: 0 <= i < |p| && i != k ==> p[i] == q[i]
    ensures FoldAll(step, s0, p) != FoldAll(step, s0, q)
  {
    var n := |p| - 1;
    if k == n {
      assert p[..n] == q[..n];
    } else {
      OneByteMatters(step, s0, p[..n], q[..n], k);
      assert p[n] == q[n];
    }
  }

  // ---- 32-bit words ----------------------------------------------------------------------

  type Word = x: int | 0 <= x < TWO32

  function Pow2(n: nat): (r: int)
    ensures r > 0
  {
    if n == 0 then 1 else 2 * Pow2(n - 1)
  }

  function XorBit(x: int, y: int): int { if x == y then 0 else 1 }

  /** Exclusive or of the low n bits, bit by bit. */
  function XorBits(a: int, b: int, n: nat): (r: int)
    requires a >= 0 && b >= 0
    ensures 0 <= r < Pow2(n)
  {
    if n == 0 then 0 else 2 * XorBits(a / 2, b / 2, n - 1) + XorBit(a % 2, b % 2)
  }

  lemma Pow32()
    ensures Pow2(32) == TWO32
  {
    assert Pow2(8) == 256;
    assert Pow2(16) == 65536;
    assert Pow2(24) == 16777216;
  }

  function Xor(a: Word, b: Word): Word
  {
    Pow32();
    XorBits(a, b, 32)
  }

  lemma XorHalves(p: int, x: int, q: int, y: int, n: nat)
    requires p >= 0 && q >= 0 && 0 <= x < 2 && 0 <= y < 2
    ensures XorBits(2 * p + x, 2 * q + y, n + 1) == 2 * XorBits(p, q, n) + XorBit(x, y)
  {
    var a, b := 2 * p + x, 2 * q + y;
    assert a / 2 == p && a % 2 == x && b / 2 == q && b % 2 == y;
  }

  /** Undoing one more bit. */
  lemma XorStepUndone(p: int, x: int, q: int, y: int, n: nat)
    requires p >= 0 && q >= 0 && 0 <= x < 2 && 0 <= y < 2
    requires XorBits(XorBits(p, q, n), q, n) == p && XorBits(p, XorBits(p, q, n), n) == q
    ensures var a, b := 2 * p + x, 2 * q + y;
      XorBits(XorBits(a, b, n + 1), b, n + 1) == a && XorBits(a, XorBits(a, b, n + 1), n + 1) == b
  {
    var r, z := XorBits(p, q, n), XorBit(x, y);
    XorHalves(p, x, q, y, n);
    XorHalves(r, z, q, y, n);
    XorHalves(p, x, r, z, n);
  }

  lemma {:induction false} XorBitsUndone(a: int, b: int, n: nat)
    requires 0 <= a < Pow2(n) && 0 <= b < Pow2(n)
    ensures XorBits(XorBits(a, b, n), b, n) == a && XorBits(a, XorBits(a, b, n), n) == b
  {
    if n > 0 {
      var p, x, q, y := a / 2, a % 2, b / 2, b % 2;
      assert a == 2 * p + x && b == 2 * q + y;
      XorBitsUndone(p, q, n - 1);
      XorStepUndone(p, x, q, y, n - 1);
    }
  }

  lemma XorUndone(a: Word, b: Word)
    ensures Xor(Xor(a, b), b) == a
    ensures Xor(a, Xor(a, b)) == b
  {
    Pow32();
    XorBitsUndone(a, b, 32);
  }

  /** A 32-bit multiplication, wrapping. */
  function Imul(a: Word, b: Word): Word { a * b % TWO32 }

  lemma ImulUndone(x: Word, p: Word, q: Word, k: int)
    requires p * q == 1 + k * TWO32
    ensures Imul(Imul(x, p), q) == x
  {
    var m, d := x * p % TWO32, x * p / TWO32;
    assert x * p == d * TWO32 + m;
    calc {
      m * q;
      (x * p - d * TWO32) * q;
      x * (p * q) - d * q * TWO32;
      x * (1 + k * TWO32) - d * q * TWO32;
      (x * k - d * q) * TWO32 + x;
    }
    ModUnique(m * q, x * k - d * q, x, TWO32);
  }

  // ---- FNV-1a ----------------------------------------------------------------------------

  const OFFSET_BASIS: Word := 0x811c9dc5
  const PRIME: Word := 0x01000193
  const PRIME_INVERSE: Word := 0x359c449b

  /** One byte: fold it in, then multiply by the prime. */
  function Fold(h: Word, byte: Octet): Word { Imul(Xor(h, byte), PRIME) }

  /** Undoes Fold. */
  function Unfold(h: Word, byte: Octet): Word { Xor(Imul(h, PRIME_INVERSE), byte) }

  /** PRIME_INVERSE is the inverse of the prime modulo 2^32. */
  lemma PrimeInverse(x: Word)
    ensures Imul(Imul(x, PRIME), PRIME_INVERSE) == x
    ensures Imul(Imul(x, PRIME_INVERSE), PRIME) == x
  {
    assert PRIME * PRIME_INVERSE == 1 + 3513497 * TWO32;
    ImulUndone(x, PRIME, PRIME_INVERSE, 3513497);
    ImulUndone(x, PRIME_INVERSE, PRIME, 3513497);
  }

  /** Every byte step is a bijection on the 32-bit state. */
  lemma FoldBijective(h: Word, byte: Octet)
    ensures Unfold(Fold(h, byte), byte) == h
    ensures Fold(Unfold(h, byte), byte) == h
  {
    PrimeInverse(Xor(h, byte));
    XorUndone(h, byte);
    XorUndone(Imul(h, PRIME_INVERSE), byte);
    PrimeInverse(h);
  }

  lemma FoldSeesByte(h: Word, b: Octet, c: Octet)
    ensures Fold(h, b) == Fold(h, c) ==> b == c
  {
    PrimeInverse(Xor(h, b));
    PrimeInverse(Xor(h, c));
    XorUndone(h, b);
    XorUndone(h, c);
  }

  lemma FoldLossless()
    ensures Lossless(Fold)
  {
    forall h: Word, g: Word, b: Octet | Fold(h, b) == Fold(g, b)
      ensures h == g
    {
      FoldBijective(h, b);
      FoldBijective(g, b);
    }
    forall h: Word, b: Octet, c: Octet | Fold(h, b) == Fold(h, c)
      ensures b == c
    {
      FoldSeesByte(h, b, c);
    }
  }

  function Fnv1a(bytes: seq<Octet>): Word { FoldAll(Fold, OFFSET_BASIS, bytes) }

  function HashOf(s: BurnSeed): Word { Fnv1a(Bytes(Parts(s))) }

  // ---- the client's loops ------------------------------------------------------------------

  /** A 32-bit pattern read as a signed number, as the client's bitwise operators return it. */
  function ToInt32(x: int): int
  {
    var r := x % TWO32;
    if r >= 0x80000000 then r - TWO32 else r
  }

  /** `x >>> 0`. */
  function Unsigned(x: int): Word { x % TWO32 }

  /** `a ^ b`. */
  function SignedXor(a: int, b: int): int { ToInt32(Xor(Unsigned(a), Unsigned(b))) }

  /** `Math.imul(a, b)`. */
  function SignedImul(a: int, b: int): int { ToInt32(Unsigned(a) * Unsigned(b)) }

  /** `(p >>> (b * 8)) & 0xff`, on a part that is unsigned already. */
  function Shifted(p: int, b: nat): Octet
    requires 0 <= p
  {
    p / Pow2(8 * b) % 256
  }

  lemma ShiftedIsByte(p: int, b: nat)
    requires 0 <= p < TWO32 && b < 4
    ensures Shifted(p, b) == Byte(p, b)
  {
    assert Pow2(0) == 1 && Pow2(8) == 256;
    assert Pow2(16) == 65536;
    assert Pow2(24) == 16777216;
  }

  lemma UnsignedOfSigned(x: int)
    ensures Unsigned(ToInt32(x)) == x % TWO32
  {
    var r := x % TWO32;
    if r >= 0x80000000 {
      ModWraps(r, -1, TWO32);
    }
  }

  /** Signed detours and all, one turn of the client's inner loop is one byte step. */
  lemma SignedTurn(h: Word, byte: Octet)
    ensures Unsigned(SignedImul(Unsigned(SignedXor(h, byte)), PRIME)) == Fold(h, byte)
  {
    hide Xor;
    UnsignedOfSigned(Xor(h, byte));
    UnsignedOfSigned(Xor(h, byte) * PRIME);
  }

  /** hashSeed, with the signed 32-bit arithmetic the client's operators really do. */
  method HashSeed(s: BurnSeed) returns (h: Word)
    ensures h == HashOf(s)
  {
    var parts := Parts(s);
    h := OFFSET_BASIS;
    assert parts[..0] == [];
    for i := 0 to |parts|
      invariant h == Fnv1a(Bytes(parts[..i]))
    {
      h := FoldPart(h, parts[i], Bytes(parts[..i]));
      assert parts[..i + 1][..i] == parts[..i];
    }
    assert parts[..7] == parts;
    h := Unsigned(h);
  }

  /** The four bytes of a part. */
  function Quad(p: int): (q: seq<Octet>)
    requires 0 <= p < TWO32
    ensures |q| == 4
  {
    [Byte(p, 0), Byte(p, 1), Byte(p, 2), Byte(p, 3)]
  }

  /** The client's inner loop, over the four bytes of one part. */
  method FoldPart(h0: Word, p: int, ghost done: seq<Octet>) returns (h: Word)
    requires 0 <= p < TWO32 && h0 == Fnv1a(done)
    ensures h == Fnv1a(done + Quad(p))
  {
    hide Fold, Byte, Shifted, SignedXor, SignedImul, Unsigned, Fnv1a;
    h := h0;
    ghost var seen: seq<Octet> := done;
    for b := 0 to 4
      invariant h == Fnv1a(seen)
      invariant seen == done + Quad(p)[..b]
    {
      ShiftedIsByte(p, b);
      FnvSnoc(seen, Byte(p, b));
      SignedTurn(h, Byte(p, b));
      seen := seen + [Byte(p, b)];
      h := Unsigned(SignedXor(h, Shifted(p, b)));
      h := Unsigned(SignedImul(h, PRIME));
    }
    assert Quad(p)[..4] == Quad(p);
  }

  lemma FnvEmpty()
    ensures Fnv1a([]) == OFFSET_BASIS
  {
  }

  lemma FoldIs(h: Word, byte: Octet)
    ensures Fold(h, byte) == Xor(h, byte) * PRIME % TWO32
  {
  }

  lemma FnvSnoc(bytes: seq<Octet>, b: Octet)
    ensures Fnv1a(bytes + [b]) == Fold(Fnv1a(bytes), b)
  {
  }

  lemma {:induction false} BytesAt(parts: seq<int>, i: nat, b: nat)
    requires i < |parts| && b < 4 && forall j :: 0 <= j < |parts| ==> 0 <= parts[j] < TWO32
    ensures Bytes(parts)[4 * i + b] == Byte(parts[i], b)
  {
    var n := |parts| - 1;
    if i < n {
      BytesAt(parts[..n], i, b);
    }
  }

  /** Two seeds whose parts differ in exactly one byte of one part have different hashes. */
  lemma OnePartByteMatters(s: BurnSeed, t: BurnSeed, i: nat, b: nat)
    requires i < 7 && b < 4 && Byte(Parts(s)[i], b) != Byte(Parts(t)[i], b)
    requires forall j, c :: 0 <= j < 7 && 0 <= c < 4 && (j != i || c != b) ==> Byte(Parts(s)[j], c) == Byte(Parts(t)[j], c)
    ensures HashOf(s) != HashOf(t)
  {
    var ps, pt := Parts(s), Parts(t);
    var p: seq<Octet>, q: seq<Octet> := Bytes(ps), Bytes(pt);
    forall k | 0 <= k < 28
      ensures k == 4 * i + b ==> p[k] != q[k]
      ensures k != 4 * i + b ==> p[k] == q[k]
    {
      BytesAt(ps, k / 4, k % 4);
      BytesAt(pt, k / 4, k % 4);
      assert k == 4 * (k / 4) + k % 4;
    }
    FoldLossless();
    OneByteMatters(Fold, OFFSET_BASIS, p, q, 4 * i + b);
  }

  /** The start instant reaches the hash only modulo 2^32 milliseconds. */
  lemma TimestampWraps(s: BurnSeed, k: int)
    ensures HashOf(s.(timestampMs := s.timestampMs + k * TWO32)) == HashOf(s)
  {
    ToUint32Wraps(s.timestampMs, k);
    assert Parts(s.(timestampMs := s.timestampMs + k * TWO32)) == Parts(s);
  }

  // ---- the score reads no more than the hash does ------------------------------------------

  /** Clamped telemetry is far below the point where a 32-bit part would wrap. */
  lemma ClampedPartsFit(raw: Claim, tier: TierIndex, wallClockMs: real, root: Root)
    requires wallClockMs >= 0.0
    ensures var t := Clamp(raw, tier, wallClockMs, root).telemetry;
      && 0.0 <= t.dropletsLanded < TWO32 as real && 0.0 <= t.holdMs < TWO32 as real
      && 0 <= Round(t.peakVelocity) < TWO32 && 0 <= Round(t.tiltEnergy * 1000.0) < TWO32
  {
    var t := Clamp(raw, tier, wallClockMs, root).telemetry;
    ClampBounds(raw, tier, wallClockMs, root);
    CeilingsMonotone(tier, t.holdMs / 1000.0, 15.0, root);
    Rarity.HardStopCeilings(tier, root);
    RoundedFits(t.peakVelocity, 4000000.0);
    RoundedFits(t.tiltEnergy * 1000.0, 90000.0);
  }

  lemma RoundedFits(v: real, max: real)
    requires 0.0 <= v <= max <= 4000000.0
    ensures 0 <= Round(v) < TWO32
  {
  }

  /** For clamped telemetry the hashed parts determine the score. */
  lemma ScoreIsFunctionOfParts(raw1: Claim, raw2: Claim, s: BurnSeed, t: BurnSeed, tier: TierIndex,
                               w1: real, w2: real, root: Root)
    requires w1 >= 0.0 && w2 >= 0.0
    ensures (s.telemetry == Clamp(raw1, tier, w1, root).telemetry && t.telemetry == Clamp(raw2, tier, w2, root).telemetry
      && Parts(s) == Parts(t)) ==> Rarity.Score(s.telemetry, tier, root) == Rarity.Score(t.telemetry, tier, root)
  {
    hide Clamp, Parts;
    ClampedPartsFit(raw1, tier, w1, root);
    ClampedPartsFit(raw2, tier, w2, root);
    if s.telemetry == Clamp(raw1, tier, w1, root).telemetry && t.telemetry == Clamp(raw2, tier, w2, root).telemetry {
      PartsAreRounded(s);
      PartsAreRounded(t);
    }
  }

  lemma PartsAreRounded(s: BurnSeed)
    requires 0.0 <= s.telemetry.dropletsLanded < TWO32 as real && 0.0 <= s.telemetry.holdMs < TWO32 as real
    requires 0 <= Round(s.telemetry.peakVelocity) < TWO32 && 0 <= Round(s.telemetry.tiltEnergy * 1000.0) < TWO32
    ensures var p := Parts(s);
      Rarity.Round4(s.telemetry) == Rarity.Rounded(p[3], p[4], p[5], p[6])
  {
  }
}
