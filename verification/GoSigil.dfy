/** The clamp, the score and the seed hash in the server's own arithmetic (the Go half), and why they agree with the client's. */
module GoSigil {
  import opened Numbers
  import opened Sim
  import opened Clamping
  import Rarity
  import Seed

  function ClampTierIndex(tierIndex: int): TierIndex
  {
    if tierIndex < 0 then 0 else if tierIndex >= TIER_COUNT then TIER_COUNT - 1 else tierIndex
  }

  /** The server's closure: not-finite first, then below zero, then the cap. */
  method Take(key: Field, value: Num, max: real, violations: seq<Field>) returns (kept: real, listed: seq<Field>)
    ensures kept == Min(Safe(value), max)
    ensures listed == violations + Overclaim(key, value, max)
  {
    var safe := 0.0;
    if value.Finite? {
      safe := value.v;
    }
    if safe < 0.0 {
      safe := 0.0;
    }
    listed := violations;
    if safe > max {
      listed := listed + [key];
    }
    kept := Min(safe, max);
  }

  /** ClampTelemetry meets the same specification as the client's clamp. */
  method ClampTelemetry(raw: Claim, tierIndex: int, wallClockMs: real, root: Root) returns (r: ClampResult)
    ensures r == Clamp(raw, Clamping.ClampTierIndex(Finite(tierIndex as real)), wallClockMs, root)
  {
    var violations: seq<Field> := [];
    var holdMs, dropletsLanded, peakVelocity, tiltEnergy;
    holdMs, violations := Take(HoldMs, raw.holdMs, Min(wallClockMs, MAX_POUR_MS), violations);
    var c := TelemetryCeilings(ClampTierIndex(tierIndex), holdMs / 1000.0, root);
    dropletsLanded, violations := Take(DropletsLanded, raw.dropletsLanded, c.maxDroplets as real, violations);
    peakVelocity, violations := Take(PeakVelocity, raw.peakVelocity, c.maxSpeed, violations);
    tiltEnergy, violations := Take(TiltEnergy, raw.tiltEnergy, c.maxTilt, violations);
    r := ClampResult(Telemetry(dropletsLanded, peakVelocity, tiltEnergy, holdMs), violations);
  }

  /** The server keeps its permilles and its score in floats. */
  function Permille(value: real, max: real): real
  {
    if max <= 0.0 then 0.0
    else
      var p := Floor(value * 1000.0 / max) as real;
      if p < 0.0 then 0.0 else if p > 1000.0 then 1000.0 else p
  }

  function RarityScore(t: Telemetry, tierIndex: int, root: Root): real
  {
    RoundedScore(Floor(t.dropletsLanded), Round(t.peakVelocity), Round(t.tiltEnergy * 1000.0), Floor(t.holdMs),
                 ClampTierIndex(tierIndex), root)
  }

  function RoundedScore(droplets: int, velocity: int, tiltMilli: int, holdMs: int, tier: TierIndex, root: Root): real
  {
    var c := TelemetryCeilings(tier, holdMs as real / 1000.0, root);
    var fill := Permille(droplets as real, c.maxDroplets as real);
    var force := Permille(velocity as real, Round(c.maxSpeed) as real);
    var commitment := Permille(holdMs as real, MAX_POUR_MS);
    var steadiness := 1000.0 - Permille(tiltMilli as real, Round(c.maxTilt * 1000.0) as real);
    WeightedScore(fill, force, commitment, steadiness, tier)
  }

  function Weighted(fill: real, force: real, commitment: real, steadiness: real): int
  {
    Floor((fill * 40.0 + force * 25.0 + commitment * 20.0 + steadiness * 15.0) / 100.0)
  }

  function Reached(base: real, tier: TierIndex): int
  {
    Floor(base * (50.0 + 10.0 * tier as real) / 100.0)
  }

  function WeightedScore(fill: real, force: real, commitment: real, steadiness: real, tier: TierIndex): real
  {
    Reached(Weighted(fill, force, commitment, steadiness) as real, tier) as real
  }

  function Classify(t: Telemetry, tierIndex: int, root: Root): Rarity.Band
  {
    var score := RarityScore(t, tierIndex, root);
    if score >= 771.0 then Rarity.Singular
    else if score >= 665.0 then Rarity.Rare
    else if score >= 533.0 then Rarity.Uncommon
    else Rarity.Common
  }

  lemma PermilleAgrees(value: int, max: int)
    ensures Permille(value as real, max as real) == Rarity.Permille(value, max) as real
  {
    assert value as real * 1000.0 == (value * 1000) as real;
  }

  lemma BaseAgrees(fill: int, force: int, commitment: int, steadiness: int)
    ensures Weighted(fill as real, force as real, commitment as real, steadiness as real)
      == Rarity.BaseScore(fill, force, commitment, steadiness)
  {
    assert fill as real * 40.0 + force as real * 25.0 + commitment as real * 20.0 + steadiness as real * 15.0
      == (fill * 40 + force * 25 + commitment * 20 + steadiness * 15) as real;
  }

  lemma ReachAgrees(base: int, tier: TierIndex)
    ensures Reached(base as real, tier) == Floor((base * Rarity.Reach(tier)) as real / 100.0)
  {
    assert 50.0 + 10.0 * tier as real == Rarity.Reach(tier) as real;
    RealProduct(base, Rarity.Reach(tier));
  }

  lemma WeightedScoreAgrees(fill: int, force: int, commitment: int, steadiness: int, tier: TierIndex)
    ensures WeightedScore(fill as real, force as real, commitment as real, steadiness as real, tier)
      == Floor((Rarity.BaseScore(fill, force, commitment, steadiness) * Rarity.Reach(tier)) as real / 100.0) as real
  {
    BaseAgrees(fill, force, commitment, steadiness);
    ReachAgrees(Rarity.BaseScore(fill, force, commitment, steadiness), tier);
  }

  /** The server's float score is the client's integer score, on every tier index and every telemetry. */
  lemma ScoresAgree(t: Telemetry, tierIndex: int, root: Root)
    ensures RarityScore(t, tierIndex, root) == Rarity.ScoreParts(t, Finite(tierIndex as real), root).score as real
  {
    var tier := ClampTierIndex(tierIndex);
    assert tier == Clamping.ClampTierIndex(Finite(tierIndex as real));
    PartsAgree(Rarity.Round4(t), tier, root);
  }

  lemma PartsAgree(r: Rarity.Rounded, tier: TierIndex, root: Root)
    ensures RoundedScore(r.droplets, r.velocity, r.tiltMilli, r.holdMs, tier, root)
      == Rarity.PartsOf(r, tier, root).score as real
  {
    hide TelemetryCeilings, Permille, Rarity.Permille, WeightedScore, Rarity.BaseScore;
    var p := Rarity.PartsOf(r, tier, root);
    var c := TelemetryCeilings(tier, r.holdMs as real / 1000.0, root);
    PermilleAgrees(r.droplets, c.maxDroplets);
    PermilleAgrees(r.velocity, Round(c.maxSpeed));
    PermilleAgrees(r.holdMs, 15000);
    PermilleAgrees(r.tiltMilli, Round(c.maxTilt * 1000.0));
    assert 15000 as real == MAX_POUR_MS;
    WeightedScoreAgrees(p.fill, p.force, p.commitment, p.steadiness, tier);
  }

  // ---- the seed hash -----------------------------------------------------------------------

  /** math.Mod on whole numbers: the remainder takes the sign of the dividend. */
  function FMod(t: int, m: int): int
    requires m > 0
  {
    if t < 0 then -((-t) % m) else t % m
  }

  /** The server's toUint32. */
  function ToUint32(v: Num): int
  {
    if !v.Finite? then 0
    else
      var m := FMod(Trunc(v.v), Seed.TWO32);
      if m < 0 then m + Seed.TWO32 else m
  }

  lemma ToUint32Agrees(v: Num)
    ensures ToUint32(v) == Seed.ToUint32(v)
  {
    if v.Finite? {
      var t := Trunc(v.v);
      if t < 0 {
        var q := (-t) / Seed.TWO32;
        assert -t == q * Seed.TWO32 + (-t) % Seed.TWO32;
      }
    }
  }

  /** math.Floor(v + 0.5). */
  function JsRound(v: real): int { Floor(v + 0.5) }

  function HashedParts(s: Seed.BurnSeed): seq<int>
  {
    [ ToUint32(Finite(s.tierIndex as real)),
      ToUint32(Finite(s.amountCents as real)),
      ToUint32(Finite(s.timestampMs as real)),
      ToUint32(Finite(s.telemetry.dropletsLanded)),
      ToUint32(Finite(JsRound(s.telemetry.peakVelocity) as real)),
      ToUint32(Finite(JsRound(s.telemetry.tiltEnergy * 1000.0) as real)),
      ToUint32(Finite(s.telemetry.holdMs)) ]
  }

  /** Both languages hash the same seven words. */
  lemma PartsAreSame(s: Seed.BurnSeed)
    ensures HashedParts(s) == Seed.Parts(s)
  {
    hide ToUint32, Seed.ToUint32;
    ToUint32Agrees(Finite(s.tierIndex as real));
    ToUint32Agrees(Finite(s.amountCents as real));
    ToUint32Agrees(Finite(s.timestampMs as real));
    ToUint32Agrees(Finite(s.telemetry.dropletsLanded));
    ToUint32Agrees(Finite(JsRound(s.telemetry.peakVelocity) as real));
    ToUint32Agrees(Finite(JsRound(s.telemetry.tiltEnergy * 1000.0) as real));
    ToUint32Agrees(Finite(s.telemetry.holdMs));
  }

  /** HashSeed, on unsigned 32-bit words that wrap by themselves: the client's hash, bit for bit. */
  method HashSeed(s: Seed.BurnSeed) returns (h: Seed.Word)
    ensures h == Seed.HashOf(s)
  {
    hide Seed.Fold, Seed.Byte, Seed.Shifted, Seed.Fnv1a, Seed.Parts, HashedParts;
    PartsAreSame(s);
    var parts := HashedParts(s);
    h := Seed.OFFSET_BASIS;
    ghost var seen: seq<Seed.Octet> := [];
    assert Seed.Fnv1a([]) == h by { Seed.FnvEmpty(); }
    assert parts[..0] == [];
    for i := 0 to |parts|
      invariant seen == Seed.Bytes(parts[..i]) && h == Seed.Fnv1a(seen)
    {
      var p := parts[i];
      ghost var before := seen;
      for b := 0 to 4
        invariant h == Seed.Fnv1a(seen)
        invariant seen == before + Seed.Quad(p)[..b]
      {
        Seed.ShiftedIsByte(p, b);
        Seed.FnvSnoc(seen, Seed.Byte(p, b));
        Seed.FoldIs(h, Seed.Byte(p, b));
        seen := seen + [Seed.Byte(p, b)];
        h := Seed.Xor(h, Seed.Shifted(p, b));
        h := h * Seed.PRIME % Seed.TWO32;
      }
      assert Seed.Quad(p)[..4] == Seed.Quad(p);
      assert parts[..i + 1][..i] == parts[..i];
    }
    assert parts[..7] == parts;
  }
}
