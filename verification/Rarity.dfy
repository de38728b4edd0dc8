/** What a pour earned: a score from floored permilles, and the band it falls in (the TypeScript half). */
module Rarity {
  import opened Numbers
  import opened Sim
  import opened Clamping

  datatype Band = Common | Uncommon | Rare | Singular
  {
    function Rank(): nat
    {
      match this case Common => 0 case Uncommon => 1 case Rare => 2 case Singular => 3
    }
  }

  const UNCOMMON: int := 533
  const RARE: int := 665
  const SINGULAR: int := 771
  const TIER_REACH_BASE: int := 50
  const TIER_REACH_STEP: int := 10

  function Reach(tier: TierIndex): int { TIER_REACH_BASE + TIER_REACH_STEP * tier }

  function Permille(value: int, max: int): (p: int)
    ensures 0 <= p <= 1000
  {
    if max <= 0 then 0
    else
      var p := Floor((value * 1000) as real / max as real);
      if p < 0 then 0 else if p > 1000 then 1000 else p
  }

  datatype Parts = Parts(fill: int, force: int, commitment: int, steadiness: int, score: int)

  /** The integers the score and the seed hash both read. */
  datatype Rounded = Rounded(droplets: int, velocity: int, tiltMilli: int, holdMs: int)

  function Round4(t: Telemetry): Rounded
  {
    Rounded(Floor(t.dropletsLanded), Round(t.peakVelocity), Round(t.tiltEnergy * 1000.0), Floor(t.holdMs))
  }

  function BaseScore(fill: int, force: int, commitment: int, steadiness: int): int
  {
    Floor((fill * 40 + force * 25 + commitment * 20 + steadiness * 15) as real / 100.0)
  }

  function PartsOf(r: Rounded, tier: TierIndex, root: Root): Parts
  {
    var c := TelemetryCeilings(tier, r.holdMs as real / 1000.0, root);
    var fill := Permille(r.droplets, c.maxDroplets);
    var force := Permille(r.velocity, Round(c.maxSpeed));
    var commitment := Permille(r.holdMs, Floor(MAX_POUR_MS));
    var steadiness := 1000 - Permille(r.tiltMilli, Round(c.maxTilt * 1000.0));
    Parts(fill, force, commitment, steadiness,
          Floor((BaseScore(fill, force, commitment, steadiness) * Reach(tier)) as real / 100.0))
  }

  function ScoreParts(t: Telemetry, tierIndex: Num, root: Root): Parts
  {
    PartsOf(Round4(t), ClampTierIndex(tierIndex), root)
  }

  function Score(t: Telemetry, tier: TierIndex, root: Root): int
  {
    ScoreParts(t, Finite(tier as real), root).score
  }

  function BandOf(score: int): Band
  {
    if score >= SINGULAR then Singular
    else if score >= RARE then Rare
    else if score >= UNCOMMON then Uncommon
    else Common
  }

  function Classify(t: Telemetry, tier: TierIndex, root: Root): Band
  {
    BandOf(Score(t, tier, root))
  }

  /** The claim that reachableRarity feeds to the clamp: more than any ceiling, and no tilt. */
  const FLAWLESS: Claim := Claim(Finite(9000000000.0), Finite(9000000000.0), Finite(0.0), Finite(MAX_POUR_MS))

  function ReachableRarity(tier: TierIndex, root: Root): Band
  {
    Classify(Clamp(FLAWLESS, tier, MAX_POUR_MS, root).telemetry, tier, root)
  }

  // ---- permille --------------------------------------------------------------------------

  lemma PermilleInt(value: int, max: int)
    requires max > 0
    ensures var p := value * 1000 / max;
      Permille(value, max) == if p < 0 then 0 else if p > 1000 then 1000 else p
  {
    FloorDiv(value * 1000, max);
  }

  lemma PermilleMonotone(a: int, b: int, max: int)
    requires a <= b
    ensures Permille(a, max) <= Permille(b, max)
  {
    if max > 0 {
      PermilleInt(a, max);
      PermilleInt(b, max);
      DivMonotone(a * 1000, b * 1000, max);
    }
  }

  lemma DivMonotone(a: int, b: int, d: int)
    requires a <= b && d > 0
    ensures a / d <= b / d
  {
    var p, q := a / d, b / d;
    assert p * d <= a && b < (q + 1) * d;
    CancelLt(p, q + 1, d);
  }

  lemma CancelLt(p: int, q: int, d: int)
    requires p * d < q * d && d > 0
    ensures p < q
  {
  }

  lemma PermilleFull(value: int, max: int)
    requires 0 < max <= value
    ensures Permille(value, max) == 1000
  {
    PermilleInt(value, max);
    FullQuotient(value, max, value * 1000 / max);
  }

  lemma FullQuotient(value: int, max: int, q: int)
    requires 0 < max <= value && q == value * 1000 / max
    ensures q >= 1000
  {
    hide Permille;
    assert value * 1000 < (q + 1) * max;
    CancelLt(1000, q + 1, max);
  }

  lemma PermilleEmpty(value: int, max: int)
    requires value <= 0
    ensures Permille(value, max) == 0
  {
    if max > 0 {
      PermilleInt(value, max);
      PermilleMonotone(value, 0, max);
      PermilleInt(0, max);
      assert 0 / max == 0;
    }
  }

  /**
   * Cutting a value to a cap no lower than its permille ceiling cannot be seen in the permille, and
   * neither can raising it to zero.
   */
  lemma PermilleCut(value: int, kept: int, cap: int, max: int)
    requires max <= cap && 0 <= cap
    requires kept == if value < 0 then 0 else if value > cap then cap else value
    ensures Permille(kept, max) == Permille(value, max)
  {
    if value < 0 {
      PermilleEmpty(value, max);
      PermilleEmpty(kept, max);
    } else if value > cap && max > 0 {
      PermilleFull(value, max);
      PermilleFull(cap, max);
    }
  }

  // ---- preview equals mint ---------------------------------------------------------------

  lemma RoundMonotone(a: real, b: real)
    requires a <= b
    ensures Round(a) <= Round(b)
  {
  }

  /** Rounding commutes with the clamp. */
  lemma RoundCut(value: real, cap: real)
    requires cap >= 0.0
    ensures Round(Min(Max(0.0, value), cap)) ==
      if Round(value) < 0 then 0 else if Round(value) > Round(cap) then Round(cap) else Round(value)
  {
    if value < 0.0 {
      RoundMonotone(value, 0.0);
      RoundMonotone(0.0, cap);
    } else {
      RoundMonotone(Min(value, cap), value);
      RoundMonotone(0.0, Min(value, cap));
    }
  }

  lemma FloorCut(value: real, cap: int)
    requires cap >= 0
    ensures Floor(Min(Max(0.0, value), cap as real)) ==
      if Floor(value) < 0 then 0 else if Floor(value) > cap then cap else Floor(value)
  {
    FloorIsGreatest(cap, value);
  }

  lemma FillPreview(value: real, cap: int, max: int)
    requires max <= cap && 0 <= cap
    ensures Permille(Floor(Min(Max(0.0, value), cap as real)), max) == Permille(Floor(value), max)
  {
    FloorCut(value, cap);
    PermilleCut(Floor(value), Floor(Min(Max(0.0, value), cap as real)), cap, max);
  }

  lemma RoundedPreview(value: real, cap: real, max: real)
    requires 0.0 <= max <= cap
    ensures Permille(Round(Min(Max(0.0, value), cap)), Round(max)) == Permille(Round(value), Round(max))
  {
    RoundCut(value, cap);
    RoundMonotone(max, cap);
    RoundMonotone(0.0, cap);
    PermilleCut(Round(value), Round(Min(Max(0.0, value), cap)), Round(cap), Round(max));
  }

  lemma CutTimes1000(value: real, cap: real)
    ensures Min(Max(0.0, value), cap) * 1000.0 == Min(Max(0.0, value * 1000.0), cap * 1000.0)
  {
  }

  /** Each part of the score reads the same from the raw telemetry as from the clamped telemetry. */
  lemma PreviewParts(t: Telemetry, tier: TierIndex, wallClockMs: real, root: Root)
    requires 0.0 <= t.holdMs <= Min(wallClockMs, MAX_POUR_MS)
    ensures PartsOf(Round4(Clamp(t.AsClaim(), tier, wallClockMs, root).telemetry), tier, root)
      == PartsOf(Round4(t), tier, root)
  {
    var kept := Clamp(t.AsClaim(), tier, wallClockMs, root).telemetry;
    var cap := TelemetryCeilings(tier, t.holdMs / 1000.0, root);
    var c := TelemetryCeilings(tier, Floor(t.holdMs) as real / 1000.0, root);
    CeilingsMonotone(tier, Floor(t.holdMs) as real / 1000.0, t.holdMs / 1000.0, root);
    assert kept == Telemetry(Min(Max(0.0, t.dropletsLanded), cap.maxDroplets as real),
                             Min(Max(0.0, t.peakVelocity), cap.maxSpeed),
                             Min(Max(0.0, t.tiltEnergy), cap.maxTilt), t.holdMs);
    FillPreview(t.dropletsLanded, cap.maxDroplets, c.maxDroplets);
    RoundedPreview(t.peakVelocity, cap.maxSpeed, c.maxSpeed);
    CutTimes1000(t.tiltEnergy, cap.maxTilt);
    RoundedPreview(t.tiltEnergy * 1000.0, cap.maxTilt * 1000.0, c.maxTilt * 1000.0);
  }

  /**
   * Preview equals mint: for finite telemetry whose hold fits the wall clock, clamping never moves the
   * score or the band, even when it cuts droplets, speed or tilt.
   */
  lemma PreviewEqualsMint(t: Telemetry, tier: TierIndex, wallClockMs: real, root: Root)
    requires 0.0 <= t.holdMs <= Min(wallClockMs, MAX_POUR_MS)
    ensures var kept := Clamp(t.AsClaim(), tier, wallClockMs, root).telemetry;
      Score(kept, tier, root) == Score(t, tier, root) && Classify(kept, tier, root) == Classify(t, tier, root)
  {
    PreviewParts(t, tier, wallClockMs, root);
  }

  // ---- the advertised ceiling ------------------------------------------------------------

  lemma BaseScoreBounds(fill: int, force: int, commitment: int, steadiness: int)
    requires 0 <= fill <= 1000 && 0 <= force <= 1000 && 0 <= commitment <= 1000 && 0 <= steadiness <= 1000
    ensures 0 <= BaseScore(fill, force, commitment, steadiness) <= 1000
  {
  }

  lemma ReachBounds(base: int, tier: TierIndex)
    requires 0 <= base <= 1000
    ensures 0 <= Floor((base * Reach(tier)) as real / 100.0) <= 10 * Reach(tier)
  {
    assert 0 <= base * Reach(tier) <= 1000 * Reach(tier);
    FloorMonotone(0.0, (base * Reach(tier)) as real / 100.0);
    FloorMonotone((base * Reach(tier)) as real / 100.0, (1000 * Reach(tier)) as real / 100.0);
  }

  lemma ScoreBounds(t: Telemetry, tier: TierIndex, root: Root)
    ensures 0 <= Score(t, tier, root) <= 10 * Reach(tier)
  {
    var p := ScoreParts(t, Finite(tier as real), root);
    BaseScoreBounds(p.fill, p.force, p.commitment, p.steadiness);
    ReachBounds(BaseScore(p.fill, p.force, p.commitment, p.steadiness), tier);
  }

  lemma HardStopDroplets(flow: real)
    requires 10.0 <= flow <= 34.0
    ensures 172 <= MaxDroplets(flow, 15.0) <= 600
  {
    assert flow * 15.0 * DROPLET_TOLERANCE == flow * 17.25;
    CeilBounds(flow * 17.25);
  }

  /** At the hard stop the ceilings are within reach of the flawless claim. */
  lemma HardStopCeilings(tier: TierIndex, root: Root)
    ensures var c := TelemetryCeilings(tier, 15.0, root);
      172 <= c.maxDroplets <= 600 && 1.1 <= c.maxSpeed <= 4000000.0 && c.maxTilt == 90.0
  {
    CeilingsMonotone(tier, 0.0, 15.0, root);
    assert MaxFall(15.0) == 1800.0;
    assert 10 <= Flow(tier) <= 34;
    HardStopDroplets(Flow(tier) as real);
  }

  lemma FlawlessKept(tier: TierIndex, root: Root)
    ensures var c := TelemetryCeilings(tier, 15.0, root);
      Clamp(FLAWLESS, tier, MAX_POUR_MS, root).telemetry == Telemetry(c.maxDroplets as real, c.maxSpeed, 0.0, MAX_POUR_MS)
  {
    HardStopCeilings(tier, root);
  }

  lemma FlawlessParts(tier: TierIndex, root: Root)
    ensures var p := ScoreParts(Clamp(FLAWLESS, tier, MAX_POUR_MS, root).telemetry, Finite(tier as real), root);
      p.fill == 1000 && p.force == 1000 && p.commitment == 1000 && p.steadiness == 1000
  {
    var c := TelemetryCeilings(tier, 15.0, root);
    FlawlessKept(tier, root);
    HardStopCeilings(tier, root);
    PermilleFull(c.maxDroplets, c.maxDroplets);
    RoundMonotone(1.1, c.maxSpeed);
    PermilleFull(Round(c.maxSpeed), Round(c.maxSpeed));
    PermilleFull(15000, 15000);
    PermilleEmpty(0, Round(c.maxTilt * 1000.0));
  }

  /** The flawless claim is given the whole reach of its tier. */
  lemma FlawlessScore(tier: TierIndex, root: Root)
    ensures Score(Clamp(FLAWLESS, tier, MAX_POUR_MS, root).telemetry, tier, root) == 10 * Reach(tier)
  {
    FlawlessParts(tier, root);
    assert BaseScore(1000, 1000, 1000, 1000) == 1000;
    assert (1000 * Reach(tier)) as real / 100.0 == (10 * Reach(tier)) as real;
  }

  /**
   * The advertised ceiling is an attained maximum. Every claim, on every wall clock, scores at most ten
   * times the reach and ranks at most the advertised band; the flawless claim attains both.
   */
  lemma AdvertisedCeiling(raw: Claim, tier: TierIndex, wallClockMs: real, root: Root)
    ensures var t := Clamp(raw, tier, wallClockMs, root).telemetry;
      && 0 <= Score(t, tier, root) <= 10 * Reach(tier)
      && Classify(t, tier, root).Rank() <= ReachableRarity(tier, root).Rank()
    ensures Score(Clamp(FLAWLESS, tier, MAX_POUR_MS, root).telemetry, tier, root) == 10 * Reach(tier)
    ensures ReachableRarity(tier, root) == [Common, Uncommon, Rare, Singular, Singular, Singular][tier]
  {
    ScoreBounds(Clamp(raw, tier, wallClockMs, root).telemetry, tier, root);
    FlawlessScore(tier, root);
  }

  // ---- the tier trap ---------------------------------------------------------------------

  /** Droplets that fill a second's ceiling, by tier. */
  function Bar(tier: TierIndex): int { [12, 19, 23, 28, 33, 40][tier] }

  /** One second, leant as hard as the meter allows, that just fills the ceiling of a tier. */
  function Trap(tier: TierIndex): Telemetry { Telemetry(Bar(tier) as real, 0.0, 6.0, 1000.0) }

  lemma BarIsCeiling(tier: TierIndex)
    ensures MaxDroplets(Flow(tier) as real, 1.0) == Bar(tier)
  {
    assert [10, 16, 20, 24, 28, 34][tier] as real * 1.0 * DROPLET_TOLERANCE
      == [11.5, 18.4, 23.0, 27.6, 32.2, 39.1][tier];
  }

  /** The fill a pour of `tier` shows when it is scored on another. */
  function TrapFill(tier: TierIndex, on: TierIndex): int
  {
    var p := Bar(tier) * 1000 / Bar(on);
    if p > 1000 then 1000 else p
  }

  function TrapScore(fill: int, on: TierIndex): int
  {
    (fill * 40 + 1320) / 100 * Reach(on) / 100
  }

  lemma TrapParts(tier: TierIndex, on: TierIndex, root: Root)
    ensures PartsOf(Round4(Trap(tier)), on, root) ==
      Parts(TrapFill(tier, on), 0, 66, 0,
            Floor((BaseScore(TrapFill(tier, on), 0, 66, 0) * Reach(on)) as real / 100.0))
  {
    hide Bar;
    var c := TelemetryCeilings(on, 1.0, root);
    assert Round4(Trap(tier)) == Rounded(Bar(tier), 0, 6000, 1000);
    assert 1000 as real / 1000.0 == 1.0;
    BarIsCeiling(on);
    BarPositive(tier, on);
    PermilleInt(Bar(tier), Bar(on));
    PermilleEmpty(0, Round(c.maxSpeed));
    PermilleInt(1000, 15000);
    PermilleFull(6000, 6000);
    assert Round(c.maxTilt * 1000.0) == 6000;
  }

  lemma BarPositive(tier: TierIndex, on: TierIndex)
    ensures Bar(on) > 0 && Bar(tier) * 1000 / Bar(on) >= 0
  {
  }

  lemma TrapScored(tier: TierIndex, on: TierIndex, root: Root)
    ensures Score(Trap(tier), on, root) == TrapScore(TrapFill(tier, on), on)
  {
    hide Permille, Trap, TrapFill, TelemetryCeilings;
    var fill := TrapFill(tier, on);
    TrapParts(tier, on, root);
    FloorDiv(fill * 40 + 1320, 100);
    FloorDiv(BaseScore(fill, 0, 66, 0) * Reach(on), 100);
  }

  /** What a pour that just fills its own tier loses on a dearer one. */
  lemma TrapFalls(a: TierIndex, b: TierIndex)
    requires a < b
    ensures TrapScore(TrapFill(a, b), b) < TrapScore(TrapFill(a, a), a)
  {
    assert TrapScore(TrapFill(a, a), a) == [206, 247, 289, 330, 371, 413][a];
    assert TrapScore(TrapFill(a, b), b) ==
      [[0, 159, 154, 147, 142, 133], [0, 0, 240, 227, 218, 203], [0, 0, 0, 272, 261, 243],
       [0, 0, 0, 0, 316, 293], [0, 0, 0, 0, 0, 343], []][a][b];
  }

  /** The same pour can score lower on a dearer tier: more flow raises the bar that fill is measured by. */
  lemma ScoreNotMonotoneInTier(root: Root)
    ensures Score(Telemetry(12.0, 0.0, 6.0, 1000.0), 0, root) == 206
    ensures Score(Telemetry(12.0, 0.0, 6.0, 1000.0), 1, root) == 159
  {
    hide ScoreParts;
    assert Trap(0) == Telemetry(12.0, 0.0, 6.0, 1000.0);
    TrapScored(0, 0, root);
    TrapScored(0, 1, root);
    assert TrapScore(TrapFill(0, 0), 0) == 206 && TrapScore(TrapFill(0, 1), 1) == 159;
  }

  /**
   * Score is monotone in tier between no two tiers at all: a dearer tier scores every pour at least as
   * high exactly when it is the same tier.
   */
  lemma MonotoneExactly(a: TierIndex, b: TierIndex, root: Root)
    requires a <= b
    ensures (forall t: Telemetry :: Score(t, a, root) <= Score(t, b, root)) <==> a == b
  {
    hide ScoreParts, TrapScore, TrapFill;
    if a < b {
      TrapScored(a, a, root);
      TrapScored(a, b, root);
      TrapFalls(a, b);
      assert Score(Trap(a), a, root) > Score(Trap(a), b, root);
    }
  }

  lemma BaseScoreMonotone(f: int, g: int, force: int, commitment: int, steadiness: int)
    requires f <= g
    ensures BaseScore(f, force, commitment, steadiness) <= BaseScore(g, force, commitment, steadiness)
  {
  }

  lemma ReachMonotone(x: int, y: int, a: TierIndex, b: TierIndex)
    requires 0 <= x <= y && a <= b
    ensures Floor((x * Reach(a)) as real / 100.0) <= Floor((y * Reach(b)) as real / 100.0)
  {
    assert x * Reach(a) <= x * Reach(b) <= y * Reach(b);
    FloorMonotone((x * Reach(a)) as real / 100.0, (y * Reach(b)) as real / 100.0);
  }

  /** Telemetry whose fill part does not fall scores at least as high on a dearer tier. */
  lemma ScoreMonotoneAtEqualFill(t: Telemetry, a: TierIndex, b: TierIndex, root: Root)
    requires a <= b
    ensures ScoreParts(t, Finite(a as real), root).fill <= ScoreParts(t, Finite(b as real), root).fill
      ==> Score(t, a, root) <= Score(t, b, root)
  {
    hide Permille, BaseScore;
    var p, q := PartsOf(Round4(t), a, root), PartsOf(Round4(t), b, root);
    if p.fill <= q.fill {
      BaseScoreBounds(p.fill, p.force, p.commitment, p.steadiness);
      BaseScoreMonotone(p.fill, q.fill, p.force, p.commitment, p.steadiness);
      ReachMonotone(BaseScore(p.fill, p.force, p.commitment, p.steadiness),
                    BaseScore(q.fill, q.force, q.commitment, q.steadiness), a, b);
    }
  }

  // ---- the score in numbers --------------------------------------------------------------

  /** p is value in thousandths of max, rounded down, between 0 and 1000; a ceiling of nothing counts nothing. */
  predicate InThousandths(p: int, value: int, max: int)
  {
    if max <= 0 || value <= 0 then p == 0
    else if value >= max then p == 1000
    else 0 <= p < 1000 && p * max <= 1000 * value < (p + 1) * max
  }

  lemma PermilleInNumbers(value: int, max: int)
    ensures InThousandths(Permille(value, max), value, max)
  {
    if max > 0 {
      PermilleInt(value, max);
      if value <= 0 {
        PermilleEmpty(value, max);
      } else if value >= max {
        PermilleFull(value, max);
      } else {
        var p := value * 1000 / max;
        assert p * max <= value * 1000 < (p + 1) * max;
        CancelLt(p, 1000, max);
        CancelLt(-1, p, max);
      }
    }
  }

  /**
   * The score, in numbers: four parts in thousandths (droplets of the flow's ceiling, velocity of the fall's,
   * hold of 15 s, and what the tilt leaves), weighed 40, 25, 20 and 15 to the hundred and rounded down, then
   * scaled by 50 and 10 more for each tier to the hundred and rounded down.
   */
  lemma ScoreInNumbers(t: Telemetry, tier: TierIndex, root: Root)
    ensures var p := ScoreParts(t, Finite(tier as real), root);
      var holdMs := t.holdMs.Floor;
      var c := TelemetryCeilings(tier, holdMs as real / 1000.0, root);
      && InThousandths(p.fill, t.dropletsLanded.Floor, c.maxDroplets)
      && InThousandths(p.force, (t.peakVelocity + 0.5).Floor, (c.maxSpeed + 0.5).Floor)
      && InThousandths(p.commitment, holdMs, 15000)
      && InThousandths(1000 - p.steadiness, (1000.0 * t.tiltEnergy + 0.5).Floor, (1000.0 * c.maxTilt + 0.5).Floor)
      && p.score == (40 * p.fill + 25 * p.force + 20 * p.commitment + 15 * p.steadiness) / 100 * (50 + 10 * tier) / 100
      && p.score == Score(t, tier, root)
  {
    hide TelemetryCeilings, Permille, InThousandths;
    var p := ScoreParts(t, Finite(tier as real), root);
    var c := TelemetryCeilings(tier, t.holdMs.Floor as real / 1000.0, root);
    PermilleInNumbers(t.dropletsLanded.Floor, c.maxDroplets);
    PermilleInNumbers((t.peakVelocity + 0.5).Floor, (c.maxSpeed + 0.5).Floor);
    PermilleInNumbers(t.holdMs.Floor, 15000);
    assert t.tiltEnergy * 1000.0 == 1000.0 * t.tiltEnergy && c.maxTilt * 1000.0 == 1000.0 * c.maxTilt;
    PermilleInNumbers((1000.0 * t.tiltEnergy + 0.5).Floor, (1000.0 * c.maxTilt + 0.5).Floor);
    WeighedInNumbers(p.fill, p.force, p.commitment, p.steadiness, tier);
  }

  lemma WeighedInNumbers(fill: int, force: int, commitment: int, steadiness: int, tier: TierIndex)
    ensures Floor((BaseScore(fill, force, commitment, steadiness) * Reach(tier)) as real / 100.0)
      == (40 * fill + 25 * force + 20 * commitment + 15 * steadiness) / 100 * (50 + 10 * tier) / 100
  {
    FloorDiv(fill * 40 + force * 25 + commitment * 20 + steadiness * 15, 100);
    FloorDiv(BaseScore(fill, force, commitment, steadiness) * Reach(tier), 100);
  }

  /** What a pour full in one part alone is worth: 400, 250, 200 or 150 thousandths of the tier's reach. */
  lemma OnePartAlone(t: Telemetry, tier: TierIndex, root: Root)
    ensures var p := ScoreParts(t, Finite(tier as real), root);
      var reach := 50 + 10 * tier;
      && (p == Parts(1000, 0, 0, 0, p.score) ==> p.score == 4 * reach)
      && (p == Parts(0, 1000, 0, 0, p.score) ==> p.score == 5 * reach / 2)
      && (p == Parts(0, 0, 1000, 0, p.score) ==> p.score == 2 * reach)
      && (p == Parts(0, 0, 0, 1000, p.score) ==> p.score == 3 * reach / 2)
  {
    hide ScoreParts, Score;
    ScoreInNumbers(t, tier, root);
  }

  /** Where the bands begin. */
  lemma BandsInNumbers(t: Telemetry, tier: TierIndex, root: Root)
    ensures var score, band := Score(t, tier, root), Classify(t, tier, root);
      && (band == Common <==> score < 533)
      && (band == Uncommon <==> 533 <= score < 665)
      && (band == Rare <==> 665 <= score < 771)
      && (band == Singular <==> 771 <= score)
  {
  }
}
