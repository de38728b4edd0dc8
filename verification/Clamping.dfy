/**
 * How far a reported pour can be believed (the TypeScript half).
 *
 * Arithmetic is exact. Math.sqrt is any monotone function that stays between one and its argument from
 * one upwards, which the real root and its correctly rounded double both do.
 */
module Clamping {
  import opened Numbers
  import opened Sim

  /** A JavaScript number. */
  datatype Num = Finite(v: real) | NaN | PosInf | NegInf

  /** A report, as it arrives. */
  datatype Claim = Claim(dropletsLanded: Num, peakVelocity: Num, tiltEnergy: Num, holdMs: Num)

  datatype Telemetry = Telemetry(dropletsLanded: real, peakVelocity: real, tiltEnergy: real, holdMs: real)
  {
    function AsClaim(): Claim
    {
      Claim(Finite(dropletsLanded), Finite(peakVelocity), Finite(tiltEnergy), Finite(holdMs))
    }
  }

  datatype Field = DropletsLanded | PeakVelocity | TiltEnergy | HoldMs

  function Claimed(c: Claim, f: Field): Num
  {
    match f
    case DropletsLanded => c.dropletsLanded
    case PeakVelocity => c.peakVelocity
    case TiltEnergy => c.tiltEnergy
    case HoldMs => c.holdMs
  }

  function Kept(t: Telemetry, f: Field): real
  {
    match f
    case DropletsLanded => t.dropletsLanded
    case PeakVelocity => t.peakVelocity
    case TiltEnergy => t.tiltEnergy
    case HoldMs => t.holdMs
  }

  datatype ClampResult = ClampResult(telemetry: Telemetry, violations: seq<Field>)

  ghost predicate RootLike(f: real -> real)
  {
    && (forall x, y :: 0.0 <= x <= y ==> 0.0 <= f(x) <= f(y))
    && (forall x :: 1.0 <= x ==> 1.0 <= f(x) <= x)
  }

  type Root = f: real -> real | RootLike(f) witness x => x

  function ClampTierIndex(tierIndex: Num): TierIndex
  {
    if !tierIndex.Finite? then 0
    else
      var i := Floor(tierIndex.v);
      if i < 0 then 0 else if i >= TIER_COUNT then TIER_COUNT - 1 else i
  }

  datatype Ceilings = Ceilings(maxDroplets: int, maxSpeed: real, maxTilt: real)

  function MaxFall(holdS: real): real { SPAWN_VY_MAX + GRAVITY * Min(holdS, 1.2) }

  function MaxSpeedSq(holdS: real): real { MaxFall(holdS) * MaxFall(holdS) + SPAWN_VX_MAX * SPAWN_VX_MAX }

  /** The ceiling on landings: what the flow releases in the hold, and the tolerance on top. */
  function MaxDroplets(flow: real, holdS: real): int { Ceil(flow * holdS * DROPLET_TOLERANCE) }

  function TelemetryCeilings(tier: TierIndex, holdS: real, root: Root): Ceilings
  {
    Ceilings(
      MaxDroplets(Flow(tier) as real, holdS),
      root(MaxSpeedSq(holdS)) * 1.1,
      MAX_TILT_RATE * holdS)
  }

  /** A claimed number with everything below zero or not finite read as zero. */
  function Safe(value: Num): real { if value.Finite? then Max(0.0, value.v) else 0.0 }

  function Overclaim(key: Field, value: Num, max: real): seq<Field>
  {
    if Safe(value) > max then [key] else []
  }

  /** clampTelemetry as a function. */
  function Clamp(raw: Claim, tier: TierIndex, wallClockMs: real, root: Root): ClampResult
  {
    var limit := Min(wallClockMs, MAX_POUR_MS);
    var holdMs := Min(Safe(raw.holdMs), limit);
    var c := TelemetryCeilings(tier, holdMs / 1000.0, root);
    ClampResult(
      Telemetry(Min(Safe(raw.dropletsLanded), c.maxDroplets as real),
                Min(Safe(raw.peakVelocity), c.maxSpeed),
                Min(Safe(raw.tiltEnergy), c.maxTilt),
                holdMs),
      Overclaim(HoldMs, raw.holdMs, limit)
      + Overclaim(DropletsLanded, raw.dropletsLanded, c.maxDroplets as real)
      + Overclaim(PeakVelocity, raw.peakVelocity, c.maxSpeed)
      + Overclaim(TiltEnergy, raw.tiltEnergy, c.maxTilt))
  }

  /** The closure that bounds one field and records the overclaim. */
  method Take(key: Field, value: Num, max: real, violations: seq<Field>) returns (kept: real, listed: seq<Field>)
    ensures kept == Min(Safe(value), max)
    ensures listed == violations + Overclaim(key, value, max)
  {
    var safe := if value.Finite? then Max(0.0, value.v) else 0.0;
    listed := violations;
    if safe > max {
      listed := listed + [key];
    }
    kept := Min(safe, max);
  }

  method ClampTelemetry(raw: Claim, tierIndex: Num, wallClockMs: real, root: Root) returns (r: ClampResult)
    ensures r == Clamp(raw, ClampTierIndex(tierIndex), wallClockMs, root)
  {
    var violations: seq<Field> := [];
    var holdMs, dropletsLanded, peakVelocity, tiltEnergy;
    holdMs, violations := Take(HoldMs, raw.holdMs, Min(wallClockMs, MAX_POUR_MS), violations);
    var c := TelemetryCeilings(ClampTierIndex(tierIndex), holdMs / 1000.0, root);
    dropletsLanded, violations := Take(DropletsLanded, raw.dropletsLanded, c.maxDroplets as real, violations);
    peakVelocity, violations := Take(PeakVelocity, raw.peakVelocity, c.maxSpeed, violations);
    tiltEnergy, violations := Take(TiltEnergy, raw.tiltEnergy, c.maxTilt, violations);
    r := ClampResult(Telemetry(dropletsLanded, peakVelocity, tiltEnergy, holdMs), violations);
  }

  // ---- the ceilings ----------------------------------------------------------------------

  lemma DropletCeilingMonotone(flow: real, a: real, b: real)
    requires flow >= 0.0 && a <= b
    ensures MaxDroplets(flow, a) <= MaxDroplets(flow, b)
  {
    MulLe(a, b, flow);
    assert flow * a * DROPLET_TOLERANCE <= flow * b * DROPLET_TOLERANCE;
  }

  lemma NoHoldNoDroplets(flow: real)
    ensures MaxDroplets(flow, 0.0) == 0
  {
    assert flow * 0.0 * DROPLET_TOLERANCE == 0.0;
  }

  lemma SpeedSquareMonotone(a: real, b: real)
    requires 0.0 <= a <= b
    ensures 1.0 <= MaxSpeedSq(a) <= MaxSpeedSq(b)
  {
    SquareLe(MaxFall(a), MaxFall(b));
    SquareLe(1.0, MaxFall(a));
  }

  /** A longer hold never lowers a ceiling, and the speed ceiling is always above one. */
  lemma CeilingsMonotone(tier: TierIndex, a: real, b: real, root: Root)
    requires 0.0 <= a <= b
    ensures var c, d := TelemetryCeilings(tier, a, root), TelemetryCeilings(tier, b, root);
      && 0 <= c.maxDroplets <= d.maxDroplets && 1.1 <= c.maxSpeed <= d.maxSpeed && 0.0 <= c.maxTilt <= d.maxTilt
  {
    assert Flow(tier) >= 0;
    NoHoldNoDroplets(Flow(tier) as real);
    DropletCeilingMonotone(Flow(tier) as real, 0.0, a);
    DropletCeilingMonotone(Flow(tier) as real, a, b);
    SpeedSquareMonotone(a, b);
  }

  // ---- closure of the clamp --------------------------------------------------------------

  /**
   * Clamped telemetry is a fixed point of the clamp. Nothing is listed the second time exactly when the
   * pour had a wall clock at all: before its start instant, the hold is cut below zero every time.
   */
  lemma ClampClosed(raw: Claim, tier: TierIndex, wallClockMs: real, root: Root)
    ensures var once := Clamp(raw, tier, wallClockMs, root);
      var twice := Clamp(once.telemetry.AsClaim(), tier, wallClockMs, root);
      && twice.telemetry == once.telemetry
      && (twice.violations == [] <==> wallClockMs >= 0.0)
  {
    var once := Clamp(raw, tier, wallClockMs, root);
    var twice := Clamp(once.telemetry.AsClaim(), tier, wallClockMs, root);
    if wallClockMs >= 0.0 {
      CeilingsMonotone(tier, 0.0, once.telemetry.holdMs / 1000.0, root);
    } else {
      var holdS := once.telemetry.holdMs / 1000.0;
      var c := TelemetryCeilings(tier, holdS, root);
      assert c.maxDroplets <= 0 by {
        assert Flow(tier) >= 0;
        NoHoldNoDroplets(Flow(tier) as real);
        DropletCeilingMonotone(Flow(tier) as real, holdS, 0.0);
      }
      assert c.maxSpeed >= 0.0 by {
        MulNonNegSquare(MaxFall(holdS));
      }
      assert twice.violations[0] == HoldMs;
    }
  }

  lemma MulNonNegSquare(a: real)
    ensures a * a >= 0.0
  {
  }

  /** A later mint never clamps a claim lower. */
  lemma ClampMonotone(raw: Claim, tier: TierIndex, w1: real, w2: real, root: Root, f: Field)
    requires 0.0 <= w1 <= w2
    ensures Kept(Clamp(raw, tier, w1, root).telemetry, f) <= Kept(Clamp(raw, tier, w2, root).telemetry, f)
  {
    CeilingsMonotone(tier, Clamp(raw, tier, w1, root).telemetry.holdMs / 1000.0,
                     Clamp(raw, tier, w2, root).telemetry.holdMs / 1000.0, root);
  }

  /** A field is listed exactly when the claim was a finite number and the clamp lowered it. */
  lemma ListedExactlyWhenLowered(raw: Claim, tier: TierIndex, wallClockMs: real, root: Root, f: Field)
    requires wallClockMs >= 0.0
    ensures var r := Clamp(raw, tier, wallClockMs, root);
      f in r.violations <==> Claimed(raw, f).Finite? && Kept(r.telemetry, f) < Claimed(raw, f).v
  {
    var r := Clamp(raw, tier, wallClockMs, root);
    var holdMs := r.telemetry.holdMs;
    CeilingsMonotone(tier, 0.0, holdMs / 1000.0, root);
    var c := TelemetryCeilings(tier, holdMs / 1000.0, root);
    var a := Overclaim(HoldMs, raw.holdMs, Min(wallClockMs, MAX_POUR_MS));
    var b := Overclaim(DropletsLanded, raw.dropletsLanded, c.maxDroplets as real);
    var p := Overclaim(PeakVelocity, raw.peakVelocity, c.maxSpeed);
    var q := Overclaim(TiltEnergy, raw.tiltEnergy, c.maxTilt);
    assert r.violations == a + b + p + q;
    assert f in r.violations <==> f in a || f in b || f in p || f in q;
  }

  /** Clamped telemetry is non-negative and under every ceiling. */
  lemma ClampBounds(raw: Claim, tier: TierIndex, wallClockMs: real, root: Root)
    requires wallClockMs >= 0.0
    ensures var t := Clamp(raw, tier, wallClockMs, root).telemetry;
      var c := TelemetryCeilings(tier, t.holdMs / 1000.0, root);
      && 0.0 <= t.holdMs <= MAX_POUR_MS && t.holdMs <= wallClockMs
      && 0.0 <= t.dropletsLanded <= c.maxDroplets as real
      && 0.0 <= t.peakVelocity <= c.maxSpeed
      && 0.0 <= t.tiltEnergy <= c.maxTilt
  {
    CeilingsMonotone(tier, 0.0, Clamp(raw, tier, wallClockMs, root).telemetry.holdMs / 1000.0, root);
  }

  // ---- the clamp in numbers --------------------------------------------------------------

  /** A claimed number as the clamp reads it. */
  function Level(value: Num): real
  {
    match value
    case Finite(v) => if v > 0.0 then v else 0.0
    case _ => 0.0
  }

  function Lower(a: real, b: real): real { if b < a then b else a }

  /** 1.1 times the speed of a fall of at most 1.2 s with the nominal drift. */
  function Fastest(holdS: real, root: Root): real
  {
    var fall := 120.0 + 1400.0 * Lower(holdS, 1.2);
    1.1 * root(fall * fall + 45.0 * 45.0)
  }

  function ListIf(over: bool, key: Field): seq<Field> { if over then [key] else [] }

  /**
   * Every kept value and the whole list of violations, in numbers: the hold is cut to the wall clock and
   * 15 s, the droplets to the least whole number from 1.15 times the flow of that hold, the speed to 1.1
   * times the fall of at most 1.2 s with its drift, the tilt to six a second; the list is in that order.
   */
  lemma ClampInNumbers(raw: Claim, tier: TierIndex, wallClockMs: real, root: Root) returns (most: int)
    ensures var r := Clamp(raw, tier, wallClockMs, root);
      var t, h := r.telemetry, r.telemetry.holdMs / 1000.0;
      var fastest := Fastest(h, root);
      && t.holdMs == Lower(Level(raw.holdMs), Lower(wallClockMs, 15000.0))
      && most as real - 1.0 < [10.0, 16.0, 20.0, 24.0, 28.0, 34.0][tier] * h * 1.15 <= most as real
      && t.dropletsLanded == Lower(Level(raw.dropletsLanded), most as real)
      && t.peakVelocity == Lower(Level(raw.peakVelocity), fastest)
      && t.tiltEnergy == Lower(Level(raw.tiltEnergy), 6.0 * h)
      && r.violations == ListIf(Level(raw.holdMs) > Lower(wallClockMs, 15000.0), HoldMs)
                         + ListIf(Level(raw.dropletsLanded) > most as real, DropletsLanded)
                         + ListIf(Level(raw.peakVelocity) > fastest, PeakVelocity)
                         + ListIf(Level(raw.tiltEnergy) > 6.0 * h, TiltEnergy)
  {
    hide TelemetryCeilings, Fastest;
    most := CeilingsInNumbers(tier, Clamp(raw, tier, wallClockMs, root).telemetry.holdMs / 1000.0, root);
  }

  lemma CeilingsInNumbers(tier: TierIndex, h: real, root: Root) returns (most: int)
    ensures var c := TelemetryCeilings(tier, h, root);
      c.maxDroplets == most && c.maxSpeed == Fastest(h, root) && c.maxTilt == 6.0 * h
    ensures most as real - 1.0 < [10.0, 16.0, 20.0, 24.0, 28.0, 34.0][tier] * h * 1.15 <= most as real
  {
    hide MaxDroplets, MaxSpeedSq, Fastest;
    most := MaxDroplets(Flow(tier) as real, h);
    assert Flow(tier) as real == [10.0, 16.0, 20.0, 24.0, 28.0, 34.0][tier];
    MostDroplets(Flow(tier) as real, h);
    FastestIs(h, root);
  }

  lemma FastestIs(h: real, root: Root)
    ensures Fastest(h, root) == root(MaxSpeedSq(h)) * 1.1
  {
    var fall := 120.0 + 1400.0 * Lower(h, 1.2);
    assert fall == MaxFall(h);
    assert fall * fall + 45.0 * 45.0 == MaxSpeedSq(h);
  }

  lemma MostDroplets(flow: real, h: real)
    ensures var most := MaxDroplets(flow, h); most as real - 1.0 < flow * h * 1.15 <= most as real
  {
    CeilBounds(flow * h * DROPLET_TOLERANCE);
  }

  /** The fall counts for 1.2 s and no longer: from there on the speed ceiling is 1.1 times the root of 3242025. */
  lemma SpeedLevelsOff(holdS: real)
    requires holdS >= 0.0
    ensures holdS >= 1.2 ==> MaxSpeedSq(holdS) == 3242025.0
    ensures holdS < 1.2 ==> MaxSpeedSq(holdS) < 3242025.0
  {
    if holdS < 1.2 {
      SquareStrict(MaxFall(holdS), 1800.0);
    }
  }

  /** A tier index in range is kept, fractions are dropped, the rest goes to the nearer end, and no number is tier 0. */
  lemma TierIndexInNumbers(v: real, i: TierIndex)
    ensures i as real <= v < i as real + 1.0 ==> ClampTierIndex(Finite(v)) == i
    ensures v < 0.0 ==> ClampTierIndex(Finite(v)) == 0
    ensures v >= 6.0 ==> ClampTierIndex(Finite(v)) == 5
    ensures ClampTierIndex(NaN) == ClampTierIndex(PosInf) == ClampTierIndex(NegInf) == 0
  {
  }
}
