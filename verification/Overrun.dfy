/**
 * How long a frame may be before the ring overruns a droplet: exactly one lap less the longest fall.
 *
 * Conservation proves that shorter frames lose nothing. Here a run of ticks, slow enough to keep its
 * first droplet in the air, and one frame past the limit bring the ring cursor back onto that droplet.
 */
module Overrun {
  import opened Numbers
  import opened Sim
  import opened RigModel
  import opened RigFlight
  import opened Conservation
  import opened HonestPeak
  import opened FallingBlob
  import HonestPour

  /** Draws that release every droplet at rest in the middle of the spout. */
  const CALM: Draw := Draw(0.5, 0.5, 0.0, 0.0)

  ghost predicate Calm(random: nat -> Draw) { forall k: nat :: random(k) == CALM }

  /** An upright press of the top tier, t ms long, under any drag. */
  predicate IsTick(f: Frame, t: real)
  {
    f.pouring && f.lean == 0.0 && f.tier == 5 && f.dtMs == t && 0.0 < f.drag <= 1.0
  }

  predicate AllTicks(frames: seq<Frame>, t: real) { forall i :: 0 <= i < |frames| ==> IsTick(frames[i], t) }

  /** The height of a droplet that has fallen from rest for x seconds in steps of d. */
  function Fell(x: real, d: real): real { SPOUT + 700.0 * (x * (x + d)) }

  lemma FellNext(x: real, d: real)
    ensures Sunk(Fell(x, d), 1400.0 * x, d) == Fell(x + d, d)
  {
    assert (x + d) * (x + d + d) == x * (x + d) + 2.0 * (x * d) + 2.0 * (d * d);
  }

  lemma FellMonotone(x: real, y: real, d: real)
    requires 0.0 <= x <= y && 0.0 <= d
    ensures Fell(x, d) <= Fell(y, d)
  {
    MulLe(x, y, x + d);
    MulLe(x + d, y + d, y);
  }

  /** The hold clock after n ticks. */
  function Clock(n: nat, t: real): real { n as real * t }

  lemma ClockNext(n: nat, t: real)
    ensures Clock(n + 1, t) == Clock(n, t) + t
  {
  }

  lemma ClockMonotone(n: nat, m: nat, t: real)
    requires n <= m && t >= 0.0
    ensures 0.0 <= Clock(n, t) <= Clock(m, t)
  {
    MulLe(n as real, m as real, t);
    MulNonNeg(n as real, t);
  }

  /** Seconds the first droplet can have been falling when the clock reads holdMs. */
  function FirstFall(holdMs: real, t: real): real { holdMs / 1000.0 - 1.0 / 34.0 + t / 1000.0 }

  /** n ticks neither fill the ring nor land the first droplet. */
  predicate Slow(n: nat, t: real)
  {
    0.0 < t <= 29.0 && 0.034 * Clock(n, t) < 32.0 && Fell(FirstFall(Clock(n, t), t), t / 1000.0) <= FLOOR
  }

  /** The rig after n ticks: 34 droplets a second, the first of them x seconds into its fall. */
  predicate Ticked(s: State, st: Stage, n: nat, t: real, x: real)
  {
    && Inv(s, st) && HonestPour.NoneInvented(s)
    && s.holdMs == Clock(n, t)
    && s.cursor == s.spawned && s.spawned <= 31
    && s.spawned as real + s.spawnAcc == 0.034 * s.holdMs
    && (s.spawned >= 1 ==> 0.0 <= x <= FirstFall(s.holdMs, t) && Falling(s, st, 0.0, 1400.0 * x, Fell(x, t / 1000.0)))
  }

  lemma TickGain(f: Frame, t: real)
    requires IsTick(f, t) && 0.0 <= t
    ensures f.Dt() == Min(t, 50.0) / 1000.0 && f.SpawnGain() == 34.0 * f.Dt()
  {
  }

  lemma CalmDroplet(radius: real, st: Stage)
    requires StageOk(st) && radius >= 16.0
    ensures var b := Droplet(CALM, 0.0, radius, st);
      && b.Airborne() && ToSim(b, st).vx == 0.0 && ToSim(b, st).vy == 0.0 && ToSim(b, st).y == SPOUT
  {
    DropletScales(CALM, 0.0, radius, st);
    DropletLands(CALM, 0.0, radius, st);
  }

  /** What a tick pours: at most one droplet, and into slot 0 only when it is the first. */
  lemma TickPour(s: State, f: Frame, st: Stage, random: nat -> Draw, n: nat, t: real, x: real)
    requires Ticked(s, st, n, t, x) && IsTick(f, t) && Calm(random)
    requires 0.0 < t <= 29.0 && 0.034 * Clock(n + 1, t) < 32.0
    ensures var p := Pour(s, f, st, random);
      && Open(s, f) && AllAloft(p.slots, st)
      && p.cursor == p.spawned && s.spawned <= p.spawned <= 31
      && p.spawned as real + p.spawnAcc == 0.034 * (s.holdMs + t)
      && (s.spawned >= 1 ==> p.slots[0] == s.slots[0])
      && (s.spawned == 0 && p.spawned >= 1 ==> Falling(p, st, 0.0, 0.0, SPOUT))
  {
    hide StepSlot, TallyUpTo, Aloft, Droplet, Fell, Clock, FlowOver, TiltOver, Ease, SpawnAll, HonestPour.NoneInvented, FirstFall;
    ClockNext(n, t);
    TickGain(f, t);
    PourInv(s, f, st, random);
    var u := Filled(s, f);
    SpawnFew(u, 0.0, st, random);
    EaseOk(s.feel, 5, f.Dt());
    CalmDroplet(u.feel.radius, st);
  }

  /** One tick. */
  lemma Tick(s: State, f: Frame, st: Stage, random: nat -> Draw, n: nat, m: nat, t: real, x: real) returns (y: real)
    requires Ticked(s, st, n, t, x) && IsTick(f, t) && Calm(random) && n < m && Slow(m, t)
    ensures Ticked(Step(s, f, st, random), st, n + 1, t, y)
  {
    hide Aloft, TallyUpTo, StepSlot, Pour, Integrate, Droplet, Falling, Fell, Clock;
    var p, d := Pour(s, f, st, random), t / 1000.0;
    ClockNext(n, t);
    ClockMonotone(n + 1, m, t);
    TickGain(f, t);
    TickPour(s, f, st, random, n, t, x);
    StepInv(s, f, st, random);
    StepScalars(s, f, st, random);
    HonestPour.StepNoneInvented(s, f, st, random);
    StepIsIntegrate(s, f, st, random);
    PourInv(s, f, st, random);
    var from := if s.spawned >= 1 then x else 0.0;
    y := from + d;
    if p.spawned >= 1 {
      if s.spawned >= 1 {
        SameSlotZero(s, p, st, 0.0, 1400.0 * x, Fell(x, d));
      } else {
        assert Fell(0.0, d) == SPOUT by { FromRest(d); }
      }
      FellMonotone(y, FirstFall(Clock(m, t), t), d);
      FellOn(p, EnvOf(s, f, st), from);
    }
  }

  /** The first droplet, one frame further into its fall from rest. */
  lemma FellOn(p: State, e: Env, x: real)
    requires |p.slots| == MAX_BLOBS && Frameworthy(e) && AllAloft(p.slots, e.st)
    requires Falling(p, e.st, 0.0, 1400.0 * x, Fell(x, e.dt)) && Fell(x + e.dt, e.dt) <= FLOOR
    ensures Falling(Integrate(p, e), e.st, 0.0, 1400.0 * (x + e.dt), Fell(x + e.dt, e.dt))
  {
    hide Aloft, Integrate, Fell, ToSim, Sunk;
    FellNext(x, e.dt);
    FallingOn(p, e, 0.0, 1400.0 * x, Fell(x, e.dt));
    assert Dragged(0.0, e.drag) == 0.0;
    assert 1400.0 * x + 1400.0 * e.dt == 1400.0 * (x + e.dt);
  }

  lemma FromRest(d: real)
    ensures Fell(0.0, d) == SPOUT
  {
  }

  lemma StepIsIntegrate(s: State, f: Frame, st: Stage, random: nat -> Draw)
    requires |s.slots| == MAX_BLOBS && s.cursor < MAX_BLOBS && st.height > 0.0
    ensures Step(s, f, st, random) == Integrate(Pour(s, f, st, random), EnvOf(s, f, st))
    ensures Step(s, f, st, random).cursor == Pour(s, f, st, random).cursor
  {
  }

  lemma SameSlotZero(s: State, p: State, st: Stage, vx: real, vy: real, y: real)
    requires st.height > 0.0 && Falling(s, st, vx, vy, y) && |p.slots| > 0 && p.slots[0] == s.slots[0]
    ensures Falling(p, st, vx, vy, y)
  {
  }

  lemma {:induction false} TickedRun(feel: Feel, drawn: nat, frames: seq<Frame>, st: Stage, random: nat -> Draw, m: nat, t: real)
      returns (x: real)
    requires FeelOk(feel) && StageOk(st) && Calm(random) && AllTicks(frames, t) && |frames| <= m && Slow(m, t)
    ensures Ticked(Run(Emptied(feel, drawn), frames, st, random), st, |frames|, t, x)
  {
    hide Step, Aloft;
    var s0 := Emptied(feel, drawn);
    if frames == [] {
      EmptiedInv(feel, drawn, st);
      NoneInFlight(s0.slots, |s0.slots|);
      x := 0.0;
    } else {
      var n := |frames| - 1;
      x := TickedRun(feel, drawn, frames[..n], st, random, m, t);
      x := Tick(Run(s0, frames[..n], st, random), frames[n], st, random, n, m, t, x);
    }
  }

  /** The last frame releases the 32nd and the 33rd droplet, the 33rd on top of the first. */
  lemma HitchPour(s: State, f: Frame, st: Stage, random: nat -> Draw, n: nat, t: real, x: real)
    requires Ticked(s, st, n, t, x) && IsTick(f, f.dtMs) && 48.0 < f.dtMs
    requires 0.034 * s.holdMs + 34.0 * f.Dt() == 33.0
    ensures var p := Pour(s, f, st, random);
      && p.dropletsLanded + InFlight(p.slots, |p.slots|) < p.spawned
      && AllAloft(p.slots, st)
  {
    hide Aloft, Droplet, StepSlot, TallyUpTo, Fell, Clock;
    TickGain(f, f.dtMs);
    PourInv(s, f, st, random);
    EaseOk(s.feel, 5, f.Dt());
    assert s.spawned == 31;
    var a := Filled(s, f);
    var u := SpawnOne(a, 0.0, st, random);
    var v := SpawnOne(u, 0.0, st, random);
    SpawnFew(u, 0.0, st, random);
    assert Pour(s, f, st, random) == v;
    InFlightUpdate(a.slots, 31, Droplet(random(a.drawn), 0.0, a.feel.radius, st), |a.slots|);
    InFlightUpdate(u.slots, 0, Droplet(random(u.drawn), 0.0, a.feel.radius, st), |u.slots|);
    DropletLands(random(u.drawn), 0.0, a.feel.radius, st);
    assert u.slots[0] == s.slots[0];
  }

  /** A droplet is lost: fewer have landed or are flying than were released. */
  lemma DropletLost(feel: Feel, drawn: nat, ticks: seq<Frame>, hitch: Frame, st: Stage, random: nat -> Draw, t: real)
    requires FeelOk(feel) && StageOk(st) && Calm(random)
    requires AllTicks(ticks, t) && Slow(|ticks|, t) && IsTick(hitch, hitch.dtMs) && 48.0 < hitch.dtMs
    requires 0.034 * Clock(|ticks|, t) + 34.0 * hitch.Dt() == 33.0
    ensures var s := Run(Emptied(feel, drawn), ticks + [hitch], st, random);
      s.dropletsLanded + InFlight(s.slots, |s.slots|) < s.spawned
  {
    hide Aloft, Pour, StepSlot, TallyUpTo, Falling, Clock, Fell;
    var s0 := Emptied(feel, drawn);
    var x := TickedRun(feel, drawn, ticks, st, random, |ticks|, t);
    var s := Run(s0, ticks, st, random);
    RunConcat(s0, ticks, [hitch], st, random);
    HonestPour.RunOne(s, hitch, st, random);
    HitchPour(s, hitch, st, random, |ticks|, t, x);
    IntegrateConserves(Pour(s, hitch, st, random), EnvOf(s, hitch, st));
  }

  // ---- the exact limit -------------------------------------------------------------------

  /** Ticks short enough that the first droplet is still up when the last frame begins. */
  lemma TickCount(a: real, hold: real) returns (n: nat)
    requires 0.8 <= a <= 0.9 && Fallen(a) < 558.0 && 0.0 < hold <= 1.0
    ensures n >= 40 && Fell(a + hold / n as real, hold / n as real) <= FLOOR
  {
    var gap := 558.0 - Fallen(a);
    n := Ceil(3500.0 / gap) + 40;
    PositiveQuotient(gap);
    CeilBounds(3500.0 / gap);
    hide Fell, Fallen;
    SmallTick(gap, hold, n as real, hold / n as real);
    TickFits(a, hold / n as real);
  }

  lemma TickFits(a: real, d: real)
    requires 0.0 <= a <= 1.0 && 0.0 <= d <= 1.0 && Fallen(a) + 3500.0 * d <= 558.0
    ensures Fell(a + d, d) <= FLOOR
  {
    FellSum(a, d);
    ShrinkPos(d, a);
    ShrinkPos(d, d);
    TickSum(Fallen(a), d * a, d * d, d);
  }

  lemma TickSum(f: real, p: real, q: real, d: real)
    requires p <= d && q <= d && f + 3500.0 * d <= 558.0
    ensures SPOUT + f + 2100.0 * p + 1400.0 * q <= FLOOR
  {
  }

  lemma FellSum(a: real, d: real)
    ensures Fell(a + d, d) == SPOUT + Fallen(a) + 2100.0 * (a * d) + 1400.0 * (d * d)
  {
    assert (a + d) * (a + d + d) == a * a + 3.0 * (a * d) + 2.0 * (d * d);
  }

  lemma PositiveQuotient(gap: real)
    requires gap > 0.0
    ensures 3500.0 / gap > 0.0
  {
  }

  lemma SmallTick(gap: real, hold: real, n: real, d: real)
    requires gap > 0.0 && 0.0 < hold <= 1.0 && n >= 40.0 && n >= 3500.0 / gap && d == hold / n
    ensures 0.0 < d <= 1.0 && 3500.0 * d <= gap
  {
    var q := 3500.0 / gap;
    assert q * gap == 3500.0 && d * n == hold;
    MulLe(q, n, gap);
    if d <= 0.0 {
      MulLe(d, 0.0, n);
    }
    MulLe(40.0, n, d);
    assert 3500.0 * d <= (n * gap) * d by { MulLe(3500.0, n * gap, d); }
    assert (n * gap) * d == hold * gap;
    MulLe(hold, 1.0, gap);
  }

  /** Every run of one tier, frames at most limitMs long, keeps every droplet. */
  ghost predicate AlwaysConserved(tier: TierIndex, limitMs: real)
  {
    forall feel: Feel, drawn: nat, frames: seq<Frame>, st: Stage, random: nat -> Draw
      :: FeelOk(feel) && StageOk(st) && FramesOk(frames) && OneTier(frames, tier)
         && (forall i :: 0 <= i < |frames| ==> frames[i].dtMs <= limitMs)
         ==> Conserved(Run(Emptied(feel, drawn), frames, st, random))
  }

  lemma NotConserved(limitMs: real)
    requires !Roomy(5, limitMs)
    ensures !AlwaysConserved(5, limitMs)
  {
    RoomyTiers(5, limitMs);
    var last := Min(limitMs, 50.0);
    var a, hold := Slack(34.0, last / 1000.0), 33.0 / 34.0 - last / 1000.0;
    assert Fallen(a) < 558.0;
    var n := TickCount(a, hold);
    var t := 1000.0 * (hold / n as real);
    TickMs(hold, n, t);
    var tick, hitch := Frame(true, 0.0, 5, t, 1.0), Frame(true, 0.0, 5, last, 1.0);
    var ticks := seq(n, _ => tick);
    var random: nat -> Draw := _ => CALM;
    var feel, st := TierFeel(5), Stage(900.0, 900.0);
    var frames := ticks + [hitch];
    DropletLost(feel, 0, ticks, hitch, st, random, t);
    assert !Conserved(Run(Emptied(feel, 0), frames, st, random));
    assert FramesOk(frames) && OneTier(frames, 5);
  }

  lemma TickMs(hold: real, n: nat, t: real)
    requires n >= 40 && 0.0 < hold <= 1.0 && t == 1000.0 * (hold / n as real)
    ensures Clock(n, t) == 1000.0 * hold && 0.0 < t <= 25.0
  {
    var d := hold / n as real;
    assert d * n as real == hold;
    if d <= 0.0 {
      MulLe(d, 0.0, n as real);
    }
    MulLe(40.0, n as real, d);
  }

  /**
   * The exact condition for droplet conservation: on a tier, every run whose frames are at most limitMs
   * long keeps every droplet if and only if one lap of the ring less one such frame covers the longest
   * fall. By RoomyTiers that is always so on tiers 0 to 4, and on tier 5 up to a limit between 48 and 49 ms.
   */
  lemma ConservedExactly(tier: TierIndex, limitMs: real)
    ensures AlwaysConserved(tier, limitMs) <==> Roomy(tier, limitMs)
  {
    hide Run, Conserved;
    if Roomy(tier, limitMs) {
      forall feel: Feel, drawn: nat, frames: seq<Frame>, st: Stage, random: nat -> Draw
        | FeelOk(feel) && StageOk(st) && FramesOk(frames) && OneTier(frames, tier)
          && forall i :: 0 <= i < |frames| ==> frames[i].dtMs <= limitMs
        ensures Conserved(Run(Emptied(feel, drawn), frames, st, random))
      {
        LimitedRun(feel, drawn, frames, tier, st, random, limitMs);
      }
    } else {
      RoomyTiers(tier, limitMs);
      NotConserved(limitMs);
    }
  }

  lemma LimitedRun(feel: Feel, drawn: nat, frames: seq<Frame>, tier: TierIndex, st: Stage, random: nat -> Draw, limitMs: real)
    requires FeelOk(feel) && StageOk(st) && FramesOk(frames) && OneTier(frames, tier) && Roomy(tier, limitMs)
    requires forall i :: 0 <= i < |frames| ==> frames[i].dtMs <= limitMs
    ensures Conserved(Run(Emptied(feel, drawn), frames, st, random))
  {
    hide Roomy, Run;
    forall i | 0 <= i < |frames|
      ensures Roomy(tier, frames[i].dtMs)
    {
      RoomyShrinks(tier, frames[i].dtMs, limitMs);
    }
    DropletsConserved(feel, drawn, frames, tier, st, random);
  }
}
