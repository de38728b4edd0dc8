/** Exactly how long one press must be for its peak velocity to be safe. */
module PressLength {
  import opened Numbers
  import opened Sim
  import opened RigModel
  import opened RigFlight
  import opened Conservation
  import opened Clamping
  import opened HonestPeak
  import opened FallingBlob
  import HonestPour

  /** No droplet has left the spout: nothing flies and no speed was ever sampled. */
  predicate Dry(s: State)
    requires |s.slots| == MAX_BLOBS
  {
    s.spawned == 0 ==> s.peakSq == 0.0
  }

  lemma StepDry(s: State, f: Frame, st: Stage, random: nat -> Draw)
    requires |s.slots| == MAX_BLOBS && s.cursor < MAX_BLOBS && st.height > 0.0
    requires s.spawnAcc >= 0.0 && FrameOk(f) && HonestPour.NoneInvented(s) && Dry(s)
    ensures Dry(Step(s, f, st, random))
  {
    hide StepSlot, SpeedSq, SpawnAll, Fall;
    var p, e, r := Pour(s, f, st, random), EnvOf(s, f, st), Step(s, f, st, random);
    HonestPour.PourMetered(s, f, st, random);
    PourSpawns(s, f, st, random);
    if r.spawned == 0 {
      NoneFlying(p.slots, |p.slots|);
      TallyCapped(p.slots, |p.slots|, Tally(0, 0, p.dropletsLanded, p.peakSq), e, 0.0);
      TallyPeak(p.slots, |p.slots|, Tally(0, 0, p.dropletsLanded, p.peakSq), e);
    }
  }

  lemma {:induction false} NoneFlying(slots: seq<Slot>, n: nat)
    requires n <= |slots| && InFlight(slots, n) == 0
    ensures forall i :: 0 <= i < n ==> !slots[i].Airborne()
  {
    if n > 0 {
      NoneFlying(slots, n - 1);
    }
  }

  lemma PourSpawns(s: State, f: Frame, st: Stage, random: nat -> Draw)
    requires |s.slots| == MAX_BLOBS && s.cursor < MAX_BLOBS && st.height > 0.0
    ensures Pour(s, f, st, random).spawned >= s.spawned
    ensures Step(s, f, st, random).spawned == Pour(s, f, st, random).spawned
  {
    if Open(s, f) {
      SpawnAllSpawns(Filled(s, f), f.lean, st, random);
    }
  }

  lemma {:induction false} SpawnAllSpawns(s: State, lean: real, st: Stage, random: nat -> Draw)
    requires |s.slots| == MAX_BLOBS && s.cursor < MAX_BLOBS
    ensures SpawnAll(s, lean, st, random).spawned >= s.spawned
    decreases Floor(s.spawnAcc)
  {
    if s.spawnAcc >= 1.0 {
      SpawnAllSpawns(SpawnOne(s, lean, st, random), lean, st, random);
    }
  }

  lemma {:induction false} RunDry(feel: Feel, drawn: nat, frames: seq<Frame>, tier: TierIndex, st: Stage, random: nat -> Draw)
    requires st.height > 0.0 && FramesOk(frames) && OneTier(frames, tier)
    ensures Dry(Run(Emptied(feel, drawn), frames, st, random))
  {
    hide Step;
    if frames != [] {
      var n, s0 := |frames| - 1, Emptied(feel, drawn);
      RunDry(feel, drawn, frames[..n], tier, st, random);
      HonestPour.RunMetered(feel, drawn, frames[..n], tier, st, random);
      StepDry(Run(s0, frames[..n], st, random), frames[n], st, random);
    }
  }

  /** Too short for a droplet, or long enough for the fastest one. */
  predicate PressFits(tier: TierIndex, holdMs: real)
  {
    || Flow(tier) as real * holdMs < 1000.0
    || SpeedCap(SampleAge(holdMs)) <= SquaredCeiling(Floor(holdMs) as real / 1000.0)
  }

  /** Every press fits on tiers 0 to 3, and every press of 37 ms or more; 36.99 ms does not on tiers 4 and 5. */
  lemma WhichPressFits(tier: TierIndex, holdMs: real)
    ensures holdMs >= 37.0 || tier <= 3 ==> PressFits(tier, holdMs)
    ensures tier >= 4 ==> !PressFits(tier, 36.99)
  {
    hide SpeedCap, SquaredCeiling;
    if holdMs >= 37.0 {
      Headroom(holdMs);
    } else if tier <= 3 {
      assert 0 <= Flow(tier) <= 24;
      FewDroplets(Flow(tier) as real, holdMs);
    }
    TooFast();
  }

  lemma FewDroplets(flow: real, holdMs: real)
    requires 0.0 <= flow <= 24.0 && holdMs < 37.0
    ensures flow * holdMs < 1000.0
  {
    MulLe(holdMs, 37.0, flow);
    MulLe(flow, 24.0, 37.0);
  }

  lemma TooFast()
    ensures SampleAge(36.99) == 0.03699 && Floor(36.99) == 36
    ensures SpeedCap(0.03699) > SquaredCeiling(36 as real / 1000.0)
  {
    assert SpeedCap(0.03699) == 171.786 * 171.786 + 8100.0;
    assert SquaredCeiling(0.036) == 1.21 * (170.4 * 170.4 + 2025.0);
  }

  /** One press, and what came before and after it. */
  datatype Hold = Hold(before: seq<Frame>, held: seq<Frame>, after: seq<Frame>)
  {
    function Frames(): seq<Frame> { before + held + after }
    predicate Ok(tier: TierIndex)
    {
      FramesOk(Frames()) && OneTier(Frames(), tier)
      && AllPouring(before, false) && AllPouring(held, true) && AllPouring(after, false)
    }
  }

  /** Every one-press pour of a tier that holds for holdMs keeps under its squared speed ceiling. */
  ghost predicate PressAlwaysFits(tier: TierIndex, holdMs: real)
  {
    forall feel: Feel, drawn: nat, press: Hold, st: Stage, random: nat -> Draw
      :: FeelOk(feel) && StageOk(st) && press.Ok(tier)
         && HonestPour.Held(press.Frames()) == holdMs
         ==> Run(Emptied(feel, drawn), press.Frames(), st, random).peakSq <= SquaredCeiling(Floor(holdMs) as real / 1000.0)
  }

  lemma OnePress(feel: Feel, drawn: nat, press: Hold, tier: TierIndex, st: Stage, random: nat -> Draw)
    requires FeelOk(feel) && StageOk(st) && press.Ok(tier)
    requires PressFits(tier, HonestPour.Held(press.Frames()))
    ensures var s := Run(Emptied(feel, drawn), press.Frames(), st, random);
      && s.holdMs == HonestPour.Held(press.Frames())
      && s.peakSq <= SquaredCeiling(Floor(s.holdMs) as real / 1000.0)
  {
    hide Run, SpeedCap, SquaredCeiling, HonestPour.Held;
    HonestPour.MetersReadFrames(feel, drawn, press.Frames(), st, random);
    OneHoldPeak(feel, drawn, press.before, press.held, press.after, st, random);
    if Flow(tier) as real * HonestPour.Held(press.Frames()) < 1000.0 {
      NoDroplet(feel, drawn, press.Frames(), tier, st, random);
      CeilingNonNeg(Floor(HonestPour.Held(press.Frames())) as real / 1000.0);
    }
  }

  /** A pour too short to release a droplet reports no speed at all, on any stage and in any number of presses. */
  lemma NoDroplet(feel: Feel, drawn: nat, frames: seq<Frame>, tier: TierIndex, st: Stage, random: nat -> Draw)
    requires st.height > 0.0 && FramesOk(frames) && OneTier(frames, tier)
    requires Flow(tier) as real * HonestPour.Held(frames) < 1000.0
    ensures Run(Emptied(feel, drawn), frames, st, random).peakSq == 0.0
  {
    hide Run, HonestPour.Held;
    HonestPour.MetersReadFrames(feel, drawn, frames, st, random);
    HonestPour.RunMetered(feel, drawn, frames, tier, st, random);
    RunDry(feel, drawn, frames, tier, st, random);
    assert 10 <= Flow(tier);
    NotStopped(Flow(tier) as real, HonestPour.Held(frames));
  }

  lemma NotStopped(flow: real, holdMs: real)
    requires flow >= 10.0 && flow * holdMs < 1000.0 && holdMs >= 0.0
    ensures holdMs < 15000.0
  {
    MulLe(10.0, flow, holdMs);
  }

  lemma CeilingNonNeg(holdS: real)
    ensures SquaredCeiling(holdS) >= 0.0
  {
    MulNonNegSquare(MaxFall(holdS));
  }

  /** A single fully leant frame, with draws close enough to one, goes over. */
  lemma PressTooFast(tier: TierIndex, holdMs: real)
    requires !PressFits(tier, holdMs)
    ensures !PressAlwaysFits(tier, holdMs)
  {
    hide SpeedCap, SquaredCeiling, SimSpeedSq, Run, NearSpeedSq, Dragged, Sunk;
    if holdMs >= 37.0 {
      Headroom(holdMs);
    }
    var t, ceiling := holdMs / 1000.0, SquaredCeiling(Floor(holdMs) as real / 1000.0);
    assert 10 <= Flow(tier) <= 34;
    PressLength(Flow(tier) as real, holdMs);
    var u := NearlyOne(120.0 + 1400.0 * t, SpeedCap(t) - ceiling);
    NearlyCap(t, u);
    var f := Frame(true, 1.0, tier, holdMs, 1.0);
    var press := Hold([], [f], []);
    var random: nat -> Draw := _ => FastDraw(u);
    assert press.Frames() == [f];
    assert HonestPour.Held([f]) == holdMs by {
      assert [f][..0] == [];
      assert HonestPour.Held([]) == 0.0;
    }
    FirstFrame(TierFeel(tier), 0, f, Stage(900.0, 900.0), random, u);
    assert press.Ok(tier);
  }

  lemma PressLength(flow: real, holdMs: real)
    requires 10.0 <= flow <= 34.0 && holdMs < 37.0 && flow * holdMs >= 1000.0
    ensures holdMs >= 29.0 && 1.0 <= FlowOver(holdMs / 1000.0, flow) < 2.0
  {
    if holdMs < 29.0 {
      MulLe(holdMs, 29.0, flow);
      MulLe(flow, 34.0, 29.0);
    }
    MulLe(holdMs, 37.0, flow);
    MulLe(flow, 34.0, 37.0);
    assert FlowOver(holdMs / 1000.0, flow) == flow * holdMs / 1000.0;
  }

  /** The squared speed at a fraction u of the top spawn speeds, where the top speed downward is a. */
  function NearSpeedSq(a: real, u: real): real
  {
    (a - 120.0 * (1.0 - u)) * (a - 120.0 * (1.0 - u)) + 90.0 * u * (90.0 * u)
  }

  /** A draw so close to one that less than `gap` of the squared speed is missing. */
  lemma NearlyOne(a: real, gap: real) returns (u: Unit)
    requires 120.0 <= a <= 172.0 && gap > 0.0
    ensures NearSpeedSq(a, u) > a * a + 8100.0 - gap
  {
    hide NearSpeedSq;
    var e := Min(0.5, gap / 60000.0);
    u := 1.0 - e;
    Missing(a, e, u);
  }

  lemma Missing(a: real, e: real, u: real)
    requires 120.0 <= a <= 172.0 && 0.0 < e <= 0.5 && u == 1.0 - e
    ensures NearSpeedSq(a, u) > a * a + 8100.0 - 60000.0 * e
  {
    assert (a - 120.0 * e) * (a - 120.0 * e) == a * a - 240.0 * (a * e) + 14400.0 * (e * e);
    assert 90.0 * (1.0 - e) * (90.0 * (1.0 - e)) == 8100.0 - 16200.0 * e + 8100.0 * (e * e);
    MulLe(a, 172.0, e);
    MulPos(e, e);
  }

  lemma NearlyCap(t: real, u: Unit)
    ensures var a := 120.0 + 1400.0 * t;
      && SpeedCap(t) == a * a + 8100.0
      && SimSpeedSq(Dragged(90.0 * u, 1.0), 120.0 * u + 1400.0 * t) == NearSpeedSq(a, u)
  {
  }

  /**
   * The exact press length. One uninterrupted press of holdMs on a tier is safe for every schedule, lean,
   * stage and draw if and only if it is too short to release a droplet or long enough for the fastest one.
   */
  lemma PressExactly(tier: TierIndex, holdMs: real)
    ensures PressAlwaysFits(tier, holdMs) <==> PressFits(tier, holdMs)
  {
    hide Run, SquaredCeiling, PressFits;
    if PressFits(tier, holdMs) {
      forall feel: Feel, drawn: nat, press: Hold, st: Stage, random: nat -> Draw
        | FeelOk(feel) && StageOk(st) && press.Ok(tier)
          && HonestPour.Held(press.Frames()) == holdMs
        ensures Run(Emptied(feel, drawn), press.Frames(), st, random).peakSq <= SquaredCeiling(Floor(holdMs) as real / 1000.0)
      {
        OnePress(feel, drawn, press, tier, st, random);
      }
    } else {
      PressTooFast(tier, holdMs);
    }
  }

  /** A press that fits is never flagged for its peak velocity, once the wall clock covers the hold. */
  lemma FittingPressUnflagged(
      feel: Feel, drawn: nat, press: Hold, tier: TierIndex, st: Stage, random: nat -> Draw,
      peakVelocity: real, wallClockMs: real, root: Root)
    requires FeelOk(feel) && StageOk(st) && press.Ok(tier)
    requires var s := Run(Emptied(feel, drawn), press.Frames(), st, random);
      && PressFits(tier, HonestPour.Held(press.Frames())) && wallClockMs >= Floor(HonestPour.Held(press.Frames())) as real
      && peakVelocity >= 0.0 && peakVelocity * peakVelocity == s.peakSq
      && ExactAt(root, MaxSpeedSq(Floor(HonestPour.Held(press.Frames())) as real / 1000.0))
    ensures var t := HonestPour.TelemetryOf(Run(Emptied(feel, drawn), press.Frames(), st, random), peakVelocity);
      PeakVelocity !in Clamp(t.AsClaim(), tier, wallClockMs, root).violations
  {
    hide Run, PressFits, MaxSpeedSq;
    HonestPour.TiltBound(feel, drawn, press.Frames(), st, random);
    OnePress(feel, drawn, press, tier, st, random);
    PeakFlaggedExactly(Run(Emptied(feel, drawn), press.Frames(), st, random), peakVelocity, tier, wallClockMs, root);
  }
}
