/** What an unmodified client reports against what the clamp allows. */
module HonestPour {
  import opened Numbers
  import opened Sim
  import opened RigModel
  import opened RigFlight
  import opened Conservation
  import opened Clamping

  // ---- the two clocks, read off the frames -------------------------------------------------

  /** The hold a list of frames adds up to: open frames count until the hard stop is reached. */
  function Held(frames: seq<Frame>): real
  {
    if frames == [] then 0.0
    else
      var f, before := frames[|frames| - 1], Held(frames[..|frames| - 1]);
      if f.pouring && before < MAX_POUR_MS then Min(before + f.dtMs, MAX_POUR_MS) else before
  }

  /** The lean-weighted seconds of one frame. */
  function LeanGain(f: Frame): real { FlowOver(f.Dt(), Min(Abs(f.lean), 1.0)) }

  /** The lean-weighted seconds of the frames that count. */
  function Leaned(frames: seq<Frame>): real
  {
    if frames == [] then 0.0
    else
      var f, before := frames[|frames| - 1], frames[..|frames| - 1];
      Leaned(before) + if f.pouring && Held(before) < MAX_POUR_MS then LeanGain(f) else 0.0
  }

  /** What the rig's clock and tilt meter read after any frames: the hold, and six units per lean-weighted second. */
  lemma {:induction false} MetersReadFrames(feel: Feel, drawn: nat, frames: seq<Frame>, st: Stage, random: nat -> Draw)
    requires FramesOk(frames) && st.height > 0.0
    ensures var s := Run(Emptied(feel, drawn), frames, st, random);
      && s.holdMs == Held(frames) && s.tiltEnergy == 6.0 * Leaned(frames)
      && (s.finished <==> Held(frames) >= MAX_POUR_MS)
  {
    hide Step;
    if frames != [] {
      var n := |frames| - 1;
      MetersReadFrames(feel, drawn, frames[..n], st, random);
      StepScalars(Run(Emptied(feel, drawn), frames[..n], st, random), frames[n], st, random);
      TiltGainBounds(frames[n]);
    }
  }

  // ---- droplets --------------------------------------------------------------------------

  /**
   * Released droplets, and the fraction waiting to be released, against the hold clock. At the hard
   * stop the last frame may have poured up to 50 ms past the clock.
   */
  predicate Metered(s: State, flow: int)
  {
    1000.0 * (s.spawned as real + s.spawnAcc) <= flow as real * (if s.finished then 15050.0 else s.holdMs)
  }

  /** Nothing lands or flies that was not released: overwriting a slot can only lose droplets. */
  predicate NoneInvented(s: State)
    requires |s.slots| == MAX_BLOBS
  {
    s.dropletsLanded + InFlight(s.slots, |s.slots|) <= s.spawned
  }

  lemma {:induction false} SpawnMetered(s: State, lean: real, st: Stage, random: nat -> Draw)
    requires |s.slots| == MAX_BLOBS && s.cursor < MAX_BLOBS
    ensures var r := SpawnAll(s, lean, st, random);
      && r.spawned as real + r.spawnAcc == s.spawned as real + s.spawnAcc
      && (s.spawnAcc >= 0.0 ==> r.spawnAcc >= 0.0)
      && InFlight(r.slots, |r.slots|) - r.spawned <= InFlight(s.slots, |s.slots|) - s.spawned
    decreases Floor(s.spawnAcc)
  {
    if s.spawnAcc >= 1.0 {
      InFlightUpdate(s.slots, s.cursor, Droplet(random(s.drawn), lean, s.feel.radius, st), |s.slots|);
      SpawnMetered(SpawnOne(s, lean, st, random), lean, st, random);
    }
  }

  lemma PourMetered(s: State, f: Frame, st: Stage, random: nat -> Draw)
    requires |s.slots| == MAX_BLOBS && s.cursor < MAX_BLOBS && s.spawnAcc >= 0.0 && f.dtMs >= 0.0
    ensures var r := Pour(s, f, st, random);
      && r.spawned as real + r.spawnAcc <=
           s.spawned as real + s.spawnAcc + (if Open(s, f) then f.SpawnGain() else 0.0)
      && r.dropletsLanded == s.dropletsLanded && r.peakSq == s.peakSq && r.spawnAcc >= 0.0
      && InFlight(r.slots, |r.slots|) - r.spawned <= InFlight(s.slots, |s.slots|) - s.spawned
  {
    if Open(s, f) {
      SpawnGainNonNeg(f);
      SpawnMetered(Filled(s, f), f.lean, st, random);
    }
  }

  lemma StepNoneInvented(s: State, f: Frame, st: Stage, random: nat -> Draw)
    requires |s.slots| == MAX_BLOBS && s.cursor < MAX_BLOBS && st.height > 0.0
    requires s.spawnAcc >= 0.0 && FrameOk(f) && NoneInvented(s)
    ensures NoneInvented(Step(s, f, st, random)) && Step(s, f, st, random).spawnAcc >= 0.0
  {
    hide StepSlot, TallyUpTo, SpawnAll;
    PourMetered(s, f, st, random);
    IntegrateCounts(Pour(s, f, st, random), EnvOf(s, f, st));
  }

  lemma StepMetered(s: State, f: Frame, st: Stage, random: nat -> Draw)
    requires |s.slots| == MAX_BLOBS && s.cursor < MAX_BLOBS && st.height > 0.0
    requires ClockOk(s) && s.spawnAcc >= 0.0 && FrameOk(f) && Metered(s, Flow(f.tier))
    ensures Metered(Step(s, f, st, random), Flow(f.tier)) && ClockOk(Step(s, f, st, random))
  {
    hide Step, Pour;
    StepScalars(s, f, st, random);
    PourMetered(s, f, st, random);
    if Open(s, f) {
      assert Flow(f.tier) >= 0;
      MeteredFrame(s.spawned as real + s.spawnAcc, Flow(f.tier) as real, s.holdMs, f.dtMs, f.Dt(), f.SpawnGain());
    }
  }

  /** One open frame: flow * dt more, while the clock gains at least 1000 * dt. */
  lemma MeteredFrame(released: real, flow: real, holdMs: real, dtMs: real, dt: real, gain: real)
    requires flow >= 0.0 && 0.0 <= 1000.0 * dt && 1000.0 * dt <= dtMs && 1000.0 * dt <= 50.0 && holdMs < 15000.0
    requires 1000.0 * released <= flow * holdMs && gain == FlowOver(dt, flow)
    ensures 1000.0 * (released + gain) <= flow * (holdMs + dtMs)
    ensures 1000.0 * (released + gain) <= flow * 15050.0
  {
    MulLe(holdMs + 1000.0 * dt, holdMs + dtMs, flow);
    MulLe(holdMs + 1000.0 * dt, 15050.0, flow);
    assert flow * (holdMs + 1000.0 * dt) == flow * holdMs + 1000.0 * gain;
  }

  lemma {:induction false} RunMetered(
      feel: Feel, drawn: nat, frames: seq<Frame>, tier: TierIndex, st: Stage, random: nat -> Draw)
    requires st.height > 0.0 && FramesOk(frames) && OneTier(frames, tier)
    ensures var s := Run(Emptied(feel, drawn), frames, st, random);
      ClockOk(s) && s.spawnAcc >= 0.0 && Metered(s, Flow(tier)) && NoneInvented(s)
  {
    hide Step;
    var s0 := Emptied(feel, drawn);
    if frames == [] {
      NoneInFlight(s0.slots, |s0.slots|);
    } else {
      var n := |frames| - 1;
      RunMetered(feel, drawn, frames[..n], tier, st, random);
      StepMetered(Run(s0, frames[..n], st, random), frames[n], st, random);
      StepNoneInvented(Run(s0, frames[..n], st, random), frames[n], st, random);
    }
  }

  /** The clamp's tolerance absorbs the floored millisecond and the frame that runs into the hard stop. */
  lemma DropletTolerance(spawned: int, acc: real, flow: int, holdMs: real, finished: bool)
    requires spawned >= 0 && acc >= 0.0 && 10 <= flow <= 34 && 0.0 <= holdMs <= 15000.0
    requires finished ==> holdMs == 15000.0
    requires 1000.0 * (spawned as real + acc) <= flow as real * (if finished then 15050.0 else holdMs)
    ensures spawned <= MaxDroplets(flow as real, Floor(holdMs) as real / 1000.0)
  {
    var f, h := flow as real, Floor(holdMs) as real;
    assert 1000.0 * spawned as real <= f * (if finished then 15050.0 else holdMs);
    if finished {
      MulLe(15050.0, 17250.0, f);
      assert f * (h / 1000.0) * DROPLET_TOLERANCE == f * 17.25;
      FloorIsGreatest(spawned, f * 17.25);
      CeilBounds(f * 17.25);
    } else if h < 7.0 {
      MulLe(holdMs, 8.0, f);
      MulLe(f, 34.0, 8.0);
      assert spawned == 0;
      MulNonNeg(f, h / 1000.0 * DROPLET_TOLERANCE);
      assert f * (h / 1000.0) * DROPLET_TOLERANCE == f * (h / 1000.0 * DROPLET_TOLERANCE);
    } else {
      MulLe(holdMs, 1.15 * h, f);
      assert f * (h / 1000.0) * DROPLET_TOLERANCE == f * (1.15 * h) / 1000.0;
      CeilBounds(f * (h / 1000.0) * DROPLET_TOLERANCE);
    }
  }

  /** telemetryOf: the counters, with the hold floored to a whole millisecond. */
  function TelemetryOf(s: State, peakVelocity: real): Telemetry
  {
    Telemetry(s.dropletsLanded as real, peakVelocity, s.tiltEnergy, Floor(s.holdMs) as real)
  }

  /** Whatever the press pattern, the counters fit the ceilings of the whole milliseconds reported. */
  lemma HonestCounters(feel: Feel, drawn: nat, frames: seq<Frame>, tier: TierIndex, st: Stage, random: nat -> Draw)
    requires st.height > 0.0 && FramesOk(frames) && OneTier(frames, tier)
    ensures var s := Run(Emptied(feel, drawn), frames, st, random);
      && 0.0 <= Floor(s.holdMs) as real <= MAX_POUR_MS
      && s.dropletsLanded <= MaxDroplets(Flow(tier) as real, Floor(s.holdMs) as real / 1000.0)
  {
    hide Run;
    var s := Run(Emptied(feel, drawn), frames, st, random);
    RunMetered(feel, drawn, frames, tier, st, random);
    assert 10 <= Flow(tier) <= 34;
    DropletTolerance(s.spawned, s.spawnAcc, Flow(tier), s.holdMs, s.finished);
    FloorMonotone(0.0, s.holdMs);
    FloorMonotone(s.holdMs, 15000.0);
  }

  /**
   * An honest pour is never flagged for its droplets or its hold: for every press pattern and frame
   * schedule of one tier, whatever the draws, once the wall clock covers the reported hold.
   */
  lemma HonestDropletsAndHold(
      feel: Feel, drawn: nat, frames: seq<Frame>, tier: TierIndex, st: Stage, random: nat -> Draw,
      peakVelocity: real, wallClockMs: real, root: Root)
    requires st.height > 0.0 && FramesOk(frames) && OneTier(frames, tier)
    requires wallClockMs >= Floor(Held(frames)) as real
    ensures var t := TelemetryOf(Run(Emptied(feel, drawn), frames, st, random), peakVelocity);
      var r := Clamp(t.AsClaim(), tier, wallClockMs, root);
      && HoldMs !in r.violations && DropletsLanded !in r.violations
      && r.telemetry.holdMs == t.holdMs && r.telemetry.dropletsLanded == t.dropletsLanded
  {
    hide Run, MaxDroplets;
    MetersReadFrames(feel, drawn, frames, st, random);
    HonestCounters(feel, drawn, frames, tier, st, random);
    KeptIsUnlisted(TelemetryOf(Run(Emptied(feel, drawn), frames, st, random), peakVelocity).AsClaim(),
                   tier, wallClockMs, root);
  }

  /** On a wall clock that covers it the hold is kept, and the other ceilings are those of the hold itself. */
  lemma KeptIsUnlisted(raw: Claim, tier: TierIndex, wallClockMs: real, root: Root)
    requires raw.holdMs.Finite? && 0.0 <= raw.holdMs.v <= Min(wallClockMs, MAX_POUR_MS)
    ensures var r := Clamp(raw, tier, wallClockMs, root);
      var c := TelemetryCeilings(tier, raw.holdMs.v / 1000.0, root);
      && r.telemetry.holdMs == raw.holdMs.v && HoldMs !in r.violations
      && (DropletsLanded in r.violations <==> Safe(raw.dropletsLanded) > c.maxDroplets as real)
      && (PeakVelocity in r.violations <==> Safe(raw.peakVelocity) > c.maxSpeed)
      && (TiltEnergy in r.violations <==> Safe(raw.tiltEnergy) > c.maxTilt)
      && r.telemetry.dropletsLanded == Min(Safe(raw.dropletsLanded), c.maxDroplets as real)
  {
    var r := Clamp(raw, tier, wallClockMs, root);
    var c := TelemetryCeilings(tier, raw.holdMs.v / 1000.0, root);
    var d := Overclaim(DropletsLanded, raw.dropletsLanded, c.maxDroplets as real);
    var p := Overclaim(PeakVelocity, raw.peakVelocity, c.maxSpeed);
    var q := Overclaim(TiltEnergy, raw.tiltEnergy, c.maxTilt);
    assert r.violations == d + p + q;
  }

  // ---- tilt ------------------------------------------------------------------------------

  /** Before the hard stop the meter gains at most six units per second of hold; at the stop, 0.3 more. */
  predicate TiltMetered(s: State)
  {
    && 0.0 <= s.tiltEnergy
    && (!s.finished ==> s.tiltEnergy <= 6.0 * (s.holdMs / 1000.0))
    && (s.finished ==> s.tiltEnergy <= 90.0 + 0.3)
  }

  /** One frame of the meter: `gain` lean-weighted seconds in `dt` seconds of a frame of dtMs. */
  lemma TiltMeterStep(s: State, r: State, open: bool, gain: real, dt: real, dtMs: real)
    requires ClockOk(s) && TiltMetered(s) && (open ==> !s.finished)
    requires 0.0 <= gain <= 6.0 * dt && 1000.0 * dt <= dtMs && 1000.0 * dt <= 50.0
    requires r.holdMs == (if open then Min(s.holdMs + dtMs, 15000.0) else s.holdMs)
    requires r.tiltEnergy == (if open then s.tiltEnergy + gain else s.tiltEnergy)
    requires r.finished == (r.holdMs >= 15000.0)
    ensures ClockOk(r) && TiltMetered(r)
  {
  }

  /** Six units per lean-weighted second, and never more than six per second. */
  lemma TiltGainBounds(f: Frame)
    requires f.dtMs >= 0.0
    ensures f.TiltGain() == 6.0 * LeanGain(f)
    ensures 0.0 <= LeanGain(f) <= f.Dt()
  {
    LeanProduct(Min(Abs(f.lean), 1.0), f.Dt());
  }

  lemma LeanProduct(lean: real, dt: real)
    requires 0.0 <= lean <= 1.0 && dt >= 0.0
    ensures TiltOver(lean, dt) == 6.0 * FlowOver(dt, lean)
    ensures 0.0 <= FlowOver(dt, lean) <= dt
  {
    Shrink(dt, lean);
  }

  lemma StepTiltMetered(s: State, f: Frame, st: Stage, random: nat -> Draw)
    requires |s.slots| == MAX_BLOBS && s.cursor < MAX_BLOBS && st.height > 0.0
    requires ClockOk(s) && TiltMetered(s) && FrameOk(f)
    ensures ClockOk(Step(s, f, st, random)) && TiltMetered(Step(s, f, st, random))
  {
    hide Step;
    StepScalars(s, f, st, random);
    TiltGainBounds(f);
    TiltMeterStep(s, Step(s, f, st, random), Open(s, f), f.TiltGain(), f.Dt(), f.dtMs);
  }

  /** The tilt bound over every run, for every lean. */
  lemma {:induction false} TiltBound(feel: Feel, drawn: nat, frames: seq<Frame>, st: Stage, random: nat -> Draw)
    requires FramesOk(frames) && st.height > 0.0
    ensures var s := Run(Emptied(feel, drawn), frames, st, random);
      ClockOk(s) && TiltMetered(s)
  {
    if frames != [] {
      var n := |frames| - 1;
      TiltBound(feel, drawn, frames[..n], st, random);
      StepTiltMetered(Run(Emptied(feel, drawn), frames[..n], st, random), frames[n], st, random);
    }
  }

  /**
   * The exact tilt condition, on the frames alone: an honest pour is unflagged for tilt if and only if
   * its lean-weighted open time fits the whole milliseconds of its hold.
   */
  lemma TiltFlaggedExactly(
      feel: Feel, drawn: nat, frames: seq<Frame>, tier: TierIndex, st: Stage, random: nat -> Draw,
      peakVelocity: real, wallClockMs: real, root: Root)
    requires FramesOk(frames) && st.height > 0.0
    requires wallClockMs >= Floor(Held(frames)) as real
    ensures var t := TelemetryOf(Run(Emptied(feel, drawn), frames, st, random), peakVelocity);
      TiltEnergy !in Clamp(t.AsClaim(), tier, wallClockMs, root).violations
      <==> 1000.0 * Leaned(frames) <= Floor(Held(frames)) as real
  {
    var s := Run(Emptied(feel, drawn), frames, st, random);
    MetersReadFrames(feel, drawn, frames, st, random);
    TiltBound(feel, drawn, frames, st, random);
    FloorMonotone(0.0, s.holdMs);
    FloorMonotone(s.holdMs, 15000.0);
    KeptIsUnlisted(TelemetryOf(s, peakVelocity).AsClaim(), tier, wallClockMs, root);
  }

  lemma RunOne(s: State, f: Frame, st: Stage, random: nat -> Draw)
    requires |s.slots| == MAX_BLOBS && s.cursor < MAX_BLOBS && st.height > 0.0
    ensures Run(s, [f], st, random) == Step(s, f, st, random)
  {
  }

  /** A full lean over one ordinary 16.5 ms frame is already flagged: the clamp reads the floored hold. */
  lemma FullLeanFlagged(feel: Feel, drawn: nat, st: Stage, random: nat -> Draw, tier: TierIndex, drag: real, root: Root)
    requires st.height > 0.0 && 0.0 < drag <= 1.0
    ensures var s := Run(Emptied(feel, drawn), [Frame(true, 1.0, tier, 16.5, drag)], st, random);
      TiltEnergy in Clamp(TelemetryOf(s, 0.0).AsClaim(), tier, 1000.0, root).violations
  {
    var f := Frame(true, 1.0, tier, 16.5, drag);
    assert [f][..0] == [];
    assert Held([]) == 0.0 && Leaned([]) == 0.0;
    assert Held([f]) == 16.5 && Leaned([f]) == 0.0165;
    TiltFlaggedExactly(feel, drawn, [f], tier, st, random, 0.0, 1000.0, root);
  }

  /** A frame of 49.9 ms at full lean. */
  function Leant(tier: TierIndex, drag: real): Frame { Frame(true, 1.0, tier, 49.9, drag) }

  function LeantFor(n: nat, tier: TierIndex, drag: real): seq<Frame> { seq(n, _ => Leant(tier, drag)) }

  lemma {:induction false} LeantRun(feel: Feel, drawn: nat, n: nat, tier: TierIndex, drag: real, st: Stage, random: nat -> Draw)
    requires n <= 301 && st.height > 0.0
    ensures var s := Run(Emptied(feel, drawn), LeantFor(n, tier, drag), st, random);
      && s.holdMs == Min(49.9 * n as real, 15000.0) && s.tiltEnergy == 0.2994 * n as real && (s.finished <==> n == 301)
  {
    hide Step;
    if n > 0 {
      LeantRun(feel, drawn, n - 1, tier, drag, st, random);
      assert LeantFor(n, tier, drag)[..n - 1] == LeantFor(n - 1, tier, drag);
      StepScalars(Run(Emptied(feel, drawn), LeantFor(n - 1, tier, drag), st, random), Leant(tier, drag), st, random);
      assert Leant(tier, drag).TiltGain() == 0.2994;
    }
  }

  /** The frame that runs into the hard stop is integrated whole: a full lean to the stop reads over 90.1, and is flagged. */
  lemma HardStopOverruns(feel: Feel, drawn: nat, tier: TierIndex, drag: real, st: Stage, random: nat -> Draw, root: Root)
    requires st.height > 0.0 && 0.0 < drag <= 1.0
    ensures var s := Run(Emptied(feel, drawn), LeantFor(301, tier, drag), st, random);
      && s.finished && s.holdMs == 15000.0 && s.tiltEnergy > 90.1
      && TiltEnergy in Clamp(TelemetryOf(s, 0.0).AsClaim(), tier, 15020.0, root).violations
  {
    LeantRun(feel, drawn, 301, tier, drag, st, random);
    KeptIsUnlisted(TelemetryOf(Run(Emptied(feel, drawn), LeantFor(301, tier, drag), st, random), 0.0).AsClaim(),
                   tier, 15020.0, root);
  }
}
