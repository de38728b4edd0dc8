/** Exactly how long a pour of any number of presses must be for its peak velocity to be safe. */
module ManyPresses {
  import opened Numbers
  import opened Sim
  import opened RigModel
  import opened RigFlight
  import opened Conservation
  import opened Clamping
  import opened HonestPeak
  import opened FallingBlob
  import HonestPour
  import PressLength

  // ---- no blob is faster than its fall -----------------------------------------------------

  /** The speed a blob can have at the floor, rounded up: the square root of 14400 + 2800 * 558. */
  const FLOOR_SPEED: real := 1255.71

  /** The squared speed no sample exceeds: a blob at the floor, one capped frame more, and the most drift. */
  function TopSq(): real { (FLOOR_SPEED + 70.0) * (FLOOR_SPEED + 70.0) + 8100.0 }

  /** What gravity has put into a blob is paid for by its fall; the rest is what it left the spout with. */
  predicate Spent(q: Slot) { q.vy * q.vy <= 14400.0 + 2800.0 * (q.y - SPOUT) }

  predicate AllSpent(slots: seq<Slot>, st: Stage)
    requires st.height > 0.0
  {
    forall i :: 0 <= i < |slots| && slots[i].Airborne() ==> Spent(ToSim(slots[i], st))
  }

  /** An Euler step never gains more than the fall it makes. */
  lemma EnergyStep(vy: real, y: real, v: real, dt: real)
    requires vy >= 0.0 && dt >= 0.0 && v == vy + 1400.0 * dt
    requires vy * vy <= 14400.0 + 2800.0 * (y - SPOUT)
    ensures v * v <= 14400.0 + 2800.0 * (y + v * dt - SPOUT)
  {
    var a, b := vy * dt, dt * dt;
    assert v * v == vy * vy + 2800.0 * a + 1960000.0 * b;
    assert v * dt == a + 1400.0 * b;
    MulNonNeg(dt, dt);
  }

  lemma FallSpends(q: Slot, w: real, dt: real, drag: real)
    requires Flight(q, w) && Spent(q) && dt >= 0.0
    ensures Spent(SimFall(q, dt, drag))
  {
    EnergyStep(q.vy, q.y, q.vy + 1400.0 * dt, dt);
  }

  /** The speed of a blob at the floor. */
  lemma AtFloor(q: Slot, w: real)
    requires Aloft(q, w) && Spent(q)
    ensures 0.0 <= q.vy <= FLOOR_SPEED
  {
    if q.vy > FLOOR_SPEED {
      SquareStrict(FLOOR_SPEED, q.vy);
    }
  }

  lemma SampledSpeed(q: Slot, w: real, dt: real, drag: real)
    requires Aloft(q, w) && Spent(q) && 0.0 <= dt <= 0.05 && 0.0 < drag <= 1.0
    ensures SimSpeedSq(SimFall(q, dt, drag).vx, SimFall(q, dt, drag).vy) <= TopSq()
  {
    hide Flight, Spent;
    AtFloor(q, w);
    FallKeepsFlight(q, w, dt, drag);
    Drifting(SimFall(q, dt, drag), w);
    UnderTop(SimFall(q, dt, drag).vx, q.vy + 1400.0 * dt);
  }

  lemma Drifting(q: Slot, w: real)
    requires Flight(q, w)
    ensures -90.0 <= q.vx <= 90.0
  {
  }

  lemma UnderTop(vx: real, vy: real)
    requires -90.0 <= vx <= 90.0 && 0.0 <= vy <= FLOOR_SPEED + 70.0
    ensures SimSpeedSq(vx, vy) <= TopSq()
  {
    SquareBand(vx);
    SquareLe(vy, FLOOR_SPEED + 70.0);
  }

  lemma DropletSpent(d: Draw, lean: real, radius: real, st: Stage)
    requires st.height > 0.0
    ensures Spent(ToSim(Droplet(d, lean, radius, st), st))
  {
    DropletScales(d, lean, radius, st);
    SquareLe(120.0 * d.vy, 120.0);
  }

  lemma {:induction false} SpawnSpent(s: State, lean: real, st: Stage, random: nat -> Draw)
    requires st.height > 0.0 && |s.slots| == MAX_BLOBS && s.cursor < MAX_BLOBS && AllSpent(s.slots, st)
    ensures AllSpent(SpawnAll(s, lean, st, random).slots, st)
    decreases Floor(s.spawnAcc)
  {
    hide Spent, Droplet, ToSim;
    if s.spawnAcc >= 1.0 {
      DropletSpent(random(s.drawn), lean, s.feel.radius, st);
      SpawnSpent(SpawnOne(s, lean, st, random), lean, st, random);
    }
  }

  /** One blob through one frame: its sample is under the top, and what stays in the air has paid. */
  lemma BlobSpent(b: Slot, e: Env)
    requires Frameworthy(e) && e.dt <= 0.05 && b.Airborne()
    requires Aloft(ToSim(b, e.st), SimWidth(e.st)) && Spent(ToSim(b, e.st))
    ensures SpeedSq(Fall(b, e), e.st) <= TopSq()
    ensures StepSlot(b, e).Airborne() ==> Spent(ToSim(StepSlot(b, e), e.st))
  {
    hide Spent, Flight, TopSq, SimSpeedSq, SpeedSq;
    StepAirborne(b, e);
    SampledSpeed(ToSim(b, e.st), SimWidth(e.st), e.dt, e.drag);
    FallSpends(ToSim(b, e.st), SimWidth(e.st), e.dt, e.drag);
    SpeedScales(Fall(b, e), e.st);
  }

  /** Every frame, open or closed, keeps every blob paid up and the peak under the top. */
  lemma StepSpent(s: State, f: Frame, st: Stage, random: nat -> Draw)
    requires Inv(s, st) && FrameOk(f) && AllSpent(s.slots, st) && s.peakSq <= TopSq()
    ensures var r := Step(s, f, st, random); AllSpent(r.slots, st) && r.peakSq <= TopSq()
  {
    hide Spent, Aloft, TopSq, StepSlot, SpeedSq, ToSim, Fall, SpawnAll;
    var p, e, r := Pour(s, f, st, random), EnvOf(s, f, st), Step(s, f, st, random);
    PourInv(s, f, st, random);
    if Open(s, f) {
      SpawnSpent(Filled(s, f), f.lean, st, random);
    }
    forall i | 0 <= i < MAX_BLOBS && p.slots[i].Airborne()
      ensures SpeedSq(Fall(p.slots[i], e), st) <= TopSq()
      ensures StepSlot(p.slots[i], e).Airborne() ==> Spent(ToSim(StepSlot(p.slots[i], e), st))
    {
      BlobSpent(p.slots[i], e);
    }
    TallyCapped(p.slots, |p.slots|, Tally(0, 0, p.dropletsLanded, p.peakSq), e, TopSq());
    forall i | 0 <= i < MAX_BLOBS && r.slots[i].Airborne()
      ensures Spent(ToSim(r.slots[i], st))
    {
      StepGroundedOr(p.slots[i], e);
    }
  }

  /** Over every run of any presses no sample exceeds the top. */
  lemma {:induction false} RunSpent(feel: Feel, drawn: nat, frames: seq<Frame>, st: Stage, random: nat -> Draw)
    requires FeelOk(feel) && StageOk(st) && FramesOk(frames)
    ensures var s := Run(Emptied(feel, drawn), frames, st, random);
      AllSpent(s.slots, st) && s.peakSq <= TopSq()
  {
    hide Step, Spent, Aloft;
    if frames != [] {
      var n, s0 := |frames| - 1, Emptied(feel, drawn);
      RunSpent(feel, drawn, frames[..n], st, random);
      EmptiedInv(feel, drawn, st);
      RunInv(s0, frames[..n], st, random);
      StepSpent(Run(s0, frames[..n], st, random), frames[n], st, random);
    }
  }

  lemma TopCovered(holdMs: real)
    requires holdMs >= 777.0
    ensures TopSq() <= SquaredCeiling(Floor(holdMs) as real / 1000.0)
  {
    var h := Floor(holdMs) as real / 1000.0;
    FloorMonotone(777.0, holdMs);
    SquareLe(1207.8, MaxFall(h));
  }

  // ---- two presses -------------------------------------------------------------------------

  const U: Unit := 16383.0 / 16384.0
  const TICKS: nat := 8091

  /** Half of the time before the droplet, less the two milliseconds of the frame that releases it. */
  function WaitMs(tier: TierIndex): real { (1000.0 / Flow(tier) as real - 2.0) / 2.0 }

  /** What is left of the hold when the droplet is out. */
  function LeftMs(tier: TierIndex, holdMs: real): real { holdMs - 1000.0 / Flow(tier) as real }

  predicate Pouring(f: Frame, tier: TierIndex, dtMs: real) { FrameOk(f) && f.pouring && f.tier == tier && f.dtMs == dtMs }

  predicate Pausing(f: Frame, tier: TierIndex) { FrameOk(f) && !f.pouring && f.tier == tier && f.dtMs == 0.1 }

  /**
   * A press just long enough for one droplet; a pause in which it falls almost to the floor, in ticks of
   * a tenth of a millisecond; a frame of the second press that samples it there; and the rest of the hold.
   */
  datatype TwoPresses = TwoPresses(press: seq<Frame>, pause: seq<Frame>, sample: Frame, rest: seq<Frame>)
  {
    function Frames(): seq<Frame> { press + pause + [sample] + rest }

    predicate Ok(tier: TierIndex, holdMs: real)
    {
      && |press| == 3 && |pause| == TICKS && |rest| == 14
      && Pouring(press[0], tier, WaitMs(tier)) && Pouring(press[1], tier, WaitMs(tier))
      && Pouring(press[2], tier, 2.0) && press[2].lean == 1.0
      && (forall i :: 0 <= i < |pause| ==> Pausing(pause[i], tier))
      && Pouring(sample, tier, Min(LeftMs(tier, holdMs), 50.0))
      && (forall i :: 0 <= i < |rest| ==> Pouring(rest[i], tier, Max(LeftMs(tier, holdMs) - 50.0, 0.0) / 14.0))
    }

    predicate NoDrag() { |press| == 3 && press[2].drag == 1.0 && (forall i :: 0 <= i < |pause| ==> pause[i].drag == 1.0) && sample.drag == 1.0 }
  }

  lemma PressGain(tier: TierIndex, dt: real)
    requires 1000.0 * dt == WaitMs(tier)
    ensures var flow := Flow(tier) as real;
      && 13.0 <= WaitMs(tier) <= 49.0 && WaitMs(tier) + WaitMs(tier) + 2.0 == 1000.0 / flow
      && 0.0 <= FlowOver(dt, flow) <= 0.5
      && FlowOver(0.002, flow) > 0.0 && FlowOver(dt, flow) + FlowOver(dt, flow) + FlowOver(0.002, flow) == 1.0
  {
    var flow := Flow(tier) as real;
    assert flow == [10.0, 16.0, 20.0, 24.0, 28.0, 34.0][tier];
    var q := 1000.0 / flow;
    assert q * flow == 1000.0;
    assert dt == (q - 2.0) / 2000.0;
  }

  /** An open frame that does not bring the accumulator to one. */
  lemma WaitFrame(s: State, f: Frame, st: Stage, random: nat -> Draw)
    requires Inv(s, st) && FrameOk(f) && Open(s, f) && s.spawnAcc + f.SpawnGain() < 1.0
    ensures var r := Step(s, f, st, random);
      && Inv(r, st) && r.cursor == s.cursor && r.drawn == s.drawn
      && r.spawnAcc == s.spawnAcc + f.SpawnGain() && r.holdMs == Min(s.holdMs + f.dtMs, 15000.0)
      && (r.finished <==> r.holdMs >= 15000.0)
  {
    hide Integrate, TallyUpTo, StepSlot;
    StepInv(s, f, st, random);
    StepScalars(s, f, st, random);
    IntegrateKeeps(Pour(s, f, st, random), EnvOf(s, f, st));
  }

  /** The rig when the droplet is out and has fallen n ticks of the pause. */
  predicate Afloat(s: State, st: Stage, n: nat, vx: real)
  {
    && Inv(s, st) && s.cursor == 1 && s.spawnAcc == 0.0
    && vx >= 0.0 && Falling(s, st, vx, 120.0 * U + 2.8 + 0.14 * n as real, Deep(n))
  }

  /** How deep the droplet is after n ticks. */
  function Deep(n: nat): real
  {
    SPOUT + (120.0 * U + 2.8) * 0.002 + (120.0 * U + 2.8) * (0.0001 * n as real) + 0.000007 * (n * (n + 1)) as real
  }

  lemma DeepStart()
    ensures Sunk(SPOUT, 120.0 * U, 0.002) == Deep(0)
  {
  }

  lemma DeepNext(n: nat)
    ensures Sunk(Deep(n), 120.0 * U + 2.8 + 0.14 * n as real, 0.0001) == Deep(n + 1)
  {
    assert (n + 1) * (n + 2) == n * (n + 1) + 2 * (n + 1);
  }

  lemma DeepBound(n: nat)
    requires n <= TICKS
    ensures Deep(n) <= FLOOR
  {
    Triangle(n, TICKS);
    DeepLinear(n, n * (n + 1));
  }

  lemma Triangle(n: nat, m: nat)
    requires n <= m
    ensures n * (n + 1) <= m * (m + 1)
  {
    var d, e := m - n, m + n + 1;
    assert d * e == m * (m + 1) - n * (n + 1);
    assert d * e >= 0;
  }

  lemma DeepLinear(n: nat, p: nat)
    requires n <= 8091 && p == n * (n + 1) && p <= 65472372
    ensures Deep(n) <= FLOOR
  {
    var x, y := n as real, p as real;
    assert x <= 8091.0 && y <= 65472372.0;
  }

  lemma Released(feel: Feel, drawn: nat, press: seq<Frame>, tier: TierIndex, st: Stage, random: nat -> Draw)
    requires FeelOk(feel) && StageOk(st) && random(drawn) == FastDraw(U) && |press| == 3
    requires Pouring(press[0], tier, WaitMs(tier)) && Pouring(press[1], tier, WaitMs(tier))
    requires Pouring(press[2], tier, 2.0) && press[2].lean == 1.0
    ensures var s := Run(Emptied(feel, drawn), press, st, random);
      Afloat(s, st, 0, Dragged(90.0 * U, press[2].drag)) && s.holdMs == 1000.0 / Flow(tier) as real
  {
    hide Step, Inv, Falling, Dragged, Sunk, FlowOver, WaitMs;
    var s0 := Emptied(feel, drawn);
    var f, g, h := press[0], press[1], press[2];
    PressGain(tier, WaitMs(tier) / 1000.0);
    assert f.Dt() == WaitMs(tier) / 1000.0;
    EmptiedInv(feel, drawn, st);
    var s1 := Step(s0, f, st, random);
    WaitFrame(s0, f, st, random);
    var s2 := Step(s1, g, st, random);
    WaitFrame(s1, g, st, random);
    var s3 := Step(s2, h, st, random);
    ReleaseFrame(s2, h, st, random, U);
    RunThree(s0, press, st, random);
    DraggedNonNeg(90.0 * U, h.drag);
    DeepStart();
  }

  lemma RunThree(s: State, press: seq<Frame>, st: Stage, random: nat -> Draw)
    requires |s.slots| == MAX_BLOBS && s.cursor < MAX_BLOBS && st.height > 0.0 && |press| == 3
    ensures Run(s, press, st, random) == Step(Step(Step(s, press[0], st, random), press[1], st, random), press[2], st, random)
  {
    hide Step;
    assert press[..2][..1][..0] == [];
    assert Run(s, press[..2][..1][..0], st, random) == s;
    assert Run(s, press[..2][..1], st, random) == Step(s, press[0], st, random);
    assert Run(s, press[..2], st, random) == Step(Step(s, press[0], st, random), press[1], st, random);
  }

  lemma PauseTick(s: State, f: Frame, tier: TierIndex, st: Stage, random: nat -> Draw, n: nat, vx: real)
    requires Afloat(s, st, n, vx) && Pausing(f, tier) && n < TICKS
    ensures Afloat(Step(s, f, st, random), st, n + 1, Dragged(vx, f.drag)) && Step(s, f, st, random).holdMs == s.holdMs
  {
    hide Step, Inv, Falling, Dragged, Sunk, Deep, FlowOver;
    assert f.Dt() == 0.0001;
    DeepNext(n);
    DeepBound(n + 1);
    DraggedNonNeg(vx, f.drag);
    Shaped(s, st);
    QuietFrame(s, f, st, random, vx, 120.0 * U + 2.8 + 0.14 * n as real, Deep(n));
    ClosedFrame(s, f, st, random);
  }

  lemma Shaped(s: State, st: Stage)
    requires Inv(s, st)
    ensures |s.slots| == MAX_BLOBS && s.cursor < MAX_BLOBS && st.height > 0.0
  {
  }

  /** The pause: the droplet falls tick by tick, and keeps its drift when there is no drag. */
  lemma {:induction false} Paused(s: State, pause: seq<Frame>, tier: TierIndex, st: Stage, random: nat -> Draw, vx: real)
      returns (v: real)
    requires Afloat(s, st, 0, vx) && |pause| <= TICKS && |s.slots| == MAX_BLOBS && s.cursor < MAX_BLOBS && st.height > 0.0
    requires forall i :: 0 <= i < |pause| ==> Pausing(pause[i], tier)
    ensures var r := Run(s, pause, st, random); Afloat(r, st, |pause|, v) && r.holdMs == s.holdMs
    ensures (forall i :: 0 <= i < |pause| ==> pause[i].drag == 1.0) ==> v == vx
  {
    hide Step, Afloat;
    if pause == [] {
      v := vx;
    } else {
      var n := |pause| - 1;
      v := Paused(s, pause[..n], tier, st, random, vx);
      PauseTick(Run(s, pause[..n], st, random), pause[n], tier, st, random, n, v);
      v := Dragged(v, pause[n].drag);
    }
  }

  /** An open frame samples the falling droplet, whatever else it releases or lands. */
  lemma SampleFrame(s: State, f: Frame, tier: TierIndex, st: Stage, random: nat -> Draw, n: nat, vx: real)
    requires Afloat(s, st, n, vx) && FrameOk(f) && f.pouring && f.tier == tier && !s.finished && f.dtMs <= 50.0
    ensures var r := Step(s, f, st, random);
      && Inv(r, st) && r.holdMs == Min(s.holdMs + f.dtMs, 15000.0)
      && r.peakSq >= SimSpeedSq(Dragged(vx, f.drag), 120.0 * U + 2.8 + 0.14 * n as real + 1.4 * f.dtMs)
  {
    hide Integrate, TallyUpTo, StepSlot, SimSpeedSq, Droplet, Aloft, Dragged, Deep, ToSim;
    StepInv(s, f, st, random);
    StepScalars(s, f, st, random);
    PourInv(s, f, st, random);
    SampleGain(f);
    var p, e := Pour(s, f, st, random), EnvOf(s, f, st);
    SpawnFew(Filled(s, f), f.lean, st, random);
    assert p.slots[0] == s.slots[0];
    Sampled(p, e, vx, 120.0 * U + 2.8 + 0.14 * n as real, Deep(n));
  }

  lemma SampleGain(f: Frame)
    requires 0.0 <= f.dtMs <= 50.0
    ensures f.SpawnGain() < 2.0 && 1400.0 * f.Dt() == 1.4 * f.dtMs
  {
    assert 0 <= Flow(f.tier) <= 34;
    MulLe(f.Dt(), 0.05, Flow(f.tier) as real);
  }

  lemma Sampled(p: State, e: Env, vx: real, vy: real, y: real)
    requires |p.slots| == MAX_BLOBS && e.st.height > 0.0 && e.open && Falling(p, e.st, vx, vy, y)
    ensures Integrate(p, e).peakSq >= SimSpeedSq(Dragged(vx, e.drag), vy + 1400.0 * e.dt)
  {
    hide StepSlot, SimSpeedSq, Dragged, Sunk, SimFall, SpeedSq, Fall;
    TallySees(p.slots, |p.slots|, Tally(0, 0, p.dropletsLanded, p.peakSq), e, 0);
    FallScales(p.slots[0], e);
    SimFallIs(ToSim(p.slots[0], e.st), e.dt, e.drag);
    SpeedScales(Fall(p.slots[0], e), e.st);
  }

  /** The rest of the hold adds to the clock and never takes from the peak. */
  lemma {:induction false} RestOfHold(s: State, rest: seq<Frame>, tier: TierIndex, t: real, st: Stage, random: nat -> Draw)
    requires Inv(s, st) && |s.slots| == MAX_BLOBS && s.cursor < MAX_BLOBS && st.height > 0.0
    requires |rest| <= 14 && 0.0 <= t <= 50.0 && s.holdMs <= 1000.0
    requires forall i :: 0 <= i < |rest| ==> Pouring(rest[i], tier, t)
    ensures var r := Run(s, rest, st, random);
      Inv(r, st) && r.holdMs == s.holdMs + |rest| as real * t && r.peakSq >= s.peakSq
  {
    hide Step, Inv;
    if rest != [] {
      var n := |rest| - 1;
      RestOfHold(s, rest[..n], tier, t, st, random);
      MulBounds(n as real, t, 13.0, 50.0);
      RestFrame(Run(s, rest[..n], st, random), rest[n], st, random);
      assert |rest| as real * t == n as real * t + t;
    }
  }

  lemma RestFrame(s: State, f: Frame, st: Stage, random: nat -> Draw)
    requires Inv(s, st) && FrameOk(f) && f.pouring && s.holdMs + f.dtMs < 15000.0
    ensures var r := Step(s, f, st, random);
      Inv(r, st) && r.holdMs == s.holdMs + f.dtMs && r.peakSq >= s.peakSq
  {
    hide Step, Aloft;
    StepScalars(s, f, st, random);
    StepInv(s, f, st, random);
    StepPeak(s, f, st, random);
  }

  lemma StepPeak(s: State, f: Frame, st: Stage, random: nat -> Draw)
    requires Inv(s, st) && FrameOk(f)
    ensures Step(s, f, st, random).peakSq >= s.peakSq
  {
    hide TallyUpTo, StepSlot, Aloft;
    PourInv(s, f, st, random);
    var p := Pour(s, f, st, random);
    TallyPeak(p.slots, |p.slots|, Tally(0, 0, p.dropletsLanded, p.peakSq), EnvOf(s, f, st));
  }

  /** The downward speed at the sample. */
  function SampleSpeed(tier: TierIndex, holdMs: real): real
  {
    120.0 * U + 1135.54 + 1.4 * Min(LeftMs(tier, holdMs), 50.0)
  }

  /** What two presses report: the whole hold, and at least the speed of the droplet at the floor. */
  lemma TwoPressesPeak(feel: Feel, drawn: nat, pour: TwoPresses, tier: TierIndex, holdMs: real, st: Stage, random: nat -> Draw)
    requires FeelOk(feel) && StageOk(st) && pour.Ok(tier, holdMs) && random(drawn) == FastDraw(U)
    requires 0.0 <= LeftMs(tier, holdMs) && holdMs < 777.0
    ensures var s := Run(Emptied(feel, drawn), pour.Frames(), st, random);
      && s.holdMs == holdMs
      && s.peakSq >= SampleSpeed(tier, holdMs) * SampleSpeed(tier, holdMs)
      && (pour.NoDrag() ==> s.peakSq >= SimSpeedSq(90.0 * U, SampleSpeed(tier, holdMs)))
  {
    hide Step, Run, Inv, Falling, Deep, WaitMs, SimSpeedSq, Dragged;
    var s0 := Emptied(feel, drawn);
    var d := Min(LeftMs(tier, holdMs), 50.0);
    PressGain(tier, WaitMs(tier) / 1000.0);
    RunConcat(s0, pour.press + pour.pause + [pour.sample], pour.rest, st, random);
    RunConcat(s0, pour.press + pour.pause, [pour.sample], st, random);
    RunConcat(s0, pour.press, pour.pause, st, random);
    Released(feel, drawn, pour.press, tier, st, random);
    var s1 := Run(s0, pour.press, st, random);
    Shaped(s1, st);
    var vx := Paused(s1, pour.pause, tier, st, random, Dragged(90.0 * U, pour.press[2].drag));
    var s2 := Run(s1, pour.pause, st, random);
    Shaped(s2, st);
    HonestPour.RunOne(s2, pour.sample, st, random);
    NotFinished(s2, st);
    SampleFrame(s2, pour.sample, tier, st, random, TICKS, vx);
    var s3 := Step(s2, pour.sample, st, random);
    Shaped(s3, st);
    RestOfHold(s3, pour.rest, tier, Max(LeftMs(tier, holdMs) - 50.0, 0.0) / 14.0, st, random);
    DraggedNonNeg(vx, pour.sample.drag);
    SpeedAtLeast(Dragged(vx, pour.sample.drag), SampleSpeed(tier, holdMs), 0.0);
    if pour.NoDrag() {
      Undragged(90.0 * U);
    }
  }

  lemma Undragged(vx: real)
    ensures Dragged(vx, 1.0) == vx
  {
  }

  lemma NotFinished(s: State, st: Stage)
    requires Inv(s, st) && s.holdMs < 15000.0
    ensures !s.finished
  {
  }

  // ---- the exact limit ---------------------------------------------------------------------

  lemma CeilingMonotone(a: real, b: real)
    requires 0.0 <= a <= b
    ensures SquaredCeiling(a) <= SquaredCeiling(b)
  {
    SpeedSquareMonotone(a, b);
  }

  /** The ceiling of a hold that ends before a whole millisecond m. */
  lemma CeilingBelow(holdMs: real, m: int)
    requires 0.0 <= holdMs < m as real
    ensures SquaredCeiling(Floor(holdMs) as real / 1000.0) <= SquaredCeiling((m - 1) as real / 1000.0)
  {
    hide SquaredCeiling;
    FloorMonotone(0.0, holdMs);
    assert Floor(holdMs) <= m - 1;
    CeilingMonotone(Floor(holdMs) as real / 1000.0, (m - 1) as real / 1000.0);
  }

  lemma CeilingsAt()
    ensures SquaredCeiling(776 as real / 1000.0) < 1763486.0
    ensures SquaredCeiling(774 as real / 1000.0) < 1755321.0
    ensures SquaredCeiling(149 as real / 1000.0) < 133108.0
  {
    assert MaxFall(0.776) == 1206.4 && MaxFall(0.774) == 1203.6 && MaxFall(0.149) == 328.6;
  }

  /** The sample is over the ceiling: by its downward speed alone below 775 ms, with its drift below 777. */
  lemma SampleBeats(tier: TierIndex, holdMs: real)
    requires 0.0 <= LeftMs(tier, holdMs) && holdMs < 777.0
    ensures var ceiling := SquaredCeiling(Floor(holdMs) as real / 1000.0);
      && SimSpeedSq(90.0 * U, SampleSpeed(tier, holdMs)) > ceiling
      && (holdMs < 775.0 ==> SampleSpeed(tier, holdMs) * SampleSpeed(tier, holdMs) > ceiling)
  {
    hide SquaredCeiling, SampleSpeed, LeftMs;
    Leftover(tier, holdMs);
    CeilingsAt();
    var v := SampleSpeed(tier, holdMs);
    if holdMs < 150.0 {
      CeilingBelow(holdMs, 150);
      SquareLe(1255.5, v);
    } else {
      CeilingBelow(holdMs, 777);
      if holdMs < 775.0 {
        CeilingBelow(holdMs, 775);
      }
      SquareLe(1325.53, v);
    }
    SpeedAtLeast(90.0 * U, v, 89.99);
  }

  lemma Leftover(tier: TierIndex, holdMs: real)
    requires 0.0 <= LeftMs(tier, holdMs)
    ensures 29.0 <= holdMs && SampleSpeed(tier, holdMs) >= 1255.5
    ensures holdMs >= 150.0 ==> SampleSpeed(tier, holdMs) >= 1325.53
  {
    var q := 1000.0 / Flow(tier) as real;
    assert Flow(tier) as real == [10.0, 16.0, 20.0, 24.0, 28.0, 34.0][tier];
    assert 29.0 <= q <= 100.0;
  }

  lemma PourFrames(pour: TwoPresses, tier: TierIndex, holdMs: real)
    requires pour.Ok(tier, holdMs) && holdMs < 777.0
    ensures var frames := pour.Frames();
      && FramesOk(frames) && OneTier(frames, tier)
      && forall i :: 0 <= i < |frames| ==> frames[i].dtMs <= 50.0
  {
    var frames := pour.Frames();
    hide WaitMs;
    PressGain(tier, WaitMs(tier) / 1000.0);
    assert Max(LeftMs(tier, holdMs) - 50.0, 0.0) / 14.0 <= 50.0 by {
      Positive(Flow(tier) as real);
    }
    forall i | 0 <= i < |frames|
      ensures FrameOk(frames[i]) && frames[i].tier == tier && frames[i].dtMs <= 50.0
    {
      var f := frames[i];
      assert i == 0 ==> f == pour.press[0];
      assert i == 1 ==> f == pour.press[1];
      assert i == 2 ==> f == pour.press[2];
      assert 3 <= i < 3 + TICKS ==> f == pour.pause[i - 3];
      assert i == 3 + TICKS ==> f == pour.sample;
      assert i > 3 + TICKS ==> f == pour.rest[i - 4 - TICKS];
    }
  }

  lemma Positive(flow: real)
    requires flow > 0.0
    ensures 1000.0 / flow > 0.0
  {
  }

  /** Under any drag, a pour of two presses and less than 775 ms in all can be flagged, once a droplet can be out. */
  lemma TwoPressesFlagged(feel: Feel, drawn: nat, pour: TwoPresses, tier: TierIndex, holdMs: real, st: Stage, random: nat -> Draw)
    requires FeelOk(feel) && StageOk(st) && pour.Ok(tier, holdMs) && random(drawn) == FastDraw(U)
    requires 0.0 <= LeftMs(tier, holdMs) && holdMs < 775.0
    ensures var s := Run(Emptied(feel, drawn), pour.Frames(), st, random);
      s.holdMs == holdMs && s.peakSq > SquaredCeiling(Floor(s.holdMs) as real / 1000.0)
  {
    hide Run, SquaredCeiling, SampleSpeed, SimSpeedSq;
    TwoPressesPeak(feel, drawn, pour, tier, holdMs, st, random);
    SampleBeats(tier, holdMs);
  }

  /** Too short to release a droplet, or long enough for the fastest fall there is. */
  predicate PourFits(tier: TierIndex, holdMs: real)
  {
    Flow(tier) as real * holdMs < 1000.0 || holdMs >= 777.0
  }

  /**
   * Every pour of a tier that holds for holdMs in all, over any presses and frames of at most capMs, keeps
   * under its squared speed ceiling.
   */
  ghost predicate PoursAlwaysFit(tier: TierIndex, holdMs: real, capMs: real)
  {
    forall feel: Feel, drawn: nat, frames: seq<Frame>, st: Stage, random: nat -> Draw
      :: FeelOk(feel) && StageOk(st) && FramesOk(frames) && OneTier(frames, tier)
         && (forall i :: 0 <= i < |frames| ==> frames[i].dtMs <= capMs) && HonestPour.Held(frames) == holdMs
         ==> Run(Emptied(feel, drawn), frames, st, random).peakSq <= SquaredCeiling(Floor(holdMs) as real / 1000.0)
  }

  /** A pour that fits is under its ceiling, whatever its presses, frames, lean and draws. */
  lemma FittingPour(feel: Feel, drawn: nat, frames: seq<Frame>, tier: TierIndex, st: Stage, random: nat -> Draw)
    requires FeelOk(feel) && StageOk(st) && FramesOk(frames) && OneTier(frames, tier)
    requires PourFits(tier, HonestPour.Held(frames))
    ensures Run(Emptied(feel, drawn), frames, st, random).peakSq
      <= SquaredCeiling(Floor(HonestPour.Held(frames)) as real / 1000.0)
  {
    hide Run, TopSq, SquaredCeiling, HonestPour.Held;
    var holdMs := HonestPour.Held(frames);
    if holdMs >= 777.0 {
      RunSpent(feel, drawn, frames, st, random);
      TopCovered(holdMs);
    } else {
      PressLength.NoDroplet(feel, drawn, frames, tier, st, random);
      PressLength.CeilingNonNeg(Floor(holdMs) as real / 1000.0);
    }
  }

  function Undamped(tier: TierIndex, pouring: bool, dtMs: real): Frame { Frame(pouring, 1.0, tier, dtMs, 1.0) }

  function Worst(tier: TierIndex, holdMs: real): TwoPresses
  {
    var wait := Undamped(tier, true, WaitMs(tier));
    TwoPresses(
      [wait, wait, Undamped(tier, true, 2.0)],
      seq(TICKS, _ => Undamped(tier, false, 0.1)),
      Undamped(tier, true, Min(LeftMs(tier, holdMs), 50.0)),
      seq(14, _ => Undamped(tier, true, Max(LeftMs(tier, holdMs) - 50.0, 0.0) / 14.0)))
  }

  lemma WorstOk(tier: TierIndex, holdMs: real)
    requires 0.0 <= LeftMs(tier, holdMs)
    ensures Worst(tier, holdMs).Ok(tier, holdMs) && Worst(tier, holdMs).NoDrag()
  {
    hide WaitMs, LeftMs;
    PressGain(tier, WaitMs(tier) / 1000.0);
  }

  lemma LeftNonNeg(tier: TierIndex, holdMs: real)
    requires Flow(tier) as real * holdMs >= 1000.0
    ensures 0.0 <= LeftMs(tier, holdMs)
  {
    var flow := Flow(tier) as real;
    assert flow >= 10.0;
    var q := 1000.0 / flow;
    assert q * flow == 1000.0;
    if holdMs < q {
      MulLt(holdMs, q, flow);
    }
  }

  lemma PourTooFast(tier: TierIndex, holdMs: real, capMs: real)
    requires !PourFits(tier, holdMs) && capMs >= 50.0
    ensures !PoursAlwaysFit(tier, holdMs, capMs)
  {
    hide Run, SquaredCeiling, SampleSpeed, SimSpeedSq, WaitMs, LeftMs, HonestPour.Held, Worst;
    LeftNonNeg(tier, holdMs);
    var pour := Worst(tier, holdMs);
    var random: nat -> Draw := _ => FastDraw(U);
    var feel, st, frames := TierFeel(tier), Stage(900.0, 900.0), pour.Frames();
    WorstOk(tier, holdMs);
    PourFrames(pour, tier, holdMs);
    assert FeelOk(feel) && StageOk(st);
    TwoPressesPeak(feel, 0, pour, tier, holdMs, st, random);
    SampleBeats(tier, holdMs);
    HonestPour.MetersReadFrames(feel, 0, frames, st, random);
    assert Run(Emptied(feel, 0), frames, st, random).peakSq > SquaredCeiling(Floor(holdMs) as real / 1000.0);
  }

  /**
   * The exact condition for any number of presses. On a tier, every pour of holdMs is under its speed
   * ceiling if and only if no droplet can be out by then, or the hold is at least 777 ms. The frame cap may
   * be anything from the 50 ms that the rig integrates at most.
   */
  lemma PoursExactly(tier: TierIndex, holdMs: real, capMs: real)
    requires capMs >= 50.0
    ensures PoursAlwaysFit(tier, holdMs, capMs) <==> PourFits(tier, holdMs)
  {
    hide Run, SquaredCeiling, PourFits, HonestPour.Held;
    if PourFits(tier, holdMs) {
      forall feel: Feel, drawn: nat, frames: seq<Frame>, st: Stage, random: nat -> Draw
        | FeelOk(feel) && StageOk(st) && FramesOk(frames) && OneTier(frames, tier)
          && (forall i :: 0 <= i < |frames| ==> frames[i].dtMs <= capMs) && HonestPour.Held(frames) == holdMs
        ensures Run(Emptied(feel, drawn), frames, st, random).peakSq <= SquaredCeiling(Floor(holdMs) as real / 1000.0)
      {
        FittingPour(feel, drawn, frames, tier, st, random);
      }
    } else {
      PourTooFast(tier, holdMs, capMs);
    }
  }

  /** A pour that fits, of any presses, is never flagged for its peak velocity, once the wall clock covers the hold. */
  lemma FittingPourUnflagged(
      feel: Feel, drawn: nat, frames: seq<Frame>, tier: TierIndex, st: Stage, random: nat -> Draw,
      peakVelocity: real, wallClockMs: real, root: Root)
    requires FeelOk(feel) && StageOk(st) && FramesOk(frames) && OneTier(frames, tier)
    requires PourFits(tier, HonestPour.Held(frames)) && wallClockMs >= Floor(HonestPour.Held(frames)) as real
    requires peakVelocity >= 0.0 && peakVelocity * peakVelocity == Run(Emptied(feel, drawn), frames, st, random).peakSq
    requires ExactAt(root, MaxSpeedSq(Floor(HonestPour.Held(frames)) as real / 1000.0))
    ensures var t := HonestPour.TelemetryOf(Run(Emptied(feel, drawn), frames, st, random), peakVelocity);
      PeakVelocity !in Clamp(t.AsClaim(), tier, wallClockMs, root).violations
  {
    hide Run, PourFits, MaxSpeedSq, HonestPour.Held;
    HonestPour.MetersReadFrames(feel, drawn, frames, st, random);
    HonestPour.TiltBound(feel, drawn, frames, st, random);
    FittingPour(feel, drawn, frames, tier, st, random);
    PeakFlaggedExactly(Run(Emptied(feel, drawn), frames, st, random), peakVelocity, tier, wallClockMs, root);
  }
}
