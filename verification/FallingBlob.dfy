/** The first blob of a pour followed frame by frame, and the two pours it shows to be flagged. */
module FallingBlob {
  import opened Numbers
  import opened Sim
  import opened RigModel
  import opened RigFlight
  import opened Conservation
  import opened Clamping
  import opened HonestPeak
  import HonestPour

  /** Draws that release a droplet at u times the top sideways and downward speeds. */
  function FastDraw(u: Unit): Draw { Draw(0.5, u, u, 0.0) }

  /** The blob in slot 0, in sim units. */
  predicate Falling(s: State, st: Stage, vx: real, vy: real, y: real)
    requires st.height > 0.0
  {
    && |s.slots| > 0 && s.slots[0].Airborne()
    && ToSim(s.slots[0], st).vx == vx && ToSim(s.slots[0], st).vy == vy && ToSim(s.slots[0], st).y == y
  }

  /** Where a blob at y falling at vy is after a frame of dt seconds. */
  function Sunk(y: real, vy: real, dt: real): real { y + (vy + 1400.0 * dt) * dt }

  /** A sideways speed after a frame. */
  function Dragged(vx: real, drag: real): real { vx * drag }

  lemma SimFallIs(q: Slot, dt: real, drag: real)
    ensures var r := SimFall(q, dt, drag);
      r.vx == Dragged(q.vx, drag) && r.vy == q.vy + 1400.0 * dt && r.y == Sunk(q.y, q.vy, dt)
  {
  }

  /** One frame of a blob that stays clear of the floor. */
  lemma FallingSlot(b: Slot, e: Env, vx: real, vy: real, y: real)
    requires Frameworthy(e) && b.Airborne() && Aloft(ToSim(b, e.st), SimWidth(e.st))
    requires ToSim(b, e.st).vx == vx && ToSim(b, e.st).vy == vy && ToSim(b, e.st).y == y
    requires Sunk(y, vy, e.dt) <= FLOOR
    ensures var c := StepSlot(b, e);
      && c == Fall(b, e) && c.Airborne() && ToSim(c, e.st).vx == Dragged(vx, e.drag) && ToSim(c, e.st).vy == vy + 1400.0 * e.dt
      && ToSim(c, e.st).y == Sunk(y, vy, e.dt)
      && SpeedSq(c, e.st) == SimSpeedSq(Dragged(vx, e.drag), vy + 1400.0 * e.dt)
  {
    hide Flight, Gone, StepSlot, SpeedSq, SimSpeedSq, SimFall, Sunk, Dragged;
    SimFallIs(ToSim(b, e.st), e.dt, e.drag);
    StepAirborne(b, e);
    SpeedScales(Fall(b, e), e.st);
  }

  lemma FallingOn(s: State, e: Env, vx: real, vy: real, y: real)
    requires |s.slots| == MAX_BLOBS && Frameworthy(e) && AllAloft(s.slots, e.st)
    requires Falling(s, e.st, vx, vy, y) && Sunk(y, vy, e.dt) <= FLOOR
    ensures Falling(Integrate(s, e), e.st, Dragged(vx, e.drag), vy + 1400.0 * e.dt, Sunk(y, vy, e.dt))
    ensures e.open ==> Integrate(s, e).peakSq >= SimSpeedSq(Dragged(vx, e.drag), vy + 1400.0 * e.dt)
  {
    hide Fall, StepSlot, SpeedSq, SimSpeedSq, Aloft, ToSim, Sunk, Dragged;
    FallingSlot(s.slots[0], e, vx, vy, y);
    if e.open {
      TallySees(s.slots, |s.slots|, Tally(0, 0, s.dropletsLanded, s.peakSq), e, 0);
    }
  }

  lemma SpawnFew(s: State, lean: real, st: Stage, random: nat -> Draw)
    requires |s.slots| == MAX_BLOBS && s.cursor < MAX_BLOBS && s.spawnAcc < 2.0
    ensures SpawnAll(s, lean, st, random) == if s.spawnAcc < 1.0 then s else SpawnOne(s, lean, st, random)
  {
  }

  /** A fully leant open frame that releases exactly one droplet. */
  predicate IsPress(f: Frame)
  {
    FrameOk(f) && f.pouring && f.lean == 1.0 && f.dtMs <= 50.0 && 1.0 <= f.SpawnGain() < 2.0
  }

  lemma FastDroplet(u: Unit, radius: real, st: Stage)
    requires StageOk(st) && radius >= 16.0
    ensures var b := Droplet(FastDraw(u), 1.0, radius, st);
      && b.Airborne() && ToSim(b, st).vx == 90.0 * u && ToSim(b, st).vy == 120.0 * u && ToSim(b, st).y == SPOUT
  {
    DropletScales(FastDraw(u), 1.0, radius, st);
    DropletLands(FastDraw(u), 1.0, radius, st);
  }

  /** An open, fully leant frame that fills slot 0 with one fast blob. */
  lemma ReleaseFrame(s: State, f: Frame, st: Stage, random: nat -> Draw, u: Unit)
    requires Inv(s, st) && Open(s, f) && FrameOk(f) && f.lean == 1.0 && f.dtMs <= 50.0
    requires s.cursor == 0 && 1.0 <= s.spawnAcc + f.SpawnGain() < 2.0 && random(s.drawn) == FastDraw(u)
    ensures var r := Step(s, f, st, random);
      && Inv(r, st) && r.cursor == 1 && r.spawnAcc == s.spawnAcc + f.SpawnGain() - 1.0
      && r.holdMs == Min(s.holdMs + f.dtMs, 15000.0)
      && r.peakSq >= SimSpeedSq(Dragged(90.0 * u, f.drag), 120.0 * u + 1400.0 * f.Dt())
      && Falling(r, st, Dragged(90.0 * u, f.drag), 120.0 * u + 1400.0 * f.Dt(), Sunk(SPOUT, 120.0 * u, f.Dt()))
  {
    hide Integrate, TallyUpTo, StepSlot, SimSpeedSq, Droplet, Aloft, Dragged, Sunk;
    StepInv(s, f, st, random);
    StepScalars(s, f, st, random);
    PourInv(s, f, st, random);
    EaseOk(s.feel, f.tier, f.Dt());
    var t := Filled(s, f);
    SpawnFew(t, 1.0, st, random);
    FastDroplet(u, t.feel.radius, st);
    SunkShallow(120.0 * u, f.Dt());
    PressFalls(Pour(s, f, st, random), EnvOf(s, f, st), 90.0 * u, 120.0 * u);
    IntegrateKeeps(Pour(s, f, st, random), EnvOf(s, f, st));
  }

  lemma IntegrateKeeps(p: State, e: Env)
    requires |p.slots| == MAX_BLOBS && e.st.height > 0.0
    ensures Integrate(p, e).cursor == p.cursor && Integrate(p, e).drawn == p.drawn
  {
    hide TallyUpTo;
  }

  /** The first frame of a fully leant press releases one fast blob. */
  lemma FirstFrame(feel: Feel, drawn: nat, f: Frame, st: Stage, random: nat -> Draw, u: Unit)
    requires FeelOk(feel) && StageOk(st) && IsPress(f) && random(drawn) == FastDraw(u)
    ensures var s := Run(Emptied(feel, drawn), [f], st, random);
      && Inv(s, st) && s.holdMs == f.dtMs && !s.finished && s.spawnAcc == f.SpawnGain() - 1.0
      && s.peakSq >= SimSpeedSq(Dragged(90.0 * u, f.drag), 120.0 * u + 1400.0 * f.Dt())
      && Falling(s, st, Dragged(90.0 * u, f.drag), 120.0 * u + 1400.0 * f.Dt(), Sunk(SPOUT, 120.0 * u, f.Dt()))
  {
    hide Step, SimSpeedSq, Dragged, Sunk, Falling;
    HonestPour.RunOne(Emptied(feel, drawn), f, st, random);
    EmptiedInv(feel, drawn, st);
    ReleaseFrame(Emptied(feel, drawn), f, st, random, u);
  }

  lemma PressFalls(p: State, e: Env, vx: real, vy: real)
    requires |p.slots| == MAX_BLOBS && Frameworthy(e) && AllAloft(p.slots, e.st) && e.open
    requires Falling(p, e.st, vx, vy, SPOUT) && Sunk(SPOUT, vy, e.dt) <= FLOOR
    ensures var r := Integrate(p, e);
      && Falling(r, e.st, Dragged(vx, e.drag), vy + 1400.0 * e.dt, Sunk(SPOUT, vy, e.dt))
      && r.peakSq >= SimSpeedSq(Dragged(vx, e.drag), vy + 1400.0 * e.dt)
  {
    FallingOn(p, e, vx, vy, SPOUT);
  }

  lemma SunkShallow(vy: real, dt: real)
    requires 0.0 <= vy <= 232.0 && 0.0 <= dt <= 0.05
    ensures SPOUT <= Sunk(SPOUT, vy, dt) <= SPOUT + 15.1
  {
    Shallow(vy + 1400.0 * dt, dt, 302.0);
  }

  lemma Shallow(v: real, dt: real, top: real)
    requires 0.0 <= v <= top && 0.0 <= dt <= 0.05
    ensures 0.0 <= v * dt <= 0.05 * top
  {
    MulLe(v, top, dt);
    MulNonNeg(v, dt);
    MulLe(dt, 0.05, top);
  }

  /** A press of 29.9 ms can be flagged, fully leant on the top tier, under any drag factor from 0.963 up. */
  lemma ShortHoldFast(feel: Feel, drawn: nat, st: Stage, random: nat -> Draw, drag: real)
    requires FeelOk(feel) && StageOk(st) && random(drawn) == FastDraw(16383.0 / 16384.0) && 0.963 <= drag <= 1.0
    ensures var s := Run(Emptied(feel, drawn), [Frame(true, 1.0, 5, 29.9, drag)], st, random);
      s.peakSq > SquaredCeiling(Floor(s.holdMs) as real / 1000.0)
  {
    hide Run, SimSpeedSq;
    var f, u := Frame(true, 1.0, 5, 29.9, drag), 16383.0 / 16384.0;
    FirstFrame(feel, drawn, f, st, random, u);
    assert f.Dt() == 0.0299;
    SpeedAtLeast(Dragged(90.0 * u, drag), 120.0 * u + 41.86, 86.66);
    assert SquaredCeiling(0.029) == 1.21 * (160.6 * 160.6 + 2025.0);
  }

  /** What the drag factor needs of Math.pow: the laws of exponents, on bases in (0, 1]. */
  ghost predicate PowerLike(pow: (real, real) -> real)
  {
    && (forall b, p :: 0.0 < b <= 1.0 && 0.0 <= p ==> 0.0 < pow(b, p) <= 1.0)
    && (forall b, p, q :: 0.0 < b <= 1.0 && 0.0 <= p <= q ==> pow(b, q) == pow(b, p) * pow(b, q - p))
    && (forall b :: 0.0 < b <= 1.0 ==> pow(b, 1.0) == b)
  }

  /** The drag factor the rig computes. */
  function OwnDrag(pow: (real, real) -> real, viscosity: real, dt: real): real
  {
    pow(1.0 - viscosity * 0.55, dt * 8.0)
  }

  /** An exponent of at most a quarter leaves at least the fourth root. */
  lemma QuarterPower(pow: (real, real) -> real, b: real, p: real)
    requires PowerLike(pow) && 0.8605 <= b <= 1.0 && 0.0 <= p <= 0.25
    ensures 0.963 <= pow(b, p) <= 1.0
  {
    hide PowerLike;
    var x, h, r, k := pow(b, 1.0), pow(b, 0.5), pow(b, 0.25), pow(b, 0.25 - p);
    Halved(pow, b, 1.0, 0.5, x, h);
    Halved(pow, b, 0.5, 0.25, h, r);
    FourthRoot(x, h, r);
    PowSplit(pow, b, p, 0.25);
    Larger(pow(b, p), k, r);
  }

  lemma Halved(pow: (real, real) -> real, b: real, q: real, p: real, x: real, y: real)
    requires PowerLike(pow) && 0.0 < b <= 1.0 && 0.0 <= p && q == p + p && x == pow(b, q) && y == pow(b, p)
    ensures x == y * y && y > 0.0 && pow(b, 1.0) == b
  {
    assert q - p == p;
    PowSplit(pow, b, p, q);
  }

  lemma Larger(a: real, k: real, r: real)
    requires 0.0 < a && 0.0 < k <= 1.0 && r == a * k
    ensures r <= a
  {
    ShrinkPos(a, k);
  }

  lemma PowSplit(pow: (real, real) -> real, b: real, p: real, q: real)
    requires PowerLike(pow) && 0.0 < b <= 1.0 && 0.0 <= p <= q
    ensures pow(b, q) == pow(b, p) * pow(b, q - p) && pow(b, 1.0) == b
    ensures 0.0 < pow(b, p) <= 1.0 && 0.0 < pow(b, q) <= 1.0 && 0.0 < pow(b, q - p) <= 1.0
  {
  }

  lemma FourthRoot(b: real, h: real, r: real)
    requires b >= 0.8605 && b == h * h && h == r * r && h > 0.0 && r > 0.0
    ensures r >= 0.963
  {
    if r < 0.963 {
      SquareStrict(r, 0.963);
      SquareStrict(h, 0.92737);
    }
  }

  /**
   * The same under the rig's own drag: a rig that stood on tier 0 is pressed for 29.9 ms, fully leant, on
   * tier 5.
   */
  lemma ShortHoldFlagged(drawn: nat, st: Stage, random: nat -> Draw, pow: (real, real) -> real, drag: real)
    requires StageOk(st) && random(drawn) == FastDraw(16383.0 / 16384.0) && PowerLike(pow)
    requires drag == OwnDrag(pow, Ease(TierFeel(0), TierFeel(5), 0.0299).viscosity, 0.0299)
    ensures var s := Run(Emptied(TierFeel(0), drawn), [Frame(true, 1.0, 5, 29.9, drag)], st, random);
      s.peakSq > SquaredCeiling(Floor(s.holdMs) as real / 1000.0)
  {
    hide Run, SquaredCeiling, PowerLike;
    var viscosity := Ease(TierFeel(0), TierFeel(5), 0.0299).viscosity;
    assert viscosity == 0.15 + (0.92 - 0.15) * 0.13455;
    QuarterPower(pow, 1.0 - viscosity * 0.55, 0.0299 * 8.0);
    ShortHoldFast(TierFeel(0), drawn, st, random, drag);
  }

  lemma DraggedNonNeg(vx: real, drag: real)
    requires vx >= 0.0 && drag >= 0.0
    ensures Dragged(vx, drag) >= 0.0
  {
  }

  lemma SpeedAtLeast(vx: real, vy: real, least: real)
    requires 0.0 <= least <= vx
    ensures SimSpeedSq(vx, vy) >= least * least + vy * vy
  {
    SquareLe(least, vx);
  }

  /** One more frame of a run whose slot 0 is known and which releases nothing. */
  lemma QuietFrame(s: State, f: Frame, st: Stage, random: nat -> Draw, vx: real, vy: real, y: real)
    requires Inv(s, st) && FrameOk(f) && Falling(s, st, vx, vy, y)
    requires Open(s, f) ==> s.spawnAcc + f.SpawnGain() < 1.0
    requires Sunk(y, vy, f.Dt()) <= FLOOR
    ensures var r := Step(s, f, st, random);
      && Inv(r, st) && Falling(r, st, Dragged(vx, f.drag), vy + 1400.0 * f.Dt(), Sunk(y, vy, f.Dt()))
      && (Open(s, f) ==> r.peakSq >= SimSpeedSq(Dragged(vx, f.drag), vy + 1400.0 * f.Dt()))
      && (!Open(s, f) ==> r.spawnAcc == 0.0)
  {
    hide Integrate, TallyUpTo, StepSlot, SimSpeedSq, ToSim, Dragged, Sunk;
    PourInv(s, f, st, random);
    StepInv(s, f, st, random);
    StepScalars(s, f, st, random);
    assert Pour(s, f, st, random).slots == s.slots;
    FallingOn(Pour(s, f, st, random), EnvOf(s, f, st), vx, vy, y);
  }

  /**
   * A second press can be flagged: blobs go on accelerating with the stream shut, and the next open frame
   * samples them. Here 30 ms, a 50 ms pause and 11 ms more, under any drag whatever.
   */
  lemma SecondPressFlagged(feel: Feel, drawn: nat, st: Stage, random: nat -> Draw, d1: real, d2: real, d3: real)
    requires FeelOk(feel) && StageOk(st) && random(drawn) == FastDraw(1023.0 / 1024.0)
    requires 0.0 < d1 <= 1.0 && 0.0 < d2 <= 1.0 && 0.0 < d3 <= 1.0
    ensures var frames := [Frame(true, 1.0, 5, 30.0, d1), Frame(false, 0.0, 5, 50.0, d2), Frame(true, 0.0, 5, 11.0, d3)];
      var s := Run(Emptied(feel, drawn), frames, st, random);
      s.holdMs == 41.0 && s.peakSq > SquaredCeiling(Floor(s.holdMs) as real / 1000.0)
  {
    hide Step, Run, Inv, SimSpeedSq;
    var f, g, h := Frame(true, 1.0, 5, 30.0, d1), Frame(false, 0.0, 5, 50.0, d2), Frame(true, 0.0, 5, 11.0, d3);
    var s0, u := Emptied(feel, drawn), 1023.0 / 1024.0;
    assert f.Dt() == 0.03 && g.Dt() == 0.05 && h.Dt() == 0.011;
    FirstFrame(feel, drawn, f, st, random, u);
    var s1 := Run(s0, [f], st, random);
    RunConcat(s0, [f], [g, h], st, random);
    assert [f] + [g, h] == [f, g, h] && [g] + [h] == [g, h];
    RunConcat(s1, [g], [h], st, random);
    HonestPour.RunOne(s1, g, st, random);
    var s2 := Step(s1, g, st, random);
    HonestPour.RunOne(s2, h, st, random);
    StepScalars(s1, g, st, random);
    StepScalars(s2, h, st, random);
    StayedOpen(s1, st);
    var vx, vy, y := Dragged(90.0 * u, d1), 120.0 * u, Sunk(SPOUT, 120.0 * u, 0.03);
    QuietFrame(s1, g, st, random, vx, vy + 42.0, y);
    QuietFrame(s2, h, st, random, Dragged(vx, d2), vy + 112.0, Sunk(y, vy + 42.0, 0.05));
    DraggedNonNeg(90.0 * u, d1);
    DraggedNonNeg(vx, d2);
    DraggedNonNeg(Dragged(vx, d2), d3);
    SpeedAtLeast(Dragged(Dragged(vx, d2), d3), vy + 127.4, 0.0);
    assert SquaredCeiling(0.041) == 1.21 * (177.4 * 177.4 + 2025.0);
  }

  lemma StayedOpen(s: State, st: Stage)
    requires Inv(s, st) && s.holdMs < 15000.0
    ensures !s.finished && |s.slots| == MAX_BLOBS && s.cursor < MAX_BLOBS && st.height > 0.0
  {
  }
}
