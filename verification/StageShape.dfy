/**
 * Exactly which stages keep the report free of their size: those on which no blob can reach the side
 * before the floor. On any narrower shape a droplet thrown at the edge leaves a large stage in mid-air
 * and stays on a small one, whose side margin of 80 pixels is then wide.
 */
module StageShape {
  import opened Numbers
  import opened Sim
  import opened RigModel
  import opened RigFlight
  import opened StageInvariance
  import opened FallingBlob
  import opened NarrowStage
  import opened HonestPeak
  import HonestPour
  import Overrun

  /** The stage of sim width w at scale k. */
  function StageOf(k: real, w: real): Stage { Stage(w * k, 900.0 * k) }

  lemma StageOfIs(k: real, w: real)
    requires k > 0.0
    ensures StageOf(k, w).height > 0.0 && StageOf(k, w).Scale() == k && SimWidth(StageOf(k, w)) == w
  {
    DivCancel(w, k);
  }

  /** The side margin in sim units. */
  function Margin(st: Stage): real
    requires st.height > 0.0
  {
    80.0 / st.Scale()
  }

  predicate OnStage(q: Slot, st: Stage)
    requires st.height > 0.0
  {
    -Margin(st) <= q.x <= SimWidth(st) + Margin(st) && q.rad >= 4.0
  }

  lemma GoneScales(b: Slot, e: Env)
    requires e.st.height > 0.0
    ensures Gone(b, e) <==> !OnStage(ToSim(b, e.st), e.st)
  {
    var s, q := e.st.Scale(), ToSim(b, e.st);
    DivBelow(b.x, -80.0, s);
    DivNeg(80.0, s, Margin(e.st));
    DivBelow(e.st.width + 80.0, b.x, s);
    DivAdd(e.st.width, 80.0, s, SimWidth(e.st), Margin(e.st));
    DivLe(b.rad, 4.0, s);
  }

  lemma DivBelow(a: real, b: real, s: real)
    requires s > 0.0
    ensures a < b <==> a / s < b / s
  {
    var p, q := a / s, b / s;
    assert p * s == a && q * s == b;
    if p < q {
      MulLt(p, q, s);
    } else {
      MulLe(q, p, s);
    }
  }

  lemma DivNeg(b: real, s: real, q: real)
    requires s > 0.0 && q == b / s
    ensures (-b) / s == -q
  {
    assert q * s == b;
    assert (-q) * s == -b;
    DivCancel(-q, s);
  }

  // ---- one droplet, alone ------------------------------------------------------------------

  /** The only droplet is in the air at q. */
  predicate Here(s: State, st: Stage, q: Slot)
    requires st.height > 0.0
  {
    |s.slots| == MAX_BLOBS && Lone(s, s.slots[0]) && s.slots[0].Airborne() && ToSim(s.slots[0], st) == q
  }

  /** It has been freed. */
  predicate Left(s: State) { |s.slots| == MAX_BLOBS && forall i :: 0 <= i < MAX_BLOBS ==> s.slots[i].rad <= 0.0 }

  lemma FlySlot(b: Slot, e: Env, q: Slot)
    requires e.st.height > 0.0 && b.Airborne() && ToSim(b, e.st) == q && SimFall(q, e.dt, e.drag).y <= FLOOR
    ensures var r, c := SimFall(q, e.dt, e.drag), StepSlot(b, e);
      && ToSim(Fall(b, e), e.st) == r && SpeedSq(Fall(b, e), e.st) == SimSpeedSq(r.vx, r.vy)
      && (OnStage(r, e.st) ==> c.Airborne() && ToSim(c, e.st) == r)
      && (!OnStage(r, e.st) ==> c.rad <= 0.0)
  {
    hide SpeedSq, SimSpeedSq, SimFall, OnStage;
    FallScales(b, e);
    TouchesScales(Fall(b, e), e);
    GoneScales(Fall(b, e), e);
    SpeedScales(Fall(b, e), e.st);
  }

  lemma FlyFrame(s: State, e: Env, q: Slot)
    requires e.st.height > 0.0 && Here(s, e.st, q) && SimFall(q, e.dt, e.drag).y <= FLOOR
    ensures var r, t := SimFall(q, e.dt, e.drag), Integrate(s, e);
      && (if OnStage(r, e.st) then Here(t, e.st, r) else Left(t))
      && t.peakSq == (if e.open && SimSpeedSq(r.vx, r.vy) > s.peakSq then SimSpeedSq(r.vx, r.vy) else s.peakSq)
  {
    hide SpeedSq, SimSpeedSq, SimFall, OnStage, Fall, ToSim, TallyUpTo, StepSlot;
    FlySlot(s.slots[0], e, q);
    FramePeak(s, e, s.slots[0]);
  }

  lemma LeftFrame(s: State, e: Env)
    requires e.st.height > 0.0 && Left(s)
    ensures Left(Integrate(s, e)) && Integrate(s, e).peakSq == s.peakSq
  {
    FramePeak(s, e, s.slots[0]);
  }

  // ---- its track -----------------------------------------------------------------------------

  /** Draws close to one for the place and the drift; no downward speed. */
  function EdgeDraw(u: Unit): Draw { Draw(u, u, 0.0, 0.0) }

  /** Where the droplet is after x seconds of ticks of d. */
  function Track(w: real, u: real, d: real, x: real): Slot
  {
    Slot(0.66 * w + 14.0 * (2.0 * u - 1.0) + 90.0 * u * x, Overrun.Fell(x, d), 90.0 * u, 1400.0 * x, 28.0, false, x)
  }

  lemma TrackStarts(w: real, u: Unit, d: real)
    ensures SimDroplet(EdgeDraw(u), 1.0, 40.0, w) == Track(w, u, d, 0.0)
  {
  }

  lemma TrackNext(w: real, u: real, d: real, x: real)
    ensures SimFall(Track(w, u, d, x), d, 1.0) == Track(w, u, d, x + d)
  {
    Overrun.FellNext(x, d);
    assert 90.0 * u * x + 90.0 * u * d == 90.0 * u * (x + d);
  }

  lemma TrackStays(w: real, u: real, d: real, x: real)
    ensures SimFall(Track(w, u, d, x), 0.0, 1.0) == Track(w, u, d, x)
  {
  }

  /** A margin no droplet crosses. */
  lemma WideMargin(w: real, u: Unit, d: real, x: real, st: Stage)
    requires st.height > 0.0 && w > 0.0 && SimWidth(st) == w && Margin(st) >= 200.0 + w && 0.0 <= x <= 1.0
    ensures OnStage(Track(w, u, d, x), st)
  {
    MulNonNeg(u, x);
    ShrinkPos(u, x);
  }

  // ---- the pour ------------------------------------------------------------------------------

  /** A frame of full lean on the top tier without drag. */
  function Thrown(pouring: bool, dtMs: real): Frame { Frame(pouring, 1.0, 5, dtMs, 1.0) }

  /** The droplet after the run so far: at its place on the track, or gone over the side. */
  predicate Tracked(s: State, st: Stage, q: Slot)
    requires st.height > 0.0
  {
    if Margin(st) >= 200.0 + SimWidth(st) then Here(s, st, q) else (Here(s, st, q) && OnStage(q, st)) || Left(s)
  }

  /** Not finished, nothing waiting to be released. */
  predicate Resting(s: State)
  {
    |s.slots| == MAX_BLOBS && s.cursor == 1 && s.spawnAcc == 0.0 && !s.finished && s.holdMs < 1000.0
  }

  lemma TickTracked(s: State, st: Stage, random: nat -> Draw, w: real, u: Unit, d: real, x: real)
    requires st.height > 0.0 && SimWidth(st) == w && w > 0.0 && Tracked(s, st, Track(w, u, d, x)) && Resting(s)
    requires 0.0 <= x && 0.0 <= d <= 0.05 && x + d <= 1.0 && Overrun.Fell(x + d, d) <= FLOOR
    ensures var r := Step(s, Thrown(false, 1000.0 * d), st, random);
      Tracked(r, st, Track(w, u, d, x + d)) && Resting(r) && r.peakSq == s.peakSq
  {
    hide Integrate, Here, OnStage, Track, SimFall, Margin, SimSpeedSq;
    var f := Thrown(false, 1000.0 * d);
    assert f.Dt() == d;
    var p, e := Pour(s, f, st, random), EnvOf(s, f, st);
    SamePlace(s, p, st, Track(w, u, d, x));
    TrackNext(w, u, d, x);
    TrackDeep(w, u, d, x + d);
    if Margin(st) >= 200.0 + w {
      WideMargin(w, u, d, x + d, st);
      FlyFrame(p, e, Track(w, u, d, x));
    } else if Left(s) {
      LeftFrame(p, e);
    } else {
      FlyFrame(p, e, Track(w, u, d, x));
    }
    IntegrateRests(p, e);
  }

  lemma TrackDeep(w: real, u: real, d: real, x: real)
    ensures Track(w, u, d, x).y == Overrun.Fell(x, d)
  {
  }

  lemma SamePlace(s: State, p: State, st: Stage, q: Slot)
    requires st.height > 0.0 && p.slots == s.slots
    ensures Here(s, st, q) ==> Here(p, st, q)
    ensures Left(s) ==> Left(p)
  {
  }

  lemma IntegrateRests(p: State, e: Env)
    requires |p.slots| == MAX_BLOBS && e.st.height > 0.0
    ensures var r := Integrate(p, e);
      r.cursor == p.cursor && r.spawnAcc == p.spawnAcc && r.holdMs == p.holdMs && (r.finished <==> p.holdMs >= 15000.0)
  {
    hide TallyUpTo;
  }

  /** How long to press before the frame that releases the droplet. */
  function LeadMs(d: real): real { 1000.0 / 34.0 - 1000.0 * d }

  /** Two open frames: the second releases the droplet, which falls for its time and is sampled. */
  lemma Throw(st: Stage, random: nat -> Draw, w: real, u: Unit, d: real)
    requires st.height > 0.0 && SimWidth(st) == w && w > 0.0 && random(0) == EdgeDraw(u) && 0.0 < d <= 0.01
    ensures var s := Run(Emptied(TierFeel(5), 0), [Thrown(true, LeadMs(d)), Thrown(true, 1000.0 * d)], st, random);
      && Tracked(s, st, Track(w, u, d, d)) && Resting(s)
      && s.peakSq == SimSpeedSq(90.0 * u, 1400.0 * d)
  {
    hide Integrate, OnStage, SimFall, Margin, SimSpeedSq, Droplet, SimDroplet, Track, Ease;
    var f, g, s0 := Thrown(true, LeadMs(d)), Thrown(true, 1000.0 * d), Emptied(TierFeel(5), 0);
    assert f.Dt() == 1.0 / 34.0 - d && g.Dt() == d;
    ThrowGain(f, g, d);
    RunConcat(s0, [f], [g], st, random);
    assert [f] + [g] == [f, g];
    HonestPour.RunOne(s0, f, st, random);
    var p1, e1 := Pour(s0, f, st, random), EnvOf(s0, f, st);
    var s1 := Integrate(p1, e1);
    assert Step(s0, f, st, random) == s1;
    LeftFrame(p1, e1);
    IntegrateRests(p1, e1);
    IntegrateFeels(p1, e1);
    HonestPour.RunOne(s1, g, st, random);
    SteadyFeel(f.Dt());
    SteadyFeel(g.Dt());
    var p2, e2 := Pour(s1, g, st, random), EnvOf(s1, g, st);
    assert Step(s1, g, st, random) == Integrate(p2, e2);
    SpawnFew(Filled(s1, g), 1.0, st, random);
    DropletScales(EdgeDraw(u), 1.0, 40.0, st);
    TrackStarts(w, u, d);
    SpoutRadius(u, st);
    assert Here(p2, st, Track(w, u, d, 0.0));
    TrackNext(w, u, d, 0.0);
    ThrownTrack(w, u, d);
    FlyFrame(p2, e2, Track(w, u, d, 0.0));
    IntegrateRests(p2, e2);
    if Margin(st) >= 200.0 + w {
      WideMargin(w, u, d, d, st);
    }
    SpeedPositive(90.0 * u, 1400.0 * d);
  }

  lemma ThrowGain(f: Frame, g: Frame, d: real)
    requires f == Thrown(true, LeadMs(d)) && g == Thrown(true, 1000.0 * d) && 0.0 < d <= 0.01
    ensures 0.0 <= f.SpawnGain() < 1.0 && f.SpawnGain() + g.SpawnGain() == 1.0
  {
  }

  lemma IntegrateFeels(p: State, e: Env)
    requires |p.slots| == MAX_BLOBS && e.st.height > 0.0
    ensures var r := Integrate(p, e); r.feel == p.feel && r.drawn == p.drawn
  {
    hide TallyUpTo;
  }

  lemma SteadyFeel(dt: real)
    ensures Ease(TierFeel(5), TierFeel(5), dt) == TierFeel(5)
  {
  }

  lemma SpoutRadius(u: Unit, st: Stage)
    requires st.height > 0.0
    ensures Droplet(EdgeDraw(u), 1.0, 40.0, st).Airborne()
  {
    MulPos(28.0, st.Scale());
  }

  lemma ThrownTrack(w: real, u: real, d: real)
    requires 0.0 < d <= 0.01
    ensures Track(w, u, d, d).vx == 90.0 * u && Track(w, u, d, d).vy == 1400.0 * d && Track(w, u, d, d).y <= FLOOR
  {
    hide Track, Overrun.Fell;
    var p := d * d;
    SquareLe(d, 0.01);
    FellTwice(d, p);
    ShallowFall(p, Overrun.Fell(d, d));
    TrackDeep(w, u, d, d);
    TrackSpeeds(w, u, d, d);
  }

  lemma ShallowFall(p: real, y: real)
    requires p <= 0.01 && y == SPOUT + 1400.0 * p
    ensures y <= FLOOR
  {
  }

  lemma FellTwice(d: real, p: real)
    requires p == d * d
    ensures Overrun.Fell(d, d) == SPOUT + 1400.0 * p
  {
    assert d * (d + d) == 2.0 * (d * d);
  }

  lemma SpeedPositive(vx: real, vy: real)
    requires vx >= 0.0 && vy > 0.0
    ensures SimSpeedSq(vx, vy) > 0.0
  {
    var a, b := vx * vx, vy * vy;
    SquareStrict(0.0, vy);
    MulNonNeg(vx, vx);
    assert SimSpeedSq(vx, vy) == a + b;
    PositiveSum(a, b, SimSpeedSq(vx, vy));
  }

  lemma PositiveSum(a: real, b: real, c: real)
    requires a >= 0.0 && b > 0.0 && c == a + b
    ensures c > 0.0
  {
  }

  /** Ticks of d seconds with the stream shut. */
  function Ticks(n: nat, d: real): seq<Frame> { seq(n, _ => Thrown(false, 1000.0 * d)) }

  /** The droplet's age after the throw and n ticks. */
  function Age(n: nat, d: real): real { (n + 1) as real * d }

  lemma AgeNext(n: nat, d: real)
    ensures Age(n + 1, d) == Age(n, d) + d && Age(0, d) == d
  {
  }

  lemma AgeMonotone(n: nat, m: nat, d: real)
    requires n <= m && 0.0 <= d
    ensures 0.0 <= Age(n, d) <= Age(m, d)
  {
    MulLe((n + 1) as real, (m + 1) as real, d);
    MulNonNeg((n + 1) as real, d);
  }

  /** A fall of m ticks that stays above the floor. */
  predicate Flies(m: nat, d: real) { 0.0 < d <= 0.01 && Age(m, d) <= 1.0 && Overrun.Fell(Age(m, d), d) <= FLOOR }

  lemma {:induction false} TicksTracked(s: State, st: Stage, random: nat -> Draw, w: real, u: Unit, d: real, n: nat, m: nat)
    requires st.height > 0.0 && SimWidth(st) == w && w > 0.0 && Tracked(s, st, Track(w, u, d, d)) && Resting(s)
    requires n <= m && Flies(m, d)
    ensures var r := Run(s, Ticks(n, d), st, random);
      Tracked(r, st, Track(w, u, d, Age(n, d))) && Resting(r) && r.peakSq == s.peakSq
  {
    hide Step, Tracked, Track, Age, Overrun.Fell;
    AgeNext(0, d);
    if n > 0 {
      TicksTracked(s, st, random, w, u, d, n - 1, m);
      assert Ticks(n, d)[..n - 1] == Ticks(n - 1, d);
      AgeNext(n - 1, d);
      AgeMonotone(n - 1, m, d);
      AgeMonotone(n, m, d);
      Overrun.FellMonotone(Age(n, d), Age(m, d), d);
      TickTracked(Run(s, Ticks(n - 1, d), st, random), st, random, w, u, d, Age(n - 1, d));
    }
  }

  /** An open frame of no length samples what is there. */
  lemma Sample(s: State, st: Stage, random: nat -> Draw, w: real, u: Unit, d: real, x: real)
    requires st.height > 0.0 && SimWidth(st) == w && w > 0.0 && Tracked(s, st, Track(w, u, d, x)) && Resting(s)
    requires Overrun.Fell(x, d) <= FLOOR
    ensures var r := Step(s, Thrown(true, 0.0), st, random);
      && (Margin(st) >= 200.0 + w ==> r.peakSq >= SimSpeedSq(90.0 * u, 1400.0 * x))
      && (Margin(st) < 200.0 + w && !OnStage(Track(w, u, d, x), st) ==> r.peakSq == s.peakSq)
  {
    hide Integrate, OnStage, Track, SimFall, Margin, SimSpeedSq, Here;
    var f := Thrown(true, 0.0);
    assert f.Dt() == 0.0;
    NoGain(f);
    var p, e := Pour(s, f, st, random), EnvOf(s, f, st);
    SamePlace(s, p, st, Track(w, u, d, x));
    TrackStays(w, u, d, x);
    TrackDeep(w, u, d, x);
    TrackSpeeds(w, u, d, x);
    if Margin(st) >= 200.0 + w {
      FlyFrame(p, e, Track(w, u, d, x));
    } else if Left(s) {
      LeftFrame(p, e);
    }
  }

  lemma NoGain(f: Frame)
    requires f.Dt() == 0.0
    ensures f.SpawnGain() == 0.0
  {
  }

  lemma TrackSpeeds(w: real, u: real, d: real, x: real)
    ensures Track(w, u, d, x).vx == 90.0 * u && Track(w, u, d, x).vy == 1400.0 * x
  {
  }

  function ThrowFrames(n: nat, d: real): seq<Frame>
  {
    [Thrown(true, LeadMs(d)), Thrown(true, 1000.0 * d)] + Ticks(n, d) + [Thrown(true, 0.0)]
  }

  /** The whole pour: a margin no droplet crosses sees the droplet fall, one it has crossed does not. */
  lemma ThrownPour(st: Stage, random: nat -> Draw, w: real, u: Unit, d: real, n: nat)
    requires st.height > 0.0 && SimWidth(st) == w && w > 0.0 && random(0) == EdgeDraw(u) && Flies(n, d)
    ensures var r := Run(Emptied(TierFeel(5), 0), ThrowFrames(n, d), st, random);
      && (Margin(st) >= 200.0 + w ==> r.peakSq >= SimSpeedSq(90.0 * u, 1400.0 * Age(n, d)))
      && ((Margin(st) < 200.0 + w && !OnStage(Track(w, u, d, Age(n, d)), st))
            ==> r.peakSq == SimSpeedSq(90.0 * u, 1400.0 * d))
  {
    hide Run, Step, Tracked, Track, OnStage, Margin, SimSpeedSq, Overrun.Fell, Age;
    var s0, press := Emptied(TierFeel(5), 0), [Thrown(true, LeadMs(d)), Thrown(true, 1000.0 * d)];
    RunConcat(s0, press + Ticks(n, d), [Thrown(true, 0.0)], st, random);
    RunConcat(s0, press, Ticks(n, d), st, random);
    Throw(st, random, w, u, d);
    var s1 := Run(s0, press, st, random);
    TicksTracked(s1, st, random, w, u, d, n, n);
    var s2 := Run(s1, Ticks(n, d), st, random);
    HonestPour.RunOne(s2, Thrown(true, 0.0), st, random);
    Sample(s2, st, random, w, u, d, Age(n, d));
  }

  // ---- the exact shape -----------------------------------------------------------------------

  /** Every two stages of sim width w, whatever their sizes, get the same report of the same pour. */
  ghost predicate AlwaysInvariant(w: real)
  {
    forall feel: Feel, drawn: nat, frames: seq<Frame>, st1: Stage, st2: Stage, random: nat -> Draw
      :: FeelOk(feel) && FramesOk(frames) && st1.height > 0.0 && st2.height > 0.0
         && SimWidth(st1) == w && SimWidth(st2) == w
         ==> SameReport(Run(Emptied(feel, drawn), frames, st1, random), Run(Emptied(feel, drawn), frames, st2, random))
  }

  /** Room for a fall a little longer than it takes to reach the side. */
  lemma FallTicks(w: real) returns (eta: real, d: real, n: nat)
    requires w > 0.0 && !ShapeFits(w)
    ensures 0.0 < eta <= 0.01 && n >= 1 && Flies(n, d) && Age(n, d) >= EdgeTime(w) + eta
  {
    var base := Max(EdgeTime(w), 0.0);
    assert Fallen(base) < 558.0;
    if base >= 0.9 {
      FallenMonotone(0.9, base);
    }
    var gap := 558.0 - Fallen(base);
    eta := Min(gap / 4000.0, 0.01);
    n := Ceil(1.0 / eta) + 2;
    TickSize(base + eta, eta, n);
    d := (base + eta) / (n + 1) as real;
    NearlyFallen(base, eta, d);
  }

  lemma TickSize(t: real, eta: real, n: nat)
    requires 0.0 < eta <= 0.01 && eta <= t <= 1.0 && n == Ceil(1.0 / eta) + 2
    ensures var d := t / (n + 1) as real; n >= 2 && 0.0 < d <= eta && Age(n, d) == t
  {
    var q := 1.0 / eta;
    assert q * eta == 1.0;
    CeilBounds(q);
    var m, d := (n + 1) as real, t / (n + 1) as real;
    assert q > 0.0 by {
      if q <= 0.0 {
        MulLe(q, 0.0, eta);
      }
    }
    assert m >= q;
    assert d * m == t;
    if d <= 0.0 {
      MulLe(d, 0.0, m);
    }
    if d > eta {
      MulLt(eta, d, m);
      MulLe(q, m, eta);
    }
  }

  lemma NearlyFallen(base: real, eta: real, d: real)
    requires 0.0 <= base <= 0.9 && 0.0 < d <= eta <= 0.01 && Fallen(base) + 4000.0 * eta <= 558.0
    ensures Overrun.Fell(base + eta, d) <= FLOOR
  {
    hide Overrun.Fell, Fallen;
    Overrun.TickFits(base, eta);
    FellGrows(base + eta, d, eta);
  }

  lemma FellGrows(x: real, d: real, eta: real)
    requires 0.0 <= x && d <= eta
    ensures Overrun.Fell(x, d) <= Overrun.Fell(x, eta)
  {
    MulLe(x + d, x + eta, x);
  }

  /** Far enough over the side of a stage whose margin is small. */
  lemma OverTheSide(w: real, u: Unit, d: real, x: real, eta: real, st: Stage)
    requires st.height > 0.0 && SimWidth(st) == w && 0.0 <= x <= 1.0 && 0.0 < eta <= 0.01
    requires x >= EdgeTime(w) + eta && u == 1.0 - eta / 4.0 && Margin(st) == 30.0 * eta
    ensures !OnStage(Track(w, u, d, x), st)
  {
    var e := eta / 4.0;
    ShrinkPos(e, x);
    assert 90.0 * u * x == 90.0 * x - 90.0 * (e * x);
  }

  lemma FasterLater(vx: real, a: real, b: real)
    requires 0.0 < a < b
    ensures SimSpeedSq(vx, 1400.0 * a) < SimSpeedSq(vx, 1400.0 * b)
  {
    SquareStrict(1400.0 * a, 1400.0 * b);
  }

  lemma NotInvariant(w: real)
    requires w > 0.0 && !ShapeFits(w)
    ensures !AlwaysInvariant(w)
  {
    hide Run, Flies, Age, Track, OnStage, SimSpeedSq, ThrowFrames, ShapeFits;
    var eta, d, n := FallTicks(w);
    var u: Unit := 1.0 - eta / 4.0;
    var small, large := 80.0 / (200.0 + w), 80.0 / (30.0 * eta);
    Scales(w, eta, small, large);
    var st1, st2 := StageOf(small, w), StageOf(large, w);
    StageOfIs(small, w);
    StageOfIs(large, w);
    var random: nat -> Draw := _ => EdgeDraw(u);
    var feel, frames := TierFeel(5), ThrowFrames(n, d);
    ThrownPour(st1, random, w, u, d, n);
    ThrownPour(st2, random, w, u, d, n);
    FliesAge(n, d);
    OverTheSide(w, u, d, Age(n, d), eta, st2);
    FasterLater(90.0 * u, d, Age(n, d));
    ThrowFramesOk(n, d);
    assert FeelOk(feel);
    assert !SameReport(Run(Emptied(feel, 0), frames, st1, random), Run(Emptied(feel, 0), frames, st2, random));
  }

  lemma FliesAge(n: nat, d: real)
    requires n >= 1 && Flies(n, d)
    ensures 0.0 < d < Age(n, d) && Age(n, d) <= 1.0
  {
    MulLe(2.0, (n + 1) as real, d);
  }

  lemma Scales(w: real, eta: real, small: real, large: real)
    requires w > 0.0 && 0.0 < eta <= 0.01 && small == 80.0 / (200.0 + w) && large == 80.0 / (30.0 * eta)
    ensures small > 0.0 && large > 0.0 && 80.0 / small == 200.0 + w && 80.0 / large == 30.0 * eta
  {
    Reciprocal(200.0 + w, small);
    Reciprocal(30.0 * eta, large);
  }

  lemma Reciprocal(a: real, b: real)
    requires a > 0.0 && b == 80.0 / a
    ensures b > 0.0 && 80.0 / b == a
  {
    assert b * a == 80.0;
    if b <= 0.0 {
      MulLe(b, 0.0, a);
    }
  }

  lemma ThrowFramesOk(n: nat, d: real)
    requires Flies(n, d)
    ensures FramesOk(ThrowFrames(n, d))
  {
    hide Age;
  }

  /**
   * The exact shape. Of the stages of sim width w (their width for a height of 900), all get the same
   * report of every pour if and only if no blob can reach the side before the floor.
   */
  lemma InvariantExactly(w: real)
    requires w > 0.0
    ensures AlwaysInvariant(w) <==> ShapeFits(w)
  {
    hide Run, ShapeFits, SameReport;
    if ShapeFits(w) {
      forall feel: Feel, drawn: nat, frames: seq<Frame>, st1: Stage, st2: Stage, random: nat -> Draw
        | FeelOk(feel) && FramesOk(frames) && st1.height > 0.0 && st2.height > 0.0
          && SimWidth(st1) == w && SimWidth(st2) == w
        ensures SameReport(Run(Emptied(feel, drawn), frames, st1, random), Run(Emptied(feel, drawn), frames, st2, random))
      {
        SameWidth(feel, drawn, frames, st1, st2, random);
      }
    } else {
      NotInvariant(w);
    }
  }

  lemma SameWidth(feel: Feel, drawn: nat, frames: seq<Frame>, st1: Stage, st2: Stage, random: nat -> Draw)
    requires FeelOk(feel) && FramesOk(frames) && StageOk(st1) && StageOk(st2) && SimWidth(st1) == SimWidth(st2)
    ensures SameReport(Run(Emptied(feel, drawn), frames, st1, random), Run(Emptied(feel, drawn), frames, st2, random))
  {
    SameWidthShape(st1, st2);
    StageSizeInvariance(feel, drawn, frames, st1, st2, random);
  }

  lemma SameWidthShape(st1: Stage, st2: Stage)
    requires st1.height > 0.0 && st2.height > 0.0 && SimWidth(st1) == SimWidth(st2)
    ensures SameShape(st1, st2)
  {
    var w := SimWidth(st1);
    assert st1.width == w * st1.Scale() && st2.width == w * st2.Scale();
    assert st1.height == 900.0 * st1.Scale() && st2.height == 900.0 * st2.Scale();
  }

  /** Where the limit lies: 278 sim units fit, 277 do not; a third of the height is 300, and 9:16 is 506. */
  lemma WhichShapesFit()
    ensures ShapeFits(278.0) && !ShapeFits(277.0) && ShapeFits(300.0) && ShapeFits(506.25)
  {
    assert Fallen(0.8946) < Fallen(0.9);
    assert EdgeTime(278.0) >= 0.8946 && EdgeTime(277.0) <= 0.8909;
  }
}
