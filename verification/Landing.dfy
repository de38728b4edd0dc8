/**
 * One frame of the rig in numbers, and what becomes of a blob that has landed. Everything here is stated on
 * the coordinates, with the constants written out.
 */
module Landing {
  import opened Numbers
  import opened Sim
  import opened RigModel
  import opened RigFlight
  import opened Conservation
  import opened HonestPeak
  import FallingBlob

  // ---- one frame, in coordinates -----------------------------------------------------------

  /** The vessel after a reset: every slot free, every counter at nothing, the feel and the generator where they were. */
  lemma EmptiedInNumbers(feel: Feel, drawn: nat)
    ensures var s := Emptied(feel, drawn);
      && |s.slots| == 32 && (forall i :: 0 <= i < 32 ==> s.slots[i] == Slot(0.0, 0.0, 0.0, 0.0, 0.0, false, 0.0))
      && s.cursor == 0 && s.spawnAcc == 0.0 && s.holdMs == 0.0 && s.dropletsLanded == 0 && s.peakSq == 0.0
      && s.tiltEnergy == 0.0 && s.alive == 0 && s.airborne == 0 && !s.finished
      && s.feel == feel && s.drawn == drawn
  {
  }

  /** What the integration of a frame works with: capped seconds, the eased viscosity, and whether the stream is open. */
  lemma FrameInNumbers(s: State, f: Frame, st: Stage)
    ensures var e := EnvOf(s, f, st);
      var dt := if f.dtMs <= 50.0 then f.dtMs / 1000.0 else 0.05;
      var k := if 4.5 * dt <= 1.0 then 4.5 * dt else 1.0;
      && e.st == st && e.dt == dt && e.drag == f.drag
      && e.viscosity == s.feel.viscosity + ([0.15, 0.45, 0.6, 0.72, 0.82, 0.92][f.tier] - s.feel.viscosity) * k
      && (e.open <==> f.pouring && !s.finished)
  {
  }

  /**
   * What a frame makes of a blob. It gains 1400 a second of downward speed, scaled; its drift is dragged; it
   * moves by its new speed. Past 0.82 of the height it is put on the floor, thrown back at 0.28 of the
   * impact that the viscosity leaves, slowed sideways, shrunk, and marked landed. More than 80 pixels outside
   * the stage, or smaller than 4 units, it gives up its slot, and nothing else of it changes.
   */
  lemma BlobInNumbers(s: State, e: Env, i: nat)
    requires |s.slots| == MAX_BLOBS && i < MAX_BLOBS && e.st.height > 0.0 && s.slots[i].rad > 0.0
    ensures var b, c := s.slots[i], Integrate(s, e).slots[i];
      var scale, v := e.st.height / 900.0, e.viscosity;
      var vx, vy := b.vx * e.drag, b.vy + 1400.0 * scale * e.dt;
      var x, y := b.x + vx * e.dt, b.y + vy * e.dt;
      var hit := y > e.st.height * 0.82;
      var rad := if hit then b.rad * (1.0 - 0.12 * v) else b.rad;
      && c.x == x
      && c.y == (if hit then e.st.height * 0.82 else y)
      && c.vx == (if hit then vx * (1.0 - 0.7 * v) else vx)
      && c.vy == (if hit then -(vy * (0.28 * (1.0 - v))) else vy)
      && c.landed == (b.landed || hit)
      && c.rad == if x < -80.0 || x > e.st.width + 80.0 || rad < 4.0 * scale then 0.0 else rad
  {
    hide TallyUpTo, Stage.FloorY, Stage.Scale;
    ScaleIs(e.st);
    var b := s.slots[i];
    LandingIs(Fall(b, e), e);
  }

  lemma ScaleIs(st: Stage)
    ensures st.Scale() == st.height / 900.0 && st.FloorY() == st.height * 0.82
  {
  }

  lemma LandingIs(c: Slot, e: Env)
    ensures var v := e.viscosity;
      var d := Bounce(c, e);
      && d.x == c.x && d.age == c.age
      && (c.y <= e.st.height * 0.82 ==> d == c)
      && (c.y > e.st.height * 0.82 ==>
            && d.y == e.st.height * 0.82 && d.landed
            && d.vx == c.vx * (1.0 - 0.7 * v) && d.vy == -(c.vy * (0.28 * (1.0 - v)))
            && d.rad == c.rad * (1.0 - 0.12 * v))
  {
    hide Stage.FloorY;
    ScaleIs(e.st);
    ThrownBack(c.vy, 0.28 * (1.0 - e.viscosity));
    Slowed(c.vx, e.viscosity);
  }

  lemma ThrownBack(vy: real, k: real)
    ensures vy * -k == -(vy * k)
  {
  }

  lemma Slowed(vx: real, v: real)
    ensures vx * (1.0 - v * 0.7) == vx * (1.0 - 0.7 * v)
  {
  }

  /** A free slot stays as it is. */
  lemma FreeInNumbers(s: State, e: Env, i: nat)
    requires |s.slots| == MAX_BLOBS && i < MAX_BLOBS && e.st.height > 0.0 && s.slots[i].rad <= 0.0
    ensures Integrate(s, e).slots[i] == s.slots[i]
  {
    hide TallyUpTo;
  }

  /** Where and how a droplet leaves the spout, for the four draws it consumes and the lean. */
  lemma DropletInNumbers(d: Draw, lean: real, radius: real, st: Stage)
    requires st.height > 0.0
    ensures var b := Droplet(d, lean, radius, st);
      var scale := st.height / 900.0;
      && b.x == st.width / 2.0 + 28.0 * scale * (d.x - 0.5) + 0.16 * st.width * lean
      && b.y == st.height * 0.2
      && b.vx == 45.0 * scale * (2.0 * d.vx - 1.0 + lean) && b.vy == 120.0 * scale * d.vy
      && b.rad == radius * scale * (0.7 + 0.6 * d.rad) && !b.landed
  {
    ScaleIs(st);
    var k := st.Scale();
    assert ((d.vx - 0.5) * 2.0 * SPAWN_VX_MAX + lean * SPAWN_VX_MAX) * k == 45.0 * k * (2.0 * d.vx - 1.0 + lean);
  }

  /** The radius a frame releases droplets with, and how much it adds to the accumulator. */
  lemma SpoutInNumbers(s: State, f: Frame)
    ensures var dt := if f.dtMs <= 50.0 then f.dtMs / 1000.0 else 0.05;
      var k := if 4.5 * dt <= 1.0 then 4.5 * dt else 1.0;
      && Filled(s, f).feel.radius == s.feel.radius + ([16.0, 22.0, 26.0, 30.0, 34.0, 40.0][f.tier] - s.feel.radius) * k
      && f.SpawnGain() == dt * [10.0, 16.0, 20.0, 24.0, 28.0, 34.0][f.tier]
  {
    assert Flow(f.tier) as real == [10.0, 16.0, 20.0, 24.0, 28.0, 34.0][f.tier];
  }

  /** The droplet of an open frame goes to the slot under the cursor, with the radius of the eased feel, and costs one unit. */
  lemma ReleaseInNumbers(s: State, f: Frame, st: Stage, random: nat -> Draw)
    requires |s.slots| == MAX_BLOBS && s.cursor < MAX_BLOBS && Open(s, f)
    requires 1.0 <= s.spawnAcc + f.SpawnGain() < 2.0
    ensures var p := Pour(s, f, st, random);
      && p.slots[s.cursor] == Droplet(random(s.drawn), f.lean, Filled(s, f).feel.radius, st)
      && p.cursor == (if s.cursor == 31 then 0 else s.cursor + 1) && p.drawn == s.drawn + 1
      && p.spawnAcc == s.spawnAcc + f.SpawnGain() - 1.0
      && forall i :: 0 <= i < MAX_BLOBS && i != s.cursor ==> p.slots[i] == s.slots[i]
  {
    hide Droplet, SpawnAll, Ease, FlowOver, TiltOver;
    FallingBlob.SpawnFew(Filled(s, f), f.lean, st, random);
  }

  /** Each component of the feel covers the same share of its way to the tier's, 4.5 a second and never past it. */
  lemma FeelInNumbers(feel: Feel, tier: TierIndex, dt: real)
    requires dt >= 0.0
    ensures var r, t := Ease(feel, TierFeel(tier), dt), TierFeel(tier);
      var left := if 4.5 * dt <= 1.0 then 1.0 - 4.5 * dt else 0.0;
      && r.viscosity - t.viscosity == (feel.viscosity - t.viscosity) * left
      && r.iridescence - t.iridescence == (feel.iridescence - t.iridescence) * left
      && r.roughness - t.roughness == (feel.roughness - t.roughness) * left
      && r.radius - t.radius == (feel.radius - t.radius) * left
  {
    hide EaseTo, TierFeel;
    var k, t := Min(1.0, dt * FEEL_EASE_RATE), TierFeel(tier);
    EaseLeaves(feel.viscosity, t.viscosity, k);
    EaseLeaves(feel.iridescence, t.iridescence, k);
    EaseLeaves(feel.roughness, t.roughness, k);
    EaseLeaves(feel.radius, t.radius, k);
  }

  /** The feel of each tier. */
  lemma FeelTable(tier: TierIndex)
    ensures var t := TierFeel(tier);
      && t.viscosity == [0.15, 0.45, 0.6, 0.72, 0.82, 0.92][tier]
      && t.iridescence == [0.0, 0.0, 0.1, 0.25, 0.75, 1.0][tier]
      && t.roughness == [0.75, 0.4, 0.3, 0.12, 0.06, 0.03][tier]
      && t.radius == [16.0, 22.0, 26.0, 30.0, 34.0, 40.0][tier]
  {
  }

  /** Easing between tiers stays between the thinnest and the thickest, the smallest and the largest. */
  lemma FeelRange(feel: Feel, tier: TierIndex, dt: real)
    requires dt >= 0.0 && 0.15 <= feel.viscosity <= 0.92 && 16.0 <= feel.radius <= 40.0
    ensures var r := Ease(feel, TierFeel(tier), dt); 0.15 <= r.viscosity <= 0.92 && 16.0 <= r.radius <= 40.0
  {
    hide EaseTo, TierFeel;
    FeelTable(tier);
    var k, t := Min(1.0, dt * FEEL_EASE_RATE), TierFeel(tier);
    Between(feel.viscosity, t.viscosity, k, 0.15, 0.92);
    Between(feel.radius, t.radius, k, 16.0, 40.0);
  }

  /** Every frame eases the feel, whether the stream is open or shut. */
  lemma StepEases(s: State, f: Frame, st: Stage, random: nat -> Draw)
    requires |s.slots| == MAX_BLOBS && s.cursor < MAX_BLOBS && st.height > 0.0
    ensures Step(s, f, st, random).feel == Ease(s.feel, TierFeel(f.tier), f.Dt())
  {
    hide Ease, TierFeel, TallyUpTo;
  }

  lemma EaseLeaves(from: real, target: real, k: real)
    ensures EaseTo(from, target, k) - target == (from - target) * (1.0 - k)
  {
  }

  // ---- the counters of a frame -------------------------------------------------------------

  /** Slots in use, among the first n. */
  function InUse(slots: seq<Slot>, n: nat): nat
    requires n <= |slots|
  {
    if n == 0 then 0 else InUse(slots, n - 1) + if slots[n - 1].rad > 0.0 then 1 else 0
  }

  lemma {:induction false} TallyInUse(slots: seq<Slot>, n: nat, t: Tally, e: Env)
    requires n <= |slots| && e.st.height > 0.0
    ensures TallyUpTo(slots, n, t, e).alive == t.alive + InUse(slots, n)
  {
    if n > 0 {
      TallyInUse(slots, n - 1, t, e);
    }
  }

  /** `alive` counts the slots in use and `airborne` those that have not landed, both before the frame's landings. */
  lemma CountsInNumbers(s: State, e: Env)
    requires |s.slots| == MAX_BLOBS && e.st.height > 0.0
    ensures var r := Integrate(s, e);
      r.alive == InUse(s.slots, MAX_BLOBS) && r.airborne == InFlight(s.slots, MAX_BLOBS)
  {
    hide StepSlot;
    TallyInUse(s.slots, |s.slots|, Tally(0, 0, s.dropletsLanded, s.peakSq), e);
    TallyCounts(s.slots, |s.slots|, Tally(0, 0, s.dropletsLanded, s.peakSq), e);
  }

  /** The square of a speed of vx and vy pixels a second, in sim units at a scale. */
  function SimSquare(vx: real, vy: real, scale: real): real
    requires scale > 0.0
  {
    (vx * vx + vy * vy) / scale / scale
  }

  /** A blob's speeds after the gravity and the drag of a frame. */
  function Drifts(b: Slot, e: Env): real { b.vx * e.drag }

  function Drops(b: Slot, e: Env): real { b.vy + 1400.0 * (e.st.height / 900.0) * e.dt }

  /** The speed a sample takes, squared and in sim units: after gravity and drag, before any landing. */
  function SampledSq(b: Slot, e: Env): real
    requires e.st.height > 0.0
  {
    SimSquare(Drifts(b, e), Drops(b, e), e.st.height / 900.0)
  }

  lemma SampledIs(b: Slot, e: Env)
    requires e.st.height > 0.0
    ensures SpeedSq(Fall(b, e), e.st) == SampledSq(b, e)
  {
    hide SimSquare, SpeedSq, Drifts, Drops, Fall;
    ScaleIs(e.st);
    FallSpeeds(b, e);
    SpeedIs(Fall(b, e), e.st, Drifts(b, e), Drops(b, e), e.st.height / 900.0);
  }

  lemma FallSpeeds(b: Slot, e: Env)
    ensures Fall(b, e).vx == Drifts(b, e) && Fall(b, e).vy == Drops(b, e)
  {
  }

  lemma SpeedIs(c: Slot, st: Stage, vx: real, vy: real, scale: real)
    requires st.height > 0.0 && c.vx == vx && c.vy == vy && st.Scale() == scale
    ensures scale > 0.0 && SpeedSq(c, st) == SimSquare(vx, vy, scale)
  {
    SquareIs(vx, vy, scale);
  }

  lemma SquareIs(vx: real, vy: real, scale: real)
    requires scale > 0.0
    ensures SquaredSpeed(vx, vy, scale) == SimSquare(vx, vy, scale)
  {
  }

  /**
   * The peak after an open frame is the greatest of the peak before and the samples of the blobs in the
   * air: none is above it, and it is one of them. A closed frame samples nothing (ClosedFrame).
   */
  lemma PeakIsGreatest(s: State, e: Env)
    requires |s.slots| == MAX_BLOBS && e.st.height > 0.0 && e.open
    ensures var r := Integrate(s, e);
      && r.peakSq >= s.peakSq
      && (forall i :: 0 <= i < MAX_BLOBS && s.slots[i].Airborne() ==> r.peakSq >= SampledSq(s.slots[i], e))
      && (r.peakSq == s.peakSq || exists i :: 0 <= i < MAX_BLOBS && s.slots[i].Airborne() && r.peakSq == SampledSq(s.slots[i], e))
  {
    hide StepSlot, SampledSq, SpeedSq, Fall;
    var t0 := Tally(0, 0, s.dropletsLanded, s.peakSq);
    forall i | 0 <= i < MAX_BLOBS && s.slots[i].Airborne()
      ensures TallyUpTo(s.slots, |s.slots|, t0, e).peakSq >= SampledSq(s.slots[i], e)
    {
      TallySees(s.slots, |s.slots|, t0, e, i);
      SampledIs(s.slots[i], e);
    }
    TallyAttained(s.slots, |s.slots|, t0, e);
  }

  lemma {:induction false} TallyAttained(slots: seq<Slot>, n: nat, t0: Tally, e: Env)
    requires n <= |slots| && e.st.height > 0.0
    ensures var p := TallyUpTo(slots, n, t0, e).peakSq;
      p >= t0.peakSq && (p == t0.peakSq || exists i :: 0 <= i < n && slots[i].Airborne() && p == SampledSq(slots[i], e))
  {
    hide SampledSq, SpeedSq, Fall;
    if n > 0 {
      TallyAttained(slots, n - 1, t0, e);
      SampledIs(slots[n - 1], e);
    }
  }

  // ---- a landed blob dissolves -------------------------------------------------------------

  /** A blob through any number of frames. */
  function Through(b: Slot, es: seq<Env>): Slot
  {
    if es == [] then b else StepSlot(Through(b, es[..|es| - 1]), es[|es| - 1])
  }

  /** How many of the frames it touched the floor in. */
  function Contacts(b: Slot, es: seq<Env>): nat
  {
    if es == [] then 0
    else
      var n := |es| - 1;
      var c := Through(b, es[..n]);
      Contacts(b, es[..n]) + if c.rad > 0.0 && Fall(c, es[n]).y > es[n].st.height * 0.82 then 1 else 0
  }

  /** x to the n. */
  function Power(x: real, n: nat): real { if n == 0 then 1.0 else x * Power(x, n - 1) }

  lemma {:induction false} PowerPositive(x: real, n: nat)
    requires 0.0 < x <= 1.0
    ensures 0.0 < Power(x, n) <= 1.0
  {
    if n > 0 {
      PowerPositive(x, n - 1);
      MulPos(x, Power(x, n - 1));
      ShrinkPos(Power(x, n - 1), x);
    }
  }

  /** Frames of one stage whose viscosity is at least v. */
  predicate Thick(es: seq<Env>, st: Stage, v: real)
  {
    forall i :: 0 <= i < |es| ==> es[i].st == st && v <= es[i].viscosity <= 1.0
  }

  /** Every contact leaves at most 1 - 0.12 v of the radius, so n contacts leave at most that to the n. */
  lemma {:induction false} ContactsShrink(b: Slot, es: seq<Env>, st: Stage, v: real)
    requires b.rad >= 0.0 && Thick(es, st, v) && 0.0 <= v <= 1.0
    ensures 0.0 <= Through(b, es).rad <= b.rad * Power(1.0 - 0.12 * v, Contacts(b, es))
  {
    hide StepSlot, Fall, Through, Contacts, Power;
    var x := 1.0 - 0.12 * v;
    if es == [] {
      NoFrames(b, x);
    } else {
      var n := |es| - 1;
      ContactsShrink(b, es[..n], st, v);
      var c, k := Through(b, es[..n]), Contacts(b, es[..n]);
      OneContact(c, es[n], v);
      PowerPositive(x, k);
      LastFrame(b, es, x);
      Shrunk(b.rad, c.rad, Power(x, k), x);
    }
  }

  lemma LastFrame(b: Slot, es: seq<Env>, x: real)
    requires es != []
    ensures var n := |es| - 1;
      var c, k := Through(b, es[..n]), Contacts(b, es[..n]);
      && Through(b, es) == StepSlot(c, es[n])
      && Contacts(b, es) == (if c.rad > 0.0 && Fall(c, es[n]).y > es[n].st.height * 0.82 then k + 1 else k)
      && Power(x, k + 1) == x * Power(x, k)
  {
    hide StepSlot, Fall, Power;
    PowerNext(x, Contacts(b, es[..|es| - 1]));
  }

  /** One frame shrinks a blob by its contact, if it has one, or frees it. */
  lemma OneContact(c: Slot, e: Env, v: real)
    requires c.rad >= 0.0 && 0.0 <= v <= e.viscosity <= 1.0
    ensures 0.0 <= StepSlot(c, e).rad <= c.rad
    ensures c.rad > 0.0 && Fall(c, e).y > e.st.height * 0.82 ==> StepSlot(c, e).rad <= c.rad * (1.0 - 0.12 * v)
  {
    hide Stage.FloorY;
    ScaleIs(e.st);
    LandingIs(Fall(c, e), e);
    ShrinkPos(c.rad, 1.0 - 0.12 * e.viscosity);
    MulLe(1.0 - 0.12 * e.viscosity, 1.0 - 0.12 * v, c.rad);
  }

  lemma Shrunk(r0: real, r: real, p: real, x: real)
    requires 0.0 <= r <= r0 * p && 0.0 <= x
    ensures r * x <= r0 * (x * p)
  {
    MulLe(r, r0 * p, x);
    assert r0 * p * x == r0 * (x * p);
  }

  lemma {:induction false} PowerAdds(x: real, m: nat, n: nat)
    ensures Power(x, m + n) == Power(x, m) * Power(x, n)
  {
    if m > 0 {
      PowerAdds(x, m - 1, n);
      assert x * (Power(x, m - 1) * Power(x, n)) == x * Power(x, m - 1) * Power(x, n);
    }
  }

  lemma PowerUnder(x: real, m: nat, n: nat, a: real, b: real, c: real)
    requires 0.0 < x <= 1.0 && Power(x, m) <= a && Power(x, n) <= b && a * b <= c
    ensures Power(x, m + n) <= c
  {
    hide Power;
    PowerAdds(x, m, n);
    PowerPositive(x, m);
    PowerPositive(x, n);
    MulBounds(Power(x, m), Power(x, n), a, b);
  }

  lemma PowerNext(x: real, n: nat)
    ensures Power(x, n + 1) == Power(x, n) * x
  {
  }

  /** Fewer contacts leave more. */
  lemma {:induction false} PowerFalls(x: real, m: nat, n: nat)
    requires 0.0 < x <= 1.0 && m <= n
    ensures Power(x, n) <= Power(x, m)
    decreases n - m
  {
    hide Power;
    if m < n {
      PowerFalls(x, m + 1, n);
      PowerPositive(x, m);
      PowerNext(x, m);
      ShrinkPos(Power(x, m), x);
    }
  }

  /** The contacts after which no blob is left, by the tier whose viscosity the rig has eased to. */
  function LastContact(tier: TierIndex): nat { [144, 48, 36, 36, 36, 36][tier] }

  /** From the greatest radius there is, 52 units, those contacts leave less than the 4 a blob needs. */
  lemma DissolvedBy(tier: TierIndex)
    ensures 52.0 * Power(1.0 - 0.12 * TierFeel(tier).viscosity, LastContact(tier)) < 4.0
  {
    hide Power;
    var x := 1.0 - 0.12 * TierFeel(tier).viscosity;
    PowerOne(x);
    if tier == 0 {
      assert x == 0.982;
      PowerUnder(x, 1, 1, 0.982, 0.982, 0.9644);
      PowerUnder(x, 2, 2, 0.9644, 0.9644, 0.9301);
      PowerUnder(x, 4, 4, 0.9301, 0.9301, 0.8651);
      PowerUnder(x, 8, 8, 0.8651, 0.8651, 0.7485);
      PowerUnder(x, 16, 16, 0.7485, 0.7485, 0.5603);
      PowerUnder(x, 32, 32, 0.5603, 0.5603, 0.314);
      PowerUnder(x, 64, 64, 0.314, 0.314, 0.0986);
      PowerUnder(x, 128, 16, 0.0986, 0.7485, 0.0739);
    } else if tier == 1 {
      assert x == 0.946;
      PowerUnder(x, 1, 1, 0.946, 0.946, 0.895);
      PowerUnder(x, 2, 2, 0.895, 0.895, 0.8011);
      PowerUnder(x, 4, 4, 0.8011, 0.8011, 0.6418);
      PowerUnder(x, 8, 8, 0.6418, 0.6418, 0.412);
      PowerUnder(x, 16, 16, 0.412, 0.412, 0.1698);
      PowerUnder(x, 32, 16, 0.1698, 0.412, 0.07);
    } else {
      assert x <= 0.928;
      PowerUnder(x, 1, 1, x, x, x * x);
      MulLe(x, 0.928, x);
      assert x * x <= 0.8612;
      PowerUnder(x, 2, 2, 0.8612, 0.8612, 0.7417);
      PowerUnder(x, 4, 4, 0.7417, 0.7417, 0.5502);
      PowerUnder(x, 8, 8, 0.5502, 0.5502, 0.3028);
      PowerUnder(x, 16, 16, 0.3028, 0.3028, 0.0917);
      PowerUnder(x, 32, 4, 0.0917, 0.7417, 0.0681);
    }
  }

  lemma PowerOne(x: real)
    ensures Power(x, 1) == x
  {
    assert Power(x, 0) == 1.0;
  }

  lemma BigEnough(c: Slot, e: Env)
    requires StepSlot(c, e).rad > 0.0
    ensures StepSlot(c, e).rad >= 4.0 * e.st.Scale()
  {
  }

  /**
   * A landed blob gives its slot up: whatever blob of at most 52 units touches the floor that many times
   * while the viscosity is at least its tier's, its radius is gone. No tier needs more than 144 contacts.
   */
  lemma LandedReleased(b: Slot, es: seq<Env>, st: Stage, tier: TierIndex)
    requires st.height > 0.0 && 0.0 <= b.rad <= 52.0 * st.Scale() && Thick(es, st, TierFeel(tier).viscosity)
    requires Contacts(b, es) >= LastContact(tier)
    ensures Through(b, es).rad <= 0.0
  {
    hide StepSlot, Power, Contacts, Stage.Scale;
    var v := TierFeel(tier).viscosity;
    var x := 1.0 - 0.12 * v;
    NoFrames(b, x);
    ContactsShrink(b, es, st, v);
    PowerFalls(x, LastContact(tier), Contacts(b, es));
    PowerPositive(x, Contacts(b, es));
    DissolvedBy(tier);
    ScalePositive(st);
    TooSmall(b.rad, Power(x, Contacts(b, es)), Through(b, es).rad, st.Scale());
    if Through(b, es).rad > 0.0 {
      BigEnough(Through(b, es[..|es| - 1]), es[|es| - 1]);
    }
  }

  lemma NoFrames(b: Slot, x: real)
    ensures Contacts(b, []) == 0 && Through(b, []) == b && Power(x, 0) == 1.0
  {
  }

  lemma ScalePositive(st: Stage)
    requires st.height > 0.0
    ensures st.Scale() > 0.0
  {
  }

  lemma TooSmall(r0: real, p: real, r: real, scale: real)
    requires scale > 0.0 && r0 <= 52.0 * scale && 0.0 < p && 52.0 * p < 4.0 && r <= r0 * p
    ensures r < 4.0 * scale
  {
    var most, least := 52.0 * scale, 52.0 * p;
    MulLe(r0, most, p);
    MulLt(least, 4.0, scale);
    SameProduct(scale, p, most, least);
  }

  lemma SameProduct(a: real, b: real, x: real, y: real)
    requires x == 52.0 * a && y == 52.0 * b
    ensures x * b == y * a
  {
  }

  /** No blob leaves the spout with more than 52 units. */
  lemma NeverLarger(d: Draw, lean: real, radius: real, st: Stage)
    requires st.height > 0.0 && 0.0 <= radius <= 40.0
    ensures 0.0 <= Droplet(d, lean, radius, st).rad <= 52.0 * st.Scale()
  {
    ScalePositive(st);
    var g := 0.7 + d.rad * 0.6;
    MulBounds(radius, g, 40.0, 1.3);
    SpoutSize(radius * g, radius, g, st.Scale());
  }

  lemma SpoutSize(p: real, radius: real, g: real, scale: real)
    requires scale > 0.0 && p == radius * g && 0.0 <= p <= 52.0
    ensures 0.0 <= radius * scale * g <= 52.0 * scale
  {
    assert radius * scale * g == p * scale;
    MulLe(p, 52.0, scale);
    MulLe(0.0, p, scale);
  }

  // ---- in the rig --------------------------------------------------------------------------

  /** What each of the frames integrates with, from a state on. */
  function Envs(s: State, frames: seq<Frame>, st: Stage, random: nat -> Draw): seq<Env>
    requires |s.slots| == MAX_BLOBS && s.cursor < MAX_BLOBS && st.height > 0.0
  {
    if frames == [] then []
    else
      var n := |frames| - 1;
      Envs(s, frames[..n], st, random) + [EnvOf(Run(s, frames[..n], st, random), frames[n], st)]
  }

  /** While the stream is closed every slot of the rig goes its own way through the frames. */
  lemma {:induction false} SlotsGoThrough(s: State, frames: seq<Frame>, st: Stage, random: nat -> Draw, i: nat)
    requires |s.slots| == MAX_BLOBS && s.cursor < MAX_BLOBS && st.height > 0.0 && i < MAX_BLOBS
    requires AllPouring(frames, false)
    ensures Run(s, frames, st, random).slots[i] == Through(s.slots[i], Envs(s, frames, st, random))
  {
    hide Step, StepSlot;
    if frames != [] {
      var n := |frames| - 1;
      SlotsGoThrough(s, frames[..n], st, random, i);
      ClosedFrame(Run(s, frames[..n], st, random), frames[n], st, random);
      var es := Envs(s, frames[..n], st, random);
      var e := EnvOf(Run(s, frames[..n], st, random), frames[n], st);
      assert (es + [e])[..|es|] == es;
    }
  }
}
