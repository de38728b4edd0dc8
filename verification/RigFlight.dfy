/**
 * A falling blob, in sim units: what every frame keeps true of it, and how long it can stay up.
 */
module RigFlight {
  import opened Numbers
  import opened Sim
  import opened RigModel

  /** The spout and the floor at the reference height of 900. */
  const SPOUT: real := 180.0
  const FLOOR: real := 738.0

  /** Just above sqrt(558 / 700), the longest time a blob can spend between spout and floor. */
  const LONGEST_FALL: real := 0.893

  function ToSim(b: Slot, st: Stage): Slot
    requires st.height > 0.0
  {
    b.(x := b.x / st.Scale(), y := b.y / st.Scale(), vx := b.vx / st.Scale(), vy := b.vy / st.Scale(),
       rad := b.rad / st.Scale())
  }

  function SimWidth(st: Stage): real
    requires st.height > 0.0
  {
    st.width / st.Scale()
  }

  /** The least a blob has fallen after t seconds. */
  function Fallen(t: real): real { 700.0 * (t * t) }

  /** The seconds a blob needs from the edge of the spray at the spout to the edge of a stage of sim width w. */
  function EdgeTime(w: real): real { (0.34 * w - 14.0) / 90.0 }

  /** No blob can reach the side before it has fallen all the way. */
  predicate ShapeFits(w: real) { EdgeTime(w) >= 0.0 && Fallen(EdgeTime(w)) >= 558.0 }

  predicate StageOk(st: Stage) { st.height > 0.0 && ShapeFits(SimWidth(st)) }

  /** Fall at the reference height. */
  function SimFall(q: Slot, dt: real, drag: real): Slot
  {
    var vy := q.vy + GRAVITY * dt;
    var vx := q.vx * drag;
    q.(vx := vx, vy := vy, x := q.x + vx * dt, y := q.y + vy * dt, age := q.age + dt)
  }

  function SimSpeedSq(vx: real, vy: real): real { vx * vx + vy * vy }

  /** Droplet at the reference height, on a stage of sim width w. */
  function SimDroplet(d: Draw, lean: real, radius: real, w: real): Slot
  {
    Slot(w * 0.5 + (d.x - 0.5) * 28.0 + lean * w * 0.16, SPOUT,
         (d.vx - 0.5) * 2.0 * SPAWN_VX_MAX + lean * SPAWN_VX_MAX, d.vy * SPAWN_VY_MAX,
         radius * (0.7 + d.rad * 0.6), false, 0.0)
  }

  lemma DivAdd(a: real, b: real, s: real, p: real, q: real)
    requires s > 0.0 && a / s == p && b / s == q
    ensures (a + b) / s == p + q
  {
  }

  lemma DivCancel(k: real, s: real)
    requires s > 0.0
    ensures (k * s) / s == k
  {
  }

  lemma DivLe(a: real, k: real, s: real)
    requires s > 0.0
    ensures a <= k * s <==> a / s <= k
    ensures a < k * s <==> a / s < k
  {
    var q := a / s;
    assert q * s == a;
    if q <= k { MulLe(q, k, s); } else { MulLt(k, q, s); }
    if q < k { MulLt(q, k, s); } else { MulLe(k, q, s); }
  }

  lemma DivScaled(v: real, k: real, s: real, q: real)
    requires s > 0.0 && v / s == q
    ensures v * k / s == q * k
  {
    assert v == q * s;
    assert v * k == (q * k) * s;
  }

  /** An Euler step commutes with the change of units. */
  lemma DivMoved(x: real, v: real, dt: real, s: real, p: real, q: real)
    requires s > 0.0 && x / s == p && v / s == q
    ensures (x + v * dt) / s == p + q * dt
  {
    assert x == p * s && v == q * s;
    calc { x + v * dt; p * s + q * s * dt; (p + q * dt) * s; }
  }

  lemma DivAccelerated(v: real, dt: real, s: real, q: real)
    requires s > 0.0 && v / s == q
    ensures (v + GRAVITY * s * dt) / s == q + GRAVITY * dt
  {
    assert v == q * s;
    calc { v + GRAVITY * s * dt; q * s + GRAVITY * s * dt; (q + GRAVITY * dt) * s; }
  }

  lemma DivSquare(a: real, s: real, p: real)
    requires s > 0.0 && a / s == p
    ensures a * a / s / s == p * p
  {
    assert a == p * s;
    assert a * a == (p * a) * s;
    assert a * a / s == p * a;
    assert p * a == (p * p) * s;
  }

  lemma FallScales(b: Slot, e: Env)
    requires e.st.height > 0.0
    ensures ToSim(Fall(b, e), e.st) == SimFall(ToSim(b, e.st), e.dt, e.drag)
  {
    var s, c, p, q := e.st.Scale(), Fall(b, e), ToSim(b, e.st), SimFall(ToSim(b, e.st), e.dt, e.drag);
    DivAccelerated(b.vy, e.dt, s, p.vy);
    DivScaled(b.vx, e.drag, s, p.vx);
    DivMoved(b.x, c.vx, e.dt, s, p.x, q.vx);
    DivMoved(b.y, c.vy, e.dt, s, p.y, q.vy);
  }

  lemma TouchesScales(b: Slot, e: Env)
    requires e.st.height > 0.0
    ensures Touches(b, e) <==> ToSim(b, e.st).y > FLOOR
  {
    DivLe(b.y, FLOOR, e.st.Scale());
  }

  lemma DivSquares(a: real, b: real, s: real, p: real, q: real)
    requires s > 0.0 && a / s == p && b / s == q
    ensures (a * a + b * b) / s / s == p * p + q * q
  {
    DivSquare(a, s, p);
    DivSquare(b, s, q);
    var x, y := a * a, b * b;
    DivAdd(x, y, s, x / s, y / s);
    DivAdd(x / s, y / s, s, p * p, q * q);
  }

  lemma SquaredSpeedScales(a: real, b: real, s: real, p: real, q: real)
    requires s > 0.0 && a / s == p && b / s == q
    ensures SquaredSpeed(a, b, s) == SimSpeedSq(p, q)
  {
    DivSquares(a, b, s, p, q);
  }

  lemma SpeedScales(b: Slot, st: Stage)
    requires st.height > 0.0
    ensures SpeedSq(b, st) == SimSpeedSq(ToSim(b, st).vx, ToSim(b, st).vy)
  {
    SquaredSpeedScales(b.vx, b.vy, st.Scale(), ToSim(b, st).vx, ToSim(b, st).vy);
  }

  lemma DropletScales(d: Draw, lean: real, radius: real, st: Stage)
    requires st.height > 0.0
    ensures ToSim(Droplet(d, lean, radius, st), st) == SimDroplet(d, lean, radius, SimWidth(st))
  {
    var s := st.Scale();
    var w := SimWidth(st);
    var b := Droplet(d, lean, radius, st);
    assert st.width == w * s;
    assert b.x / s == SimDroplet(d, lean, radius, w).x by {
      assert b.x == (w * 0.5 + (d.x - 0.5) * 28.0 + lean * w * 0.16) * s;
      DivCancel(w * 0.5 + (d.x - 0.5) * 28.0 + lean * w * 0.16, s);
    }
    DivCancel(SPOUT, s);
    DivCancel((d.vx - 0.5) * 2.0 * SPAWN_VX_MAX + lean * SPAWN_VX_MAX, s);
    DivCancel(d.vy * SPAWN_VY_MAX, s);
    assert b.rad / s == radius * (0.7 + d.rad * 0.6) by {
      assert b.rad == radius * (0.7 + d.rad * 0.6) * s;
      DivCancel(radius * (0.7 + d.rad * 0.6), s);
    }
  }

  // ---- the flight envelope ----------------------------------------------------------------

  /** More time than the longest fall: the least fall exceeds the 558 units from spout to floor. */
  predicate Outlasts(t: real) { Fallen(t) > 558.0 }

  /**
   * What holds of a blob of integrated age q.age on a stage of sim width w, wherever it is: it has
   * fallen at least 700 * age^2, it has drifted at most 90 * age from where it can be released, and
   * its downward speed is gravity's share plus at most the spawn speed.
   */
  predicate Flight(q: Slot, w: real)
  {
    && q.age >= 0.0
    && GRAVITY * q.age <= q.vy <= SPAWN_VY_MAX + GRAVITY * q.age
    && q.y >= SPOUT + Fallen(q.age)
    && -90.0 <= q.vx <= 90.0
    && -(14.0 + 0.16 * w + 90.0 * q.age) <= q.x - 0.5 * w <= 14.0 + 0.16 * w + 90.0 * q.age
    && q.rad >= 11.2
  }

  /** A blob between frames: in its flight envelope and not past the floor. */
  predicate Aloft(q: Slot, w: real) { Flight(q, w) && q.y <= FLOOR }

  lemma DropletAloft(d: Draw, lean: real, radius: real, w: real)
    requires -1.0 <= lean <= 1.0 && radius >= 16.0 && w >= 0.0
    ensures Aloft(SimDroplet(d, lean, radius, w), w)
    ensures SimDroplet(d, lean, radius, w).Airborne()
  {
    var q := SimDroplet(d, lean, radius, w);
    assert -w * 0.16 <= lean * w * 0.16 <= w * 0.16 by {
      MulLe(lean, 1.0, w);
      MulLe(-1.0, lean, w);
    }
    assert radius * (0.7 + d.rad * 0.6) >= 16.0 * 0.7 by {
      MulNonNeg(radius, d.rad);
    }
  }

  /** At most 90 units a second for dt seconds. */
  lemma Drift(v: real, dt: real)
    requires -90.0 <= v <= 90.0 && dt >= 0.0
    ensures -(90.0 * dt) <= v * dt <= 90.0 * dt
  {
  }

  /** Gravity's share of the fall: 700 * (t + dt)^2 in all. */
  lemma FallSum(y: real, vy: real, t: real, dt: real)
    requires t >= 0.0 && dt >= 0.0 && vy >= GRAVITY * (t + dt) && y >= SPOUT + Fallen(t)
    ensures y + vy * dt >= SPOUT + Fallen(t + dt)
  {
    MulLe(GRAVITY * (t + dt), vy, dt);
    assert (t + dt) * (t + dt) == t * t + 2.0 * (t * dt) + dt * dt;
    assert GRAVITY * (t + dt) * dt == GRAVITY * (t * dt) + GRAVITY * (dt * dt);
    MulNonNeg(dt, dt);
  }

  /** One frame keeps a blob in its flight envelope. */
  lemma FallKeepsFlight(q: Slot, w: real, dt: real, drag: real)
    requires Flight(q, w) && dt >= 0.0 && 0.0 < drag <= 1.0
    ensures Flight(SimFall(q, dt, drag), w)
  {
    Shrink(q.vx, drag);
    SidewaysKept(q.x - 0.5 * w, q.vx * drag, q.age, dt, 14.0 + 0.16 * w);
    FallSum(q.y, q.vy + GRAVITY * dt, q.age, dt);
  }

  lemma SidewaysKept(x: real, vx: real, age: real, dt: real, reach: real)
    requires -90.0 <= vx <= 90.0 && dt >= 0.0
    requires -(reach + 90.0 * age) <= x <= reach + 90.0 * age
    ensures -(reach + 90.0 * (age + dt)) <= x + vx * dt <= reach + 90.0 * (age + dt)
  {
    Drift(vx, dt);
  }

  lemma FallenMonotone(a: real, b: real)
    requires 0.0 <= a <= b
    ensures Fallen(a) <= Fallen(b)
  {
    SquareLe(a, b);
  }

  /** The longest fall: 700 * age^2 is at most the 558 units from spout to floor. */
  lemma FallTime(q: Slot, w: real)
    requires Aloft(q, w)
    ensures 0.0 <= q.age < LONGEST_FALL && !Outlasts(q.age)
  {
    if q.age >= LONGEST_FALL {
      FallenMonotone(0.893, q.age);
    }
  }

  /** A stage at least a third as wide as it is tall has room. */
  lemma ThirdIsEnough(st: Stage)
    requires st.height > 0.0 && st.width * 3.0 >= st.height
    ensures StageOk(st)
  {
    DivLe(st.width, 300.0, st.Scale());
    var t := EdgeTime(SimWidth(st));
    assert t >= 0.9;
    FallenMonotone(0.9, t);
  }

  /** On a stage whose shape fits, a blob in the air has not drifted past the side. */
  lemma InsideShape(q: Slot, w: real)
    requires ShapeFits(w) && Aloft(q, w)
    ensures 0.0 <= q.x <= w
  {
    hide Fallen;
    if q.age > EdgeTime(w) {
      FallenStrict(EdgeTime(w), q.age);
    }
  }

  lemma FallenStrict(a: real, b: real)
    requires 0.0 <= a < b
    ensures Fallen(a) < Fallen(b)
  {
    SquareStrict(a, b);
  }

  /** Sim coordinates inside the stage are device coordinates inside the stage. */
  lemma InsideScales(x: real, w: real, s: real, q: real, v: real)
    requires s > 0.0 && x / s == q && w / s == v && 0.0 <= q <= v
    ensures 0.0 <= x <= w
  {
    assert x == q * s && w == v * s;
    MulLe(q, v, s);
  }

  /** A blob that has not touched the floor is inside the stage and far from dissolving. */
  lemma AloftStays(b: Slot, e: Env)
    requires StageOk(e.st)
    requires Aloft(ToSim(b, e.st), SimWidth(e.st))
    ensures !Gone(b, e)
  {
    hide ShapeFits;
    var q, s, w := ToSim(b, e.st), e.st.Scale(), SimWidth(e.st);
    InsideShape(q, w);
    InsideScales(b.x, e.st.width, s, q.x, w);
    DivLe(b.rad, 4.0, s);
  }

  /**
   * What one frame does to an airborne blob: it falls, and then either it is still aloft in the same
   * slot, or it has landed. It is never freed before it lands.
   */
  lemma StepAirborne(b: Slot, e: Env)
    requires StageOk(e.st) && e.dt >= 0.0 && 0.0 < e.drag <= 1.0
    requires b.Airborne() && Aloft(ToSim(b, e.st), SimWidth(e.st))
    ensures var q := SimFall(ToSim(b, e.st), e.dt, e.drag);
      && Flight(q, SimWidth(e.st))
      && ToSim(Fall(b, e), e.st) == q
      && (Touches(Fall(b, e), e) <==> q.y > FLOOR)
      && (q.y > FLOOR ==> StepSlot(b, e).landed)
      && (q.y <= FLOOR ==> StepSlot(b, e) == Fall(b, e) && StepSlot(b, e).Airborne() && Aloft(q, SimWidth(e.st)))
  {
    FallScales(b, e);
    FallKeepsFlight(ToSim(b, e.st), SimWidth(e.st), e.dt, e.drag);
    TouchesScales(Fall(b, e), e);
    if ToSim(Fall(b, e), e.st).y <= FLOOR {
      AloftStays(Fall(b, e), e);
    }
  }

  /** A blob that is not airborne never becomes airborne again by falling. */
  lemma StepGrounded(b: Slot, e: Env)
    requires !b.Airborne()
    ensures !StepSlot(b, e).Airborne()
    ensures b.landed ==> StepSlot(b, e).landed
    ensures !b.landed ==> StepSlot(b, e) == b
  {
  }

  // ---- the invariant of a run -------------------------------------------------------------

  predicate Frameworthy(e: Env) { StageOk(e.st) && e.dt >= 0.0 && 0.0 < e.drag <= 1.0 }

  predicate AllAloft(slots: seq<Slot>, st: Stage)
    requires st.height > 0.0
  {
    forall i :: 0 <= i < |slots| && slots[i].Airborne() ==> Aloft(ToSim(slots[i], st), SimWidth(st))
  }

  /** The hold clock never passes the hard stop, and the rig is finished exactly when it gets there. */
  predicate ClockOk(s: State)
  {
    0.0 <= s.holdMs <= 15000.0 && (s.finished <==> s.holdMs >= 15000.0)
  }

  /** What every reachable rig satisfies between frames, on any stage whose shape fits. */
  predicate Inv(s: State, st: Stage)
  {
    && StageOk(st)
    && |s.slots| == MAX_BLOBS && s.cursor < MAX_BLOBS
    && 0.0 <= s.spawnAcc < 1.0
    && FeelOk(s.feel)
    && ClockOk(s)
    && s.peakSq >= 0.0
    && AllAloft(s.slots, st)
  }

  /** The clock, the tilt meter and the accumulator after one frame. */
  lemma StepScalars(s: State, f: Frame, st: Stage, random: nat -> Draw)
    requires |s.slots| == MAX_BLOBS && s.cursor < MAX_BLOBS && st.height > 0.0
    ensures var r := Step(s, f, st, random);
      && r.holdMs == (if Open(s, f) then Min(s.holdMs + f.dtMs, 15000.0) else s.holdMs)
      && r.tiltEnergy == (if Open(s, f) then s.tiltEnergy + f.TiltGain() else s.tiltEnergy)
      && r.finished == (r.holdMs >= 15000.0)
      && r.spawnAcc == Pour(s, f, st, random).spawnAcc && r.spawned == Pour(s, f, st, random).spawned
  {
  }

  lemma EmptiedInv(feel: Feel, drawn: nat, st: Stage)
    requires StageOk(st) && FeelOk(feel)
    ensures Inv(Emptied(feel, drawn), st)
  {
  }

  lemma EaseOk(feel: Feel, tier: TierIndex, dt: real)
    requires FeelOk(feel) && dt >= 0.0
    ensures FeelOk(Ease(feel, TierFeel(tier), dt))
  {
    var t := TierFeel(tier);
    var k := Min(1.0, dt * FEEL_EASE_RATE);
    assert 0.0 <= k <= 1.0;
    Between(feel.viscosity, t.viscosity, k, 0.0, 1.0);
    AtLeast(feel.radius, t.radius, k, 16.0);
  }

  lemma AtLeast(from: real, target: real, k: real, lo: real)
    requires 0.0 <= k <= 1.0 && lo <= from && lo <= target
    ensures lo <= EaseTo(from, target, k)
  {
    assert EaseTo(from, target, k) - lo == (from - lo) * (1.0 - k) + (target - lo) * k;
    MulNonNeg(from - lo, 1.0 - k);
    MulNonNeg(target - lo, k);
  }

  lemma Between(from: real, target: real, k: real, lo: real, hi: real)
    requires 0.0 <= k <= 1.0 && lo <= from <= hi && lo <= target <= hi
    ensures lo <= EaseTo(from, target, k) <= hi
  {
    AtLeast(from, target, k, lo);
    assert EaseTo(-from, -target, k) == -EaseTo(from, target, k);
    AtLeast(-from, -target, k, -hi);
  }

  lemma {:induction false} SpawnAllAloft(s: State, lean: real, st: Stage, random: nat -> Draw)
    requires StageOk(st) && |s.slots| == MAX_BLOBS && s.cursor < MAX_BLOBS
    requires -1.0 <= lean <= 1.0 && s.feel.radius >= 16.0 && s.spawnAcc >= 0.0
    requires AllAloft(s.slots, st)
    ensures var r := SpawnAll(s, lean, st, random); AllAloft(r.slots, st) && 0.0 <= r.spawnAcc < 1.0
    decreases Floor(s.spawnAcc)
  {
    if s.spawnAcc >= 1.0 {
      var d := random(s.drawn);
      DropletLands(d, lean, s.feel.radius, st);
      SpawnAllAloft(SpawnOne(s, lean, st, random), lean, st, random);
    }
  }

  /** A fresh droplet is airborne and aloft on every stage. */
  lemma DropletLands(d: Draw, lean: real, radius: real, st: Stage)
    requires StageOk(st) && -1.0 <= lean <= 1.0 && radius >= 16.0
    ensures var b := Droplet(d, lean, radius, st); b.Airborne() && Aloft(ToSim(b, st), SimWidth(st))
  {
    DropletScales(d, lean, radius, st);
    assert SimWidth(st) >= 0.0 by {
      MulLe(0.0, SimWidth(st), 1.0);
    }
    DropletAloft(d, lean, radius, SimWidth(st));
    var b := Droplet(d, lean, radius, st);
    assert b.rad == (b.rad / st.Scale()) * st.Scale();
    assert b.rad > 0.0;
  }

  lemma SpawnGainNonNeg(f: Frame)
    requires f.dtMs >= 0.0
    ensures f.SpawnGain() >= 0.0
  {
    assert Flow(f.tier) >= 0;
    FlowOverNonNeg(f.Dt(), Flow(f.tier) as real);
  }

  lemma FlowOverNonNeg(dt: real, flow: real)
    requires dt >= 0.0 && flow >= 0.0
    ensures FlowOver(dt, flow) >= 0.0
  {
  }

  lemma PourInv(s: State, f: Frame, st: Stage, random: nat -> Draw)
    requires Inv(s, st) && FrameOk(f)
    ensures var r := Pour(s, f, st, random);
      AllAloft(r.slots, st) && 0.0 <= r.spawnAcc < 1.0 && FeelOk(r.feel) && 0.0 <= r.holdMs <= MAX_POUR_MS
      && r.peakSq == s.peakSq
  {
    EaseOk(s.feel, f.tier, f.Dt());
    if Open(s, f) {
      SpawnGainNonNeg(f);
      SpawnAllAloft(Filled(s, f), f.lean, st, random);
    }
  }

  lemma IntegrateAloft(s: State, e: Env)
    requires |s.slots| == MAX_BLOBS && Frameworthy(e) && AllAloft(s.slots, e.st)
    ensures AllAloft(Integrate(s, e).slots, e.st)
  {
    var r := Integrate(s, e);
    forall i | 0 <= i < |r.slots| && r.slots[i].Airborne()
      ensures Aloft(ToSim(r.slots[i], e.st), SimWidth(e.st))
    {
      if s.slots[i].Airborne() {
        StepAirborne(s.slots[i], e);
      } else {
        StepGrounded(s.slots[i], e);
      }
    }
  }

  lemma {:induction false} TallyPeak(slots: seq<Slot>, n: nat, t0: Tally, e: Env)
    requires n <= |slots| && e.st.height > 0.0
    ensures TallyUpTo(slots, n, t0, e).peakSq >= t0.peakSq
  {
    if n > 0 {
      TallyPeak(slots, n - 1, t0, e);
    }
  }

  /** Every frame keeps the invariant. */
  lemma StepInv(s: State, f: Frame, st: Stage, random: nat -> Draw)
    requires Inv(s, st) && FrameOk(f)
    ensures Inv(Step(s, f, st, random), st)
  {
    PourInv(s, f, st, random);
    var p, e := Pour(s, f, st, random), EnvOf(s, f, st);
    IntegrateAloft(p, e);
    TallyPeak(p.slots, |p.slots|, Tally(0, 0, p.dropletsLanded, p.peakSq), e);
  }

  lemma {:induction false} RunInv(s: State, frames: seq<Frame>, st: Stage, random: nat -> Draw)
    requires Inv(s, st) && FramesOk(frames)
    ensures Inv(Run(s, frames, st, random), st)
  {
    if frames != [] {
      var n := |frames| - 1;
      RunInv(s, frames[..n], st, random);
      StepInv(Run(s, frames[..n], st, random), frames[n], st, random);
    }
  }
}
