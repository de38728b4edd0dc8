/**
 * One frame of the pour rig as a function on values.
 *
 * Everything spatial is in device pixels, exactly as the rig keeps it. Two things differ from the
 * program's own state: peak velocity is kept squared, so that no square root is needed, and each
 * slot carries `age`, the seconds its blob has been integrated for. The state also carries
 * `spawned`, the droplets released since the vessel was last emptied. `age` and `spawned` are
 * history variables: nothing below ever branches on them.
 */
module RigModel {
  import opened Numbers
  import opened Sim

  const MAX_BLOBS: nat := 32
  const SPOUT_Y: real := 0.2
  const FLOOR_Y: real := 0.82
  const SIM_HEIGHT: real := 900.0
  const FEEL_EASE_RATE: real := 4.5
  const MAX_FRAME_MS: real := 50.0

  /** A draw of the rig's generator. */
  type Unit = x: real | 0.0 <= x < 1.0

  /** The four draws one droplet consumes, in the order it consumes them. */
  datatype Draw = Draw(x: Unit, vx: Unit, vy: Unit, rad: Unit)

  datatype Feel = Feel(viscosity: real, iridescence: real, roughness: real, radius: real)

  datatype Stage = Stage(width: real, height: real)
  {
    function Scale(): real { height / SIM_HEIGHT }
    function SpoutX(): real { width * 0.5 }
    function SpoutY(): real { height * SPOUT_Y }
    function FloorY(): real { height * FLOOR_Y }
  }

  /** Tilt gathered at a lean in [0, 1] over dt seconds. */
  function TiltOver(lean: real, dt: real): real { lean * MAX_TILT_RATE * dt }

  /** Droplets due over dt seconds. */
  function FlowOver(dt: real, flow: real): real { dt * flow }

  /**
   * One call of stepRig. `drag` stands for Math.pow(1 - viscosity * 0.55, dt * 8): any factor in
   * (0, 1] is allowed.
   */
  datatype Frame = Frame(pouring: bool, lean: real, tier: TierIndex, dtMs: real, drag: real)
  {
    function Dt(): real { Min(dtMs, MAX_FRAME_MS) / 1000.0 }
    function TiltGain(): real { TiltOver(Min(Abs(lean), 1.0), Dt()) }
    function SpawnGain(): real { FlowOver(Dt(), Flow(tier) as real) }
  }

  datatype Slot = Slot(x: real, y: real, vx: real, vy: real, rad: real, landed: bool, age: real)
  {
    predicate Airborne() { rad > 0.0 && !landed }
  }

  const FREE_SLOT: Slot := Slot(0.0, 0.0, 0.0, 0.0, 0.0, false, 0.0)

  datatype State = State(
    slots: seq<Slot>, cursor: nat, spawnAcc: real, feel: Feel,
    holdMs: real, dropletsLanded: nat, peakSq: real, tiltEnergy: real,
    alive: nat, airborne: nat, finished: bool,
    drawn: nat, spawned: nat)

  function TierFeel(tier: TierIndex): Feel
  {
    [ Feel(0.15, 0.0, 0.75, 16.0),
      Feel(0.45, 0.0, 0.4, 22.0),
      Feel(0.6, 0.1, 0.3, 26.0),
      Feel(0.72, 0.25, 0.12, 30.0),
      Feel(0.82, 0.75, 0.06, 34.0),
      Feel(0.92, 1.0, 0.03, 40.0) ][tier]
  }

  function NoDroplets(): seq<Slot> { seq(MAX_BLOBS, i => FREE_SLOT) }

  /** The emptied vessel. The eased feel and the generator are carried over, as resetRig leaves them. */
  function Emptied(feel: Feel, drawn: nat): State
  {
    State(NoDroplets(), 0, 0.0, feel, 0.0, 0, 0.0, 0.0, 0, 0, false, drawn, 0)
  }

  function EaseTo(from: real, target: real, k: real): real { from + (target - from) * k }

  function Ease(feel: Feel, target: Feel, dt: real): Feel
  {
    var k := Min(1.0, dt * FEEL_EASE_RATE);
    Feel(EaseTo(feel.viscosity, target.viscosity, k),
         EaseTo(feel.iridescence, target.iridescence, k),
         EaseTo(feel.roughness, target.roughness, k),
         EaseTo(feel.radius, target.radius, k))
  }

  /** The droplet a draw releases at the spout. */
  function Droplet(d: Draw, lean: real, radius: real, st: Stage): Slot
  {
    Slot(
      st.SpoutX() + (d.x - 0.5) * 28.0 * st.Scale() + lean * st.width * 0.16,
      st.SpoutY(),
      ((d.vx - 0.5) * 2.0 * SPAWN_VX_MAX + lean * SPAWN_VX_MAX) * st.Scale(),
      d.vy * SPAWN_VY_MAX * st.Scale(),
      radius * st.Scale() * (0.7 + d.rad * 0.6),
      false, 0.0)
  }

  /** One iteration of the spawn loop. */
  function SpawnOne(s: State, lean: real, st: Stage, random: nat -> Draw): State
    requires |s.slots| == MAX_BLOBS && s.cursor < MAX_BLOBS
  {
    s.(slots := s.slots[s.cursor := Droplet(random(s.drawn), lean, s.feel.radius, st)],
       cursor := (s.cursor + 1) % MAX_BLOBS,
       spawnAcc := s.spawnAcc - 1.0,
       drawn := s.drawn + 1,
       spawned := s.spawned + 1)
  }

  /** The whole spawn loop: one droplet for each whole unit in the accumulator. */
  function SpawnAll(s: State, lean: real, st: Stage, random: nat -> Draw): (r: State)
    requires |s.slots| == MAX_BLOBS && s.cursor < MAX_BLOBS
    ensures |r.slots| == MAX_BLOBS && r.cursor < MAX_BLOBS
    ensures r == s.(slots := r.slots, cursor := r.cursor, spawnAcc := r.spawnAcc, drawn := r.drawn, spawned := r.spawned)
    decreases Floor(s.spawnAcc)
  {
    if s.spawnAcc < 1.0 then s else SpawnAll(SpawnOne(s, lean, st, random), lean, st, random)
  }

  /** What the integration loop reads besides the slots. */
  datatype Env = Env(st: Stage, dt: real, drag: real, viscosity: real, open: bool)

  /** Gravity, drag and one symplectic Euler step. */
  function Fall(b: Slot, e: Env): Slot
  {
    var vy := b.vy + GRAVITY * e.st.Scale() * e.dt;
    var vx := b.vx * e.drag;
    b.(vx := vx, vy := vy, x := b.x + vx * e.dt, y := b.y + vy * e.dt, age := b.age + e.dt)
  }

  predicate Touches(b: Slot, e: Env) { b.y > e.st.FloorY() }

  function Bounce(b: Slot, e: Env): Slot
  {
    if Touches(b, e) then
      b.(y := e.st.FloorY(),
         vy := b.vy * -(0.28 * (1.0 - e.viscosity)),
         vx := b.vx * (1.0 - e.viscosity * 0.7),
         rad := b.rad * (1.0 - 0.12 * e.viscosity),
         landed := true)
    else b
  }

  predicate Gone(b: Slot, e: Env)
  {
    b.x < -80.0 || b.x > e.st.width + 80.0 || b.rad < 4.0 * e.st.Scale()
  }

  function Release(b: Slot, e: Env): Slot { if Gone(b, e) then b.(rad := 0.0) else b }

  function StepSlot(b: Slot, e: Env): Slot
  {
    if b.rad <= 0.0 then b else Release(Bounce(Fall(b, e), e), e)
  }

  /** The square of a speed, brought back to sim units. */
  function SquaredSpeed(vx: real, vy: real, scale: real): real
    requires scale > 0.0
  {
    (vx * vx + vy * vy) / scale / scale
  }

  /** A blob's squared speed in sim units. */
  function SpeedSq(b: Slot, st: Stage): real
    requires st.height > 0.0
  {
    SquaredSpeed(b.vx, b.vy, st.Scale())
  }

  /** The counters one pass over the slots accumulates. */
  datatype Tally = Tally(alive: nat, airborne: nat, landed: nat, peakSq: real)

  function TallySlot(t: Tally, b: Slot, e: Env): Tally
    requires e.st.height > 0.0
  {
    if b.rad <= 0.0 then t
    else
      var c := Fall(b, e);
      Tally(
        t.alive + 1,
        if b.landed then t.airborne else t.airborne + 1,
        if !b.landed && Touches(c, e) then t.landed + 1 else t.landed,
        if !b.landed && e.open && SpeedSq(c, e.st) > t.peakSq then SpeedSq(c, e.st) else t.peakSq)
  }

  /** The tally over the first n slots. */
  function TallyUpTo(slots: seq<Slot>, n: nat, t0: Tally, e: Env): Tally
    requires n <= |slots| && e.st.height > 0.0
  {
    if n == 0 then t0 else TallySlot(TallyUpTo(slots, n - 1, t0, e), slots[n - 1], e)
  }

  predicate Open(s: State, f: Frame) { f.pouring && !s.finished }

  /** The clock, the tilt and the accumulator of an open frame, before the spawn loop. */
  function Filled(s: State, f: Frame): State
  {
    s.(feel := Ease(s.feel, TierFeel(f.tier), f.Dt()),
       holdMs := Min(s.holdMs + f.dtMs, MAX_POUR_MS),
       tiltEnergy := s.tiltEnergy + f.TiltGain(),
       spawnAcc := s.spawnAcc + f.SpawnGain())
  }

  /** Everything before the integration loop. */
  function Pour(s: State, f: Frame, st: Stage, random: nat -> Draw): (r: State)
    requires |s.slots| == MAX_BLOBS && s.cursor < MAX_BLOBS
    ensures |r.slots| == MAX_BLOBS && r.cursor < MAX_BLOBS
  {
    if Open(s, f) then
      SpawnAll(Filled(s, f), f.lean, st, random)
    else
      s.(feel := Ease(s.feel, TierFeel(f.tier), f.Dt()), spawnAcc := 0.0)
  }

  function EnvOf(s: State, f: Frame, st: Stage): Env
  {
    Env(st, f.Dt(), f.drag, Ease(s.feel, TierFeel(f.tier), f.Dt()).viscosity, Open(s, f))
  }

  /** The integration loop and the closing assignments. */
  function Integrate(s: State, e: Env): (r: State)
    requires |s.slots| == MAX_BLOBS && e.st.height > 0.0
  {
    var t := TallyUpTo(s.slots, |s.slots|, Tally(0, 0, s.dropletsLanded, s.peakSq), e);
    s.(slots := seq(MAX_BLOBS, i requires 0 <= i < MAX_BLOBS => StepSlot(s.slots[i], e)),
       dropletsLanded := t.landed, peakSq := t.peakSq,
       alive := t.alive, airborne := t.airborne,
       finished := s.holdMs >= MAX_POUR_MS)
  }

  /** stepRig. */
  function Step(s: State, f: Frame, st: Stage, random: nat -> Draw): (r: State)
    requires |s.slots| == MAX_BLOBS && s.cursor < MAX_BLOBS && st.height > 0.0
    ensures |r.slots| == MAX_BLOBS && r.cursor < MAX_BLOBS
  {
    Integrate(Pour(s, f, st, random), EnvOf(s, f, st))
  }

  /** stepRig once per frame, oldest frame first. */
  function Run(s: State, frames: seq<Frame>, st: Stage, random: nat -> Draw): (r: State)
    requires |s.slots| == MAX_BLOBS && s.cursor < MAX_BLOBS && st.height > 0.0
    ensures |r.slots| == MAX_BLOBS && r.cursor < MAX_BLOBS
  {
    if frames == [] then s
    else
      var n := |frames| - 1;
      Step(Run(s, frames[..n], st, random), frames[n], st, random)
  }

  predicate IsSettled(s: State, pouring: bool)
  {
    !pouring && s.holdMs > 0.0 && s.airborne == 0
  }

  /** The slots whose blob has not landed, among the first n. */
  function InFlight(slots: seq<Slot>, n: nat): nat
    requires n <= |slots|
  {
    if n == 0 then 0 else InFlight(slots, n - 1) + if slots[n - 1].Airborne() then 1 else 0
  }

  /** What the browser guarantees of a frame: time does not run backwards and the lean is clamped. */
  predicate FrameOk(f: Frame) { f.dtMs >= 0.0 && -1.0 <= f.lean <= 1.0 && 0.0 < f.drag <= 1.0 }

  predicate FramesOk(frames: seq<Frame>) { forall i :: 0 <= i < |frames| ==> FrameOk(frames[i]) }

  predicate OneTier(frames: seq<Frame>, tier: TierIndex)
  {
    forall i :: 0 <= i < |frames| ==> frames[i].tier == tier
  }

  predicate FeelOk(feel: Feel) { 0.0 <= feel.viscosity <= 1.0 && feel.radius >= 16.0 }
}
