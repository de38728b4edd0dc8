/** The pour rig itself: typed arrays changed in place on every frame, refining RigModel.Step. */
module Rig {
  import opened Numbers
  import opened Sim
  import opened RigModel

  class Rig {
    /** Positions: slot i is at (pos[2 * i], pos[2 * i + 1]). */
    const pos: array<real>
    /** Velocities, laid out as the positions are. */
    const vel: array<real>
    /** Radii. A slot whose radius is not positive holds no droplet. */
    const rad: array<real>
    /** Set from the first floor contact until the slot is filled again. */
    const landed: array<bool>
    const random: nat -> Draw

    var cursor: nat
    var spawnAcc: real
    var feel: Feel
    var holdMs: real
    var dropletsLanded: nat
    /** The square of peakVelocity. */
    var peakSq: real
    var tiltEnergy: real
    var alive: nat
    var airborne: nat
    var finished: bool
    /** How far the generator has been read. */
    var drawn: nat

    ghost var ages: seq<real>
    ghost var spawned: nat

    ghost predicate Shape()
      reads this`ages
    {
      && pos.Length == 2 * MAX_BLOBS && vel.Length == 2 * MAX_BLOBS
      && rad.Length == MAX_BLOBS && landed.Length == MAX_BLOBS
      && pos != vel && pos != rad && vel != rad
      && |ages| == MAX_BLOBS
    }

    ghost predicate Valid()
      reads this`ages, this`cursor
    {
      Shape() && cursor < MAX_BLOBS
    }

    ghost function SlotAt(i: nat): Slot
      requires Shape() && i < MAX_BLOBS
      reads this`ages, pos, vel, rad, landed
    {
      Slot(pos[2 * i], pos[2 * i + 1], vel[2 * i], vel[2 * i + 1], rad[i], landed[i], ages[i])
    }

    ghost function Slots(): (s: seq<Slot>)
      requires Shape()
      reads this`ages, pos, vel, rad, landed
      ensures |s| == MAX_BLOBS && forall i :: 0 <= i < MAX_BLOBS ==> s[i] == SlotAt(i)
    {
      Zipped(pos[..], vel[..], rad[..], landed[..], ages)
    }

    /** The four arrays read slot by slot. */
    static function Zipped(p: seq<real>, v: seq<real>, r: seq<real>, l: seq<bool>, a: seq<real>): (s: seq<Slot>)
      requires |p| == |v| == 2 * MAX_BLOBS && |r| == |l| == |a| == MAX_BLOBS
      ensures |s| == MAX_BLOBS
      ensures forall i :: 0 <= i < MAX_BLOBS ==> s[i] == Slot(p[2 * i], p[2 * i + 1], v[2 * i], v[2 * i + 1], r[i], l[i], a[i])
    {
      seq(MAX_BLOBS, i requires 0 <= i < MAX_BLOBS => Slot(p[2 * i], p[2 * i + 1], v[2 * i], v[2 * i + 1], r[i], l[i], a[i]))
    }

    ghost function Model(): State
      requires Valid()
      reads this, pos, vel, rad, landed
    {
      State(Slots(), cursor, spawnAcc, feel, holdMs, dropletsLanded, peakSq, tiltEnergy, alive, airborne, finished,
            drawn, spawned)
    }

    /** createRig. */
    constructor (tier: TierIndex, random: nat -> Draw)
      ensures Valid() && fresh(pos) && fresh(vel) && fresh(rad) && fresh(landed)
      ensures Model() == Emptied(TierFeel(tier), 0) && this.random == random
    {
      pos := new real[2 * MAX_BLOBS](_ => 0.0);
      vel := new real[2 * MAX_BLOBS](_ => 0.0);
      rad := new real[MAX_BLOBS](_ => 0.0);
      landed := new bool[MAX_BLOBS](_ => false);
      this.random := random;
      cursor, spawnAcc, feel := 0, 0.0, TierFeel(tier);
      holdMs, dropletsLanded, peakSq, tiltEnergy := 0.0, 0, 0.0, 0.0;
      alive, airborne, finished, drawn := 0, 0, false, 0;
      ages, spawned := seq(MAX_BLOBS, _ => 0.0), 0;
      new;
      assert Slots() == NoDroplets();
    }

    /** resetRig: the vessel is emptied, the eased feel and the generator are left where they are. */
    method Reset()
      requires Valid()
      modifies this, pos, vel, rad, landed
      ensures Valid() && Model() == Emptied(old(feel), old(drawn))
    {
      ClearSlots();
      hide NoDroplets;
      cursor, spawnAcc := 0, 0.0;
      holdMs, dropletsLanded, peakSq, tiltEnergy := 0.0, 0, 0.0, 0.0;
      alive, airborne, finished := 0, 0, false;
      spawned := 0;
    }

    method ClearSlots()
      requires Valid()
      modifies this`ages, pos, vel, rad, landed
      ensures Valid() && Slots() == NoDroplets()
    {
      Fill(pos, 0.0);
      Fill(vel, 0.0);
      Fill(rad, 0.0);
      Fill(landed, false);
      ages := seq(MAX_BLOBS, _ => 0.0);
    }

    static method Fill<T>(a: array<T>, value: T)
      modifies a
      ensures forall i :: 0 <= i < a.Length ==> a[i] == value
    {
      for i := 0 to a.Length
        invariant forall k :: 0 <= k < i ==> a[k] == value
      {
        a[i] := value;
      }
    }

    /** One slot changed, the rest not. */
    static lemma OneSlot(was: seq<Slot>, now: seq<Slot>, i: nat, b: Slot)
      requires |was| == |now| && i < |now| && now[i] == b
      requires forall k :: 0 <= k < |now| && k != i ==> now[k] == was[k]
      ensures now == was[i := b]
    {
    }

    /** Writes one slot across the four arrays. */
    method Write(i: nat, b: Slot)
      requires Valid() && i < MAX_BLOBS
      modifies this`ages, pos, vel, rad, landed
      ensures Valid() && Slots() == old(Slots())[i := b]
    {
      pos[2 * i], pos[2 * i + 1] := b.x, b.y;
      vel[2 * i], vel[2 * i + 1] := b.vx, b.vy;
      rad[i] := b.rad;
      landed[i] := b.landed;
      ages := ages[i := b.age];
      assert SlotAt(i) == b;
      OneSlot(old(Slots()), Slots(), i, b);
    }

    /** A droplet leaving the spout. */
    static method Spawned(d: Draw, lean: real, radius: real, st: Stage) returns (b: Slot)
      ensures b == Droplet(d, lean, radius, st)
    {
      var x := st.SpoutX() + (d.x - 0.5) * 28.0 * st.Scale() + lean * st.width * 0.16;
      var y := st.SpoutY();
      var vx := ((d.vx - 0.5) * 2.0 * SPAWN_VX_MAX + lean * SPAWN_VX_MAX) * st.Scale();
      var vy := d.vy * SPAWN_VY_MAX * st.Scale();
      var r := radius * st.Scale() * (0.7 + d.rad * 0.6);
      b := Slot(x, y, vx, vy, r, false, 0.0);
    }

    /** One iteration of the spawn loop: fill the slot under the cursor and advance the cursor. */
    method SpawnDroplet(lean: real, st: Stage)
      requires Valid()
      modifies this`cursor, this`spawnAcc, this`drawn, this`ages, this`spawned, pos, vel, rad, landed
      ensures Valid() && Model() == SpawnOne(old(Model()), lean, st, random)
    {
      hide Droplet;
      spawnAcc := spawnAcc - 1.0;
      var i := cursor;
      cursor := (cursor + 1) % MAX_BLOBS;
      var b := Spawned(random(drawn), lean, feel.radius, st);
      drawn := drawn + 1;
      Write(i, b);
      spawned := spawned + 1;
    }

    /** The spawn loop: one droplet for each whole unit in the accumulator. */
    method SpawnDroplets(lean: real, st: Stage)
      requires Valid()
      modifies this`cursor, this`spawnAcc, this`drawn, this`ages, this`spawned, pos, vel, rad, landed
      ensures Valid() && Model() == SpawnAll(old(Model()), lean, st, random)
    {
      hide Droplet;
      while spawnAcc >= 1.0
        invariant Valid()
        invariant SpawnAll(Model(), lean, st, random) == SpawnAll(old(Model()), lean, st, random)
        decreases Floor(spawnAcc)
      {
        SpawnDroplet(lean, st);
      }
    }

    /** Gravity, drag and position of one slot. */
    method FallBlob(i: nat, e: Env)
      requires Valid() && i < MAX_BLOBS
      modifies this`ages, pos, vel
      ensures Valid() && Slots() == old(Slots())[i := Fall(old(SlotAt(i)), e)]
    {
      hide Stage.Scale;
      var vy := vel[2 * i + 1] + GRAVITY * e.st.Scale() * e.dt;
      var vx := vel[2 * i] * e.drag;
      var x, y := pos[2 * i] + vx * e.dt, pos[2 * i + 1] + vy * e.dt;
      ghost var c := Fall(SlotAt(i), e);
      assert c.x == x && c.y == y && c.vx == vx && c.vy == vy;
      vel[2 * i], vel[2 * i + 1] := vx, vy;
      pos[2 * i], pos[2 * i + 1] := x, y;
      ages := ages[i := ages[i] + e.dt];
      OneSlot(old(Slots()), Slots(), i, c);
    }

    /** Floor contact of one slot: bounce, shrink, and count the first landing. */
    method BounceBlob(i: nat, e: Env)
      requires Valid() && i < MAX_BLOBS
      modifies this`dropletsLanded, pos, vel, rad, landed
      ensures Valid() && Slots() == old(Slots())[i := Bounce(old(SlotAt(i)), e)]
      ensures dropletsLanded == old(dropletsLanded) + if Touches(old(SlotAt(i)), e) && !old(landed[i]) then 1 else 0
    {
      hide Stage.FloorY;
      ghost var c := Bounce(SlotAt(i), e);
      if pos[2 * i + 1] > e.st.FloorY() {
        var vy := vel[2 * i + 1] * -(0.28 * (1.0 - e.viscosity));
        var vx := vel[2 * i] * (1.0 - e.viscosity * 0.7);
        var r := rad[i] * (1.0 - 0.12 * e.viscosity);
        assert c == Slot(pos[2 * i], e.st.FloorY(), vx, vy, r, true, ages[i]);
        pos[2 * i + 1] := e.st.FloorY();
        vel[2 * i], vel[2 * i + 1] := vx, vy;
        rad[i] := r;
        if !landed[i] {
          landed[i] := true;
          dropletsLanded := dropletsLanded + 1;
        }
      }
      OneSlot(old(Slots()), Slots(), i, c);
    }

    /** The end of one iteration: a blob past the side margins, or shrunk too far, gives up its slot. */
    method ReleaseBlob(i: nat, e: Env)
      requires Valid() && i < MAX_BLOBS
      modifies rad
      ensures Slots() == old(Slots())[i := Release(old(SlotAt(i)), e)]
    {
      hide Stage.Scale;
      ghost var c := Release(SlotAt(i), e);
      if pos[2 * i] < -80.0 || pos[2 * i] > e.st.width + 80.0 || rad[i] < 4.0 * e.st.Scale() {
        rad[i] := 0.0;
      }
      OneSlot(old(Slots()), Slots(), i, c);
    }

    /** One iteration of the integration loop, with the two counters it accumulates. */
    method IntegrateBlob(i: nat, e: Env, alive0: nat, airborne0: nat) returns (alive1: nat, airborne1: nat)
      requires Valid() && i < MAX_BLOBS && e.st.height > 0.0
      modifies this`dropletsLanded, this`peakSq, this`ages, pos, vel, rad, landed
      ensures Valid()
      ensures Slots() == old(Slots())[i := StepSlot(old(SlotAt(i)), e)]
      ensures Tally(alive1, airborne1, dropletsLanded, peakSq)
        == TallySlot(Tally(alive0, airborne0, old(dropletsLanded), old(peakSq)), old(SlotAt(i)), e)
    {
      hide Fall, Bounce, Release, SquaredSpeed, Touches;
      alive1, airborne1 := alive0, airborne0;
      ghost var b := SlotAt(i);
      if rad[i] <= 0.0 {
        assert Slots() == old(Slots())[i := b];
        return;
      }
      alive1 := alive1 + 1;
      ghost var s0 := Slots();
      FallBlob(i, e);
      ghost var s1 := Slots();
      assert SlotAt(i) == s1[i] == Fall(b, e);
      FallKeepsLanded(b, e);
      if !landed[i] {
        airborne1 := airborne1 + 1;
        var speedSq := SquaredSpeed(vel[2 * i], vel[2 * i + 1], e.st.Scale());
        if e.open && speedSq > peakSq {
          peakSq := speedSq;
        }
      }
      BounceBlob(i, e);
      ghost var s2 := Slots();
      assert SlotAt(i) == s2[i] == Bounce(s1[i], e);
      ReleaseBlob(i, e);
      Rewritten(s0, i, s1[i], s2[i], StepSlot(b, e));
    }

    static lemma Rewritten(s: seq<Slot>, i: nat, a: Slot, b: Slot, c: Slot)
      requires i < |s|
      ensures s[i := a][i := b][i := c] == s[i := c]
    {
    }

    static lemma FallKeepsLanded(b: Slot, e: Env)
      ensures Fall(b, e).landed == b.landed
    {
    }

    /** The slots after the first n iterations. */
    static function Swept(was: seq<Slot>, n: nat, e: Env): (s: seq<Slot>)
      requires n <= |was|
      ensures |s| == |was|
      ensures forall k :: 0 <= k < |was| ==> s[k] == if k < n then StepSlot(was[k], e) else was[k]
    {
      if n == 0 then was else Swept(was, n - 1, e)[n - 1 := StepSlot(was[n - 1], e)]
    }

    static lemma SweptSlots(s: State, e: Env)
      requires |s.slots| == MAX_BLOBS && e.st.height > 0.0
      ensures var t := TallyUpTo(s.slots, |s.slots|, Tally(0, 0, s.dropletsLanded, s.peakSq), e);
        Integrate(s, e) == s.(slots := Swept(s.slots, |s.slots|, e), dropletsLanded := t.landed, peakSq := t.peakSq,
                              alive := t.alive, airborne := t.airborne, finished := s.holdMs >= MAX_POUR_MS)
    {
    }

    /** The integration loop over the 32 slots. */
    method SweepBlobs(e: Env) returns (alive': nat, airborne': nat)
      requires Valid() && e.st.height > 0.0
      modifies this`dropletsLanded, this`peakSq, this`ages, pos, vel, rad, landed
      ensures Valid() && Slots() == Swept(old(Slots()), MAX_BLOBS, e)
      ensures Tally(alive', airborne', dropletsLanded, peakSq)
        == TallyUpTo(old(Slots()), |old(Slots())|, Tally(0, 0, old(dropletsLanded), old(peakSq)), e)
    {
      hide StepSlot, TallySlot;
      alive', airborne' := 0, 0;
      ghost var was, t0 := Slots(), Tally(0, 0, dropletsLanded, peakSq);
      for i := 0 to MAX_BLOBS
        invariant Valid()
        invariant Slots() == Swept(was, i, e)
        invariant Tally(alive', airborne', dropletsLanded, peakSq) == TallyUpTo(was, i, t0, e)
      {
        assert SlotAt(i) == Slots()[i] == was[i];
        alive', airborne' := IntegrateBlob(i, e, alive', airborne');
      }
    }

    /** The loop and the closing assignments. */
    method IntegrateBlobs(e: Env)
      requires Valid() && e.st.height > 0.0
      modifies this`dropletsLanded, this`peakSq, this`ages, this`alive, this`airborne, this`finished, pos, vel, rad, landed
      ensures Valid() && Model() == Integrate(old(Model()), e)
    {
      hide Swept, TallyUpTo, Integrate;
      alive, airborne := SweepBlobs(e);
      finished := holdMs >= MAX_POUR_MS;
      SweptSlots(old(Model()), e);
    }

    /** stepRig. */
    method StepRig(f: Frame, st: Stage)
      requires Valid() && st.height > 0.0
      modifies this, pos, vel, rad, landed
      ensures Valid() && Model() == Step(old(Model()), f, st, random)
    {
      hide SpawnAll, Integrate, FlowOver, TiltOver, EaseTo;
      var dt := Min(f.dtMs, MAX_FRAME_MS) / 1000.0;
      feel := Ease(feel, TierFeel(f.tier), dt);
      var pouring := f.pouring && !finished;
      if pouring {
        holdMs := Min(holdMs + f.dtMs, MAX_POUR_MS);
        tiltEnergy := tiltEnergy + TiltOver(Min(Abs(f.lean), 1.0), dt);
        spawnAcc := spawnAcc + FlowOver(dt, Flow(f.tier) as real);
        assert Model() == Filled(old(Model()), f);
        SpawnDroplets(f.lean, st);
      } else {
        spawnAcc := 0.0;
      }
      assert Model() == Pour(old(Model()), f, st, random);
      IntegrateBlobs(Env(st, dt, f.drag, feel.viscosity, pouring));
    }

    /** isSettled. */
    method Settled(pouring: bool) returns (r: bool)
      requires Valid()
      ensures r == IsSettled(Model(), pouring)
    {
      r := !pouring && holdMs > 0.0 && airborne == 0;
    }
  }
}
