/** The size of the stage cannot be read off the record: two rigs of one shape report the same pour. */
module StageInvariance {
  import opened Numbers
  import opened Sim
  import opened RigModel
  import opened RigFlight

  predicate SameShape(st1: Stage, st2: Stage)
  {
    st1.width * st2.height == st2.width * st1.height
  }

  /**
   * The same droplet on two stages. A landed blob's picture is left out: the side-exit margin is not
   * scaled with the stage, so one stage may free its slot before the other does.
   */
  predicate SameDroplet(a: Slot, st1: Stage, b: Slot, st2: Stage)
    requires st1.height > 0.0 && st2.height > 0.0
  {
    && a.landed == b.landed
    && a.Airborne() == b.Airborne()
    && (a.Airborne() ==> ToSim(a, st1) == ToSim(b, st2))
  }

  predicate SameDroplets(p: seq<Slot>, st1: Stage, q: seq<Slot>, st2: Stage)
    requires st1.height > 0.0 && st2.height > 0.0
  {
    |p| == |q| && forall i :: 0 <= i < |p| ==> SameDroplet(p[i], st1, q[i], st2)
  }

  /** Everything but the picture of what has landed, and the count of slots still painted. */
  predicate Twins(s: State, st1: Stage, t: State, st2: Stage)
    requires st1.height > 0.0 && st2.height > 0.0
  {
    && SameDroplets(s.slots, st1, t.slots, st2)
    && s == t.(slots := s.slots, alive := s.alive)
  }

  lemma SameShapeSimWidth(st1: Stage, st2: Stage)
    requires st1.height > 0.0 && st2.height > 0.0 && SameShape(st1, st2)
    ensures SimWidth(st1) == SimWidth(st2)
  {
    WidthPerHeight(st1.width, st1.height, st1.Scale());
    WidthPerHeight(st2.width, st2.height, st2.Scale());
    CrossMultiply(st1.width, st1.height, st2.width, st2.height);
  }

  lemma WidthPerHeight(w: real, h: real, s: real)
    requires h > 0.0 && s == h / SIM_HEIGHT
    ensures s > 0.0 && w / s == 900.0 * (w / h)
  {
    var q := w / h;
    assert w == q * h && h == 900.0 * s;
    assert w == (900.0 * q) * s;
  }

  lemma CrossMultiply(w1: real, h1: real, w2: real, h2: real)
    requires h1 > 0.0 && h2 > 0.0 && w1 * h2 == w2 * h1
    ensures w1 / h1 == w2 / h2
  {
    var q := w2 / h2;
    assert w2 == q * h2;
    assert w1 * h2 == (q * h1) * h2;
    assert w1 == q * h1;
  }

  lemma {:induction false} SpawnTwins(s: State, st1: Stage, t: State, st2: Stage, lean: real, random: nat -> Draw)
    requires StageOk(st1) && StageOk(st2) && SimWidth(st1) == SimWidth(st2)
    requires |s.slots| == MAX_BLOBS && s.cursor < MAX_BLOBS && Twins(s, st1, t, st2)
    requires -1.0 <= lean <= 1.0 && s.feel.radius >= 16.0
    ensures Twins(SpawnAll(s, lean, st1, random), st1, SpawnAll(t, lean, st2, random), st2)
    decreases Floor(s.spawnAcc)
  {
    if s.spawnAcc >= 1.0 {
      var d := random(s.drawn);
      DropletLands(d, lean, s.feel.radius, st1);
      DropletLands(d, lean, s.feel.radius, st2);
      DropletScales(d, lean, s.feel.radius, st1);
      DropletScales(d, lean, s.feel.radius, st2);
      SpawnTwins(SpawnOne(s, lean, st1, random), st1, SpawnOne(t, lean, st2, random), st2, lean, random);
    }
  }

  predicate SameEnv(e1: Env, e2: Env)
  {
    Frameworthy(e1) && Frameworthy(e2) && e1 == e2.(st := e1.st) && SimWidth(e1.st) == SimWidth(e2.st)
  }

  lemma StepSlotTwins(a: Slot, e1: Env, b: Slot, e2: Env)
    requires SameEnv(e1, e2) && SameDroplet(a, e1.st, b, e2.st)
    requires a.Airborne() ==> Aloft(ToSim(a, e1.st), SimWidth(e1.st))
    ensures SameDroplet(StepSlot(a, e1), e1.st, StepSlot(b, e2), e2.st)
    ensures a.Airborne() ==> Touches(Fall(a, e1), e1) == Touches(Fall(b, e2), e2)
    ensures a.Airborne() ==> SpeedSq(Fall(a, e1), e1.st) == SpeedSq(Fall(b, e2), e2.st)
  {
    if a.Airborne() {
      StepAirborne(a, e1);
      StepAirborne(b, e2);
      SpeedScales(Fall(a, e1), e1.st);
      SpeedScales(Fall(b, e2), e2.st);
    } else {
      StepGrounded(a, e1);
      StepGrounded(b, e2);
    }
  }

  lemma {:induction false} TallyTwins(p: seq<Slot>, e1: Env, q: seq<Slot>, e2: Env, n: nat, t: Tally)
    requires n <= |p| && SameEnv(e1, e2) && SameDroplets(p, e1.st, q, e2.st) && AllAloft(p, e1.st)
    ensures var u, v := TallyUpTo(p, n, t, e1), TallyUpTo(q, n, t, e2);
      u.airborne == v.airborne && u.landed == v.landed && u.peakSq == v.peakSq
  {
    if n > 0 {
      TallyTwins(p, e1, q, e2, n - 1, t);
      StepSlotTwins(p[n - 1], e1, q[n - 1], e2);
    }
  }

  lemma PourTwins(s: State, st1: Stage, t: State, st2: Stage, f: Frame, random: nat -> Draw)
    requires Inv(s, st1) && Inv(t, st2) && FrameOk(f)
    requires SimWidth(st1) == SimWidth(st2) && Twins(s, st1, t, st2)
    ensures Twins(Pour(s, f, st1, random), st1, Pour(t, f, st2, random), st2)
  {
    EaseOk(s.feel, f.tier, f.Dt());
    if Open(s, f) {
      SpawnTwins(Filled(s, f), st1, Filled(t, f), st2, f.lean, random);
    }
  }

  lemma StepTwins(s: State, st1: Stage, t: State, st2: Stage, f: Frame, random: nat -> Draw)
    requires Inv(s, st1) && Inv(t, st2) && FrameOk(f)
    requires SimWidth(st1) == SimWidth(st2) && Twins(s, st1, t, st2)
    ensures Twins(Step(s, f, st1, random), st1, Step(t, f, st2, random), st2)
  {
    var p, q := Pour(s, f, st1, random), Pour(t, f, st2, random);
    var e1, e2 := EnvOf(s, f, st1), EnvOf(t, f, st2);
    PourTwins(s, st1, t, st2, f, random);
    PourInv(s, f, st1, random);
    TallyTwins(p.slots, e1, q.slots, e2, |p.slots|, Tally(0, 0, p.dropletsLanded, p.peakSq));
    forall i | 0 <= i < MAX_BLOBS
      ensures SameDroplet(StepSlot(p.slots[i], e1), st1, StepSlot(q.slots[i], e2), st2)
    {
      StepSlotTwins(p.slots[i], e1, q.slots[i], e2);
    }
  }

  lemma {:induction false} RunTwins(s: State, st1: Stage, t: State, st2: Stage, frames: seq<Frame>, random: nat -> Draw)
    requires Inv(s, st1) && Inv(t, st2) && FramesOk(frames)
    requires SimWidth(st1) == SimWidth(st2) && Twins(s, st1, t, st2)
    ensures Twins(Run(s, frames, st1, random), st1, Run(t, frames, st2, random), st2)
  {
    if frames != [] {
      var n := |frames| - 1;
      RunTwins(s, st1, t, st2, frames[..n], random);
      RunInv(s, frames[..n], st1, random);
      RunInv(t, frames[..n], st2, random);
      StepTwins(Run(s, frames[..n], st1, random), st1, Run(t, frames[..n], st2, random), st2, frames[n], random);
    }
  }

  /** What two rigs on stages of one shape are promised to agree on. */
  predicate SameReport(s: State, t: State)
    requires |s.slots| == MAX_BLOBS && |t.slots| == MAX_BLOBS
  {
    && s.dropletsLanded == t.dropletsLanded && s.peakSq == t.peakSq
    && s.tiltEnergy == t.tiltEnergy && s.holdMs == t.holdMs
    && s.airborne == t.airborne && s.finished == t.finished && s.drawn == t.drawn
    && (forall i :: 0 <= i < MAX_BLOBS ==>
          s.slots[i].landed == t.slots[i].landed && s.slots[i].Airborne() == t.slots[i].Airborne())
  }

  /**
   * Stage-size invariance. Two emptied rigs fed the same frames and the same draws, on stages of one
   * shape, agree on the telemetry, on every landed flag, on which slots are in the air and on the
   * airborne count, after every frame.
   */
  lemma StageSizeInvariance(feel: Feel, drawn: nat, frames: seq<Frame>, st1: Stage, st2: Stage, random: nat -> Draw)
    requires FeelOk(feel) && FramesOk(frames)
    requires StageOk(st1) && StageOk(st2) && SameShape(st1, st2)
    ensures SameReport(Run(Emptied(feel, drawn), frames, st1, random), Run(Emptied(feel, drawn), frames, st2, random))
  {
    SameShapeSimWidth(st1, st2);
    EmptiedInv(feel, drawn, st1);
    EmptiedInv(feel, drawn, st2);
    RunTwins(Emptied(feel, drawn), st1, Emptied(feel, drawn), st2, frames, random);
    assert Twins(Run(Emptied(feel, drawn), frames, st1, random), st1, Run(Emptied(feel, drawn), frames, st2, random), st2);
  }
}
