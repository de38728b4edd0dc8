/**
 * Why stage-size invariance asks for a shape: the side-exit margin of 80 pixels is not scaled, so on a
 * sliver of a stage the same droplet survives on a small screen and is freed in mid-air on a large one,
 * under any drag. The pour screen itself keeps its stage at 9:16 and makes no such sliver.
 */
module NarrowStage {
  import opened Numbers
  import opened Sim
  import opened RigModel
  import opened RigFlight
  import opened StageInvariance
  import opened FallingBlob
  import HonestPeak
  import HonestPour

  /** A stage of one shape, k device pixels wide. */
  function Sliver(k: real): Stage { Stage(k, 900.0 * k) }

  /** Draws that release every droplet at rest near the right edge of the spout. */
  const EDGE: Draw := Draw(127.0 / 128.0, 0.5, 0.0, 0.0)

  /** The first blob of the pour after t seconds of fall at vy, y units down, on the sliver of width k. */
  function Blob(k: real, radius: real, vy: real, y: real, t: real): Slot
  {
    Slot(14.28125 * k, y * k, 0.0, vy * k, radius * k * 0.7, false, t)
  }

  /** That blob in slot 0 and nothing else. */
  predicate Lone(s: State, b: Slot)
  {
    |s.slots| == MAX_BLOBS && s.slots[0] == b && forall i :: 1 <= i < MAX_BLOBS ==> s.slots[i].rad <= 0.0
  }

  lemma {:induction false} TallyLone(slots: seq<Slot>, n: nat, t0: Tally, e: Env)
    requires 1 <= n <= |slots| && e.st.height > 0.0 && forall i :: 1 <= i < |slots| ==> slots[i].rad <= 0.0
    ensures TallyUpTo(slots, n, t0, e) == TallySlot(t0, slots[0], e)
  {
    hide TallySlot;
    if n > 1 {
      TallyLone(slots, n - 1, t0, e);
      TallyFree(TallySlot(t0, slots[0], e), slots[n - 1], e);
    } else {
      assert TallyUpTo(slots, 0, t0, e) == t0;
    }
  }

  lemma TallyFree(t: Tally, b: Slot, e: Env)
    requires e.st.height > 0.0 && b.rad <= 0.0
    ensures TallySlot(t, b, e) == t
  {
  }

  lemma EdgeDroplet(k: real, radius: real)
    requires k > 0.0
    ensures Droplet(EDGE, 0.0, radius, Sliver(k)) == Blob(k, radius, 0.0, 180.0, 0.0)
  {
    assert Sliver(k).Scale() == k;
  }

  /** One frame of the blob: it stays on the sliver exactly when the margin of 80 pixels reaches it. */
  lemma BlobFalls(k: real, radius: real, vy: real, y: real, t: real, e: Env)
    requires k > 0.0 && radius >= 16.0 && e.st == Sliver(k)
    requires y + (vy + 1400.0 * e.dt) * e.dt <= 738.0
    ensures var c := Blob(k, radius, vy + 1400.0 * e.dt, y + (vy + 1400.0 * e.dt) * e.dt, t + e.dt);
      && Fall(Blob(k, radius, vy, y, t), e) == c
      && StepSlot(Blob(k, radius, vy, y, t), e) == (if 14.28125 * k > k + 80.0 then c.(rad := 0.0) else c)
      && SpeedSq(c, e.st) == (vy + 1400.0 * e.dt) * (vy + 1400.0 * e.dt)
  {
    var b, v := Blob(k, radius, vy, y, t), vy + 1400.0 * e.dt;
    var c := Blob(k, radius, v, y + v * e.dt, t + e.dt);
    assert e.st.Scale() == k;
    MulPos(radius, k);
    Accelerates(k, vy, e.dt);
    Moves(k, y, v, e.dt);
    assert Fall(b, e) == c;
    MulLe(y + v * e.dt, 738.0, k);
    assert !Touches(c, e);
    MulLe(16.0, radius, k);
    DivCancel(v, k);
    SquaredSpeedScales(0.0, v * k, k, 0.0, v);
  }

  lemma Accelerates(k: real, vy: real, dt: real)
    ensures vy * k + GRAVITY * k * dt == (vy + 1400.0 * dt) * k
  {
  }

  lemma Moves(k: real, y: real, v: real, dt: real)
    ensures y * k + v * k * dt == (y + v * dt) * k
  {
  }

  /** An upright open frame of the top tier, under any drag. */
  function Upright(dtMs: real, drag: real): Frame { Frame(true, 0.0, 5, dtMs, drag) }

  /** 30 ms release one droplet, which falls at 42 units a second, on every sliver. */
  lemma FirstFrame(k: real, feel: Feel, drag: real, random: nat -> Draw)
    requires k > 0.0 && FeelOk(feel) && random(0) == EDGE
    ensures var s := Step(Emptied(feel, 0), Upright(30.0, drag), Sliver(k), random);
      var b := Blob(k, Ease(feel, TierFeel(5), 0.03).radius, 42.0, 181.26, 0.03);
      && Lone(s, if 14.28125 * k > k + 80.0 then b.(rad := 0.0) else b)
      && s.peakSq == 1764.0 && s.holdMs == 30.0 && !s.finished && s.spawnAcc == 1.02 - 1.0
      && Ease(feel, TierFeel(5), 0.03).radius >= 16.0 && s.cursor == 1
  {
    hide StepSlot, TallyUpTo, Droplet, Ease, FeelOk;
    var f, s0 := Upright(30.0, drag), Emptied(feel, 0);
    assert f.Dt() == 0.03 && f.SpawnGain() == 1.02;
    var radius := Ease(feel, TierFeel(5), 0.03).radius;
    assert radius >= 16.0 by {
      EaseOk(feel, 5, 0.03);
      FeelRadius(Ease(feel, TierFeel(5), 0.03));
    }
    var t := Filled(s0, f);
    SpawnFew(t, 0.0, Sliver(k), random);
    EdgeDroplet(k, radius);
    var p, e := Pour(s0, f, Sliver(k), random), EnvOf(s0, f, Sliver(k));
    BlobFalls(k, radius, 0.0, 180.0, 0.0, e);
    FramePeak(p, e, Blob(k, radius, 0.0, 180.0, 0.0));
  }

  lemma FeelRadius(feel: Feel)
    requires FeelOk(feel)
    ensures feel.radius >= 16.0
  {
  }

  /** What one integration does to a rig with one slot in use. */
  lemma FramePeak(p: State, e: Env, b: Slot)
    requires Lone(p, b) && e.st.height > 0.0
    ensures var r := Integrate(p, e);
      && Lone(r, StepSlot(b, e))
      && r.peakSq == TallySlot(Tally(0, 0, p.dropletsLanded, p.peakSq), b, e).peakSq
  {
    hide TallySlot;
    TallyLone(p.slots, |p.slots|, Tally(0, 0, p.dropletsLanded, p.peakSq), e);
    forall i | 1 <= i < MAX_BLOBS
      ensures StepSlot(p.slots[i], e).rad <= 0.0
    {
    }
  }

  /** 10 ms more release nothing: the peak rises to 56 units a second exactly where the blob survived. */
  lemma SecondFrame(k: real, s: State, radius: real, drag: real, random: nat -> Draw)
    requires k > 0.0 && radius >= 16.0 && s.cursor < MAX_BLOBS
    requires var b := Blob(k, radius, 42.0, 181.26, 0.03); Lone(s, if 14.28125 * k > k + 80.0 then b.(rad := 0.0) else b)
    requires s.peakSq == 1764.0 && !s.finished && s.spawnAcc == 1.02 - 1.0
    ensures Step(s, Upright(10.0, drag), Sliver(k), random).peakSq == if 14.28125 * k > k + 80.0 then 1764.0 else 3136.0
  {
    hide StepSlot, TallyUpTo, Ease;
    var f := Upright(10.0, drag);
    assert f.Dt() == 0.01 && f.SpawnGain() == 0.34;
    var p, e := Pour(s, f, Sliver(k), random), EnvOf(s, f, Sliver(k));
    assert p.slots == s.slots && p.peakSq == s.peakSq;
    BlobFalls(k, radius, 42.0, 181.26, 0.03, e);
    MulPos(radius, k);
    FramePeak(p, e, s.slots[0]);
  }

  /**
   * On two slivers of one shape, one ten times the size of the other, the same two frames and the same
   * draws report different peaks, whatever the drag.
   */
  lemma SliversDiffer(feel: Feel, drag1: real, drag2: real, random: nat -> Draw)
    requires FeelOk(feel) && random(0) == EDGE
    ensures SameShape(Sliver(1.0), Sliver(10.0))
    ensures var frames := [Upright(30.0, drag1), Upright(10.0, drag2)];
      Run(Emptied(feel, 0), frames, Sliver(1.0), random).peakSq == 3136.0
      && Run(Emptied(feel, 0), frames, Sliver(10.0), random).peakSq == 1764.0
  {
    TwoFrames(1.0, feel, drag1, drag2, random);
    TwoFrames(10.0, feel, drag1, drag2, random);
  }

  lemma TwoFrames(k: real, feel: Feel, drag1: real, drag2: real, random: nat -> Draw)
    requires k > 0.0 && FeelOk(feel) && random(0) == EDGE
    ensures Run(Emptied(feel, 0), [Upright(30.0, drag1), Upright(10.0, drag2)], Sliver(k), random).peakSq
      == if 14.28125 * k > k + 80.0 then 1764.0 else 3136.0
  {
    hide Step, Run, Lone, Blob;
    var f, g, s0 := Upright(30.0, drag1), Upright(10.0, drag2), Emptied(feel, 0);
    FirstFrame(k, feel, drag1, random);
    HonestPeak.RunConcat(s0, [f], [g], Sliver(k), random);
    assert [f] + [g] == [f, g];
    HonestPour.RunOne(s0, f, Sliver(k), random);
    var s := Step(s0, f, Sliver(k), random);
    HonestPour.RunOne(s, g, Sliver(k), random);
    SecondFrame(k, s, Ease(feel, TierFeel(5), 0.03).radius, drag2, random);
  }
}
