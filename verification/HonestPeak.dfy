/** Peak velocity against its ceiling: one uninterrupted hold of 37 ms or more is always safe. */
module HonestPeak {
  import opened Numbers
  import opened Sim
  import opened RigModel
  import opened RigFlight
  import opened Conservation
  import opened Clamping
  import HonestPour

  /** No press yet, one press, no press after it. */
  predicate AllPouring(frames: seq<Frame>, pouring: bool)
  {
    forall i :: 0 <= i < |frames| ==> frames[i].pouring == pouring
  }

  lemma {:induction false} RunConcat(s: State, a: seq<Frame>, b: seq<Frame>, st: Stage, random: nat -> Draw)
    requires |s.slots| == MAX_BLOBS && s.cursor < MAX_BLOBS && st.height > 0.0
    ensures Run(s, a + b, st, random) == Run(Run(s, a, st, random), b, st, random)
  {
    hide Step;
    if b == [] {
      assert a + b == a;
    } else {
      var n := |b| - 1;
      assert (a + b)[..|a| + n] == a + b[..n];
      RunConcat(s, a, b[..n], st, random);
    }
  }

  // ---- the fastest a blob of a given age can be -------------------------------------------

  function SpeedCap(t: real): real { (SPAWN_VY_MAX + GRAVITY * t) * (SPAWN_VY_MAX + GRAVITY * t) + 8100.0 }

  /** The longest a blob can have fallen at a sample of the current frame. */
  function SampleAge(holdMs: real): real { Min(holdMs / 1000.0, 0.943) }

  lemma SpeedCapMonotone(a: real, b: real)
    requires 0.0 <= a <= b
    ensures SpeedCap(a) <= SpeedCap(b)
  {
    SquareLe(SPAWN_VY_MAX + GRAVITY * a, SPAWN_VY_MAX + GRAVITY * b);
  }

  lemma SquareBand(v: real)
    requires -90.0 <= v <= 90.0
    ensures v * v <= 8100.0
  {
    if v >= 0.0 {
      SquareLe(v, 90.0);
    } else {
      SquareLe(-v, 90.0);
    }
  }

  lemma FlightSpeed(q: Slot, w: real)
    requires Flight(q, w)
    ensures SimSpeedSq(q.vx, q.vy) <= SpeedCap(q.age)
  {
    SquareBand(q.vx);
    SquareLe(q.vy, SPAWN_VY_MAX + GRAVITY * q.age);
  }

  /** Every airborne blob has been falling for no longer than the stream has been held. */
  predicate Young(s: State)
  {
    forall i :: 0 <= i < |s.slots| && s.slots[i].Airborne() ==> 1000.0 * s.slots[i].age <= s.holdMs
  }

  predicate PeakOk(s: State) { s.peakSq <= SpeedCap(SampleAge(s.holdMs)) }

  // ---- one frame -------------------------------------------------------------------------

  lemma {:induction false} TallyClosed(slots: seq<Slot>, n: nat, t0: Tally, e: Env)
    requires n <= |slots| && e.st.height > 0.0 && !e.open
    ensures TallyUpTo(slots, n, t0, e).peakSq == t0.peakSq
  {
    if n > 0 {
      TallyClosed(slots, n - 1, t0, e);
    }
  }

  lemma {:induction false} TallyCapped(slots: seq<Slot>, n: nat, t0: Tally, e: Env, cap: real)
    requires n <= |slots| && e.st.height > 0.0 && t0.peakSq <= cap
    requires forall i :: 0 <= i < n && slots[i].Airborne() ==> SpeedSq(Fall(slots[i], e), e.st) <= cap
    ensures TallyUpTo(slots, n, t0, e).peakSq <= cap
  {
    if n > 0 {
      TallyCapped(slots, n - 1, t0, e, cap);
    }
  }

  lemma {:induction false} TallySees(slots: seq<Slot>, n: nat, t0: Tally, e: Env, k: nat)
    requires k < n <= |slots| && e.st.height > 0.0 && e.open && slots[k].Airborne()
    ensures TallyUpTo(slots, n, t0, e).peakSq >= SpeedSq(Fall(slots[k], e), e.st)
  {
    if k < n - 1 {
      TallySees(slots, n - 1, t0, e, k);
    }
  }

  /** A closed frame samples nothing. */
  lemma ClosedFrame(s: State, f: Frame, st: Stage, random: nat -> Draw)
    requires |s.slots| == MAX_BLOBS && s.cursor < MAX_BLOBS && st.height > 0.0 && !Open(s, f)
    ensures var r := Step(s, f, st, random);
      && r.peakSq == s.peakSq && r.holdMs == s.holdMs && r.spawned == s.spawned && r.spawnAcc == 0.0
      && r.tiltEnergy == s.tiltEnergy && r.drawn == s.drawn && r.cursor == s.cursor
      && (forall i :: 0 <= i < MAX_BLOBS ==> r.slots[i] == StepSlot(s.slots[i], EnvOf(s, f, st)))
  {
    var p := Pour(s, f, st, random);
    TallyClosed(p.slots, |p.slots|, Tally(0, 0, p.dropletsLanded, p.peakSq), EnvOf(s, f, st));
  }

  lemma {:induction false} SpawnYoung(s: State, lean: real, st: Stage, random: nat -> Draw)
    requires |s.slots| == MAX_BLOBS && s.cursor < MAX_BLOBS && Young(s) && s.holdMs >= 0.0
    ensures var r := SpawnAll(s, lean, st, random); Young(r) && r.holdMs == s.holdMs
    decreases Floor(s.spawnAcc)
  {
    if s.spawnAcc >= 1.0 {
      assert Young(SpawnOne(s, lean, st, random));
      SpawnYoung(SpawnOne(s, lean, st, random), lean, st, random);
    }
  }

  /** An open frame's pour keeps every blob younger than the hold before the frame. */
  lemma PourYoung(s: State, f: Frame, st: Stage, random: nat -> Draw)
    requires |s.slots| == MAX_BLOBS && s.cursor < MAX_BLOBS && Young(s) && s.holdMs >= 0.0
    ensures var r := Pour(s, f, st, random);
      forall i :: 0 <= i < MAX_BLOBS && r.slots[i].Airborne() ==> 1000.0 * r.slots[i].age <= s.holdMs
  {
    if Open(s, f) {
      var t := Filled(s, f).(holdMs := s.holdMs);
      SpawnYoung(t, f.lean, st, random);
      SpawnIgnoresHold(t, Filled(s, f).holdMs, f.lean, st, random);
    }
  }

  lemma {:induction false} SpawnIgnoresHold(s: State, holdMs: real, lean: real, st: Stage, random: nat -> Draw)
    requires |s.slots| == MAX_BLOBS && s.cursor < MAX_BLOBS
    ensures SpawnAll(s.(holdMs := holdMs), lean, st, random) == SpawnAll(s, lean, st, random).(holdMs := holdMs)
    decreases Floor(s.spawnAcc)
  {
    if s.spawnAcc >= 1.0 {
      assert SpawnOne(s.(holdMs := holdMs), lean, st, random) == SpawnOne(s, lean, st, random).(holdMs := holdMs);
      SpawnIgnoresHold(SpawnOne(s, lean, st, random), holdMs, lean, st, random);
    }
  }

  /** The age of a blob at the sample of an open frame. */
  lemma SampledAge(age: real, dt: real, dtMs: real, holdMs: real, after: real)
    requires 0.0 <= age < LONGEST_FALL && 1000.0 * age <= holdMs
    requires 0.0 <= 1000.0 * dt && 1000.0 * dt <= dtMs && 1000.0 * dt <= 50.0
    requires after == Min(holdMs + dtMs, 15000.0)
    ensures age + dt <= SampleAge(after) && 1000.0 * (age + dt) <= after
  {
  }

  lemma SampledBlob(b: Slot, e: Env, dtMs: real, holdMs: real, after: real)
    requires Frameworthy(e) && b.Airborne() && Aloft(ToSim(b, e.st), SimWidth(e.st)) && 1000.0 * b.age <= holdMs
    requires 1000.0 * e.dt <= dtMs && 1000.0 * e.dt <= 50.0 && after == Min(holdMs + dtMs, 15000.0)
    ensures SpeedSq(Fall(b, e), e.st) <= SpeedCap(SampleAge(after))
    ensures StepSlot(b, e).Airborne() ==> 1000.0 * StepSlot(b, e).age <= after
  {
    hide SpeedCap, SpeedSq, Flight;
    var q, w := ToSim(b, e.st), SimWidth(e.st);
    StepAirborne(b, e);
    AloftAge(q, w);
    SampledAge(b.age, e.dt, dtMs, holdMs, after);
    FlightSpeed(SimFall(q, e.dt, e.drag), w);
    SpeedCapMonotone(b.age + e.dt, SampleAge(after));
    SpeedScales(Fall(b, e), e.st);
  }

  lemma AloftAge(q: Slot, w: real)
    requires Aloft(q, w)
    ensures 0.0 <= q.age < LONGEST_FALL
  {
  }

  lemma OpenFrame(s: State, f: Frame, st: Stage, random: nat -> Draw)
    requires Inv(s, st) && FrameOk(f) && Open(s, f) && Young(s) && PeakOk(s)
    ensures var r := Step(s, f, st, random); Young(r) && PeakOk(r)
  {
    hide SpeedCap, StepSlot, SpeedSq, Pour;
    var p, e, r := Pour(s, f, st, random), EnvOf(s, f, st), Step(s, f, st, random);
    PourInv(s, f, st, random);
    PourYoung(s, f, st, random);
    StepScalars(s, f, st, random);
    forall i | 0 <= i < MAX_BLOBS && p.slots[i].Airborne()
      ensures SpeedSq(Fall(p.slots[i], e), st) <= SpeedCap(SampleAge(r.holdMs))
      ensures StepSlot(p.slots[i], e).Airborne() ==> 1000.0 * StepSlot(p.slots[i], e).age <= r.holdMs
    {
      SampledBlob(p.slots[i], e, f.dtMs, s.holdMs, r.holdMs);
    }
    SpeedCapMonotone(SampleAge(s.holdMs), SampleAge(r.holdMs));
    TallyCapped(p.slots, |p.slots|, Tally(0, 0, p.dropletsLanded, p.peakSq), e, SpeedCap(SampleAge(r.holdMs)));
    forall i | 0 <= i < MAX_BLOBS && r.slots[i].Airborne()
      ensures 1000.0 * r.slots[i].age <= r.holdMs
    {
      StepGroundedOr(p.slots[i], e);
    }
  }

  lemma StepGroundedOr(b: Slot, e: Env)
    requires StepSlot(b, e).Airborne()
    ensures b.Airborne()
  {
  }

  /** After the hard stop the vessel is closed whatever the caller says, and every blob is younger than the stop. */
  lemma StoppedFrame(s: State, f: Frame, st: Stage, random: nat -> Draw)
    requires Inv(s, st) && FrameOk(f) && s.finished && PeakOk(s)
    ensures var r := Step(s, f, st, random); Young(r) && PeakOk(r)
  {
    hide SpeedCap;
    ClosedFrame(s, f, st, random);
    StepInv(s, f, st, random);
    var r := Step(s, f, st, random);
    forall i | 0 <= i < MAX_BLOBS && r.slots[i].Airborne()
      ensures 1000.0 * r.slots[i].age <= r.holdMs
    {
      AloftAge(ToSim(r.slots[i], st), SimWidth(st));
    }
  }

  // ---- runs ------------------------------------------------------------------------------

  lemma {:induction false} WaitingRun(s: State, frames: seq<Frame>, st: Stage, random: nat -> Draw)
    requires |s.slots| == MAX_BLOBS && s.cursor < MAX_BLOBS && st.height > 0.0 && AllPouring(frames, false)
    requires forall i :: 0 <= i < MAX_BLOBS ==> !s.slots[i].Airborne()
    ensures var r := Run(s, frames, st, random);
      && (forall i :: 0 <= i < MAX_BLOBS ==> !r.slots[i].Airborne())
      && r.peakSq == s.peakSq && r.holdMs == s.holdMs
  {
    hide Step;
    if frames != [] {
      var n := |frames| - 1;
      WaitingRun(s, frames[..n], st, random);
      var t := Run(s, frames[..n], st, random);
      ClosedFrame(t, frames[n], st, random);
      forall i | 0 <= i < MAX_BLOBS
        ensures !StepSlot(t.slots[i], EnvOf(t, frames[n], st)).Airborne()
      {
        StepGrounded(t.slots[i], EnvOf(t, frames[n], st));
      }
    }
  }

  lemma {:induction false} HoldingRun(s: State, frames: seq<Frame>, st: Stage, random: nat -> Draw)
    requires Inv(s, st) && FramesOk(frames) && AllPouring(frames, true) && Young(s) && PeakOk(s)
    ensures var r := Run(s, frames, st, random); Young(r) && PeakOk(r)
  {
    hide Step;
    if frames != [] {
      var n := |frames| - 1;
      HoldingRun(s, frames[..n], st, random);
      RunInv(s, frames[..n], st, random);
      var t := Run(s, frames[..n], st, random);
      if Open(t, frames[n]) {
        OpenFrame(t, frames[n], st, random);
      } else {
        StoppedFrame(t, frames[n], st, random);
      }
    }
  }

  lemma {:induction false} ReleasedRun(s: State, frames: seq<Frame>, st: Stage, random: nat -> Draw)
    requires |s.slots| == MAX_BLOBS && s.cursor < MAX_BLOBS && st.height > 0.0 && AllPouring(frames, false)
    ensures var r := Run(s, frames, st, random); r.peakSq == s.peakSq && r.holdMs == s.holdMs
  {
    hide Step;
    if frames != [] {
      var n := |frames| - 1;
      ReleasedRun(s, frames[..n], st, random);
      ClosedFrame(Run(s, frames[..n], st, random), frames[n], st, random);
    }
  }

  /** The squared ceiling, for a hold of whole milliseconds. */
  function SquaredCeiling(holdS: real): real
  {
    1.21 * MaxSpeedSq(holdS)
  }

  /** A floored hold of at least 37 ms leaves headroom for spawn speeds of twice spawnVxMax. */
  lemma Headroom(holdMs: real)
    requires holdMs >= 37.0
    ensures SpeedCap(SampleAge(holdMs)) <= SquaredCeiling(Floor(holdMs) as real / 1000.0)
  {
    var h := Floor(holdMs) as real / 1000.0;
    FloorMonotone(37.0, holdMs);
    SpeedCapMonotone(SampleAge(holdMs), Min(h, 1.2) + 0.001);
    HeadroomSquare(SPAWN_VY_MAX + GRAVITY * Min(h, 1.2));
  }

  lemma HeadroomSquare(a: real)
    requires a >= 171.8
    ensures (a + 1.4) * (a + 1.4) + 8100.0 <= 1.21 * (a * a + 2025.0)
  {
    var d := a - 171.8;
    assert a * a == d * d + 343.6 * d + 29515.24;
    assert (a + 1.4) * (a + 1.4) == a * a + 2.8 * a + 1.96;
    MulNonNeg(d, d);
  }

  /** A square root that is exact where the clamp uses it. */
  predicate ExactAt(root: Root, x: real) { root(x) * root(x) == x }

  /**
   * One uninterrupted hold of at least 37 ms never exceeds the squared speed ceiling: not through the
   * floored millisecond, the capped last frame, or a spawn at twice the nominal sideways speed.
   */
  lemma OneHoldPeak(feel: Feel, drawn: nat, before: seq<Frame>, held: seq<Frame>, after: seq<Frame>,
                    st: Stage, random: nat -> Draw)
    requires FeelOk(feel) && StageOk(st) && FramesOk(before + held + after)
    requires AllPouring(before, false) && AllPouring(held, true) && AllPouring(after, false)
    ensures var s := Run(Emptied(feel, drawn), before + held + after, st, random);
      && s.peakSq <= SpeedCap(SampleAge(s.holdMs))
      && (s.holdMs >= 37.0 ==> s.peakSq <= SquaredCeiling(Floor(s.holdMs) as real / 1000.0))
  {
    hide Run, SpeedCap, SquaredCeiling;
    var s0 := Emptied(feel, drawn);
    RunConcat(s0, before + held, after, st, random);
    RunConcat(s0, before, held, st, random);
    FramesSplit(before, held, after);
    EmptiedInv(feel, drawn, st);
    WaitingRun(s0, before, st, random);
    RunInv(s0, before, st, random);
    var s1 := Run(s0, before, st, random);
    SpeedCapPositive(0.0);
    assert s1.holdMs == 0.0;
    HoldingRun(s1, held, st, random);
    ReleasedRun(Run(s1, held, st, random), after, st, random);
    var s := Run(s0, before + held + after, st, random);
    if s.holdMs >= 37.0 {
      Headroom(s.holdMs);
    }
  }

  lemma SpeedCapPositive(t: real)
    requires t >= 0.0
    ensures SpeedCap(t) >= 0.0
  {
    MulNonNeg(SPAWN_VY_MAX + GRAVITY * t, SPAWN_VY_MAX + GRAVITY * t);
  }

  lemma FramesSplit(a: seq<Frame>, b: seq<Frame>, c: seq<Frame>)
    requires FramesOk(a + b + c)
    ensures FramesOk(a) && FramesOk(b) && FramesOk(c)
  {
    var all := a + b + c;
    forall i | 0 <= i < |a| ensures FrameOk(a[i]) { assert all[i] == a[i]; }
    forall i | 0 <= i < |b| ensures FrameOk(b[i]) { assert all[|a| + i] == b[i]; }
    forall i | 0 <= i < |c| ensures FrameOk(c[i]) { assert all[|a| + |b| + i] == c[i]; }
  }

  /** The clamp's own test on the reported peak is the test on squares. */
  lemma PeakFlaggedExactly(s: State, peakVelocity: real, tier: TierIndex, wallClockMs: real, root: Root)
    requires ClockOk(s) && peakVelocity >= 0.0 && peakVelocity * peakVelocity == s.peakSq
    requires wallClockMs >= Floor(s.holdMs) as real
    requires ExactAt(root, MaxSpeedSq(Floor(s.holdMs) as real / 1000.0))
    ensures PeakVelocity !in Clamp(HonestPour.TelemetryOf(s, peakVelocity).AsClaim(), tier, wallClockMs, root).violations
      <==> s.peakSq <= SquaredCeiling(Floor(s.holdMs) as real / 1000.0)
  {
    hide MaxSpeedSq;
    var h := Floor(s.holdMs) as real / 1000.0;
    FloorMonotone(0.0, s.holdMs);
    FloorMonotone(s.holdMs, 15000.0);
    HonestPour.KeptIsUnlisted(HonestPour.TelemetryOf(s, peakVelocity).AsClaim(), tier, wallClockMs, root);
    SpeedSquareMonotone(h, h);
    PeakTest(peakVelocity, root(MaxSpeedSq(h)), MaxSpeedSq(h));
  }

  lemma PeakTest(p: real, r: real, q: real)
    requires p >= 0.0 && r >= 0.0 && r * r == q
    ensures p <= r * 1.1 <==> p * p <= 1.21 * q
  {
    var x := r * 1.1;
    assert x * x == 1.21 * (r * r);
    SquareOrder(p, x);
  }

  lemma SquareOrder(p: real, x: real)
    requires p >= 0.0 && x >= 0.0
    ensures p <= x <==> p * p <= x * x
  {
    if p <= x {
      SquareLe(p, x);
    } else {
      SquareStrict(x, p);
    }
  }
}
