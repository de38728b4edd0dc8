/** Once the stream is closed the pour settles, in bounded time, and then nothing reported can change. */
module Settling {
  import opened Numbers
  import opened Sim
  import opened RigModel
  import opened RigFlight
  import opened Conservation
  import opened HonestPeak
  import HonestPour

  /** The capped seconds the frames integrate. */
  function Elapsed(frames: seq<Frame>): real
  {
    if frames == [] then 0.0 else Elapsed(frames[..|frames| - 1]) + frames[|frames| - 1].Dt()
  }

  lemma {:induction false} ElapsedNonNeg(frames: seq<Frame>)
    requires FramesOk(frames)
    ensures Elapsed(frames) >= 0.0
  {
    if frames != [] {
      ElapsedNonNeg(frames[..|frames| - 1]);
    }
  }

  predicate AllOlder(s: State, t: real)
  {
    forall i :: 0 <= i < |s.slots| && s.slots[i].Airborne() ==> s.slots[i].age >= t
  }

  /** A closed frame ages every blob still in the air by the frame's time, and releases none. */
  lemma ClosedFrameAges(s: State, f: Frame, st: Stage, random: nat -> Draw, t: real)
    requires Inv(s, st) && FrameOk(f) && !Open(s, f) && AllOlder(s, t)
    ensures AllOlder(Step(s, f, st, random), t + f.Dt())
  {
    hide Step, StepSlot, Aloft;
    ClosedFrame(s, f, st, random);
    var r, e := Step(s, f, st, random), EnvOf(s, f, st);
    forall i | 0 <= i < MAX_BLOBS && r.slots[i].Airborne()
      ensures r.slots[i].age >= t + f.Dt()
    {
      if s.slots[i].Airborne() {
        StepAirborne(s.slots[i], e);
      } else {
        StepGrounded(s.slots[i], e);
      }
    }
  }

  lemma {:induction false} ClosedRunAges(s: State, frames: seq<Frame>, st: Stage, random: nat -> Draw)
    requires Inv(s, st) && FramesOk(frames) && AllPouring(frames, false)
    ensures var r := Run(s, frames, st, random);
      Inv(r, st) && AllOlder(r, Elapsed(frames)) && r.holdMs == s.holdMs
  {
    hide Step, Aloft, AllOlder;
    if frames == [] {
      NoneYounger(s, st);
    } else {
      var n := |frames| - 1;
      ClosedRunAges(s, frames[..n], st, random);
      var t := Run(s, frames[..n], st, random);
      ClosedFrameAges(t, frames[n], st, random, Elapsed(frames[..n]));
      ClosedFrame(t, frames[n], st, random);
      StepInv(t, frames[n], st, random);
    }
  }

  lemma NoneYounger(s: State, st: Stage)
    requires Inv(s, st)
    ensures AllOlder(s, 0.0)
  {
  }

  lemma Overdue(q: Slot, w: real, t: real)
    requires 0.0 <= t <= q.age && Outlasts(t)
    ensures !Aloft(q, w)
  {
    hide Flight;
    if Aloft(q, w) {
      FallTime(q, w);
      FallenMonotone(t, q.age);
    }
  }

  lemma TooOldToFly(s: State, st: Stage, t: real)
    requires Inv(s, st) && AllOlder(s, t) && t >= 0.0 && Outlasts(t)
    ensures InFlight(s.slots, |s.slots|) == 0
  {
    forall i | 0 <= i < |s.slots|
      ensures !s.slots[i].Airborne()
    {
      if s.slots[i].Airborne() {
        Overdue(ToSim(s.slots[i], st), SimWidth(st), t);
      }
    }
    NoneInFlight(s.slots, |s.slots|);
  }

  /** After a frame, `airborne` never undercounts what is still in the air. */
  predicate Counted(s: State) { InFlight(s.slots, |s.slots|) <= s.airborne }

  lemma StepCounted(s: State, f: Frame, st: Stage, random: nat -> Draw)
    requires |s.slots| == MAX_BLOBS && s.cursor < MAX_BLOBS && st.height > 0.0
    ensures Counted(Step(s, f, st, random))
    ensures !Open(s, f) ==> Step(s, f, st, random).airborne == InFlight(s.slots, |s.slots|)
  {
    hide StepSlot, TallyUpTo;
    IntegrateCounts(Pour(s, f, st, random), EnvOf(s, f, st));
  }

  /**
   * Settling terminates. After a hold of any length, closed frames whose capped times outlast the
   * longest fall, and one frame more, settle the pour.
   */
  lemma Settles(s: State, frames: seq<Frame>, last: Frame, st: Stage, random: nat -> Draw)
    requires Inv(s, st) && s.holdMs > 0.0
    requires FramesOk(frames) && AllPouring(frames, false) && FrameOk(last) && !last.pouring
    requires Outlasts(Elapsed(frames))
    ensures IsSettled(Run(s, frames + [last], st, random), false)
  {
    hide Step, Run, Outlasts, Aloft;
    ClosedRunAges(s, frames, st, random);
    ElapsedNonNeg(frames);
    var t := Run(s, frames, st, random);
    TooOldToFly(t, st, Elapsed(frames));
    RunConcat(s, frames, [last], st, random);
    HonestPour.RunOne(t, last, st, random);
    StepCounted(t, last, st, random);
    StepScalars(t, last, st, random);
  }

  /** A settled pour stays settled while the stream is closed, and its telemetry is frozen. */
  lemma SettledFrame(s: State, f: Frame, st: Stage, random: nat -> Draw)
    requires |s.slots| == MAX_BLOBS && s.cursor < MAX_BLOBS && st.height > 0.0
    requires !Open(s, f) && Counted(s) && IsSettled(s, false)
    ensures var r := Step(s, f, st, random); Counted(r) && IsSettled(r, false) && SameTelemetry(r, s)
  {
    hide StepSlot, TallyUpTo;
    StepCounted(s, f, st, random);
    ClosedFrame(s, f, st, random);
    IntegrateCounts(Pour(s, f, st, random), EnvOf(s, f, st));
  }

  predicate SameTelemetry(a: State, b: State)
  {
    a.dropletsLanded == b.dropletsLanded && a.peakSq == b.peakSq && a.tiltEnergy == b.tiltEnergy && a.holdMs == b.holdMs
  }

  lemma {:induction false} StaysSettled(s: State, frames: seq<Frame>, st: Stage, random: nat -> Draw)
    requires |s.slots| == MAX_BLOBS && s.cursor < MAX_BLOBS && st.height > 0.0
    requires Counted(s) && IsSettled(s, false) && AllPouring(frames, false)
    ensures var r := Run(s, frames, st, random); Counted(r) && IsSettled(r, false) && SameTelemetry(r, s)
  {
    hide Step, Counted;
    if frames != [] {
      var n := |frames| - 1;
      StaysSettled(s, frames[..n], st, random);
      SettledFrame(Run(s, frames[..n], st, random), frames[n], st, random);
    }
  }

  /** A press so short that no frame saw it has no hold, and never settles. */
  lemma {:induction false} NoHoldNeverSettles(s: State, frames: seq<Frame>, st: Stage, random: nat -> Draw)
    requires |s.slots| == MAX_BLOBS && s.cursor < MAX_BLOBS && st.height > 0.0 && AllPouring(frames, false) && s.holdMs == 0.0
    ensures !IsSettled(Run(s, frames, st, random), false)
  {
    ReleasedRun(s, frames, st, random);
  }
}
