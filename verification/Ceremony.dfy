/** The pour screen: what a press, a release, a frame, a discard and the seal do to the ceremony. */
module Ceremony {
  import opened Options
  import opened Numbers
  import opened Sim
  import opened RigModel
  import opened RigFlight
  import opened Conservation
  import opened HonestPeak
  import opened Settling
  import HonestPour
  import Rig

  datatype Phase = Idle | Pouring | Settling | Settled

  /** A mounted screen: the rig, and what the screen keeps around it. */
  datatype Screen = Screen(rig: State, pouring: bool, startedAt: Option<int>, phase: Phase)

  datatype Event =
    | Press(now: int)
    | LetGo
    | Discard
    | Tick(elapsedMs: real, lean: real, drag: real)
    | Seal

  /** What the seal posts. The peak is kept squared, as the rig keeps it. */
  datatype Request = Request(tierIndex: TierIndex, timestampMs: int, dropletsLanded: nat, peakSq: real,
                             tiltEnergy: real, holdMs: int)

  /** What stays fixed while a screen is mounted: the tier, the stage and the draws. */
  datatype Setting = Setting(tier: TierIndex, st: Stage, random: nat -> Draw)

  function FrameOf(pouring: bool, e: Event, tier: TierIndex): Frame
    requires e.Tick?
  {
    Frame(pouring, e.lean, tier, Min(e.elapsedMs, 100.0), e.drag)
  }

  /** A rig the frame callback can step. */
  predicate Shaped(rig: State, st: Stage)
  {
    |rig.slots| == MAX_BLOBS && rig.cursor < MAX_BLOBS && st.height > 0.0
  }

  /** The frame callback, once the rig has been stepped. */
  function AfterStep(c: Screen, rig: State): Screen
  {
    var stopped := rig.finished && !c.rig.finished && c.pouring;
    var d := c.(rig := rig, pouring := c.pouring && !stopped, phase := if stopped then Settling else c.phase);
    if d.phase == Settling && IsSettled(rig, d.pouring) then d.(phase := Settled) else d
  }

  function Apply(c: Screen, e: Event, on: Setting): (d: Screen)
    requires Shaped(c.rig, on.st)
    ensures Shaped(d.rig, on.st)
  {
    match e
    case Press(now) =>
      if c.phase == Settled || c.rig.finished || c.pouring then c
      else Screen(c.rig, true, if c.startedAt.None? then Some(now) else c.startedAt, Pouring)
    case LetGo =>
      if c.pouring then c.(pouring := false, phase := Settling) else c
    case Discard =>
      Screen(Emptied(c.rig.feel, c.rig.drawn), false, None, Idle)
    case Tick(_, _, _) =>
      AfterStep(c, Step(c.rig, FrameOf(c.pouring, e, on.tier), on.st, on.random))
    case Seal => c
  }

  /** The seal button: nothing is posted before the pour has settled. */
  function RequestOf(c: Screen, on: Setting): Option<Request>
  {
    if c.phase == Settled && c.startedAt.Some? then
      Some(Request(on.tier, c.startedAt.value, c.rig.dropletsLanded, c.rig.peakSq, c.rig.tiltEnergy, Floor(c.rig.holdMs)))
    else None
  }

  predicate EventOk(e: Event)
  {
    e.Tick? ==> e.elapsedMs >= 0.0 && -1.0 <= e.lean <= 1.0 && 0.0 < e.drag <= 1.0
  }

  predicate EventsOk(events: seq<Event>) { forall i :: 0 <= i < |events| ==> EventOk(events[i]) }

  function Play(c: Screen, events: seq<Event>, on: Setting): (d: Screen)
    requires Shaped(c.rig, on.st)
    ensures Shaped(d.rig, on.st)
  {
    if events == [] then c
    else Apply(Play(c, events[..|events| - 1], on), events[|events| - 1], on)
  }

  /** A screen as it mounts. */
  function Mounted(tier: TierIndex): Screen { Screen(Emptied(TierFeel(tier), 0), false, None, Idle) }

  // ---- safety ----------------------------------------------------------------------------

  /** What every reachable screen satisfies. */
  predicate Sound(c: Screen, on: Setting)
  {
    && Shaped(c.rig, on.st) && ClockOk(c.rig) && Counted(c.rig)
    && (c.pouring <==> c.phase == Pouring)
    && (c.phase != Idle ==> c.startedAt.Some?)
    && (c.pouring ==> !c.rig.finished)
    && (c.phase == Settled ==> IsSettled(c.rig, false))
  }

  lemma MountedSound(on: Setting)
    requires on.st.height > 0.0
    ensures Sound(Mounted(on.tier), on)
  {
    NoneInFlight(Emptied(TierFeel(on.tier), 0).slots, MAX_BLOBS);
  }

  lemma TickSound(c: Screen, e: Event, on: Setting)
    requires Sound(c, on) && EventOk(e) && e.Tick?
    ensures Sound(Apply(c, e, on), on)
  {
    hide Step, InFlight;
    var f := FrameOf(c.pouring, e, on.tier);
    StepCounted(c.rig, f, on.st, on.random);
    StepScalars(c.rig, f, on.st, on.random);
    if c.phase == Settled {
      SettledFrame(c.rig, f, on.st, on.random);
    }
  }

  lemma EventSound(c: Screen, e: Event, on: Setting)
    requires Sound(c, on) && EventOk(e)
    ensures Sound(Apply(c, e, on), on)
  {
    hide Step, AfterStep;
    if e.Tick? {
      TickSound(c, e, on);
    } else if e.Discard? {
      NoneInFlight(Emptied(c.rig.feel, c.rig.drawn).slots, MAX_BLOBS);
    }
  }

  /**
   * Ceremony safety: on a mounted screen of one tier, whatever the user and the clock do, a settled
   * screen has its stream closed, nothing in the air, a positive hold and a recorded start.
   */
  lemma {:induction false} CeremonySafe(events: seq<Event>, on: Setting)
    requires on.st.height > 0.0 && EventsOk(events)
    ensures var c := Play(Mounted(on.tier), events, on);
      && Sound(c, on)
      && (c.phase == Settled ==> !c.pouring && c.rig.airborne == 0 && InFlight(c.rig.slots, |c.rig.slots|) == 0
                                 && c.rig.holdMs > 0.0 && c.startedAt.Some?)
  {
    hide Apply;
    if events == [] {
      MountedSound(on);
    } else {
      var n := |events| - 1;
      CeremonySafe(events[..n], on);
      EventSound(Play(Mounted(on.tier), events[..n], on), events[n], on);
    }
  }

  // ---- what the events alone decide ----------------------------------------------------------

  /** The instant of the first press since the last discard, if there was one. */
  function FirstPress(events: seq<Event>): Option<int>
  {
    if events == [] then None
    else
      var before := FirstPress(events[..|events| - 1]);
      match events[|events| - 1]
      case Press(now) => if before.Some? then before else Some(now)
      case Discard => None
      case _ => before
  }

  /** A pour without a start has held nothing. */
  predicate Begun(c: Screen) { c.startedAt.None? ==> c.rig.holdMs == 0.0 }

  lemma EventBegun(c: Screen, e: Event, on: Setting)
    requires Sound(c, on) && Begun(c) && EventOk(e)
    ensures var d := Apply(c, e, on);
      Begun(d) && d.startedAt ==
        match e
        case Press(now) => if c.startedAt.Some? then c.startedAt else Some(now)
        case Discard => None
        case _ => c.startedAt
  {
    hide Step;
    if e.Tick? {
      StepScalars(c.rig, FrameOf(c.pouring, e, on.tier), on.st, on.random);
    }
  }

  /**
   * A pour's start is the instant of the first press since the last discard, whatever was pressed, let go
   * or waited for since: a second press never moves it.
   */
  lemma {:induction false} StartIsFirstPress(events: seq<Event>, on: Setting)
    requires on.st.height > 0.0 && EventsOk(events)
    ensures var c := Play(Mounted(on.tier), events, on); c.startedAt == FirstPress(events) && Begun(c)
  {
    hide Apply;
    if events != [] {
      var n := |events| - 1;
      StartIsFirstPress(events[..n], on);
      CeremonySafe(events[..n], on);
      EventBegun(Play(Mounted(on.tier), events[..n], on), events[n], on);
    }
  }

  /**
   * What a seal posts, field by field: this tier, the first press, and the rig's counters with the hold in
   * whole milliseconds. There is something to post exactly when the pour has settled.
   */
  lemma SealedRequest(events: seq<Event>, on: Setting)
    requires on.st.height > 0.0 && EventsOk(events)
    ensures var c := Play(Mounted(on.tier), events, on);
      var r := RequestOf(c, on);
      && (r.Some? <==> c.phase == Settled)
      && (r.Some? ==>
            && r.value.tierIndex == on.tier && FirstPress(events) == Some(r.value.timestampMs)
            && r.value.dropletsLanded == c.rig.dropletsLanded && r.value.peakSq == c.rig.peakSq
            && r.value.tiltEnergy == c.rig.tiltEnergy
            && r.value.holdMs as real <= c.rig.holdMs < r.value.holdMs as real + 1.0)
  {
    hide Play;
    CeremonySafe(events, on);
    StartIsFirstPress(events, on);
  }

  /** A press while the blobs are still settling opens the stream again on the same pour. */
  lemma Reopened(c: Screen, now: int, on: Setting)
    requires Sound(c, on) && c.phase == Settling && c.rig.holdMs < 15000.0
    ensures var d := Apply(c, Press(now), on);
      d.pouring && d.phase == Pouring && d.rig == c.rig && d.startedAt == c.startedAt
  {
  }

  /**
   * A frame with the stream open adds its time to the hold, at most 100 ms of it; the frame that reaches
   * the hard stop closes the stream and leaves the pour settling or settled.
   */
  lemma TickWhilePouring(c: Screen, e: Event, on: Setting)
    requires Sound(c, on) && c.pouring && e.Tick? && EventOk(e)
    ensures var d := Apply(c, e, on);
      var hold := c.rig.holdMs + if e.elapsedMs <= 100.0 then e.elapsedMs else 100.0;
      if hold >= 15000.0 then
        !d.pouring && (d.phase == Settling || d.phase == Settled) && d.rig.finished && d.rig.holdMs == 15000.0
      else
        d.pouring && d.phase == Pouring && !d.rig.finished && d.rig.holdMs == hold
  {
    hide Step;
    StepScalars(c.rig, FrameOf(c.pouring, e, on.tier), on.st, on.random);
  }

  // ---- what is sealed is what was watched --------------------------------------------------

  lemma SettledEvent(c: Screen, e: Event, on: Setting)
    requires Sound(c, on) && EventOk(e) && c.phase == Settled && !e.Discard?
    ensures var d := Apply(c, e, on);
      Sound(d, on) && d.phase == Settled && d.startedAt == c.startedAt && SameTelemetry(d.rig, c.rig)
  {
    hide Step, InFlight;
    EventSound(c, e, on);
    if e.Tick? {
      SettledFrame(c.rig, FrameOf(c.pouring, e, on.tier), on.st, on.random);
    }
  }

  /** Every re-seal of a settled pour sends the identical request, whatever else happens short of a discard. */
  lemma {:induction false} ResealIdentical(c: Screen, events: seq<Event>, on: Setting)
    requires Sound(c, on) && c.phase == Settled && EventsOk(events)
    requires forall i :: 0 <= i < |events| ==> !events[i].Discard?
    ensures var d := Play(c, events, on);
      && Sound(d, on) && d.phase == Settled && d.startedAt == c.startedAt && SameTelemetry(d.rig, c.rig)
      && RequestOf(d, on) == RequestOf(c, on) && RequestOf(c, on).Some?
  {
    hide Apply, InFlight;
    if events != [] {
      var n := |events| - 1;
      ResealIdentical(c, events[..n], on);
      SettledEvent(Play(c, events[..n], on), events[n], on);
    }
  }

  // ---- the pour does settle ----------------------------------------------------------------

  predicate OnlyTicks(events: seq<Event>) { forall i :: 0 <= i < |events| ==> events[i].Tick? }

  function Frames(events: seq<Event>, tier: TierIndex): seq<Frame>
    requires OnlyTicks(events)
  {
    seq(|events|, i requires 0 <= i < |events| => FrameOf(false, events[i], tier))
  }

  /** While the screen is settling, ticks only step the closed rig, until the phase turns. */
  lemma {:induction false} SettlingTicks(c: Screen, events: seq<Event>, on: Setting)
    requires Sound(c, on) && c.phase == Settling && EventsOk(events) && OnlyTicks(events)
    ensures var d := Play(c, events, on);
      && Sound(d, on) && (d.phase == Settling || d.phase == Settled)
      && d.rig == Run(c.rig, Frames(events, on.tier), on.st, on.random)
      && (events != [] && d.phase == Settling ==> !IsSettled(d.rig, false))
  {
    hide Step, InFlight;
    if events != [] {
      var n := |events| - 1;
      SettlingTicks(c, events[..n], on);
      assert Frames(events, on.tier)[..n] == Frames(events[..n], on.tier);
      EventSound(Play(c, events[..n], on), events[n], on);
    }
  }

  lemma FramesFacts(events: seq<Event>, tier: TierIndex)
    requires OnlyTicks(events) && EventsOk(events)
    ensures var frames := Frames(events, tier);
      |frames| == |events| && FramesOk(frames) && AllPouring(frames, false)
  {
  }

  /**
   * After the release, ticks that outlast the longest fall, and one more, settle the screen exactly when
   * any frame saw the stream open. A press and release between two frames leaves no hold, and that
   * screen waits in `settling` until it is pressed again or discarded.
   */
  lemma CeremonySettlesExactly(c: Screen, events: seq<Event>, on: Setting)
    requires Sound(c, on) && c.phase == Settling && events != [] && EventsOk(events) && OnlyTicks(events)
    requires Inv(c.rig, on.st)
    requires Outlasts(Elapsed(Frames(events[..|events| - 1], on.tier)))
    ensures Play(c, events, on).phase == Settled <==> c.rig.holdMs > 0.0
  {
    hide Step, Aloft, InFlight, Run, Play, Elapsed, Outlasts;
    var n := |events| - 1;
    var frames, early := Frames(events, on.tier), Frames(events[..n], on.tier);
    SettlingTicks(c, events, on);
    FramesFacts(events, on.tier);
    FramesFacts(events[..n], on.tier);
    if c.rig.holdMs > 0.0 {
      assert frames == early + [frames[n]];
      Settles(c.rig, early, frames[n], on.st, on.random);
    } else {
      NoHoldNeverSettles(c.rig, frames, on.st, on.random);
    }
  }

  /** On a stage of an ordinary shape every reachable rig keeps the flight envelope, as CeremonySettlesExactly asks. */
  lemma {:induction false} CeremonyInv(events: seq<Event>, on: Setting)
    requires StageOk(on.st) && EventsOk(events)
    ensures Inv(Play(Mounted(on.tier), events, on).rig, on.st)
  {
    hide Step, Inv;
    if events == [] {
      EmptiedInv(TierFeel(on.tier), 0, on.st);
    } else {
      var n := |events| - 1;
      CeremonyInv(events[..n], on);
      EventInv(Play(Mounted(on.tier), events[..n], on), events[n], on);
    }
  }

  lemma EventInv(c: Screen, e: Event, on: Setting)
    requires Inv(c.rig, on.st) && EventOk(e)
    ensures Inv(Apply(c, e, on).rig, on.st)
  {
    hide Step, Aloft;
    if e.Tick? {
      StepInv(c.rig, FrameOf(c.pouring, e, on.tier), on.st, on.random);
    } else if e.Discard? {
      EmptiedInv(c.rig.feel, c.rig.drawn, on.st);
    }
  }

  /** The screen after a press and a release that no frame came between. */
  function Tapped(tier: TierIndex, now: int): Screen
  {
    Screen(Emptied(TierFeel(tier), 0), false, Some(now), Settling)
  }

  /** A tap on a fresh screen leaves it in `settling` for as long as nothing but frames follow. */
  lemma TapNeverSettles(now: int, ticks: seq<Event>, on: Setting)
    requires on.st.height > 0.0 && EventsOk(ticks) && OnlyTicks(ticks)
    ensures Play(Mounted(on.tier), [Press(now), LetGo] + ticks, on).phase == Settling
  {
    hide Step, InFlight, Run, Sound, AfterStep;
    var c := Tapped(on.tier, now);
    var tap := [Press(now), LetGo];
    assert tap[..1] == [Press(now)] && tap[..1][..0] == [];
    assert Play(Mounted(on.tier), [], on) == Mounted(on.tier);
    assert Play(Mounted(on.tier), tap[..1], on) == Apply(Mounted(on.tier), Press(now), on);
    assert Play(Mounted(on.tier), tap, on) == c;
    PlayConcat(Mounted(on.tier), tap, ticks, on);
    assert EventsOk(tap);
    CeremonySafe(tap, on);
    SettlingTicks(c, ticks, on);
    FramesFacts(ticks, on.tier);
    NoHoldNeverSettles(c.rig, Frames(ticks, on.tier), on.st, on.random);
    SettledHolds(Play(c, ticks, on), on);
  }

  lemma SettledHolds(c: Screen, on: Setting)
    requires Sound(c, on)
    ensures c.phase == Settled ==> IsSettled(c.rig, false)
  {
  }

  lemma {:induction false} PlayConcat(c: Screen, a: seq<Event>, b: seq<Event>, on: Setting)
    requires Shaped(c.rig, on.st)
    ensures Play(c, a + b, on) == Play(Play(c, a, on), b, on)
  {
    hide Apply;
    if b == [] {
      assert a + b == a;
    } else {
      var n := |b| - 1;
      assert (a + b)[..|a| + n] == a + b[..n];
      PlayConcat(c, a, b[..n], on);
    }
  }

  // ---- the component itself ----------------------------------------------------------------

  /** The screen's refs and phase, changed in place by its handlers. */
  class PourScreen {
    const rig: Rig.Rig
    const tier: TierIndex
    const st: Stage
    var pouring: bool
    var startedAt: Option<int>
    var phase: Phase

    ghost predicate Valid()
      reads this, rig
    {
      rig.Valid() && st.height > 0.0
    }

    ghost function Model(): Screen
      requires Valid()
      reads this, rig, rig.pos, rig.vel, rig.rad, rig.landed
    {
      Screen(rig.Model(), pouring, startedAt, phase)
    }

    ghost function Set(): Setting { Setting(tier, st, rig.random) }

    constructor (tier: TierIndex, st: Stage, random: nat -> Draw)
      requires st.height > 0.0
      ensures Valid() && fresh(rig) && fresh(rig.pos) && fresh(rig.vel) && fresh(rig.rad) && fresh(rig.landed)
      ensures Model() == Mounted(tier) && Set() == Setting(tier, st, random)
    {
      rig := new Rig.Rig(tier, random);
      this.tier, this.st := tier, st;
      pouring, startedAt, phase := false, None, Idle;
    }

    method OpenStream(now: int)
      requires Valid()
      modifies this
      ensures Valid() && Model() == Apply(old(Model()), Press(now), Set())
    {
      hide Step;
      if phase == Settled || rig.finished || pouring {
        return;
      }
      if startedAt == None {
        startedAt := Some(now);
      }
      pouring := true;
      if phase != Pouring {
        phase := Pouring;
      }
    }

    method CloseStream()
      requires Valid()
      modifies this
      ensures Valid() && Model() == Apply(old(Model()), LetGo, Set())
    {
      hide Step;
      if !pouring {
        return;
      }
      pouring := false;
      phase := Settling;
    }

    method DiscardPour()
      requires Valid()
      modifies this, rig, rig.pos, rig.vel, rig.rad, rig.landed
      ensures Valid() && Model() == Apply(old(Model()), Discard, Set())
    {
      hide Step;
      pouring := false;
      startedAt := None;
      rig.Reset();
      phase := Idle;
    }

    /** One animation frame. */
    method OnFrame(elapsedMs: real, lean: real, drag: real)
      requires Valid()
      modifies this, rig, rig.pos, rig.vel, rig.rad, rig.landed
      ensures Valid() && Model() == Apply(old(Model()), Tick(elapsedMs, lean, drag), Set())
    {
      hide Step;
      var wasFinished := rig.finished;
      rig.StepRig(Frame(pouring, lean, tier, Min(elapsedMs, 100.0), drag), st);
      if rig.finished && !wasFinished {
        if pouring {
          pouring := false;
          phase := Settling;
        }
      }
      if phase == Settling {
        var settled := rig.Settled(pouring);
        if settled {
          phase := Settled;
        }
      }
    }

    /** The seal button's handler: the request to post, if there is one. */
    method SealPour() returns (r: Option<Request>)
      requires Valid()
      ensures r == RequestOf(Model(), Set())
    {
      if phase != Settled || startedAt == None {
        return None;
      }
      return Some(Request(tier, startedAt.value, rig.dropletsLanded, rig.peakSq, rig.tiltEnergy, Floor(rig.holdMs)));
    }
  }
}
