/** No droplet is lost: what left the spout has landed or is still in the air. */
module Conservation {
  import opened Numbers
  import opened Sim
  import opened RigModel
  import opened RigFlight

  /** How many droplets were released after the one in slot i, when slot i was filled on this lap. */
  function Since(cursor: nat, i: nat): nat
    requires cursor < MAX_BLOBS && i < MAX_BLOBS
  {
    (cursor + MAX_BLOBS - 1 - i) % MAX_BLOBS
  }

  /**
   * A droplet still in the air has seen at most `flow` further droplets released per second of its
   * flight. `lead` is the part of the current frame that has been poured but not yet integrated.
   */
  predicate Paced(b: Slot, since: nat, acc: real, flow: real, lead: real)
  {
    b.Airborne() ==> since as real + acc < flow * (b.age + lead)
  }

  predicate AllPaced(slots: seq<Slot>, cursor: nat, acc: real, flow: real, lead: real)
    requires |slots| == MAX_BLOBS && cursor < MAX_BLOBS
  {
    forall i :: 0 <= i < MAX_BLOBS ==> Paced(slots[i], Since(cursor, i), acc, flow, lead)
  }

  /** How much longer than `lead` seconds the ring takes to come round, at a flow. */
  function Slack(flow: real, lead: real): real
    requires flow > 0.0
  {
    MAX_BLOBS as real / flow - lead
  }

  /** The ring comes round no sooner than the longest fall and `lead` seconds more. */
  predicate LapFits(flow: real, lead: real)
  {
    flow > 0.0 && Slack(flow, lead) >= 0.0 && Fallen(Slack(flow, lead)) >= 558.0
  }

  /** The ring is long enough for frames of dtMs: one lap less one frame covers the longest fall. */
  predicate Roomy(tier: TierIndex, dtMs: real)
  {
    LapFits(Flow(tier) as real, Min(dtMs, MAX_FRAME_MS) / 1000.0)
  }

  /**
   * The first five tiers have room at any frame time; the top tier has it at 48 ms and not at 49 ms.
   */
  lemma RoomyTiers(tier: TierIndex, dtMs: real)
    ensures tier <= 4 ==> Roomy(tier, dtMs)
    ensures dtMs <= 48.0 ==> Roomy(tier, dtMs)
    ensures tier == 5 && dtMs >= 49.0 ==> !Roomy(tier, dtMs)
  {
    hide Fallen;
    var lead := Min(dtMs, MAX_FRAME_MS) / 1000.0;
    var slack := Slack(Flow(tier) as real, lead);
    FallenAt();
    if tier <= 4 {
      LapTime(Flow(tier) as real, 28.0);
      FallenMonotone(1.09, slack);
    } else if dtMs <= 48.0 {
      FallenMonotone(0.893, slack);
    } else if dtMs >= 49.0 {
      FallenMonotone(slack, 0.8922);
    }
  }

  lemma FallenAt()
    ensures Fallen(1.09) >= 558.0 && Fallen(0.893) >= 558.0 && Fallen(0.8922) < 558.0
  {
  }

  lemma LapTime(flow: real, most: real)
    requires 0.0 < flow <= most
    ensures MAX_BLOBS as real / flow >= MAX_BLOBS as real / most
  {
    var p, q := 32.0 / flow, 32.0 / most;
    assert p * flow == 32.0 && q * most == 32.0;
    if p < q {
      MulLt(p, q, flow);
      MulLe(flow, most, q);
    }
  }

  /** A shorter frame needs less room. */
  lemma RoomyShrinks(tier: TierIndex, dtMs: real, limitMs: real)
    requires dtMs <= limitMs && Roomy(tier, limitMs)
    ensures Roomy(tier, dtMs)
  {
    hide Fallen;
    FallenMonotone(Slack(Flow(tier) as real, Min(limitMs, MAX_FRAME_MS) / 1000.0),
                   Slack(Flow(tier) as real, Min(dtMs, MAX_FRAME_MS) / 1000.0));
  }

  predicate Conserved(s: State)
    requires |s.slots| == MAX_BLOBS
  {
    s.spawned == s.dropletsLanded + InFlight(s.slots, |s.slots|)
  }

  // ---- counting --------------------------------------------------------------------------

  lemma {:induction false} InFlightUpdate(slots: seq<Slot>, k: nat, b: Slot, n: nat)
    requires n <= |slots| && k < |slots|
    ensures InFlight(slots[k := b], n) == InFlight(slots, n)
      + if k < n then (if b.Airborne() then 1 else 0) - (if slots[k].Airborne() then 1 else 0) else 0
  {
    if n > 0 {
      InFlightUpdate(slots, k, b, n - 1);
    }
  }

  /** The integration loop moves droplets from the air to the floor, one for one. */
  lemma {:induction false} TallyConserves(slots: seq<Slot>, n: nat, t: Tally, e: Env)
    requires |slots| == MAX_BLOBS && n <= MAX_BLOBS && Frameworthy(e) && AllAloft(slots, e.st)
    ensures var after := seq(MAX_BLOBS, i requires 0 <= i < MAX_BLOBS => StepSlot(slots[i], e));
      && TallyUpTo(slots, n, t, e).landed + InFlight(after, n) == t.landed + InFlight(slots, n)
      && TallyUpTo(slots, n, t, e).airborne == t.airborne + InFlight(slots, n)
  {
    if n > 0 {
      TallyConserves(slots, n - 1, t, e);
      if slots[n - 1].Airborne() {
        StepAirborne(slots[n - 1], e);
      } else {
        StepGrounded(slots[n - 1], e);
      }
    }
  }

  lemma IntegrateConserves(s: State, e: Env)
    requires |s.slots| == MAX_BLOBS && Frameworthy(e) && AllAloft(s.slots, e.st)
    ensures var r := Integrate(s, e);
      r.dropletsLanded + InFlight(r.slots, |r.slots|) == s.dropletsLanded + InFlight(s.slots, |s.slots|)
  {
    TallyConserves(s.slots, |s.slots|, Tally(0, 0, s.dropletsLanded, s.peakSq), e);
  }

  /** On any stage: a landing takes one droplet out of the air, and the side exits can only lose more. */
  lemma {:induction false} TallyCounts(slots: seq<Slot>, n: nat, t: Tally, e: Env)
    requires |slots| == MAX_BLOBS && n <= MAX_BLOBS && e.st.height > 0.0
    ensures var after := seq(MAX_BLOBS, i requires 0 <= i < MAX_BLOBS => StepSlot(slots[i], e));
      && TallyUpTo(slots, n, t, e).landed + InFlight(after, n) <= t.landed + InFlight(slots, n)
      && TallyUpTo(slots, n, t, e).airborne == t.airborne + InFlight(slots, n)
      && InFlight(after, n) <= InFlight(slots, n)
  {
    if n > 0 {
      TallyCounts(slots, n - 1, t, e);
    }
  }

  /** After a frame, `airborne` is the number in the air before the frame's landings. */
  lemma IntegrateCounts(s: State, e: Env)
    requires |s.slots| == MAX_BLOBS && e.st.height > 0.0
    ensures var r := Integrate(s, e);
      && r.dropletsLanded + InFlight(r.slots, |r.slots|) <= s.dropletsLanded + InFlight(s.slots, |s.slots|)
      && r.airborne == InFlight(s.slots, |s.slots|)
      && InFlight(r.slots, |r.slots|) <= r.airborne
      && r.dropletsLanded >= s.dropletsLanded
  {
    hide StepSlot;
    TallyCounts(s.slots, |s.slots|, Tally(0, 0, s.dropletsLanded, s.peakSq), e);
    TallyLanded(s.slots, |s.slots|, Tally(0, 0, s.dropletsLanded, s.peakSq), e);
  }

  lemma {:induction false} TallyLanded(slots: seq<Slot>, n: nat, t: Tally, e: Env)
    requires n <= |slots| && e.st.height > 0.0
    ensures TallyUpTo(slots, n, t, e).landed >= t.landed
  {
    if n > 0 {
      TallyLanded(slots, n - 1, t, e);
    }
  }

  // ---- pacing ----------------------------------------------------------------------------

  lemma SinceAdvances(cursor: nat, i: nat)
    requires cursor < MAX_BLOBS && i < MAX_BLOBS
    ensures Since(cursor, cursor) == MAX_BLOBS - 1
    ensures Since((cursor + 1) % MAX_BLOBS, i) == if i == cursor then 0 else Since(cursor, i) + 1
  {
  }

  /** A droplet released a full lap ago has had time to land. */
  lemma LapTooLong(b: Slot, st: Stage, acc: real, flow: real, lead: real)
    requires st.height > 0.0 && b.Airborne() && Aloft(ToSim(b, st), SimWidth(st)) && acc >= 1.0
    requires LapFits(flow, lead)
    ensures !Paced(b, MAX_BLOBS - 1, acc, flow, lead)
  {
    hide Aloft;
    if Paced(b, MAX_BLOBS - 1, acc, flow, lead) {
      LapBelow(flow, b.age + lead, MAX_BLOBS as real, acc - 1.0);
      PastFalling(ToSim(b, st), SimWidth(st), Slack(flow, lead));
    }
  }

  /** A blob older than a time that covers the longest fall is not aloft. */
  lemma PastFalling(q: Slot, w: real, t: real)
    requires 0.0 <= t < q.age && Fallen(t) >= 558.0
    ensures !Aloft(q, w)
  {
    FallenStrict(t, q.age);
    hide Fallen;
  }

  lemma LapBelow(flow: real, t: real, lap: real, over: real)
    requires flow > 0.0 && over >= 0.0 && lap + over < flow * t
    ensures t > lap / flow
  {
    var q := lap / flow;
    QuotientTimes(lap, flow, q);
    Cancel(q, t, flow, flow * q, flow * t);
  }

  lemma QuotientTimes(lap: real, flow: real, q: real)
    requires flow > 0.0 && q == lap / flow
    ensures flow * q == lap
  {
  }

  lemma Cancel(a: real, b: real, c: real, x: real, y: real)
    requires c > 0.0 && x == c * a && y == c * b && x < y
    ensures a < b
  {
    if b <= a {
      MulLe(b, a, c);
    }
  }

  /** The slot under the cursor is never in the air when a droplet is due. */
  lemma CursorFree(s: State, st: Stage, flow: real, lead: real)
    requires st.height > 0.0 && |s.slots| == MAX_BLOBS && s.cursor < MAX_BLOBS && s.spawnAcc >= 1.0
    requires AllAloft(s.slots, st) && AllPaced(s.slots, s.cursor, s.spawnAcc, flow, lead)
    requires LapFits(flow, lead)
    ensures !s.slots[s.cursor].Airborne()
  {
    var b := s.slots[s.cursor];
    SinceAdvances(s.cursor, s.cursor);
    assert Paced(b, MAX_BLOBS - 1, s.spawnAcc, flow, lead);
    if b.Airborne() {
      LapTooLong(b, st, s.spawnAcc, flow, lead);
    }
  }

  lemma PacedNext(b: Slot, since: nat, acc: real, flow: real, lead: real)
    requires Paced(b, since, acc, flow, lead)
    ensures Paced(b, since + 1, acc - 1.0, flow, lead)
  {
  }

  lemma PacedFresh(b: Slot, acc: real, flow: real, lead: real)
    requires b.age == 0.0 && acc < flow * lead
    ensures Paced(b, 0, acc, flow, lead)
  {
  }

  lemma SpawnOnePaced(s: State, st: Stage, lean: real, random: nat -> Draw, flow: real, lead: real)
    requires |s.slots| == MAX_BLOBS && s.cursor < MAX_BLOBS
    requires AllPaced(s.slots, s.cursor, s.spawnAcc, flow, lead)
    requires s.spawnAcc - 1.0 < flow * lead
    ensures var t := SpawnOne(s, lean, st, random); AllPaced(t.slots, t.cursor, t.spawnAcc, flow, lead)
  {
    var t := SpawnOne(s, lean, st, random);
    forall i | 0 <= i < MAX_BLOBS
      ensures Paced(t.slots[i], Since(t.cursor, i), t.spawnAcc, flow, lead)
    {
      SinceAdvances(s.cursor, i);
      if i == s.cursor {
        PacedFresh(t.slots[i], t.spawnAcc, flow, lead);
      } else {
        assert Paced(s.slots[i], Since(s.cursor, i), s.spawnAcc, flow, lead);
        PacedNext(s.slots[i], Since(s.cursor, i), s.spawnAcc, flow, lead);
      }
    }
  }

  /** A release fills a slot that was not in the air. */
  lemma SpawnOneConserves(s: State, st: Stage, lean: real, random: nat -> Draw)
    requires StageOk(st) && |s.slots| == MAX_BLOBS && s.cursor < MAX_BLOBS
    requires -1.0 <= lean <= 1.0 && s.feel.radius >= 16.0
    requires AllAloft(s.slots, st) && !s.slots[s.cursor].Airborne()
    ensures var t := SpawnOne(s, lean, st, random);
      && AllAloft(t.slots, st)
      && InFlight(t.slots, |t.slots|) == InFlight(s.slots, |s.slots|) + 1
  {
    DropletLands(random(s.drawn), lean, s.feel.radius, st);
    InFlightUpdate(s.slots, s.cursor, Droplet(random(s.drawn), lean, s.feel.radius, st), |s.slots|);
  }

  lemma {:induction false} SpawnConserves(s: State, st: Stage, lean: real, random: nat -> Draw, flow: real, lead: real)
    requires StageOk(st) && |s.slots| == MAX_BLOBS && s.cursor < MAX_BLOBS
    requires -1.0 <= lean <= 1.0 && s.feel.radius >= 16.0
    requires AllAloft(s.slots, st) && AllPaced(s.slots, s.cursor, s.spawnAcc, flow, lead)
    requires LapFits(flow, lead)
    requires 0.0 <= s.spawnAcc < 1.0 + flow * lead
    ensures var r := SpawnAll(s, lean, st, random);
      && r.spawned - InFlight(r.slots, |r.slots|) == s.spawned - InFlight(s.slots, |s.slots|)
      && AllPaced(r.slots, r.cursor, r.spawnAcc, flow, lead)
    decreases Floor(s.spawnAcc)
  {
    if s.spawnAcc >= 1.0 {
      CursorFree(s, st, flow, lead);
      SpawnOnePaced(s, st, lean, random, flow, lead);
      SpawnOneConserves(s, st, lean, random);
      SpawnConserves(SpawnOne(s, lean, st, random), st, lean, random, flow, lead);
    }
  }

  /** A closed frame empties the accumulator; an open one adds its own share. */
  lemma PacedPour(s: State, acc: real, flow: real, dt: real)
    requires |s.slots| == MAX_BLOBS && s.cursor < MAX_BLOBS
    requires AllPaced(s.slots, s.cursor, s.spawnAcc, flow, 0.0)
    requires acc <= s.spawnAcc + flow * dt
    ensures AllPaced(s.slots, s.cursor, acc, flow, dt)
  {
  }

  lemma PacedFall(b: Slot, e: Env, since: nat, acc: real, flow: real)
    requires Frameworthy(e) && Paced(b, since, acc, flow, e.dt)
    requires b.Airborne() ==> Aloft(ToSim(b, e.st), SimWidth(e.st))
    ensures Paced(StepSlot(b, e), since, acc, flow, 0.0)
  {
    if b.Airborne() {
      StepAirborne(b, e);
      PacedAged(b, StepSlot(b, e), since, acc, flow, e.dt);
    } else {
      StepGrounded(b, e);
    }
  }

  lemma PacedAged(b: Slot, c: Slot, since: nat, acc: real, flow: real, dt: real)
    requires b.Airborne() && Paced(b, since, acc, flow, dt) && (c.Airborne() ==> c.age == b.age + dt)
    ensures Paced(c, since, acc, flow, 0.0)
  {
  }

  lemma PacedIntegrate(s: State, e: Env, flow: real)
    requires |s.slots| == MAX_BLOBS && s.cursor < MAX_BLOBS && Frameworthy(e)
    requires AllAloft(s.slots, e.st) && AllPaced(s.slots, s.cursor, s.spawnAcc, flow, e.dt)
    ensures var r := Integrate(s, e); AllPaced(r.slots, r.cursor, r.spawnAcc, flow, 0.0)
  {
    var r := Integrate(s, e);
    forall i | 0 <= i < MAX_BLOBS
      ensures Paced(r.slots[i], Since(r.cursor, i), r.spawnAcc, flow, 0.0)
    {
      assert Paced(s.slots[i], Since(s.cursor, i), s.spawnAcc, flow, e.dt);
      PacedFall(s.slots[i], e, Since(s.cursor, i), s.spawnAcc, flow);
    }
  }

  lemma PourConserves(s: State, f: Frame, st: Stage, random: nat -> Draw)
    requires Inv(s, st) && FrameOk(f) && Roomy(f.tier, f.dtMs)
    requires AllPaced(s.slots, s.cursor, s.spawnAcc, Flow(f.tier) as real, 0.0)
    ensures var p := Pour(s, f, st, random);
      && p.spawned - InFlight(p.slots, |p.slots|) == s.spawned - InFlight(s.slots, |s.slots|)
      && p.dropletsLanded == s.dropletsLanded
      && AllPaced(p.slots, p.cursor, p.spawnAcc, Flow(f.tier) as real, f.Dt())
  {
    hide Paced, SpawnAll;
    var flow := Flow(f.tier) as real;
    assert flow >= 0.0;
    FlowOverIs(f.Dt(), flow);
    EaseOk(s.feel, f.tier, f.Dt());
    if Open(s, f) {
      PacedPour(s, s.spawnAcc + f.SpawnGain(), flow, f.Dt());
      SpawnConserves(Filled(s, f), st, f.lean, random, flow, f.Dt());
    } else {
      PacedPour(s, 0.0, flow, f.Dt());
    }
  }

  lemma FlowOverIs(dt: real, flow: real)
    requires dt >= 0.0 && flow >= 0.0
    ensures FlowOver(dt, flow) == flow * dt && flow * dt >= 0.0
  {
  }

  lemma StepConserves(s: State, f: Frame, st: Stage, random: nat -> Draw)
    requires Inv(s, st) && FrameOk(f) && Conserved(s) && Roomy(f.tier, f.dtMs)
    requires AllPaced(s.slots, s.cursor, s.spawnAcc, Flow(f.tier) as real, 0.0)
    ensures var r := Step(s, f, st, random);
      && Conserved(r)
      && AllPaced(r.slots, r.cursor, r.spawnAcc, Flow(f.tier) as real, 0.0)
  {
    hide Paced, Pour, TallyUpTo, StepSlot;
    var p, e := Pour(s, f, st, random), EnvOf(s, f, st);
    PourConserves(s, f, st, random);
    PourInv(s, f, st, random);
    PacedIntegrate(p, e, Flow(f.tier) as real);
    IntegrateConserves(p, e);
  }

  /**
   * Droplet conservation over every run of one tier: no airborne slot is ever overwritten by the ring
   * cursor, freed by its radius or freed at the sides.
   */
  lemma {:induction false} DropletsConserved(
      feel: Feel, drawn: nat, frames: seq<Frame>, tier: TierIndex, st: Stage, random: nat -> Draw)
    requires FeelOk(feel) && StageOk(st) && FramesOk(frames) && OneTier(frames, tier)
    requires forall i :: 0 <= i < |frames| ==> Roomy(tier, frames[i].dtMs)
    ensures var s := Run(Emptied(feel, drawn), frames, st, random);
      && s.spawned == s.dropletsLanded + InFlight(s.slots, |s.slots|)
      && AllPaced(s.slots, s.cursor, s.spawnAcc, Flow(tier) as real, 0.0)
  {
    var s0 := Emptied(feel, drawn);
    if frames == [] {
      NoneInFlight(s0.slots, |s0.slots|);
    } else {
      var n := |frames| - 1;
      DropletsConserved(feel, drawn, frames[..n], tier, st, random);
      EmptiedInv(feel, drawn, st);
      RunInv(s0, frames[..n], st, random);
      StepConserves(Run(s0, frames[..n], st, random), frames[n], st, random);
    }
  }

  lemma {:induction false} NoneInFlight(slots: seq<Slot>, n: nat)
    requires n <= |slots| && forall i :: 0 <= i < n ==> !slots[i].Airborne()
    ensures InFlight(slots, n) == 0
  {
    if n > 0 {
      NoneInFlight(slots, n - 1);
    }
  }

  /** The form a deployment can check: tiers 0 to 4 always, the top tier when frames are at most 48 ms. */
  lemma TierConserved(feel: Feel, drawn: nat, frames: seq<Frame>, tier: TierIndex, st: Stage, random: nat -> Draw)
    requires FeelOk(feel) && StageOk(st) && FramesOk(frames) && OneTier(frames, tier)
    requires tier <= 4 || forall i :: 0 <= i < |frames| ==> frames[i].dtMs <= 48.0
    ensures var s := Run(Emptied(feel, drawn), frames, st, random);
      s.spawned == s.dropletsLanded + InFlight(s.slots, |s.slots|)
  {
    forall i | 0 <= i < |frames|
      ensures Roomy(tier, frames[i].dtMs)
    {
      RoomyTiers(tier, frames[i].dtMs);
    }
    DropletsConserved(feel, drawn, frames, tier, st, random);
  }
}
