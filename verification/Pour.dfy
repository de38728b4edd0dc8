/** Minting: a claim becomes a record. */
module Pour {
  import opened Numbers
  import opened Sim
  import opened Clamping
  import Rarity
  import GoSigil
  import Printing
  import Seed

  datatype Error = Validation | Conflict | NotFound | Constraint

  datatype Result<T> = Ok(value: T) | Err(error: Error)

  datatype Record = Record(
    id: string, ownerID: string, position: nat, tierIndex: TierIndex, amountCents: int, timestampMs: int,
    telemetry: Telemetry, violations: seq<Field>, seed: Seed.Word, rarity: Rarity.Band, rarityScore: real,
    serial: string, batch: string, massGrams: real, issued: string)

  /** The body of a mint request. */
  datatype Request = Request(tierIndex: int, timestampMs: int, telemetry: Claim)

  /** The server's clock: the instant in milliseconds, and the UTC day it falls on. */
  datatype Clock = Clock(ms: int, day: string)

  const SKEW_MS: int := 300000
  const MASS_PER_DROPLET_G: real := 3.79

  /** How long the server has known the pour could have been running. */
  function WallClock(req: Request, now: Clock): real
  {
    if now.ms < req.timestampMs then 0.0 else (now.ms - req.timestampMs) as real
  }

  predicate Acceptable(req: Request, now: Clock)
  {
    0 <= req.tierIndex < TIER_COUNT && now.ms - SKEW_MS <= req.timestampMs <= now.ms + SKEW_MS
  }

  function Mint(req: Request, position: nat, ownerID: string, now: Clock, root: Root): Result<Record>
  {
    if !Acceptable(req, now) then Err(Validation)
    else
      var tier: TierIndex := req.tierIndex;
      var clamped := Clamp(req.telemetry, tier, WallClock(req, now), root);
      var seed := Seed.HashOf(Seed.BurnSeed(tier, AmountCents(tier), req.timestampMs, clamped.telemetry));
      Ok(Record(
        Printing.Id(position, seed), ownerID, position, tier, AmountCents(tier), req.timestampMs,
        clamped.telemetry, clamped.violations, seed,
        GoSigil.Classify(clamped.telemetry, tier, root), GoSigil.RarityScore(clamped.telemetry, tier, root),
        Printing.Serial(position, seed), Printing.Batch(position, seed),
        clamped.telemetry.dropletsLanded * MASS_PER_DROPLET_G, now.day))
  }

  /** What the identity of a record depends on: its key, and the strings printed from its position and seed. */
  predicate Genuine(rec: Record, ownerID: string, timestampMs: int, tierIndex: int, position: nat)
  {
    && rec.ownerID == ownerID && rec.timestampMs == timestampMs && rec.tierIndex == tierIndex
    && rec.position == position
    && rec.id == Printing.Id(position, rec.seed) && rec.serial == Printing.Serial(position, rec.seed)
  }

  /** Mint keeps to the key it is called under. */
  lemma MintGenuine(req: Request, position: nat, ownerID: string, now: Clock, root: Root)
    ensures var r := Mint(req, position, ownerID, now, root);
      r.Ok? ==> Genuine(r.value, ownerID, req.timestampMs, req.tierIndex, position)
  {
  }

  /**
   * The sigil and the band the client previewed are the ones minted: for a finite claim whose hold fits the
   * wall clock, the recorded score and band are those of the raw telemetry, and the seed is the hash of the
   * telemetry the client's own clamp keeps.
   */
  lemma MintMatchesPreview(t: Telemetry, req: Request, position: nat, ownerID: string, now: Clock, root: Root)
    requires 0 <= req.tierIndex <= 5 && -300000 <= now.ms - req.timestampMs <= 300000 && req.telemetry == t.AsClaim()
    requires 0.0 <= t.holdMs <= 15000.0 && (t.holdMs == 0.0 || t.holdMs <= (now.ms - req.timestampMs) as real)
    ensures var r := Mint(req, position, ownerID, now, root);
      var elapsed := if now.ms < req.timestampMs then 0.0 else (now.ms - req.timestampMs) as real;
      && r.Ok?
      && r.value.rarity == Rarity.Classify(t, req.tierIndex, root)
      && r.value.rarityScore == Rarity.Score(t, req.tierIndex, root) as real
      && r.value.seed == Seed.HashOf(Seed.BurnSeed(req.tierIndex, AmountCents(req.tierIndex), req.timestampMs,
           Clamp(req.telemetry, req.tierIndex, elapsed, root).telemetry))
  {
    hide Clamp, GoSigil.RarityScore, Rarity.ScoreParts, Seed.HashOf;
    var kept := Clamp(req.telemetry, req.tierIndex, WallClock(req, now), root).telemetry;
    Rarity.PreviewEqualsMint(t, req.tierIndex, WallClock(req, now), root);
    GoSigil.ScoresAgree(kept, req.tierIndex, root);
  }

  /** Every minted record obeys the advertised ceiling of its tier and is never negative. */
  lemma MintBounded(req: Request, position: nat, ownerID: string, now: Clock, root: Root)
    ensures var r := Mint(req, position, ownerID, now, root);
      r.Ok? ==>
        && r.value.rarity.Rank() <= Rarity.ReachableRarity(r.value.tierIndex, root).Rank()
        && 0.0 <= r.value.rarityScore <= (10 * Rarity.Reach(r.value.tierIndex)) as real
        && 0.0 <= r.value.telemetry.holdMs <= 15000.0
        && (r.value.telemetry.holdMs == 0.0 || r.value.telemetry.holdMs <= (now.ms - req.timestampMs) as real)
  {
    hide GoSigil.RarityScore, Rarity.ScoreParts, Seed.HashOf, Rarity.ReachableRarity;
    if Acceptable(req, now) {
      var tier: TierIndex := req.tierIndex;
      var kept := Clamp(req.telemetry, tier, WallClock(req, now), root).telemetry;
      Rarity.AdvertisedCeiling(req.telemetry, tier, WallClock(req, now), root);
      GoSigil.ScoresAgree(kept, tier, root);
    }
  }

  // ---- the record in numbers -----------------------------------------------------------------

  /** A mint succeeds exactly for tiers 0 to 5 and a start within five minutes of the clock; otherwise it is a validation failure. */
  lemma MintAcceptsExactly(req: Request, position: nat, ownerID: string, now: Clock, root: Root)
    ensures var r := Mint(req, position, ownerID, now, root);
      && (r.Ok? <==> 0 <= req.tierIndex <= 5 && -300000 <= now.ms - req.timestampMs <= 300000)
      && (r.Err? ==> r.error == Validation)
  {
    hide Clamp, Seed.HashOf, GoSigil.Classify, GoSigil.RarityScore;
  }

  /**
   * The hold a record keeps: no more than was claimed, than has passed on the server's clock since the start,
   * or than 15 s; and it is a violation exactly when more was claimed than the last two allow.
   */
  lemma MintedHold(req: Request, position: nat, ownerID: string, now: Clock, root: Root)
    requires Mint(req, position, ownerID, now, root).Ok?
    ensures var rec := Mint(req, position, ownerID, now, root).value;
      var elapsed := (now.ms - req.timestampMs) as real;
      var limit := if elapsed < 0.0 then 0.0 else if elapsed > 15000.0 then 15000.0 else elapsed;
      match req.telemetry.holdMs
      case Finite(h) =>
        && rec.telemetry.holdMs == (if h < 0.0 then 0.0 else if h > limit then limit else h)
        && (HoldMs in rec.violations <==> h > limit)
      case _ => rec.telemetry.holdMs == 0.0 && HoldMs !in rec.violations
  {
    hide Seed.HashOf, GoSigil.Classify, GoSigil.RarityScore;
    var most := ClampInNumbers(req.telemetry, req.tierIndex, WallClock(req, now), root);
  }

  /** Every other field of a record, from the request, the position, the session and the clock. */
  lemma MintedFields(req: Request, position: nat, ownerID: string, now: Clock, root: Root)
    requires Mint(req, position, ownerID, now, root).Ok?
    ensures var rec := Mint(req, position, ownerID, now, root).value;
      && rec.ownerID == ownerID && rec.position == position && rec.timestampMs == req.timestampMs
      && rec.tierIndex == req.tierIndex && rec.amountCents == [0, 299, 1299, 2999, 5999, 14900][rec.tierIndex]
      && rec.seed == Seed.HashOf(Seed.BurnSeed(rec.tierIndex, rec.amountCents, rec.timestampMs, rec.telemetry))
      && rec.rarity == Rarity.Classify(rec.telemetry, rec.tierIndex, root)
      && rec.rarityScore == Rarity.Score(rec.telemetry, rec.tierIndex, root) as real
      && rec.id == Printing.Id(position, rec.seed) && rec.serial == Printing.Serial(position, rec.seed)
      && rec.batch == Printing.Batch(position, rec.seed)
      && rec.massGrams == 3.79 * rec.telemetry.dropletsLanded && rec.issued == now.day
  {
    hide Clamp, Seed.HashOf, GoSigil.RarityScore, Rarity.ScoreParts, Printing.Id, Printing.Serial, Printing.Batch;
    GoSigil.ScoresAgree(Mint(req, position, ownerID, now, root).value.telemetry, req.tierIndex, root);
  }
}
