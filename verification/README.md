# The pour, verified

A Dafny model of the ceremony that pours, scores, mints and keeps a record, and proofs of what the
program's comments, tests and documentation promise about it. To verify the whole project, run
`dafny verify dfyconfig.toml`.

The chain that is modelled, in the order a pour goes through it:

| part | files |
|---|---|
| the rig: a ring of 32 falling droplets changed in place on every frame | `Sim`, `RigModel` (one frame as a function), `Rig` (the arrays), `RigFlight` (the envelope every droplet keeps), `StageInvariance`, `StageShape`, `NarrowStage`, `Conservation`, `Overrun`, `Settling`, `Landing` |
| the ceremony around it: press, release, hard stop, settle, seal, discard | `Ceremony` |
| clamp, score and seed hash, written once in TypeScript and once in Go | `Clamping`, `Rarity`, `GoSigil`, `Seed`, `SeedLayout` |
| whether an unmodified client can be flagged by its own clamp | `HonestPour`, `HonestPeak`, `FallingBlob`, `PressLength`, `ManyPresses` |
| minting and the printed identifiers | `Pour`, `Printing` |
| the ledger: one reference sequence, two stores refining it | `Ledger`, `MemoryStore`, `SqliteStore`, `Stores` |
| the token bucket and the mint handler | `Limiter`, `Server` |
| the retrying client, and the whole system with an unreliable network | `Client`, `Protocol` |

## How to read it

Code that changes state in place is a class with a `Model()` (or a ghost ledger), and each of its methods
ensures that the new abstract value is a function of the old one: `Rig.StepRig` against `RigModel.Step`,
`MemoryStore.Append` and `SqliteStore.Append` against `Ledger.Append` (for callbacks that mint under the
key they are called with; both also say what any other callback gets), `Limiter.AllowKey` against
`Limiter.Allow`, `Server.Mint` against `Server.HandleMint`, `PourScreen`'s handlers against
`Ceremony.Apply`, both `ClampTelemetry` methods against one `Clamp`, both `HashSeed` methods against one
`HashOf`, one with the client's signed 32-bit operators and one with the server's unsigned words. The
theorems are about those functions and about whole runs of them. Lemmas whose names end in `InNumbers`, and the
like, say what one of these functions does on the fields and coordinates themselves, with the program's
constants written out.

Conventions of the model:

* Numbers are exact: reals for floating point, unbounded integers elsewhere, with ToUint32, the 32-bit
  multiply and the flooring and rounding operations written out.
* `Math.sqrt` is any monotone function that stays between 1 and its argument from 1 upwards. Where an
  exact root matters the theorem says so (`ExactAt`). The rig keeps its peak velocity squared.
* The drag factor `Math.pow(1 - viscosity * 0.55, dt * 8)` is an arbitrary number in (0, 1], a new one each
  frame; a droplet's four random draws are arbitrary numbers in [0, 1). Theorems hold for all of them.
  The worst cases behind the exact conditions take the factor at 1; the concrete pours named below are
  flagged under every factor, or under the one the rig itself computes.
* A slot's `age` and a state's `spawned` are history variables; no branch reads them.
* Where the flight of a droplet matters, the stage is one on which no droplet can reach the side before the
  floor (`StageOk`). A third as wide as tall is enough (`ThirdIsEnough`), and the screen's stage is 9:16.
  Results about counters, settled rigs and the ceremony's phases hold on every stage.
* `Held(frames)` and `Leaned(frames)` are the hold and the lean-weighted open seconds added up from the frames
  alone; conditions are stated on them, not on the state a run ends in.
* The network of `Protocol` never forgets a request: anything that was sent may be processed at any later
  time, repeatedly or never, and any answer may be lost, late or unreadable.

## Where the code and what is said about it differ

* `app/ceremony/rig.test.ts:62-64` says an honest pour must never trip the clamp. It can.
  For droplets and hold it never does (`HonestDropletsAndHold`). For tilt, the clamp reads whole
  milliseconds and the meter does not, so a full lean over one 16.5 ms frame is flagged (`FullLeanFlagged`)
  and so is one held to the hard stop (`HardStopOverruns`); the exact condition is `TiltFlaggedExactly`.
  For peak velocity the exact conditions are on the hold, over every drag factor in (0, 1]. One uninterrupted
  press is safe exactly when `PressFits`: always from 37 ms up, and always on tiers 0 to 3. A pour of any
  number of presses is safe exactly when no droplet can be out by then or the hold is at least 777 ms
  (`PoursExactly`): droplets accelerate while the stream is closed and are sampled again, up to the speed of
  the whole fall and one capped frame. The last steps up to 37 and 777 ms need a drag factor at or near 1,
  which the program's own is not at the viscosities of tiers 4 and 5. Under its own drag a press of 29.9 ms
  is flagged (`ShortHoldFlagged`), and under any drag two presses of less than 775 ms in all
  (`TwoPressesFlagged`).
* The comment at `app/ceremony/rig.ts:32-35` takes a droplet that fell for the hold as the fastest there
  can be. Spawning sideways at up to twice `spawnVxMax` (`app/ceremony/rig.ts:219-221`) and a re-press both
  break that; the 10% headroom hides the first from 37 ms on.
* `app/sigil/sigil.test.ts:195-200` checks at one point that a dearer tier scores an identical pour at least
  as high. That is true of no pair of different tiers in general (`MonotoneExactly`).
* A press and release between two frames leaves no hold; that screen stays in `settling`
  (`CeremonySettlesExactly`, `TapNeverSettles`).
* On tier 5 a frame longer than about 48.3 ms (one lap of the ring at 34 a second less the longest fall) can
  overwrite a droplet that is still in the air (`ConservedExactly`); frames are capped at 50 ms
  (`app/ceremony/rig.ts:72-73`).
* The side-exit margin of 80 pixels is not scaled (`app/ceremony/rig.ts:270-271`), so stage-size
  invariance fails on shapes narrower than about 277.5 by 900, and only on them (`InvariantExactly`, over
  every drag factor; on a sliver it fails under any, `SliversDiffer`). The screen keeps its stage at 9:16 (`app/ceremony/PourScreen.tsx:462`), which is 506 by 900.

## Model

| member | source | states |
|---|---|---|
| `Rig.Rig.constructor` | app/ceremony/rig.ts:126-144 | a new rig holds no droplet, zero counters and the feel of its tier |
| `Rig.Rig.Reset` | app/ceremony/rig.ts:152-166 | a reset rig is a new one except for the eased feel and the position of its generator |
| `Rig.Rig.SpawnDroplets` | app/ceremony/rig.ts:210-226 | the spawn loop fills the slots under the cursor, one for each whole unit of the accumulator, as the recursive specification does |
| `Rig.Rig.IntegrateBlob` | app/ceremony/rig.ts:235-276 | one iteration changes slot i alone, to its stepped value, and adds that slot to the tally of alive, airborne, landed and peak |
| `Rig.Rig.IntegrateBlobs` | app/ceremony/rig.ts:231-280 | the loop over 32 slots and the closing assignments are the specification's integration |
| `Rig.Rig.StepRig` | app/ceremony/rig.ts:175-281 | the arrays and counters after one frame are exactly the specified next state of those before it |
| `Rig.Rig.Settled` | app/ceremony/rig.ts:293-295 | true exactly when the stream is closed, there was a hold, and the last frame counted nothing in the air |
| `Landing.FrameInNumbers` | app/ceremony/rig.ts:185-203 | a frame integrates at most 50 ms, with the viscosity eased 4.5 a second towards the tier's, open only while pouring and not finished |
| `Landing.BlobInNumbers` | app/ceremony/rig.ts:239-276 | in coordinates: 1400 a second of fall, drag, movement by the new speed; past 0.82 of the height the blob is on the floor, thrown back at 0.28 of what the viscosity leaves, slowed, shrunk and landed; 80 pixels outside or under 4 units it loses its slot |
| `Landing.FreeInNumbers` | app/ceremony/rig.ts:236 | a free slot is passed over |
| `Landing.DropletInNumbers` | app/ceremony/rig.ts:216-225 | where, how fast and how large a droplet leaves the spout, for its four draws in order and the lean |
| `Landing.SpoutInNumbers` | app/ceremony/rig.ts:187-210 | the radius droplets are released with is the eased one, and a frame adds its seconds times the flow to the accumulator |
| `Landing.ReleaseInNumbers` | app/ceremony/rig.ts:211-225 | a droplet fills the slot under the cursor, moves the cursor on round the ring, costs one unit and one set of draws, and touches no other slot |
| `Landing.FeelInNumbers` | app/ceremony/rig.ts:187-193 | the four components of the feel cover the same share of their way and never pass it |
| `Landing.StepEases` | app/ceremony/rig.ts:187-193 | every frame, open or closed, eases the feel |
| `Landing.FeelTable` | app/ceremony/tiers.ts:68-75 | the feel of each tier |
| `Landing.FeelRange` | app/ceremony/rig.ts:190-193 | easing between tiers stays between the thinnest and the thickest, the smallest and the largest |
| `Landing.EmptiedInNumbers` | app/ceremony/rig.ts:152-166 | after a reset every slot is free and every counter at nothing, and the feel and the generator are where they were |
| `Landing.CountsInNumbers` | app/ceremony/rig.ts:232-279 | alive counts the slots in use and airborne those not yet landed, before the frame's landings |
| `Landing.PeakIsGreatest` | app/ceremony/rig.ts:244-255 | the peak after an open frame is the greatest of the one before and the samples of the blobs in the air, taken before they land |
| `Landing.ContactsShrink` | app/ceremony/rig.ts:257-261 | n floor contacts leave at most (1 - 0.12 v) to the n of a radius |
| `Landing.LandedReleased` | app/ceremony/rig.ts:268-275 | any blob that touches the floor 144 times at the viscosity of tier 0, 48 at that of tier 1, or 36 at those above has lost its slot |
| `Landing.NeverLarger` | app/ceremony/rig.ts:223 | no droplet leaves the spout with more than 52 units, the size LandedReleased starts from |
| `Landing.SlotsGoThrough` | app/ceremony/rig.ts:235-276 | while the stream is closed every slot of the rig goes through its frames on its own |
| `RigFlight.FallKeepsFlight` | app/ceremony/rig.ts:239-242 | every frame keeps a droplet's envelope: fallen at least 700 age squared, downward speed within gravity's share plus the spawn speed, sideways drift at most 90 a second |
| `RigFlight.FallTime` | app/ceremony/rig.ts:257-266 | no droplet is in the air longer than the square root of 558/700 seconds |
| `RigFlight.StepAirborne` | app/ceremony/rig.ts:239-276 | on a stage whose shape fits, an airborne droplet either stays in the air in its slot or lands; it is never freed at the sides or by its radius before it lands |
| `RigFlight.StepInv` | app/ceremony/rig.ts:175-281 | every frame keeps the run invariant: accumulator in [0, 1), clock within the hard stop and finished exactly there, every airborne droplet inside its envelope |
| `RigFlight.ThirdIsEnough` | app/ceremony/rig.ts:268-275 | the shape of every stage at least a third as wide as tall fits |
| `StageInvariance.StageSizeInvariance` | app/ceremony/rig.ts:28-31 | two rigs fed the same frames and draws on stages of one shape agree on telemetry, landed flags, which slots are in the air and the airborne count after every frame, although landed slots may be freed at different times |
| `StageInvariance.StepTwins` | app/ceremony/rig.ts:195-280 | one frame keeps the correspondence between the two rigs |
| `StageShape.InvariantExactly` | app/ceremony/rig.ts:28-31 | all stages of one shape get the same report of every pour if and only if on that shape no droplet can reach the side before it has fallen to the floor |
| `StageShape.WhichShapesFit` | app/ceremony/PourScreen.tsx:462 | 278 by 900, 300 by 900 and 9:16 fit; 277 by 900 does not |
| `NarrowStage.SliversDiffer` | app/ceremony/rig.ts:268-275 | on a stage 1 by 900 and one ten times its size, the same two frames and draws report peaks of 56 and 42, under any drag |
| `Conservation.CursorFree` | app/ceremony/rig.ts:213-214 | when a droplet is due and the ring is long enough, the slot under the cursor is not in the air |
| `Conservation.DropletsConserved` | app/ceremony/rig.ts:209-276 | over every run of one tier with room in the ring, droplets spawned equal droplets landed plus droplets in the air |
| `Conservation.TierConserved` | app/ceremony/rig.ts:209-276 | that holds on tiers 0 to 4 at any frame time and on tier 5 for frames of at most 48 ms |
| `Conservation.RoomyTiers` | app/ceremony/rig.ts:50-73 | which tiers and frame times leave room in the ring, and that 49 ms on tier 5 does not |
| `Overrun.ConservedExactly` | app/ceremony/rig.ts:209-276 | on a tier, every run with frames up to a limit conserves droplets if and only if one lap of the ring less one such frame covers the longest fall |
| `Overrun.DropletLost` | app/ceremony/rig.ts:213-225 | a run of short ticks and one frame past the limit loses a droplet, under any drag |
| `Settling.Settles` | app/ceremony/rig.ts:283-295 | after a hold, closed frames whose capped times outlast the longest fall, and one more, settle the rig |
| `Settling.StaysSettled` | app/ceremony/rig.ts:283-291 | on any stage, a settled rig stays settled while closed, with its telemetry frozen |
| `Settling.ClosedRunAges` | app/ceremony/rig.ts:231-276 | the measure behind it: every droplet still in the air has aged by the capped time of all closed frames |
| `Settling.NoHoldNeverSettles` | app/ceremony/rig.ts:293-295 | a rig that no open frame ever stepped never settles |
| `Ceremony.CeremonySafe` | app/ceremony/PourScreen.tsx:187-290 | after any events on a mounted screen with any stage, settled means closed, nothing in the air, a positive hold and a recorded start; pouring means phase pouring |
| `Ceremony.ResealIdentical` | app/ceremony/PourScreen.tsx:1055-1067 | from a settled screen, any events but a discard leave it settled and every seal sends the identical request |
| `Ceremony.CeremonySettlesExactly` | app/ceremony/PourScreen.tsx:278-283 | once released, ticks outlasting the longest fall and one more settle the screen if and only if some frame saw the stream open |
| `Ceremony.TapNeverSettles` | app/ceremony/PourScreen.tsx:278-283 | a press and a release on a fresh screen with no frame between them leave it settling after any number of frames |
| `Ceremony.CeremonyInv` | app/ceremony/PourScreen.tsx:244-283 | on a stage whose shape fits, every reachable screen keeps the flight envelope |
| `Ceremony.StartIsFirstPress` | app/ceremony/PourScreen.tsx:187-212 | after any events the start is the instant of the first press since the last discard, and none if there was none |
| `Ceremony.SealedRequest` | app/ceremony/PourScreen.tsx:1058-1067 | there is a request exactly when the pour has settled, and it carries the tier, the first press and the rig's counters, the hold in whole milliseconds |
| `Ceremony.Reopened` | app/ceremony/PourScreen.tsx:187-197 | a press while settling opens the stream again on the same pour |
| `Ceremony.TickWhilePouring` | app/ceremony/PourScreen.tsx:244-276 | an open frame adds its time to the hold, at most 100 ms, and the one that reaches 15000 closes the stream and leaves the pour settling or settled |
| `Ceremony.PourScreen.constructor` | app/ceremony/PourScreen.tsx:135-154 | a screen mounts idle, closed, without a start, around a new rig |
| `Ceremony.PourScreen.OpenStream` | app/ceremony/PourScreen.tsx:187-197 | a press opens the stream unless settled, finished or already open, and keeps the first start |
| `Ceremony.PourScreen.CloseStream` | app/ceremony/PourScreen.tsx:199-203 | a release closes an open stream and turns to settling, and does nothing to a closed one |
| `Ceremony.PourScreen.DiscardPour` | app/ceremony/PourScreen.tsx:205-212 | a discard empties the rig, forgets the start and returns to idle |
| `Ceremony.PourScreen.OnFrame` | app/ceremony/PourScreen.tsx:244-283 | a frame steps the rig, closes the stream on the hard stop and turns settling to settled |
| `Ceremony.PourScreen.SealPour` | app/ceremony/PourScreen.tsx:1058-1067 | a request exists only on a settled screen, and is its tier, start and telemetry |
| `HonestPour.HonestDropletsAndHold` | app/ceremony/rig.ts:23-27 | over every press pattern and schedule of one tier, on any stage, the clamp lists neither droplets nor hold and keeps both, once the wall clock covers the hold |
| `HonestPour.StepMetered` | app/ceremony/rig.ts:205-211 | droplets spawned and waiting never exceed flow times the hold, save for up to 50 ms at the hard stop |
| `HonestPour.MetersReadFrames` | app/ceremony/rig.ts:203-207 | the clock reads the hold the frames add up to, the tilt meter six units per lean-weighted second that counts, and the rig is finished exactly at the hard stop |
| `HonestPour.TiltBound` | app/ceremony/rig.ts:206-207 | before the hard stop tilt is at most 6 per second of hold, and at it at most 90.3 |
| `HonestPour.TiltFlaggedExactly` | app/sigil/telemetry.ts:81-113 | an honest pour is unflagged for tilt if and only if the lean-weighted open time of its frames fits the whole milliseconds they hold |
| `HonestPour.FullLeanFlagged` | app/ceremony/rig.ts:298-305 | one full-lean frame of 16.5 ms is flagged |
| `HonestPour.HardStopOverruns` | app/ceremony/rig.ts:206-207 | a full lean in frames of 49.9 ms stops at 15000 ms with more than 90.1 units, and is flagged |
| `HonestPeak.OneHoldPeak` | app/ceremony/rig.ts:244-255 | one uninterrupted hold keeps the squared peak under the speed cap of its age, and under the clamp's ceiling from 37 ms on |
| `HonestPeak.PeakFlaggedExactly` | app/sigil/telemetry.ts:77-112 | with an exact root, the clamp keeps a reported peak if and only if its square is at most the squared ceiling |
| `PressLength.PressExactly` | app/ceremony/rig.ts:205-255 | one press of a given length is safe for every schedule, lean, stage, drag and draw if and only if it is too short to release a droplet or long enough for the fastest one |
| `PressLength.WhichPressFits` | app/ceremony/rig.ts:205-255 | every press fits on tiers 0 to 3 and from 37 ms up; 36.99 ms does not on tiers 4 and 5 |
| `PressLength.FittingPressUnflagged` | app/sigil/telemetry.ts:92-119 | a press that fits is never flagged for its peak velocity |
| `ManyPresses.PoursExactly` | app/ceremony/rig.ts:205-255 | a pour of a given hold, over any presses and frames, is under its speed ceiling for every lean, stage, drag and draw if and only if no droplet can be out by then or it holds for at least 777 ms |
| `ManyPresses.RunSpent` | app/ceremony/rig.ts:239-255 | over every run no blob is faster than its fall accounts for, and no sample exceeds the speed of the whole fall and one capped frame |
| `ManyPresses.TwoPressesFlagged` | app/ceremony/rig.ts:244-255 | under any drag, two presses of any total from the first droplet up to 775 ms can exceed the ceiling |
| `ManyPresses.FittingPourUnflagged` | app/sigil/telemetry.ts:92-119 | a pour that fits is never flagged for its peak velocity, whatever its presses |
| `FallingBlob.ShortHoldFlagged` | app/ceremony/rig.ts:231 | under the drag factor the rig itself computes, a fully leant press of 29.9 ms on tier 5, from a rig that stood on tier 0, exceeds the ceiling |
| `FallingBlob.SecondPressFlagged` | app/ceremony/rig.ts:244-255 | 30 ms, a 50 ms pause and 11 ms more exceed the ceiling under any drag |
| `Clamping.ClampTelemetry` | app/sigil/telemetry.ts:92-119 | the client's clamp computes the specified kept values and violations, for every number including NaN and the infinities |
| `Clamping.Take` | app/sigil/telemetry.ts:99-103 | one field is cut into [0, max] and listed exactly when its safe value is above max |
| `Clamping.CeilingsMonotone` | app/sigil/telemetry.ts:71-85 | a longer hold never lowers a ceiling |
| `Clamping.ClampClosed` | app/sigil/telemetry.ts:92-119 | clamping twice keeps the same telemetry, and lists nothing the second time if and only if the wall clock is not negative |
| `Clamping.ClampMonotone` | app/sigil/telemetry.ts:92-119 | a longer wall clock never clamps any field lower |
| `Clamping.ListedExactlyWhenLowered` | app/sigil/telemetry.ts:99-103 | a field is a violation if and only if the claim was finite and the clamp lowered it |
| `Clamping.ClampBounds` | app/sigil/telemetry.ts:105-113 | clamped telemetry is non-negative and under every ceiling of its own hold |
| `Clamping.ClampInNumbers` | app/sigil/telemetry.ts:92-119 | every kept value and the list of violations in its order, in numbers, for every claim |
| `Clamping.SpeedLevelsOff` | app/sigil/telemetry.ts:77-79 | the fall counts for 1.2 s: from there on the squared speed under the root is 3242025, and less before |
| `Clamping.TierIndexInNumbers` | app/sigil/telemetry.ts:46-50 | fractions are dropped, out of range goes to the nearer end, and no number is tier 0 |
| `GoSigil.ClampTelemetry` | api/sigil/sigil.go:61-95 | the server's clamp meets the client's specification on every integer tier index and claim |
| `GoSigil.Take` | api/sigil/sigil.go:63-75 | the server's closure keeps and lists what the client's does |
| `GoSigil.ScoresAgree` | api/sigil/rarity.go:81-102 | the server's float score is the client's integer score on every telemetry and tier index |
| `Rarity.PreviewEqualsMint` | app/sigil/rarity.ts:102-136 | for finite telemetry whose hold fits the wall clock, clamping never moves the score or the band, even when it cuts other fields |
| `Rarity.PermilleCut` | app/sigil/rarity.ts:116-120 | cutting a value to a cap no lower than the permille ceiling cannot be seen in the permille |
| `Rarity.AdvertisedCeiling` | app/ceremony/tiers.ts:142-157 | every clamped claim scores within 0 and ten times the reach and ranks within the advertised band; the flawless claim attains both; the bands are Common, Uncommon, Rare, Singular, Singular, Singular |
| `Rarity.ScoreBounds` | app/sigil/rarity.ts:132-135 | the score of any telemetry is between 0 and ten times the reach |
| `Rarity.ScoreInNumbers` | app/sigil/rarity.ts:102-136 | the four parts in thousandths of their ceilings, weighed 40, 25, 20 and 15, scaled by 50 and 10 a tier, each step rounded down |
| `Rarity.OnePartAlone` | app/sigil/rarity.ts:132-135 | a pour full in one part alone earns 400, 250, 200 or 150 thousandths of its tier's reach |
| `Rarity.BandsInNumbers` | app/sigil/rarity.ts:147-153 | the bands begin at 533, 665 and 771 |
| `Rarity.PermilleInNumbers` | app/sigil/rarity.ts:116-120 | a part is its share of the ceiling in thousandths, rounded down, from 0 to 1000 |
| `Rarity.MonotoneExactly` | app/sigil/sigil.test.ts:195-200 | score is monotone from one tier to another on all telemetry if and only if they are the same tier |
| `Rarity.ScoreNotMonotoneInTier` | app/sigil/sigil.test.ts:195-200 | one second, 12 droplets, no speed and tilt 6 score 206 on tier 0 and 159 on tier 1 |
| `Rarity.ScoreMonotoneAtEqualFill` | app/sigil/rarity.ts:123-135 | telemetry whose fill does not fall scores at least as high on a dearer tier |
| `GoSigil.ToUint32Agrees` | api/sigil/sigil.go:119-129 | the server's truncate, Mod and correction is ECMAScript ToUint32 on every number |
| `Seed.HashSeed` | app/sigil/sigil.ts:39-62 | the client's nested loops, through signed 32-bit xor and multiplication, compute FNV-1a over the four low bytes of the seven parts in order |
| `GoSigil.HashSeed` | api/sigil/sigil.go:133-152 | the server's nested loops on wrapping unsigned words compute the same hash |
| `GoSigil.PartsAreSame` | api/sigil/sigil.go:134-142 | the seven words the server hashes are the client's |
| `Seed.SignedTurn` | app/sigil/sigil.ts:54-58 | one turn of the client's inner loop, signed detours included, is one byte step on unsigned words |
| `Seed.FoldPart` | app/sigil/sigil.ts:53-59 | the inner loop folds the four bytes of one part, lowest first |
| `Seed.FoldBijective` | app/sigil/sigil.ts:54-58 | every byte step is a bijection on the 32-bit state, with its inverse given |
| `Seed.FoldLossless` | app/sigil/sigil.ts:54-58 | a byte step loses neither the state nor the byte |
| `Seed.OnePartByteMatters` | app/sigil/sigil.ts:39-62 | seeds whose parts differ in exactly one byte hash differently |
| `Seed.TimestampWraps` | api/sigil/sigil.go:110-112 | the timestamp reaches the hash only modulo 2^32 |
| `Seed.ClampedPartsFit` | app/sigil/sigil.ts:45-48 | for clamped telemetry no hashed part wraps |
| `Seed.ScoreIsFunctionOfParts` | app/sigil/rarity.ts:94-95 | clamped telemetry with the same hashed parts has the same score |
| `SeedLayout.SeedBytes` | app/sigil/sigil.ts:41-53 | the 28 hashed bytes by field: tier, price, start, whole droplets, rounded velocity, rounded thousandths of tilt, whole hold, each lowest byte first |
| `SeedLayout.PublishedValues` | app/sigil/sigil.ts:51-61 | the hash of the empty input, of "a" and of "foobar" are the published values of FNV-1a |
| `SeedLayout.WordInNumbers` | app/sigil/sigil.ts:34-36 | a number reaches the hash as its whole part modulo 2^32, and what is not a number as 0 |
| `Printing.SerialRoundTrip` | api/pour/pour.go:139 | position and low 16 seed bits read back from the serial, beyond seven digits too |
| `Printing.IdRoundTrip` | api/pour/pour.go:127 | seed and position read back from the id |
| `Printing.PositionsNeverCollide` | api/pour/sqlite.go:22-25 | different positions never share a serial or an id, whatever their seeds |
| `Printing.BatchShape` | api/pour/pour.go:140 | a batch is three digits of the position modulo 1000, a dash and the letter seed modulo 26 places after A |
| `Printing.SerialShape` | api/pour/pour.go:139 | MP, a dash, at least seven decimal digits and exactly seven below ten million, a dash, four digits of upper-case hexadecimal |
| `Printing.IdShape` | api/pour/pour.go:127 | eight digits of lower-case hexadecimal, a dash, decimal digits |
| `Pour.MintMatchesPreview` | api/pour/pour.go:102-143 | for a finite claim whose hold fits the wall clock, the minted score and band are those of the raw telemetry, and the seed is that of the client's own clamp |
| `Pour.MintBounded` | api/pour/pour.go:91-145 | every minted record is within its tier's advertised ceiling, and its hold within 15 s and the time from its start to the server's clock |
| `Pour.MintGenuine` | api/pour/pour.go:126-143 | a minted record carries the owner, start, tier and position it was minted under, and the id and serial printed from them |
| `Pour.MintAcceptsExactly` | api/pour/pour.go:92-100 | a mint succeeds if and only if the tier is 0 to 5 and the start within 300000 ms of the clock; otherwise it is a validation failure |
| `Pour.MintedHold` | api/pour/pour.go:102-110 | the recorded hold is the claim cut to the time since the start on the server's clock and to 15 s, and a violation if and only if the claim was more |
| `Pour.MintedFields` | api/pour/pour.go:112-144 | every other field of a record, from the request, the position, the session and the clock |
| `Ledger.AppendKeeps` | api/pour/store.go:37-44 | Append keeps positions 1..n and one record per start, grows by exactly the record it reports as new, and leaves the ledger alone on a replay, a conflict or a failed mint |
| `Ledger.AppendAnswers` | api/pour/store.go:78-98 | a record of this owner and instant is replayed or conflicts by its tier; without one, whatever the callback makes of the next position is the answer |
| `Ledger.RunSound` | api/pour/store.go:72-99 | over every sequence of mints from empty, positions are exactly 1..n in append order and no start is minted twice |
| `Ledger.ReplayForever` | api/pour/store.go:40-43 | a retry of any recorded start is answered with that record, or with a conflict if its tier differs, at any later time and even outside the skew window |
| `Ledger.IdsDistinct` | api/pour/store.go:95-97 | no two records of a sound ledger share an id or a serial |
| `Ledger.ListShape` | api/pour/store.go:111-123 | a List is exactly the owner's records, with strictly falling positions |
| `Ledger.ListsPartition` | api/pour/store.go:31-36 | every record is in its owner's List and in no other |
| `Ledger.GetIsListMember` | api/pour/store.go:101-109 | Get returns a record to an owner if and only if it is in that owner's List |
| `Ledger.OthersNotFound` | api/pour/store.go:31-33 | someone else's record is answered exactly as one that does not exist |
| `MemoryStore.MemoryStore.constructor` | api/pour/store.go:68-70 | a new store holds an empty ledger |
| `MemoryStore.MemoryStore.Append` | api/pour/store.go:72-99 | for any callback, the list and the maps become the specified ones; for one that honours its key they stay in step and give the reference Append |
| `MemoryStore.AppendRefines` | api/pour/store.go:78-98 | under a callback that honours its key, the lookup through the map and the three updates are the reference Append, and list and maps still agree |
| `MemoryStore.MemoryStore.Get` | api/pour/store.go:101-109 | the map lookup with the owner check is the reference Get |
| `MemoryStore.MemoryStore.List` | api/pour/store.go:111-123 | the backwards loop builds the reference List |
| `SqliteStore.SqliteStore.constructor` | api/pour/sqlite.go:82-91 | a new table holds an empty ledger |
| `SqliteStore.SqliteStore.Append` | api/pour/sqlite.go:126-187 | for any callback only a fresh mint adds a row, one no constraint forbids, and the table stays keyed; for one that honours its key the transaction gives the reference Append |
| `SqliteStore.SqliteStore.Select` | api/pour/sqlite.go:135-137 | a query returns a row that meets its condition, or none exactly when no row does |
| `SqliteStore.SqliteStore.NextPosition` | api/pour/sqlite.go:153 | one more than the highest position in the table, 1 on an empty one |
| `SqliteStore.SqliteStore.Insert` | api/pour/sqlite.go:169-181 | a row goes in if and only if no uniqueness constraint forbids it |
| `SqliteStore.ConstraintsExactly` | api/pour/sqlite.go:26-55 | a row is let in if and only if it is new and no two rows then share an id, a position, a serial, or an owner and start |
| `SqliteStore.SqliteStore.Get` | api/pour/sqlite.go:222-231 | the owner-scoped query is the reference Get |
| `SqliteStore.SqliteStore.List` | api/pour/sqlite.go:233-250 | the ordered query and the row loop are the reference List |
| `SqliteStore.ScanRoundTrip` | api/pour/sqlite.go:195-220 | nothing is lost between a record and its row, through the 64-bit seed column |
| `SqliteStore.ColumnsHold` | api/pour/sqlite.go:169-178 | each column holds the field it is named for |
| `SqliteStore.MaxIsLength` | api/pour/sqlite.go:148-153 | MAX(ledger_position) + 1 is the number of records plus one |
| `SqliteStore.NoClash` | api/pour/sqlite.go:26-55 | no uniqueness constraint (id, position, serial, owner and start) can fire on a minted record |
| `Stores.Lockstep` | api/pour/sqlite.go:126-250 | opened empty, the two stores answer every sequence of Append, Get and List with equal results, those of the reference ledger |
| `Limiter.Limiter.constructor` | api/httpapi/limiter.go:25-27 | a new limiter has no bucket and was last swept at the zero time |
| `Limiter.Limiter.SweepBuckets` | api/httpapi/limiter.go:37-44 | the loop deletes exactly the full buckets, once a minute has passed |
| `Limiter.Limiter.AllowKey` | api/httpapi/limiter.go:31-59 | the map, the sweep time, the answer and the wait are the specified ones |
| `Limiter.SweepInvisible` | api/httpapi/limiter.go:35-44 | over every history with times in order, the sweeping limiter answers as one bucket per key, never deleted, would |
| `Limiter.OthersDoNotMatter` | api/httpapi/limiter.go:46-58 | calls for other keys never change a key's decisions |
| `Limiter.SurvivorsAreRecent` | api/httpapi/limiter.go:35-44 | after a sweep of any reachable limiter, every surviving bucket was touched within burst times every |
| `Limiter.ReachableBucket` | api/httpapi/limiter.go:46-57 | tokens stay within 0 and burst |
| `Limiter.TokenBucketBound` | api/httpapi/limiter.go:8-10 | the sweeping limiter's grants to one key in any window never exceed burst plus one per `every` that the window lasts |
| `Limiter.RetryAfterHonoured` | api/httpapi/server.go:120 | a refused client that waits the advertised whole seconds, with no other call on its key, is allowed |
| `Limiter.WaitIsNeeded` | api/httpapi/limiter.go:52-55 | asked again before the wait is over, with no other call on its key, a refused client is refused again |
| `Limiter.WaitBounded` | api/httpapi/limiter.go:52-55 | a wait is at most `every`, and Retry-After at most its whole seconds and one |
| `Limiter.RefusalIsFree` | api/httpapi/limiter.go:50-55 | a refused call costs nothing: every later call of its key is answered as if it had not been made |
| `Limiter.BurstExactly` | api/httpapi/limiter.go:46-58 | a new key is granted exactly its burst at once, and the next call is told to wait one `every` |
| `Limiter.SweepInNumbers` | api/httpapi/limiter.go:35-44 | nothing is swept within 60 s of the last sweep; after it exactly the buckets that are full by now |
| `Server.Server.constructor` | api/httpapi/limiter.go:25-27 | a new server has an empty ledger and a new limiter |
| `Server.Server.Mint` | api/httpapi/server.go:115-215 | limiter, session, body, tier ceiling and Append, in that order, give the specified limiter, ledger and reply |
| `Server.OnlyCreatedGrows` | api/httpapi/server.go:147-154 | the ledger grows, by one record at the next position, exactly on a 201; every refusal and replay leaves it untouched |
| `Server.StatusInNumbers` | api/httpapi/server.go:115-191 | which status each request gets on its own fields, that the limiter is charged whatever follows, and that Retry-After is sent exactly with a 429 |
| `Server.RetryAfterIsEnough` | api/httpapi/server.go:116-124 | a client answered 429 that waits Retry-After seconds without another call gets past the limiter, whatever other addresses do meanwhile |
| `Client.ApiFetch` | app/pour/api.ts:106-139 | the retry loop stops at the first success or hopeless failure or after retries + 1 attempts, returns what the last attempt made of it, and sleeps a doubling backoff |
| `Client.EndingsInNumbers` | app/pour/api.ts:90-101 | statuses 200 to 299 succeed, 409 conflicts, 500 and up are the server's failure, the rest refusals; another attempt is made exactly after no answer or a status from 500 up |
| `Client.TurnsAreTheLoop` | app/pour/api.ts:120-138 | that contract determines the result: it is what taking the turns one at a time, as the protocol does, gives |
| `Protocol.RunSafe` | app/pour/api.ts:9-11 | every reachable state of clients, network and ledger keeps the protocol invariant |
| `Protocol.ServeTruthful` | api/httpapi/server.go:159-214 | every answer is true of the ledger: a success carries this pour's record, a 409 means a record of another tier is there |
| `Protocol.ExactlyOnce` | app/pour/api.ts:9-11 | in every reachable state each owner and start has at most one record, every success ever answered for it carries that record, a client's success is on the ledger, and a reported conflict is real |
| `Protocol.AttemptsBounded` | app/pour/api.ts:120-138 | one seal puts at most retries + 1 requests on the wire |
| `Protocol.ResealRecovers` | app/pour/api.ts:184-197 | a pour on the ledger is always recovered by the next request that is served: a 200 with the record, and nothing changes |
| `Protocol.SealDelivers` | app/pour/api.ts:184-197 | from any reachable state, a seal that is served and answered leaves the browser with its record, which is on the ledger |
| `Protocol.LostAnswerRecovered` | app/pour/api.ts:120-138 | a browser whose answer is lost tries again, and a retry that is served delivers the one record without another |
| `Protocol.EventFrame` | app/pour/api.ts:120-138 | requests and answers only accumulate; a server event changes the ledger and the answers alone, a browser's event that browser alone and never its cookie, and posts at most one request, on a seal or after a backoff |
| `Protocol.SealPosts` | app/pour/api.ts:184-193 | from any reachable state a seal puts one request on the wire, with the cookie and the pour of its browser, and no earlier seal of it is confused with it |
| `Protocol.InFlightLocked` | app/ceremony/PourScreen.tsx:1057-1059 | while a seal is in flight its browser neither seals again nor starts another pour |
| `Protocol.StaleUnheard` | app/pour/api.ts:124-128 | an answer to another browser, an earlier seal or an earlier attempt changes nothing |
| `Protocol.AttemptEnds` | app/pour/api.ts:123-138 | what each ending of an attempt leaves, by status and attempts left: the record, another attempt, or which failure |

## Left out

- Floating point: IEEE-754 rounding, Float32Array storage in the rig, and the last-bit cases where Math.round differs from floor(v + 0.5). All arithmetic is exact.
- The random generator itself (app/ceremony/rig.ts:116-124): draws are arbitrary, so nothing depends on it.
- The power in the drag factor: outside ShortHoldFlagged any factor in (0, 1] stands for it, so the exact conditions are exact for that freedom.
- Resizing the stage, or changing the tier, in the middle of a pour.
- TierConserved: the form a deployment can check; ConservedExactly is the exact condition over frame limits.
- OneHoldPeak: the direction from 37 ms on; PressExactly and PoursExactly have both.
- ScoreMonotoneAtEqualFill: sufficient only; MonotoneExactly shows no condition on the tiers alone would do.
- ShortHoldFlagged: the power is any function with the laws of exponents on bases in (0, 1].
- SqliteStore.SqliteStore.Append: the driver, WAL, busy timeouts, schema upgrades of ledgers with duplicates, and the JSON text of the violations; a transaction is one atomic step on a set of rows.
- Protocol.ResealRecovers: safety only; that a served request is eventually sent is a matter of the network.
- Store failures: a 500 without effect. A commit whose outcome is unknown is covered as an answer that is lost.
- The nil limiter of a deployment that sets no limit, the clock going backwards, and Go's saturation of durations beyond 292 years.
- HTTP plumbing, cookies, client address resolution, request parsing and logging: the owner, the address and the parsed body are given.
- In apiFetch: abort signals, headers, base URLs and the wording of errors. An attempt ends answered, timed out or unreachable.
- React: the delayed refresh of what the frame callback reads, leaving the view (which unmounts the rig), notices, readouts and the disabled state of the seal button while a seal is in flight. A settled screen always has a start, so the fallback to the present time is never taken.
- generateSigil and its digest, all rendering, the gallery, certificates, print scripts, and the payments described in docs/monetization.md.
