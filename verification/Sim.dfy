/** The physics constants and the tier table that the rig, the clamp and the score share. */
module Sim {
  const GRAVITY: real := 1400.0
  const SPAWN_VY_MAX: real := 120.0
  const SPAWN_VX_MAX: real := 45.0
  const MAX_POUR_MS: real := 15000.0
  const MAX_TILT_RATE: real := 6.0
  const DROPLET_TOLERANCE: real := 1.15

  const TIER_COUNT: nat := 6

  type TierIndex = i: int | 0 <= i < TIER_COUNT

  /** Release rate per second, by tier. */
  function Flow(tier: TierIndex): int
  {
    [10, 16, 20, 24, 28, 34][tier]
  }

  /** Prices in cents, by tier. */
  function AmountCents(tier: TierIndex): int
  {
    [0, 299, 1299, 2999, 5999, 14900][tier]
  }
}
