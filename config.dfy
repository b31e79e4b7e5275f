/** Tuning constants of the game (src/config.js) that the modelled code reads. */
module Config {
  /** World pixels are drawn PIXEL_SIZE screen units wide; positions divide by it. */
  const PIXEL_SIZE: int := 2

  const PLAYER_HP: real := 100.0
  const PLAYER_SPEED: real := 150.0
  const PLAYER_SIZE: real := 8.0
  /** Mana regenerated per second. */
  const MANA_REGEN: real := 20.0

  /** Invincibility time after a hit, in seconds. */
  const IFRAME_DURATION: real := 0.5

  /** Chance per frame that fire ignites a flammable neighbour. */
  const FIRE_SPREAD_CHANCE: real := 0.3
  /** Seconds a fire cell lives before it turns into smoke or air. */
  const FIRE_LIFETIME: real := 2.0
  /** Damage per second while burning. */
  const FIRE_DAMAGE: real := 10.0

  /** Chance per frame that a blocked liquid tries to flow sideways. */
  const WATER_FLOW_SPEED: real := 0.7

  const ELECTRICITY_DAMAGE: real := 30.0

  const STARTING_GOLD: int := 0

  /** The host loop never passes a frame time above this (src/game.js:97). */
  const MAX_DT: real := 0.1
}
