# Falling-sand game core in Dafny

This project models the core of a browser falling-sand game. The world is a grid of material pixels that fall, flow, rise, burn, conduct and explode. A wizard walks through it, casts spells from wands, suffers status effects and collects perks. The modules follow the game's source files:

| module | file | models |
|---|---|---|
| `Common`, `Random` | common.dfy | JavaScript's `x \|\| fallback`, `Math.floor(Math.random() * n)`, and `Math.random()` as an explicit oracle with a cursor (`Rng`) |
| `Config` | config.dfy | the constants of src/config.js |
| `Materials` | materials.dfy | the material codes, the `MATERIALS` registry, `Pixel` records and their phase queries (src/materials.js) |
| `Grid` | grid.dfy | the pixel grid as a value: `getPixel`, `setPixel`, `swap`, `isEmpty`, `canDisplace`, and a census of the records |
| `Movement` | movement.dfy | the powder, liquid and gas rules as pure decisions |
| `Chemistry` | chemistry.dfy | explosions, fire, electricity, burning, and `updatePixel` as one pure step |
| `Scheduler` | scheduler.dfy | the frame loop of `update`: flag clearing, bottom-up alternating scan, at most one update per record |
| `Physics` | physics.dfy | class `PhysicsWorld`: every method of src/physics.js, each proved equal to the pure rule |
| `Spells` | spells.dfy | `Spell` with its fallbacks, the modifier loop, class `Projectile` and its collision sub-steps |
| `Wands` | wands.dfy | class `Wand`: recharge, selection (round-robin or shuffled), mana payment, volley, clone, the templates |
| `Perks` | perks.dfy | the twelve perks' effects and `getRandomPerks` |
| `Biomes` | biomes.dfy | the five biomes and the depth search of `BiomeGenerator` |
| `Character` | player.dfy | class `Player`: damage with i-frames, saving grace and extra lives, healing, gold, kills, wand switching, the status-effect Map, the frame `update`, casting, perks |
| `Prototype` | prototype.dfy | the element explorer in game.js: the seeded permutation of `PerlinNoise`, `getTile` with its cache, `getGroupGlow` and `adjustBrightness` |

## How the model is built

Every state-changing class of the source is a Dafny `class`: `PhysicsWorld`, `Projectile`, `Wand`, `Player`, `PerlinNoise` and `TerrainGenerator`. They carry the source's fields except those listed under "Left out". One more class, `Rng`, is not in the source: it holds the cursor into the sequence of `Math.random()` results.

- **Grid.** The grid is a field `pixels: seq<seq<Pixel>>` that the methods reassign. A `Pixel` is a value carrying all of its fields, so a `swap` of two values is the swap of the two object references in the source.
- **Methods and their pure counterparts.** Each method is proved against a pure function of the old state and the random draws. For example, `UpdateGas` ends where `GasStep` says. The lemmas about those functions state what the game promises.
- **Randomness.** Calls to `Math.random()` are numbered. `draws(n)` is the n-th result, and every function says how many draws it takes.
- **Arithmetic.** Arithmetic is exact (`real` and `int`). JavaScript's `%` is used only where its operands are non-negative, where it agrees with Dafny's.

Where the source and its written description disagree, the model follows the source:

- `setPixel` keeps a record's `data`. So a burnt-out cell becomes FIRE with its spent burning record. When that fire expires into SMOKE, the smoke turns straight back into FIRE (`Chemistry.SpentSmokeReignites`).
- The `|| 1` fallback makes the declared density 0 of AIR and ELECTRICITY count as 1. So WATER can never fall into ELECTRICITY (`Grid.WaterBlockedByElectricity`).

## Model

| member | source | states |
|---|---|---|
| Common.OrReal | src/wands.js:6-10 | `v \|\| fallback` for a number: the value when present and non-zero, the fallback for absent or 0 |
| Common.OrInt | src/wands.js:11 | `v \|\| fallback` for a whole number: the value when present and non-zero, else the fallback |
| Common.OrString | src/wands.js:5 | `v \|\| fallback` for a string: the value when present and non-empty, else the fallback |
| Common.ScaledIndex | src/wands.js:204 | `Math.floor(Math.random() * n)` always lies in [0, n) |
| Random.Rng.Next | src/physics.js:181 | one `Math.random()` call returns the next draw of the oracle and advances the cursor by one |
| Materials.Build | src/materials.js:25-40 | the `Material` constructor: an absent state is 'solid', a density of 0 becomes 1, the code is kept |
| Materials.SearchFinds | src/materials.js:42-188 | searching the registry finds the entry declared for each code |
| Materials.Lookup | src/materials.js:200-202 | `MATERIALS[id]` is defined exactly for the codes 0..19 and gives back the record of that code |
| Materials.NewPixel | src/materials.js:191-198 | `new Pixel(type)`: the given type, zero lifetime and temperature, not updated, no data |
| Materials.RegistryTotal | src/materials.js:43-188 | the record stored under each code 0..19 is `new Material` of that same code and the properties declared with it, so no two codes share a record |
| Materials.EffectiveDensity | src/materials.js:30 | exactly AIR and ELECTRICITY declare density 0, which the fallback turns into 1; every density is positive |
| Materials.FlammableMaterials | src/materials.js:42-188 | the flammable materials are exactly WOOD, COAL, GUNPOWDER and OIL, each with a positive burn time |
| Materials.ConductiveAndExplosive | src/materials.js:42-188 | exactly METAL and GOLD conduct, and GUNPOWDER is the only explosive |
| Materials.SpreadingGases | src/materials.js:42-188 | exactly FIRE and ELECTRICITY spread, and both are gases |
| Materials.FluidsAreDense | src/materials.js:42-188 | every liquid and powder has density at least 0.9 |
| Materials.OnePhase | src/materials.js:208-230 | every pixel is in exactly one phase, and `canMove` is the negation of `isSolid` |
| Materials.AirIsEmptyGas | src/materials.js:204-206 | `isEmpty` means AIR, and AIR is a gas that is not solid |
| Grid.Get | src/physics.js:72-77 | `getPixel` is null exactly outside the grid, and the record at (x, y) inside it |
| Grid.Put | src/physics.js:79-85 | storing a record changes that cell only |
| Grid.PutFlagged | src/physics.js:79-85 | replacing one record changes the number of flagged records by exactly that record's flag |
| Grid.PutRecords | src/physics.js:79-85 | replacing one record changes the multiset of records by exactly that record |
| Grid.SameFlagsFlagged | src/physics.js:117-120 | grids whose records carry the same flags place by place have the same flag count |
| Grid.SetPixel | src/physics.js:79-85 | `setPixel` ignores coordinates outside the grid; inside, it retypes that one record with zero lifetime and changes no flag |
| Grid.Swap | src/physics.js:87-91 | `swap`: the two records trade places and every other cell is unchanged |
| Grid.SwapCensus | src/physics.js:87-91 | a swap keeps the multiset of records and the number of flagged records |
| Grid.SwapTwice | src/physics.js:87-91 | swapping the same two cells twice restores the grid |
| Grid.SetPixelLastWins | src/physics.js:79-85 | two writes to one cell equal the last write alone |
| Grid.DisplaceNeedsRoom | src/physics.js:335-344 | `canDisplace` implies both cells exist, the target is not solid, and it is AIR or strictly lighter |
| Grid.EqualDensityStays | src/physics.js:343 | equal densities never displace unless the target is AIR |
| Grid.NoMutualDisplacement | src/physics.js:343 | two non-empty records never displace each other both ways |
| Grid.WaterBlockedByElectricity | src/physics.js:335-344 | WATER cannot displace ELECTRICITY, although ELECTRICITY declares the smaller density |
| Grid.RisingGasDisplacesOnlyGas | src/physics.js:223-247 | STEAM and SMOKE can only displace gases |
| Movement.Dir | src/physics.js:181 | a direction draw is -1 or +1 |
| Movement.FirstFree | src/physics.js:175-188 | the first of several targets the record can displace: none before it can, and it can |
| Movement.Apply | src/physics.js:87-91 | carrying out a decision: a move puts the record at the target, and a stay or a vanish leaves it in place |
| Movement.First | src/physics.js:175-188 | trying targets in order: move into the first displaceable one, stay exactly when there is none |
| Movement.FirstOfTwo | src/physics.js:182-188 | over two targets, the decision is the source's pair of `canDisplace` tests |
| Movement.FirstMoves | src/physics.js:175-188 | the target chosen does not depend on the draw cursor |
| Movement.PowderChoice | src/physics.js:171-189 | the powder decision only moves into a displaceable cell and never vanishes |
| Movement.PowderStep | src/physics.js:171-189 | `updatePowder` keeps the grid's shape and tracks the processed record |
| Movement.LiquidChoice | src/physics.js:191-221 | the liquid decision only moves into a displaceable cell and never vanishes |
| Movement.LiquidStep | src/physics.js:191-221 | `updateLiquid` keeps the grid's shape and tracks the processed record |
| Movement.GasChoice | src/physics.js:223-253 | the corrected gas decision only moves into a displaceable cell |
| Movement.GasStep | src/physics.js:223-253 | corrected `updateGas` keeps the grid's shape and tracks the processed record |
| Movement.GasChoiceAsWritten | src/physics.js:223-253 | `updateGas` as written: whenever it does not fail, it only moves into a displaceable cell |
| Movement.ApplyCensus | src/physics.js:87-91 | carrying out a decision keeps the flag count; staying or moving also keeps the multiset of records |
| Movement.MovesConserve | src/physics.js:171-221 | powder and liquid steps conserve matter: the same multiset of records and the same flag count |
| Movement.ApplyIsOneSwap | src/physics.js:171-253 | a move is exactly one `swap`, a stay changes nothing, and a vanish is `setPixel(x, y, AIR)` |
| Movement.Sideways | src/physics.js:182-188 | over the two cells beside column x, in the drawn order: stay exactly when neither is displaceable, otherwise move one column aside in that row |
| Movement.PowderRule | src/physics.js:171-189 | powder moves only one row down and at most one column aside, never from the bottom row, falls straight down (without a draw) whenever it can, and stays exactly when all three cells below are blocked |
| Movement.LiquidRule | src/physics.js:191-221 | liquid falls like powder and never leaves the bottom row. It moves sideways only when all three cells below are blocked and the flow roll is under WATER_FLOW_SPEED, and it stays exactly when it can go neither down nor sideways |
| Movement.GasRule | src/physics.js:223-253 | on the top row gas vanishes with a draw under 0.1 or stays. Below it, gas rises straight up when it can, otherwise into a free diagonal. When all three cells above are blocked it vanishes exactly when older than 3 s and the next draw is under 0.05 |
| Movement.GasAsWrittenFailsWhenBlocked | src/physics.js:249-252 | the as-written rule raises a ReferenceError exactly when the gas is below the top row and all three cells above are blocked; otherwise it decides as the corrected rule |
| Movement.SteamUnderStoneRaises | src/physics.js:250 | a concrete grid (steam under stone, one column wide) on which the as-written rule fails and the corrected rule stays |
| Chemistry.ExplodedTrans | src/physics.js:346-364 | the explosion relation composes: two partial scans of one blast make one |
| Chemistry.BlastCell | src/physics.js:349-360 | one cell of the blast scan changes no flag |
| Chemistry.BlastRow | src/physics.js:348-362 | one row of the blast scan changes no flag |
| Chemistry.BlastRows | src/physics.js:347-363 | the rows of the blast scan change no flag |
| Chemistry.Explosion | src/physics.js:346-364 | `createExplosion` changes no flag |
| Chemistry.BlastCellSpec | src/physics.js:349-360 | one cell of the scan obeys the explosion relation |
| Chemistry.BlastRowSpec | src/physics.js:348-362 | one row of the scan obeys the explosion relation |
| Chemistry.BlastRowsSpec | src/physics.js:347-363 | the rows of the scan obey the explosion relation |
| Chemistry.ExplosionSpec | src/physics.js:346-364 | an explosion changes only non-empty cells within the radius. Each becomes FIRE inside half the radius and SMOKE outside it, keeping the rest of its record |
| Chemistry.Kindle | src/physics.js:274-282 | the ignition test changes only the neighbour and takes at most one draw; the neighbour is unchanged or was flammable, not burning, and now has a fresh burning record |
| Chemistry.Quench | src/physics.js:284-289 | water ends the fire rule: the fire becomes STEAM, the water STEAM or AIR, one draw |
| Chemistry.SpreadFire | src/physics.js:270-296 | the neighbour loop of `updateFire` changes no flag |
| Chemistry.FireStep | src/physics.js:255-304 | `updateFire` keeps the grid's shape and tracks the processed record |
| Chemistry.Current | src/physics.js:321-332 | one neighbour of `updateElectricity` changes no flag |
| Chemistry.Conduct | src/physics.js:321-332 | the neighbour loop of `updateElectricity` changes no flag |
| Chemistry.ElectricityStep | src/physics.js:306-333 | `updateElectricity` keeps the grid's shape, tracks the processed record and changes no flag |
| Chemistry.Burn | src/physics.js:144-155 | the burning branch changes no flag |
| Chemistry.Age | src/physics.js:130 | advancing the lifetime changes no flag |
| Chemistry.Move | src/physics.js:157-168 | the movement rule chosen by phase keeps the shape and tracks the record |
| Chemistry.PixelStep | src/physics.js:125-169 | `updatePixel` keeps the grid's shape and tracks the processed record |
| Chemistry.FireCensus | src/physics.js:255-304 | a fire step keeps the number of flagged records |
| Chemistry.StepCensus | src/physics.js:125-169 | one `updatePixel` call keeps the number of flagged records |
| Chemistry.SpreadKeepsFire | src/physics.js:270-296 | during the neighbour loop the fire cell stays FIRE, unless the loop ended after turning it to STEAM |
| Chemistry.NeighborDist | src/physics.js:265-268 | every neighbour is at distance 1 |
| Chemistry.BlastBesideFire | src/physics.js:291-294 | an explosion of radius 8 next to a fire leaves the fire cell FIRE |
| Chemistry.FireLifetime | src/physics.js:258-262 | a fire past FIRE_LIFETIME becomes SMOKE (draw under 0.5) or AIR in place, and nothing else changes; a younger fire stays FIRE or becomes STEAM |
| Chemistry.SpreadIntoWater | src/physics.js:270-289 | the neighbour loop reaches its first water neighbour with the grid of the earlier ignitions, and quenches there |
| Chemistry.FireMeetsWater | src/physics.js:284-289 | when the first water-or-explosive neighbour is WATER, the fire becomes STEAM in place and the water STEAM or AIR |
| Chemistry.SpreadQuietly | src/physics.js:270-296 | without water or explosive neighbours, the loop only ignites flammable, not burning neighbours |
| Chemistry.FireSpreadsAndRises | src/physics.js:264-303 | without water or explosive neighbours, a live fire ignites such neighbours, then stays or swaps into the empty cell directly above |
| Chemistry.ConductedWiden | src/physics.js:321-332 | the conduction relation from a later neighbour also holds from an earlier one |
| Chemistry.ConductedTrans | src/physics.js:321-332 | the conduction relation composes over successive neighbours |
| Chemistry.ConductFirst | src/physics.js:325-330 | a neighbour's write of ELECTRICITY into an empty cell it feeds obeys the conduction relation |
| Chemistry.ConductSpec | src/physics.js:321-332 | the conduction loop only writes ELECTRICITY into empty cells directly above or below a conductive, non-electric neighbour |
| Chemistry.ElectricityRule | src/physics.js:306-333 | electricity older than 0.2 s becomes AIR in place, and nothing else changes; younger electricity only conducts as above |
| Chemistry.BurnRule | src/physics.js:144-155 | the burn time drops by dt. At or below 0 the cell becomes FIRE in place, keeping its spent record, and processing ends. Otherwise the only other change is FIRE in the empty cell directly above |
| Chemistry.SpentSmokeReignites | src/physics.js:79-85 | smoke that carries a spent burning record becomes FIRE again on its next step |
| Chemistry.SolidsStay | src/physics.js:125-169 | a solid that is not burning never moves and takes no draw; only its lifetime advances |
| Scheduler.Visit | src/physics.js:115-121 | one iteration of the scan keeps the shape and calls `updatePixel` at most once |
| Scheduler.VisitCensus | src/physics.js:117-120 | a visit flags one more record exactly when it calls `updatePixel` |
| Scheduler.Visits | src/physics.js:115-121 | a scan over n positions keeps the shape and makes at most n calls |
| Scheduler.ScanRows | src/physics.js:109-122 | the row-by-row scan keeps the shape |
| Scheduler.ClearFlags | src/physics.js:101-106 | the first loop of `update` clears every record's flag and changes nothing else |
| Scheduler.Frame | src/physics.js:98-123 | `update` keeps the grid's shape |
| Scheduler.NoFlags | src/physics.js:101-106 | a grid without flagged records has flag count 0 |
| Scheduler.VisitsCensus | src/physics.js:115-121 | a scan flags exactly one more record per `updatePixel` call |
| Scheduler.FrameCensus | src/physics.js:98-123 | after a frame the number of flagged records equals the number of `updatePixel` calls, so no record is updated twice and there are at most width × height calls |
| Scheduler.OrderShape | src/physics.js:109-115 | the scan order has one entry per cell, and every cell occurs in it |
| Scheduler.OrderVisitsOnce | src/physics.js:109-115 | the scan order visits no cell twice and goes through the rows from the bottom up |
| Scheduler.OrderDirection | src/physics.js:111-115 | within a row the scan moves one column at a time: rightwards on even frames, leftwards on odd ones |
| Scheduler.OrderWithin | src/physics.js:109-115 | every position of the scan order is a cell of the grid |
| Scheduler.VisitsAppend | src/physics.js:109-122 | scanning a + b is scanning a, then b from where a left off |
| Scheduler.ScannedStep | src/physics.js:109-122 | after row y - 1 is scanned, the rest of the scan is rows y - 2 .. 0 from the grid and draw it left |
| Scheduler.ScanRowsIsVisits | src/physics.js:109-122 | the row-by-row scan visits exactly the positions of the scan order, in that order |
| Scheduler.VisitSkips | src/physics.js:117 | a flagged or empty cell is skipped: nothing changes and no draw is taken |
| Scheduler.VisitFlagsOne | src/physics.js:117-120 | a visited cell runs `updatePixel` once and flags one more record |
| Physics.PhysicsWorld.constructor | src/physics.js:3-19 | a width × height grid of fresh AIR records at frame 0 |
| Physics.PhysicsWorld.GetPixel | src/physics.js:72-77 | null exactly outside the grid, the record at (x, y) inside |
| Physics.PhysicsWorld.IsEmpty | src/physics.js:93-96 | (x, y) is a cell of the grid holding AIR |
| Physics.PhysicsWorld.CanDisplace | src/physics.js:335-344 | both cells exist, the target is not solid, and it is AIR or strictly lighter |
| Physics.PhysicsWorld.SetPixel | src/physics.js:79-85 | outside the grid nothing happens; inside, only that record's type and lifetime change |
| Physics.PhysicsWorld.Swap | src/physics.js:87-91 | the two records trade places and nothing else changes |
| Physics.PhysicsWorld.SpawnParticle | src/physics.js:366-373 | the material is written into the cell under the floored point exactly when that cell is empty |
| Physics.PhysicsWorld.TryPair | src/physics.js:182-188 | the pair of displacement tests, as `Movement.First` decides over two targets |
| Physics.PhysicsWorld.UpdatePowder | src/physics.js:171-189 | the grid and draws end as `PowderStep` says, and the record's new position is returned |
| Physics.PhysicsWorld.UpdateLiquid | src/physics.js:191-221 | the grid and draws end as `LiquidStep` says, and the record's new position is returned |
| Physics.PhysicsWorld.Dissipate | src/physics.js:224-229 | one draw; under the chance the cell becomes AIR, otherwise nothing changes |
| Physics.PhysicsWorld.UpdateGas | src/physics.js:223-253 | the grid and draws end as the corrected `GasStep` says |
| Physics.PhysicsWorld.BlastAt | src/physics.js:349-360 | one cell of the blast, as `BlastCell` says |
| Physics.PhysicsWorld.BlastRowAt | src/physics.js:348-362 | one row of the blast, as `BlastRow` says |
| Physics.PhysicsWorld.CreateExplosion | src/physics.js:346-364 | the grid and draws end as `Explosion` says |
| Physics.PhysicsWorld.KindleAt | src/physics.js:274-282 | the ignition test, as `Kindle` says |
| Physics.PhysicsWorld.SpreadFireAt | src/physics.js:264-296 | the neighbour loop and whether it returned early, as `SpreadFire` says |
| Physics.PhysicsWorld.UpdateFire | src/physics.js:255-304 | the grid and draws end as `FireStep` says |
| Physics.PhysicsWorld.CurrentAt | src/physics.js:321-332 | one neighbour of the conduction loop, as `Current` says |
| Physics.PhysicsWorld.UpdateElectricity | src/physics.js:306-333 | the grid and draws end as `ElectricityStep` says |
| Physics.PhysicsWorld.BurnAt | src/physics.js:144-155 | the burning branch, as `Burn` says |
| Physics.PhysicsWorld.MoveAt | src/physics.js:157-168 | the movement rule of the material's phase, as `Move` says |
| Physics.PhysicsWorld.UpdatePixel | src/physics.js:125-169 | the grid and draws end as `PixelStep` says |
| Physics.PhysicsWorld.ClearAll | src/physics.js:101-106 | every flag is cleared, as `ClearFlags` says |
| Physics.PhysicsWorld.VisitAt | src/physics.js:115-121 | one iteration of the scan, as `Visit` says |
| Physics.PhysicsWorld.ScanRow | src/physics.js:111-121 | one row of the scan in the frame's direction, as `Visits` over that row says |
| Physics.PhysicsWorld.ScanNextRow | src/physics.js:109-122 | one turn of the row loop leaves the remaining rows to scan |
| Physics.PhysicsWorld.Scan | src/physics.js:109-122 | the scan loop ends with the grid and draws `ScanRows` computes over all rows |
| Physics.PhysicsWorld.Update | src/physics.js:98-123 | the frame counter advances by one, and the grid and draws end as `Frame` says |
| Spells.NewSpell | src/spells.js:3-35 | `new Spell`: name, type, piercing and explosive are copied, every `\|\|` number is non-zero, and a material is kept unless it is AIR (falsy 0) |
| Spells.SpellDefaults | src/spells.js:7-31 | the fallbacks of `new Spell`: mana cost 10, speed 200, lifetime 2, size 2, radius 10, multipliers 1 |
| Spells.MagicArrowStats | src/spells.js:39-47 | MAGIC_ARROW is a projectile with cost 5, damage 15, speed 300, lifetime 1.5, size 2, no material, neither explosive nor piercing |
| Spells.FoldDamage | src/spells.js:195-206 | the modifier loop multiplies the damage by the product of the damage multipliers |
| Spells.FoldSize | src/spells.js:195-206 | the modifier loop multiplies the size by the product of the size multipliers |
| Spells.FoldVx | src/spells.js:195-206 | the modifier loop multiplies vx by the product of the speed multipliers |
| Spells.FoldVy | src/spells.js:195-206 | the modifier loop multiplies vy by the product of the speed multipliers |
| Spells.FoldBonuses | src/spells.js:195-206 | the modifier loop adds the sums of the bounce and homing bonuses |
| Spells.FoldExplosive | src/spells.js:195-206 | the projectile is explosive exactly when the spell or some modifier is |
| Spells.FoldRadius | src/spells.js:195-206 | the explosion radius is that of the last explosive modifier, or the spell's own when there is none |
| Spells.CollisionOutcomes | src/spells.js:251-278 | one sub-step's collision: an empty or missing pixel changes nothing. An explosive projectile leaves the explosion's grid and dies. Any other places its material (if any), and a piercing one never dies. A bounce adds one to the count, the sub-steps stop exactly when it dies, and the bounce count never passes the bounces |
| Spells.Flies | src/spells.js:247-279 | the sub-steps end early only at a collision that stops the projectile |
| Spells.FliesKeepsBound | src/spells.js:247-279 | no number of sub-steps breaks the bounce bound, and the flight stops early exactly when the projectile dies |
| Spells.PixelOf | src/spells.js:253-254 | `Math.floor(v / PIXEL_SIZE)` is the pixel whose span holds v |
| Spells.AdvanceIsLinear | src/spells.js:247-249 | i sub-steps move a coordinate by i times the step |
| Spells.StepPath | src/spells.js:243-255 | the pixels entered: one per sub-step |
| Spells.HitsIsDistance | src/spells.js:292-297 | `hits` holds exactly when the distance between the centres is below the sum of the sizes |
| Spells.Projectile.constructor | src/spells.js:173-207 | a live projectile at age 0 with the spell's properties, then the modifier loop applied in order |
| Spells.Projectile.ApplyModifiers | src/spells.js:195-206 | the loop over the modifiers ends as the fold over them |
| Spells.Projectile.ApplyModifier | src/spells.js:196-205 | one turn of the modifier loop, as `Modify` says |
| Spells.Collision | src/spells.js:251-278 | one sub-step's pixel: passed through when empty or missing; otherwise an explosive projectile explodes and dies, any other places its material, then pierces on, bounces (velocity × -0.8) while bounces remain, or dies (its outcomes are proved in `CollisionOutcomes`) |
| Spells.Projectile.Collide | src/spells.js:251-278 | one collision test, as `Collision` says |
| Spells.Projectile.Update | src/spells.js:209-280 | the age grows by dt. Past the lifetime the projectile dies and nothing else changes. Otherwise it makes three sub-steps of a third of the velocity × dt each, colliding after each, and stops at the first collision that ends it |
| Spells.Projectile.Fly | src/spells.js:243-279 | the sub-step loop ends as `Flies` says |
| Spells.Projectile.StepFrom | src/spells.js:247-279 | one turn of the sub-step loop keeps the loop's invariant |
| Spells.Projectile.SubStep | src/spells.js:248-278 | one sub-step: move by the step, then collide with the pixel entered |
| Spells.Projectile.HitsEntity | src/spells.js:292-297 | a hit needs a positive sum of sizes |
| Wands.Choose | src/wands.js:50-58 | the selection loop keeps the spell index inside the list |
| Wands.RoundRobin | src/wands.js:50-58 | without shuffle, the i-th chosen spell is spells[(index + i) mod n], and the index ends at (index + count) mod n |
| Wands.Shuffled | src/wands.js:51-53 | with shuffle, the i-th chosen spell is the one at the i-th draw's scaled index, and the index is unchanged |
| Wands.OfKindKeeps | src/wands.js:61-71 | the partition keeps exactly the spells of the type, and no more spells than there were |
| Wands.CostAppend | src/wands.js:64-71 | the cost of alwaysCast followed by the chosen spells is the sum of the two costs |
| Wands.CostNonNegative | src/wands.js:64-71 | with no negative mana cost, a cast costs at least nothing |
| Wands.VolleyShape | src/wands.js:86-108 | one shot per projectile spell, each with its speed and all the modifiers, or a single MAGIC_ARROW when there is none; every spread stays within half the wand's spread |
| Wands.Wand.constructor | src/wands.js:4-21 | every setting falls back when absent or falsy; mana starts full; the timers and the index start at 0 |
| Wands.Wand.Update | src/wands.js:23-36 | mana below the maximum recharges by manaRecharge × dt, capped at the maximum; each running timer counts down by dt |
| Wands.Wand.CanCast | src/wands.js:38-40 | both timers have run out and the wand holds a spell |
| Wands.Wand.Cast | src/wands.js:42-119 | a wand that cannot cast does nothing. Otherwise the selection always runs, and an unaffordable cast changes nothing more. A paid cast takes exactly its cost (leaving mana ≥ 0), yields the volley of its projectile spells with its modifiers, restarts the cast delay, and restarts the recharge exactly when an unshuffled wand's index is back at 0 |
| Wands.Wand.SelectSpells | src/wands.js:49-58 | the selection loop chooses what `Choose` says and leaves the index where it says |
| Wands.Wand.SelectOne | src/wands.js:51-57 | one turn of the selection loop keeps its invariant |
| Wands.Wand.Discharge | src/wands.js:60-119 | on a given cast list: an unaffordable cast changes nothing; a paid one takes exactly the summed cost, yields the volley of its projectile spells shaped by its modifiers (one draw per projectile), sets the cast delay and, at the end of an unshuffled deck, the recharge time |
| Wands.Volley | src/wands.js:86-108 | one shot per projectile spell, each carrying the modifiers and turned by (draw − 0.5) × spread, or a single MAGIC_ARROW at speed 200 when there is none (its shape is proved in `VolleyShape`) |
| Wands.Wand.Partition | src/wands.js:60-71 | the partition loop yields exactly the projectile spells and the modifier spells of the cast list, in order, and the summed mana cost of the whole list |
| Wands.Wand.Aim | src/wands.js:86-108 | the projectile loop yields the volley and takes one draw per projectile spell |
| Wands.Wand.Clone | src/wands.js:121-134 | a fresh wand with the same settings and lists, full mana and reset timers |
| Wands.GenerateRandomWand | src/wands.js:202-206 | one draw picks a template, and the result is a fresh wand with every setting of that template after its fallback, full mana, no timers running and the index at 0 |
| Wands.TemplatesCast | src/wands.js:138-200 | every template casts one spell at a time from a non-empty list, and only ELEMENTAL shuffles |
| Perks.RemoveOne | src/perks.js:117-118 | `splice(i, 1)` removes exactly one occurrence of the i-th perk and nothing else |
| Perks.Pick | src/perks.js:110-122 | the selection takes min(count, number available) perks, none for count ≤ 0 |
| Perks.PickPart | src/perks.js:110-122 | the perks selected are a sub-multiset of those available: none is offered more often than it is listed |
| Perks.PickStep | src/perks.js:115-119 | one turn: the perk at the drawn index, then the selection from the rest |
| Perks.SubMembers | src/perks.js:110-122 | every perk of a sub-multiset is in the larger list |
| Perks.SubDistinct | src/perks.js:110-122 | a sub-multiset of a list without repetitions has none either |
| Perks.PerksDistinct | src/perks.js:11-108 | there are twelve perks, all different |
| Perks.RandomPerksSpec | src/perks.js:110-122 | `getRandomPerks(count)` offers min(count, 12) perks (none for count ≤ 0), each a perk of PERKS, none twice |
| Perks.GetRandomPerks | src/perks.js:110-122 | the perks offered (three when no count is given) and the draws taken are those of `Pick` over all perks |
| Perks.Select | src/perks.js:111-121 | the splice loop selects what `Pick` says, one draw per perk |
| Perks.SpliceOne | src/perks.js:115-119 | one turn of the loop: one draw, one perk moved from available to selected |
| Perks.ExtraHpRaisesBoth | src/perks.js:15-18 | EXTRA_HP raises both the maximum and the current health by 50 and changes nothing else |
| Perks.GreedCompounds | src/perks.js:40-42 | n GREED perks multiply the gold multiplier by 2^n and change nothing else |
| Perks.ExtraLivesAdd | src/perks.js:96-98 | n EXTRA_LIFE perks add n lives and change nothing else |
| Perks.FlagPerksIdempotent | src/perks.js:11-108 | a perk that sets a flag changes nothing when taken again, whereas EXTRA_HP and EXTRA_LIFE always change the player |
| Biomes.NewBiome | src/biomes.js:3-11 | `new Biome`: the fields are copied, and an absent or 0 spawn rate becomes 1.0 |
| Biomes.Search | src/biomes.js:64-70 | the downward search lands on an index below the start, or on 0 |
| Biomes.SearchFindsLast | src/biomes.js:64-70 | the search finds the greatest index whose threshold the depth reaches, or 0 when none is reached |
| Biomes.BandIndex | src/biomes.js:73-80 | the biome index is within the list |
| Biomes.GetCurrentBiome | src/biomes.js:73-80 | `getCurrentBiome` always answers one of the five biomes |
| Biomes.GetBiome | src/biomes.js:60-71 | `getBiome` always answers one of the five biomes |
| Biomes.BiomesAscend | src/biomes.js:13-53 | the thresholds are 0, 200, 400, 600 and 800, strictly ascending |
| Biomes.CurrentBiomeIsDeepestReached | src/biomes.js:73-80 | for depth ≥ 0 the biome is the one with the greatest threshold at or below the depth; below 0 it is COAL_MINES |
| Biomes.BandMonotone | src/biomes.js:73-80 | a greater depth never gives an earlier biome |
| Biomes.SurfaceIsCoalMines | src/biomes.js:60-71 | `getBiome(x, 0)` is COAL_MINES |
| Biomes.BiomeIgnoresColumn | src/biomes.js:60-71 | `getBiome(x, y)` ignores x and equals `getCurrentBiome(y × PIXEL_SIZE)` |
| Biomes.SpawnRates | src/biomes.js:13-53 | every spawn rate is positive; COAL_MINES has 0.8 and DEEP_VOID 2.0 |
| Character.DamageOutcome | src/player.js:214-233 | a hit that lands restarts the i-frames and leaves the maximum alone. A survivable hit only lowers hp. A fatal one is absorbed first by saving grace, then by an extra life (half of max hp). The player dies exactly when neither saves them |
| Character.IframesAbsorb | src/player.js:215 | during i-frames every hit is ignored, so a second hit right after a landed one changes nothing |
| Character.DamageKeepsCap | src/player.js:214-233 | a non-negative hit never lifts hp above the maximum |
| Character.HealCaps | src/player.js:235-238 | healing never exceeds the maximum, adds the full amount when it fits, and never lowers hp |
| Character.GoldGainSpec | src/player.js:240-244 | the gain is the scaled amount rounded down; with n GREED perks it is exactly 2^n × a whole amount |
| Character.RegenCaps | src/player.js:113-115 | mana regeneration stops at the maximum and never lowers mana below min(mana, maximum) |
| Character.NextWandSpec | src/player.js:210-212 | switching forward or back stays a wand index, wraps at either end, and one step forward then back (or back then forward) returns to the start |
| Character.NextWandStep | src/player.js:210-212 | `(index + direction + count) % count` is the next or previous index with wrap-around |
| Character.SetEffectDurations | src/player.js:185-187 | after `set(name, d)` the name maps to d, and every other key keeps its duration |
| Character.SetEffectOrder | src/player.js:185-187 | `set` of a new key appends it, and of a present key keeps every key in its place |
| Character.SetEffectKeyed | src/player.js:185-187 | `set` keeps the keys unique |
| Character.DeleteEffectDurations | src/player.js:189-191 | after `delete(name)` the name is gone, and every other key keeps its duration |
| Character.DeleteEffectKeyed | src/player.js:189-191 | `delete` keeps the keys unique |
| Character.DeleteAbsent | src/player.js:189-191 | deleting an absent key changes nothing |
| Character.DeleteAppend | src/player.js:189-191 | deletion distributes over concatenation |
| Character.DurationOfAppend | src/player.js:185-191 | in a + b the first entry for a key decides its duration |
| Character.DurationOfSnoc | src/player.js:185-187 | appending an entry adds its key only when the key is new |
| Character.KeyedApart | src/player.js:185-191 | the two halves of a keyed list are keyed and share no key |
| Character.KeyedSnoc | src/player.js:185-187 | appending keeps the keys unique exactly when the new key is absent |
| Character.Tick | src/player.js:163-177 | the duration loop over the effects in insertion order: each loses dt and is deleted when that leaves nothing, and burning (unless fire-immune) and poison each deal their damage (`TickDecays`, `TickKeyed`, `TickHitsOnce`) |
| Character.TickEntries | src/player.js:163-177 | the duration loop takes dt off every effect and deletes those that run out; no effect appears and the keys stay unique |
| Character.TickSnoc | src/player.js:164-177 | the tick of a longer Map is the tick of its front, then one step on the last entry |
| Character.TickDecays | src/player.js:164-177 | after the tick each key maps to its old duration less dt, or to nothing when that leaves nothing |
| Character.TickKeyed | src/player.js:164-177 | the tick of a Map holds each key once |
| Character.TickUnderIframes | src/player.js:163-177 | while the i-frame timer runs, no effect does damage |
| Character.TickHitsOnce | src/player.js:163-177 | at most one effect hurts per tick: the vitals are untouched or take one fire or one poison hit |
| Character.ImmuneUnharmed | src/player.js:168-172 | a fire-immune player who is not poisoned takes no damage from effects |
| Character.TickKeepsCap | src/player.js:163-177 | a tick keeps hp at or under the maximum, which it does not change |
| Character.TickNext | src/player.js:164-177 | the duration loop one entry further is one more step of the tick |
| Character.AgedKeyIsNew | src/player.js:164-177 | in the duration loop the current key occurs neither among the entries already aged nor among those after it |
| Character.DropMiddle | src/player.js:165-176 | overwriting the current entry and then deleting its key, which occurs nowhere else, leaves the entries before and after it |
| Character.DeleteMiddle | src/player.js:174-176 | deleting a key that occurs once removes just that entry |
| Character.WaterDouses | src/player.js:143-147 | standing in water leaves no burning effect, takes one draw, and keeps the player wet exactly when the draw exceeds 0.01 × dt |
| Character.ImmuneNeverBurns | src/player.js:136-141 | a fire-immune player never has a burning effect |
| Character.FireIgnites | src/player.js:137-141 | fire or lava gives a non-immune player 2 s of burning, less the dt of this tick |
| Character.ShockNeedsWater | src/player.js:155-160 | electricity hurts only a wet player, and then by exactly ELECTRICITY_DAMAGE; it leaves wetness alone |
| Character.StatusKeyed | src/player.js:133-161 | the environment check keeps the effect keys unique |
| Character.EnvironmentHits | src/player.js:133-161 | the environment leaves the vitals alone or deals one electric hit |
| Character.VelocitySpec | src/player.js:69-81 | down wins over up and right over left; each axis moves at full speed alone, and at 0.707 of it on a diagonal |
| Character.WalkLandsInAir | src/player.js:84-94 | after a step the player is where they were or in an empty cell, and they step whenever the target cell is empty |
| Character.AuraStrikes | src/player.js:96-107 | the aura needs the perk and movement, and otherwise takes no draw. It changes at most one cell: an empty one at the angle of the second draw, which becomes ELECTRICITY after a first draw under 0.3 |
| Character.StatusHitsOnce | src/player.js:129-183 | the status step hurts at most once: one electric, fire or poison hit, or none |
| Character.StatusKeepsCap | src/player.js:129-183 | the status step keeps hp within the unchanged maximum |
| Character.FrameHitsOnce | src/player.js:62-127 | a frame hurts at most once after the timer cools |
| Character.FrameKeepsCaps | src/player.js:62-127 | a frame keeps hp within its unchanged maximum and mana within its maximum |
| Character.Player.constructor | src/player.js:4-56 | full health and mana, starting gold, no kills, effects or perks, and one fresh clone of the starter wand |
| Character.Damage | src/player.js:214-233 | ignored during i-frames; otherwise hp drops and the timer restarts, a fatal hit becomes 1 HP through saving grace, and a hit still fatal costs an extra life for half the maximum (outcomes proved in `DamageOutcome`) |
| Character.Player.TakeDamage | src/player.js:214-233 | the vitals become those `Damage` describes |
| Character.Player.Heal | src/player.js:235-238 | hp becomes min(maxHp, hp + amount) |
| Character.Player.AddGold | src/player.js:240-244 | gold grows by the floored amount × multiplier |
| Character.Player.OnKill | src/player.js:246-251 | one more kill, and 5 hp back (capped) with vampirism |
| Character.Player.SwitchWand | src/player.js:210-212 | the index moves to the next or previous wand, wrapping around |
| Character.Player.AddStatusEffect | src/player.js:185-187 | the effect Map becomes `set(name, duration)` of the old one and stays keyed |
| Character.Player.RemoveStatusEffect | src/player.js:189-191 | the effect Map becomes `delete(name)` of the old one and stays keyed |
| Character.Player.Sense | src/player.js:133-161 | the environment check on the cell under the player |
| Character.Player.Age | src/player.js:163-177 | the duration loop over the Map in insertion order ends as `Tick` says |
| Character.Player.AgeEntry | src/player.js:164-177 | one turn of the duration loop keeps the loop's invariant |
| Character.Player.Shorten | src/player.js:165-176 | the map part of one turn: the entry is shortened in place and deleted when spent, as the loop's invariant requires |
| Character.AgingKeep | src/player.js:165-176 | an entry with time left keeps its place with dt less, and the vitals take its damage |
| Character.AgingDrop | src/player.js:165-176 | an entry whose time is up is deleted, which removes just that entry; the vitals take its damage |
| Character.AgingDone | src/player.js:164-177 | once every entry has been visited the loop has done what `Tick` says |
| Character.Player.Afflicted | src/player.js:167-172 | the damage of one effect as it ticks |
| Character.StatusStep | src/player.js:129-183 | the environment check, then the duration loop, then a wet player stays wet on a draw above 0.01 × dt (one draw, only when wet); proved in `StatusHitsOnce` and `StatusKeepsCap` |
| Character.Player.UpdateStatusEffects | src/player.js:129-183 | the condition and draws end as `StatusStep` on the cell under the player says |
| Character.Player.Update | src/player.js:62-127 | the player, the world and the draws end as `Frame` says (whose properties are `FrameHitsOnce` and `FrameKeepsCaps`), and the current wand recharges as `Wand.update` |
| Character.Player.Step | src/player.js:62-118 | the movement, aura, mana and status steps of `update`, as `Frame` says |
| Character.Player.Stride | src/player.js:63-107 | the timer cools, the velocity follows the keys, the walk lands as `Walk` says, and the aura strikes as `Aura` says |
| Character.Player.RechargeWand | src/player.js:110 | the current wand recharges as `Wand.update` |
| Character.Player.RegenerateMana | src/player.js:113-115 | mana regenerates as `Regen` says |
| Character.Walk | src/player.js:84-94 | the player moves to the new position only when its cell is empty (`WalkLandsInAir`) |
| Character.Player.Move | src/player.js:69-94 | the velocity from the keys, and a step that is taken only onto an empty cell |
| Character.Player.Steer | src/player.js:69-81 | the velocity from the keys held |
| Character.Aura | src/player.js:96-107 | with the perk and while moving, a draw below 0.3 strikes, a second picks the angle, and an empty cell 15 away becomes ELECTRICITY (`AuraStrikes`) |
| Character.Player.ElectricAura | src/player.js:96-107 | the world and draws end as `Aura` says |
| Character.Player.Cast | src/player.js:193-208 | nothing happens when the current wand cannot cast; otherwise that wand casts as `Wands.Wand.Cast` promises (the selection always runs; an unaffordable cast yields nothing and leaves mana and timers; a paid one takes exactly the cost and yields the volley of its projectile spells with its modifiers, one draw each, and sets the timers), and the player's mana and maximum become the wand's |
| Character.Player.AddPerk | src/player.js:253-256 | the perk's effect on the player's fields, and the perk appended to the list |
| Prototype.ElementCount | game.js:5-131 | the element table has 118 entries |
| Prototype.NextSeed | game.js:146 | the seed recurrence stays below 233280 |
| Prototype.SwapIndex | game.js:147 | the swap index never exceeds i |
| Prototype.SwapIndexExact | game.js:147 | the swap index is the integer quotient seed × (i + 1) / 233280 |
| Prototype.Swap | game.js:148 | the swap exchanges the two entries, keeps the rest, and keeps the multiset |
| Prototype.Shuffle | game.js:145-149 | the Fisher–Yates loop keeps the length and the multiset |
| Prototype.Identity | game.js:140-143 | the fill loop gives 0, 1, ..., n - 1 |
| Prototype.Permutation | game.js:139-150 | 256 entries, a rearrangement of 0..255 |
| Prototype.IdentityCount | game.js:140-143 | each of 0..n - 1 occurs once, nothing else occurs |
| Prototype.PermutationDistinct | game.js:139-150 | the permutation holds each of 0..255 exactly once |
| Prototype.PermutationTable | game.js:150 | the returned table has 512 entries in 0..255, with entry k + 256 equal to entry k |
| Prototype.GeneratePermutation | game.js:139-151 | the array loops end with the permutation followed by itself |
| Prototype.SwapStep | game.js:145-149 | one turn of the shuffle loop: the next seed, then one swap, leaving the rest of the shuffle |
| Prototype.ShuffleStep | game.js:145-149 | the shuffle from i is one step followed by the shuffle from i - 1 |
| Prototype.PerlinNoise.constructor | game.js:133-137 | the noise keeps its seed (0 when none is given) and its doubled permutation |
| Prototype.ElementIndex | game.js:219 | `Math.floor(Math.abs(height * 100) % 118)` is an index of the table, equal to the floor modulo 118 |
| Prototype.FloorMod | game.js:219 | JavaScript's `%` by 118 on a non-negative number, floored, is the floor modulo 118 |
| Prototype.Lookup | game.js:195-223 | a lookup caches its answer under the floored key and keeps every earlier entry. A key not yet cached is answered by the table entry of the height |
| Prototype.Memoized | game.js:196-199 | a second lookup with the same floored coordinates returns the cached element and leaves the cache alone, whatever the new height |
| Prototype.LookupFromTable | game.js:195-223 | a cache filled by lookups only holds elements of the table |
| Prototype.TerrainGenerator.constructor | game.js:187-192 | the generator keeps its seed (0 when none is given), a noise of that seed and an empty cache |
| Prototype.TerrainGenerator.GetTile | game.js:195-223 | the element and the new cache are those `Lookup` gives |
| Prototype.LeadingDigits | game.js:473 | the longest all-digit prefix, followed by a non-digit or the end |
| Prototype.DigitRuns | game.js:473 | `match(/\d+/g)` yields non-empty runs of digits |
| Prototype.NatText | game.js:478 | a number's decimal text is a non-empty run of digits |
| Prototype.ValueOfText | game.js:473-477 | a number's text reads back as the number |
| Prototype.RunsAfterNonDigits | game.js:473 | non-digit text adds no run |
| Prototype.RunsAfterDigits | game.js:473 | a run of digits before a non-digit is one run |
| Prototype.ChannelRuns | game.js:478 | a channel's text contributes its number, or no run for NaN |
| Prototype.SeparatedRuns | game.js:478 | a separator and a channel contribute the channel's run |
| Prototype.OpeningRuns | game.js:478 | the `rgb(` prefix adds no run of digits |
| Prototype.ClosingRuns | game.js:478 | the last channel with its separator and `)` contributes just that channel's run |
| Prototype.TailRuns | game.js:478 | the green and blue channels with their separators contribute their runs, in order |
| Prototype.RenderRuns | game.js:478 | the runs of a rebuilt colour are its numeric channels, in order |
| Prototype.RgbNumbers | game.js:473-478 | `rgb(r, g, b)` reads back as r, g, b |
| Prototype.RgbInjective | game.js:478 | different channels give different colour texts |
| Prototype.GroupOf | game.js:457-468 | a key of `glows` names a group of the table |
| Prototype.GroupOfName | game.js:457-468 | every group's name is a key of `glows` |
| Prototype.Glow | game.js:457-468 | every glow's channels are ≤ 255, and no glow is the grey fallback |
| Prototype.GroupGlow | game.js:456-470 | the group's glow as `rgb(r, g, b)`, or grey rgb(150, 150, 150) for a name that is not a group (`GlowFallback`) |
| Prototype.GlowFallback | game.js:456-470 | `getGroupGlow` answers grey exactly for a name that is not a group |
| Prototype.Scale | game.js:475-477 | scaling by a non-negative factor keeps a channel non-negative |
| Prototype.Channel | game.js:475-477 | a channel is a number exactly when the colour has that run; it is at most 255, and non-negative for a non-negative factor |
| Prototype.AdjustBrightness | game.js:472-479 | a colour without digits comes back unchanged |
| Prototype.RenderNumbers | game.js:478 | a rebuilt colour reads back as its numeric channels, in order; a NaN channel gives no number |
| Prototype.ListedChannels | game.js:475-477 | the numeric channels are the first three runs (as many as there are, up to three), scaled, floored and capped at 255 |
| Prototype.ChannelByOne | game.js:475-477 | factor 1 gives back a channel of at most 255 |
| Prototype.AdjustNumbers | game.js:472-479 | for factor ≥ 0, a colour with three or more numbers becomes one whose numbers are min(255, floor(n × factor)) of its first three |
| Prototype.AdjustByOne | game.js:472-479 | factor 1 leaves a colour of channels ≤ 255 as it is |
| Prototype.BorderColor | game.js:428-433 | the group's glow, brightened by 1.3 for a gas, dimmed by 0.8 for a liquid, unchanged for a solid (`BorderIsColour`) |
| Prototype.BorderIsColour | game.js:428-433 | every tile border is a colour of three channels ≤ 255, and a solid's border is exactly its group's glow |

## Left out

- Terrain generation (`generateTerrain`), the noise functions of src/noise.js and `PerlinNoise.noise` with its helpers `hash`, `smoothstep` and `lerp`: `GetTile` takes the noise height as a parameter, and the `PhysicsWorld` constructor starts from an all-AIR grid.
- Rendering, canvases, the DOM, input events and the game loop (src/game.js, the `Game` class of game.js, every `draw`): I/O.
- Enemies (src/enemies.js) and the `Shaman` and `Particle` classes of game.js are not part of this model.
- Floating text and the player's particle list (`showFloatingText`, the particle filter of `update`): presentation only.
- The trigonometry of aiming and of the electric aura. A wand shot carries its spread offset and speed rather than `cos`/`sin` velocities. `Player.Update` takes the aura's angle-to-offset map as a parameter `polar`.
- Spells.Projectile.Update: homing, which needs the enemy list, `Math.hypot` and a square root, is not modelled; the update is the one of a projectile that does not turn.
- Spells.Projectile.HitsEntity: the distance is compared by squares (`HitsIsDistance` relates the two), since Dafny has no square root.
- Fields that only presentation reads or that nothing reads are not carried: a material's `color` and `lightColor`, the player's `size`, `burning`, `electrified`, `poisoned`, `frozen`, mouse fields and `particles`, and the `elementCache` of `TerrainGenerator`. A pixel's `temperature`, a material's `corrosive` and `emitsLight`, and a spell's `castTime`, `triggerSpells` and `triggerDelay` are carried with their initial values but never acted on, as in the source.
- Floating-point rounding: all arithmetic is exact. `Number()` of an extremely long digit run, and JavaScript's non-numeric channel texts beyond NaN, are not modelled.
- Prototype.GroupOf: keys that every JavaScript object inherits (such as "toString") are not modelled in `getGroupGlow`; they would be truthy non-colours.
- Prototype.Lookup: the cache key is the pair of floored coordinates rather than their text "x,y"; the two determine each other.
- Character.Player.SwitchWand: requires a direction of -1 or +1, the only values its callers (src/game.js:62, 66) pass; for other directions JavaScript's `%` could be negative.
- Character.Player.Update: the wand recharge is performed after the mana regeneration and the status step rather than between the aura and them. It touches only the wand, so the end state is the same.
- Character.Player.Cast: the shots returned are the wand's; building `Projectile` objects from them at the player's position and aim (trigonometry) is left to `Spells.Projectile.constructor` and not modelled here.

## Findings

| source | as written | input that shows it | evidently intended | confidence | as-written member | corrected member |
|---|---|---|---|---|---|---|
| src/physics.js:250 | `updateGas` reads `pixel.lifetime`, but the method declares no `pixel`, so reaching that line raises a ReferenceError and the frame stops | a steam cell at (0, 1) of a one-column grid with stone at (0, 0): it cannot rise, and the diagonals are outside the grid | read the gas cell's own record, `this.pixels[y][x].lifetime` | high; not executed | Movement.GasChoiceAsWritten, Movement.SteamUnderStoneRaises, Movement.GasAsWrittenFailsWhenBlocked | Movement.GasChoice, Movement.GasStep, Movement.GasRule |
