# Arcade platformer: game rules, physics and effects

A Dafny model of the logic of a two-level arcade platformer (`main.py`):

- **Records** — the best-result store. `load_records` and `save_record`
  score a finished run (10 per coin, 50 per diamond, 100 per rescued
  creature) and keep, per level key `level_<n>`, the better of the stored
  result and the new one. A higher score wins; on equal scores the shorter
  time wins.
- **Pickups** — sprite lists of collectable items and the collision query
  against them. Items are distinct identifiers in list order. What the
  player overlaps this tick is a set of identifiers.
- **LevelOne** — the rules of `GameView.on_update`: coins count one point,
  a key overlap removes the first key sprite, and the door with the key
  wins and submits the result.
- **LevelTwo** — the rules of `GameView2.on_update`, in source order:
  - the spike cooldown countdown;
  - coins, diamonds and the key;
  - spike damage with one shared cooldown and a clamp at 0;
  - mouse and frog rescues;
  - one-shot bombs that halve hp with floor division;
  - the lose check and the win check, which are independent.

  The class `GameView2` is tied to the pure step function `Tick`. The
  invariants and properties are proved about `Tick`.
- **Physics** — `PhysicsObject.update_physics`:
  - gravity, then friction, then movement;
  - push-out against each overlapped wall in query order, with ties
    resolved on the vertical branch;
  - a clamp of both speeds to ±10.
- **Patrol** — `Enemy.update_ai`: the direction timer, the walking
  velocity, one physics step and the occasional hop. Random draws are
  parameters restricted to the source's ranges.
- **Particles** — `Particle.update_particle` ages, drags, pulls, moves and
  fades a particle. `ParticleSystem` runs a batch only when its 1/60 s
  accumulator is full, and `create_explosion` / `create_sparkle` append one
  new particle per random draw.
- **LevelGrid** — the map loops of both `setup` methods. Each character of
  `LEVEL_1` / `LEVEL_2` places sprites at the centre of its tile:
  `x = col*64 + 32`, `y = (rows - row)*64`. The player is placed 20 higher.

Where the source's comments and its code disagree, the model follows the
code:

- `update_physics` sets `on_ground` only on a vertical hit with the object's
  centre at or below the wall's centre. An object resting on top of a floor
  tile is therefore not on the ground; `Physics.RestingOnFloorIsNotGrounded`
  shows this.
- In level 2 the spike timer only runs down while it is positive and is not
  floored at zero.
- The game-over check (`hp <= 0`) and the door check are two separate `if`s,
  so both can fire in the same tick.

## Model

| member | source | states |
|---|---|---|
| `Records.LoadRecords` | main.py:392-403 | A missing or unreadable records file yields the empty mapping; a parsed file yields its mapping unchanged. |
| `Records.Score` | main.py:417-421 | The score is non-negative and equals coins*10 + diamonds*50 + 100 for a saved mouse + 100 for a saved frog. |
| `Records.Candidate` | main.py:437-444 | The stored entry carries the computed score and the run's coins, diamonds, rescue flags and time. |
| `Records.NatToString` | main.py:424 | The decimal string of a level number is non-empty, all digits, and one character long exactly for numbers below 10. |
| `Records.LevelKey` | main.py:424 | The key is `level_` followed by the level's decimal string. |
| `Records.NatToStringInjective` | main.py:424 | Different numbers have different decimal strings. |
| `Records.LevelKeyInjective` | main.py:424 | Two different levels never share a records key. |
| `Records.SaveRecord` | main.py:405-448 | A save is new exactly when there is no entry, or the score is higher, or the score is equal and the time shorter. A new save stores the candidate under the level's key only. Otherwise the old entry is returned and the mapping is unchanged. |
| `Records.SaveKeepsBest` | main.py:427-448 | After a save, the level's stored entry is the reported entry. It is the candidate or the old entry, and neither of them beats it. |
| `Records.SaveLeavesOtherLevels` | main.py:436-444 | A save leaves every other level's entry, and whether it exists, unchanged. |
| `Records.SaveIdempotent` | main.py:427-448 | Re-submitting the same result against the mapping the first save produced is not a new record and changes nothing. |
| `Records.Better` | main.py:427-433 | The ranking `save_record` applies: a higher score wins, and on equal scores a strictly shorter time wins; `Records.BetterIsStrictOrder` proves it a strict order. |
| `Records.BetterIsStrictOrder` | main.py:427-433 | The ranking (higher score, then shorter time) is irreflexive, asymmetric and transitive. |
| `Records.ComparatorExamples` | main.py:417-433 | Equal scores rank by time, a higher score beats a faster time, and two sample runs score 230 and 60. |
| `Pickups.Touched` | main.py:1179 | The collision query: the live items in the touched set, in list order, never more than the list holds; `Pickups.TouchedMembers` characterises it. |
| `Pickups.Untouched` | main.py:1179-1184 | The list after every touched item is removed, never longer than before; `Pickups.UntouchedMembers` and `Pickups.SplitCounts` characterise it. |
| `Pickups.TouchedMembers` | main.py:1179 | The collision query returns exactly the live items that the player overlaps. |
| `Pickups.TouchedNonEmpty` | main.py:1193 | The query is non-empty exactly when some live item is overlapped. |
| `Pickups.UntouchedMembers` | main.py:1179-1184 | After removal, exactly the live items that were not overlapped remain. |
| `Pickups.SplitCounts` | main.py:1179-1184 | The items collected plus the items left equal the list's length. |
| `Pickups.UntouchedDistinct` | main.py:1179-1184 | Removing items keeps a list's identifiers distinct. |
| `Pickups.UntouchedWhenNoneTouched` | main.py:1179-1184 | When nothing live is overlapped, the list is left unchanged. |
| `Pickups.RemoveTouched` | main.py:1179-1184 | The pickup loop leaves exactly the untouched items in order and counts exactly the touched ones. Both together account for the whole list. |
| `LevelOne.GameView.constructor` | main.py:787-789 | A level starts with score 0, no key, and every placed coin and key live. |
| `LevelOne.GameView.OnUpdate` | main.py:913-934 | Overlapped coins are removed and each adds one point. Any key overlap removes the first key sprite and gives the key. The result is submitted as level 1 with 0 diamonds and no rescues exactly when the player has the key and touches a door. Score plus live coins stays equal to the level's coin total. |
| `LevelTwo.CoolDown` | main.py:1131-1132 | A positive timer runs down by exactly `dt`; a timer at or below zero is left as it is, never floored. |
| `LevelTwo.SpikeRule` | main.py:1199-1206 | Only contact with an expired cooldown changes anything. It costs at most SPIKE_DAMAGE however many spikes are touched, clamps hp at 0 and restarts the cooldown at 1.0. |
| `LevelTwo.SpikeTick` | main.py:1131-1206 | Countdown then contact: hp never rises, falls by at most 10, and the timer never exceeds both its old value and 1.0. |
| `LevelTwo.HalveTimes` | main.py:1223-1228 | Each bomb's floor halving keeps hp in [0, hp], and at least one bomb halves it. |
| `LevelTwo.HalveTimesReachesZero` | main.py:1223-1228 | Seven or more bombs take any hp up to MAX_HP to 0. |
| `LevelTwo.CoolDownStep` | main.py:1131-1132 | The first rule of a tick: only the spike timer changes, by `CoolDown`. |
| `LevelTwo.CoinStep` | main.py:1179-1184 | Touched coins leave the coin list and each adds one to the coin counter; nothing else changes. |
| `LevelTwo.DiamondStep` | main.py:1187-1190 | Touched diamonds leave the diamond list and each adds one to the diamond counter; nothing else changes. |
| `LevelTwo.KeyStep` | main.py:1193-1196 | Any live key touched clears the key list and sets the key flag; otherwise nothing changes. |
| `LevelTwo.PickupStep` | main.py:1179-1196 | Coins, then diamonds, then the key, in source order. |
| `LevelTwo.SpikeStep` | main.py:1199-1206 | hp and the spike timer become `SpikeRule` of their values; nothing else changes. |
| `LevelTwo.RescueStep` | main.py:1209-1220 | Touched mice and frogs leave their lists, and each flag is set when a live creature of its kind was touched. |
| `LevelTwo.BombStep` | main.py:1223-1228 | hp is halved (floor) once per live bomb touched, and those bombs leave the list. |
| `LevelTwo.Tick` | main.py:1131-1228 | The rules of one tick in source order: cooldown, pickups, spikes, rescues, bombs. Its properties are the lemmas `TickPreservesValid`, `TickHealth`, `TickMonotone`, `BombsAreOneShot` and `RescueFlags`. |
| `LevelTwo.TickPreservesValid` | main.py:1128-1228 | A tick keeps hp in [0, 100] and the cooldown at most 1.0. Sprite lists stay distinct, collected plus live stays equal to each total, the key list is empty once the key is taken, and each rescue flag is set exactly when a creature of its kind is gone. |
| `LevelTwo.TickHealth` | main.py:1199-1228 | Within a tick hp never rises. Spikes cost at most 10, and only with contact and an expired cooldown. Any bomb at least halves what the spikes left. |
| `LevelTwo.TickMonotone` | main.py:1179-1220 | Coin and diamond counters grow by exactly the number of live items touched, which are removed. Key and rescue flags only go from false to true. The remaining coins, mice and frogs are exactly the untouched ones. |
| `LevelTwo.BombsAreOneShot` | main.py:1223-1228 | A bomb that went off is gone from the list, so it can never go off again. An untouched bomb stays. |
| `LevelTwo.RescueFlags` | main.py:1209-1220 | A rescue flag is set after a tick exactly when it was already set or a live creature of its kind was touched. |
| `LevelTwo.GameView2.constructor` | main.py:974-981 | The session starts at hp 100 with the cooldown expired, nothing collected or rescued, and every placed item live. |
| `LevelTwo.GameView2.OnUpdate` | main.py:1128-1252 | The new state is `Tick` of the old one, and the session invariant holds. Lost is reported exactly when hp <= 0. Won is reported exactly when the player has the key and touches a door, with the record submitted for level 2. Both can be reported in the same tick. |
| `LevelTwo.GameView2.CountDownCooldown` | main.py:1131-1132 | The countdown step, as `CoolDown`. |
| `LevelTwo.GameView2.CollectPickups` | main.py:1179-1196 | Coins, then diamonds, then the key, as `PickupStep`. |
| `LevelTwo.GameView2.CollectCoins` | main.py:1179-1184 | Touched coins leave the list and each adds one to the coin counter. |
| `LevelTwo.GameView2.CollectDiamonds` | main.py:1187-1190 | Touched diamonds leave the list and each adds one to the diamond counter. |
| `LevelTwo.GameView2.TakeKey` | main.py:1193-1196 | Any key overlap clears the key list and gives the key. |
| `LevelTwo.GameView2.ApplySpikes` | main.py:1199-1206 | The spike rule applied to the object's hp and timer. |
| `LevelTwo.GameView2.RescueCreatures` | main.py:1209-1220 | Both rescues, as `RescueStep`. |
| `LevelTwo.GameView2.RescueMouse` | main.py:1209-1213 | Touched mice are removed, and the mouse flag becomes set if any live mouse was touched. |
| `LevelTwo.GameView2.RescueFrog` | main.py:1216-1220 | Touched frogs are removed, and the frog flag becomes set if any live frog was touched. |
| `LevelTwo.GameView2.ExplodeBombs` | main.py:1223-1228 | Every touched bomb halves hp once (floor) and is removed. |
| `LevelTwo.CountdownThenHit` | main.py:1131-1206 | Under continuous contact, a cooldown of m/60 s lets the next hit land exactly m ticks later. |
| `LevelTwo.CountdownNoHit` | main.py:1131-1206 | While the cooldown has not run out, contact does no damage and the timer drops 1/60 per tick. |
| `LevelTwo.ThreeSecondsOfSpikes` | main.py:1199-1206 | 180 ticks of continuous contact from full health cost exactly 30 hp: one hit per second. |
| `Physics.Integrate` | main.py:242-256 | Gravity on `vy`, then friction on `vx`, then movement by the new velocity, with `on_ground` cleared. |
| `Physics.ResolveHit` | main.py:263-283 | One wall's push-out, branch for branch as the source; `Physics.SideHit`, `Physics.VerticalHit` and `Physics.TieGoesVertical` state its outcomes. |
| `Physics.ResolveAll` | main.py:261-283 | The walls resolved one after another in query order; `Physics.ResolveAllDamps` and `Physics.GroundedIffGroundingHit` state its outcome. |
| `Physics.Step` | main.py:237-288 | One `update_physics` call: integrate, resolve every hit, clamp both speeds; `Physics.StepBounds` states its bounds. |
| `Physics.Clamp` | main.py:286-288 | The clamped speed is in [-10, 10], equals the input inside that range and the nearer bound outside it, and is never larger in magnitude. |
| `Physics.SideHit` | main.py:266-273 | A side hit leaves the vertical state alone, puts the near edge on the wall's far edge, and reflects `vx` at half speed. |
| `Physics.VerticalHit` | main.py:276-283 | A vertical hit leaves the horizontal state alone. From above, the object is placed on the wall's top with `vy` zero. Otherwise it is placed under the wall's bottom with `vy` reflected at half speed and `on_ground` set. |
| `Physics.TieGoesVertical` | main.py:267 | Equal horizontal and vertical offsets are resolved on the vertical branch. |
| `Physics.ResolveAllDamps` | main.py:260-283 | Resolving any sequence of walls never increases either speed's magnitude. |
| `Physics.GroundedIffGroundingHit` | main.py:253-283 | After resolution the object is on the ground exactly when it was before, or some wall was a grounding hit when it was resolved. |
| `Physics.StepBounds` | main.py:237-288 | After `update_physics` both speeds are within 10 and no faster than gravity and friction alone would leave them. `on_ground` is set exactly after some grounding hit. |
| `Physics.RestingOnFloorIsNotGrounded` | main.py:276-283 | An object resting on top of a floor tile is stopped but not marked on the ground. |
| `Physics.PhysicsObject.constructor` | main.py:225-235 | A new object is at rest and not on the ground. |
| `Physics.PhysicsObject.UpdatePhysics` | main.py:237-288 | The new state is `Step` of the old one, and both speeds are within 10. |
| `Physics.PhysicsObject.ResolveWall` | main.py:262-283 | One wall's push-out, as `ResolveHit`. |
| `Patrol.AdvancePatrol` | main.py:310-316 | The timer part of `update_ai`: accumulate, and on reaching the interval flip the direction, reset the timer and take the drawn interval; `Patrol.AdvanceKeepsPatrol` states its outcome. |
| `Patrol.AiBody` | main.py:319-326 | The body part of `update_ai`: set the walking velocity, take one physics step, and hop from the ground on a roll below 0.01; `Patrol.AiBodyHop` states its outcome. |
| `Patrol.AdvanceKeepsPatrol` | main.py:310-316 | After a tick the direction is ±1, the interval is in [1, 3) and the timer is below it. The direction flips at most once, and exactly when the timer reaches the interval. Without a flip the timer just accumulates. |
| `Patrol.PatrolRunValid` | main.py:310-316 | Any number of ticks keeps the patrol state valid. |
| `Patrol.PatrolRunWithoutFlip` | main.py:310-316 | While the direction has not flipped, the timer is the start value plus the time walked. |
| `Patrol.FlipsWithinMaxInterval` | main.py:310-316 | Ticks adding up to 3 s or more always contain a direction flip. |
| `Patrol.WalkedBeforeFlip` | main.py:310-316 | Without a flip, the timer plus the time walked stays below 3 s. |
| `Patrol.ElapsedIsProduct` | main.py:310 | n ticks of length dt add up to n*dt. |
| `Patrol.AiBodyHop` | main.py:319-326 | A hop changes only `vy`, happens only from the ground on a roll below 0.01, and leaves both speeds within 10. |
| `Patrol.WalksFreely` | main.py:319-322 | With no wall in the way, the enemy moves at its walking velocity times friction and is not on the ground. |
| `Patrol.Enemy.constructor` | main.py:298-303 | A new enemy walks right, with timer 0 and an interval drawn from [1, 3). |
| `Patrol.Enemy.UpdateAi` | main.py:305-326 | The patrol state advances as `AdvancePatrol` and stays valid. The body takes one physics step at the new walking velocity, then hops as `AiBody`, and both speeds stay within 10. |
| `Particles.AlphaAt` | main.py:168-169 | The fade `int(255 * (1 - age / lifetime))`; `Particles.AlphaInRange` and `Particles.AlphaFades` state its range and monotonicity. |
| `Particles.Advance` | main.py:149-169 | One `update_particle`: age, and if still short of the lifetime drag, pull, move at 60 frames per second and fade; `Particles.AdvanceLive` states its outcome. |
| `Particles.AdvanceAll` | main.py:204-208 | One batch over the list, each particle advanced once in list order and the expired ones dropped; `Particles.AdvanceAllLive` states its outcome. |
| `Particles.Born` | main.py:122-142 | A new particle's state: at the burst position, with the drawn velocity, size and lifetime, age 0 and full alpha. |
| `Particles.UpdateModel` | main.py:200-209 | One `ParticleSystem.update`: below one interval only the accumulator grows; otherwise a batch with the accumulated time and a reset to 0. |
| `Particles.Trunc` | main.py:168 | Python's `int()` on a float truncates toward zero. |
| `Particles.AlphaInRange` | main.py:168-169 | While a particle lives, its fade value is in [0, 255]. |
| `Particles.AlphaFades` | main.py:168-169 | An older particle is never more opaque. |
| `Particles.AdvanceLive` | main.py:149-169 | One update ages the particle by `dt`. It is removed exactly when age + dt reaches its lifetime, and otherwise stays live. |
| `Particles.AdvanceAllLive` | main.py:204-208 | A batch never adds particles, keeps the rest live, and takes `dt` off each remaining life. |
| `Particles.AllExpire` | main.py:149-155 | Once batches add up to the longest remaining life, the list is empty. |
| `Particles.ExplosionClears` | main.py:180-188 | Batches totalling 1.5 s or more remove every explosion particle. |
| `Particles.BornAll` | main.py:180-198 | One newborn state per draw, in draw order, at the burst's position. |
| `Particles.Particle.constructor` | main.py:122-142 | A new particle is at the given position with the drawn velocity, size and lifetime, age 0 and full alpha. |
| `Particles.Particle.UpdateParticle` | main.py:144-169 | The new state is `Advance` of the old one, and removal is reported exactly when the particle has expired. |
| `Particles.ParticleSystem.constructor` | main.py:175-178 | A new system is empty, with the accumulator at 0. |
| `Particles.ParticleSystem.Update` | main.py:200-209 | The system advances as `UpdateModel` and stays valid, with the accumulator below 1/60. It creates no particle, and below one interval it leaves the list untouched. |
| `Particles.ParticleSystem.CreateExplosion` | main.py:180-188 | Exactly one fresh particle per draw is appended after the existing ones, with newborn states; the accumulator is unchanged. |
| `Particles.ParticleSystem.CreateSparkle` | main.py:190-198 | Exactly one fresh particle per draw is appended after the existing ones, with newborn states; the accumulator is unchanged. |
| `Particles.ParticleSystem.Burst` | main.py:182-188 | The shared append loop of both bursts. |
| `Particles.Spawn` | main.py:182-186 | The new particles are fresh and distinct, one per draw, with newborn states. |
| `Particles.UpdateBatch` | main.py:206-208 | Each particle is updated once with the accumulated time, in list order. The kept particles are a distinct subset of the old list, and their states are `AdvanceAll` of the old states. |
| `LevelGrid.TileX` | main.py:825 | The centre of a column, `col * TILE + TILE // 2`; `LevelGrid.TileCentresDistinct` shows different tiles get different centres. |
| `LevelGrid.TileY` | main.py:826 | The height of a row, `(rows - row) * TILE`, so the top row is highest. |
| `LevelGrid.CellOne` | main.py:828-860 | The sprites the level-1 loop places for one character: `1`, `d` (wall and lowered door), `E`, `P`, `C`, `K`, and nothing otherwise. |
| `LevelGrid.CellTwo` | main.py:1044-1093 | The sprites the level-2 loop places for one character: four wall tiles, two ladder tiles, spikes, bomb, coin, diamond, key, mouse, frog, mushroom, `d` and `E` doors, the player, and nothing otherwise. |
| `LevelGrid.Layout` | main.py:823-860 | Everything the map loops place, row by row from the top and left to right; `LevelGrid.LayoutMembers` characterises it. |
| `LevelGrid.Setup` | main.py:823-860 | The nested map loops place exactly the level's layout. |
| `LevelGrid.PlaceRow` | main.py:824-860 | The column loop places exactly the row's layout, left to right. |
| `LevelGrid.TileCentresDistinct` | main.py:825-826 | Different tiles of one map have different centres. |
| `LevelGrid.CellPosition` | main.py:823-860 | Every sprite is centred on its tile column. The player is 20 above the tile centre, the level-1 door top is `TILE // 6` = 10 below it, and everything else is on it. |
| `LevelGrid.PlayerOnlyFromP` | main.py:846-850 | A character places the player exactly when it is `P`, in both levels. |
| `LevelGrid.DoorTops` | main.py:833-840 | `d` gives a wall plus a door 10 lower in level 1, and a door alone in level 2 (main.py:1084-1087). |
| `LevelGrid.RowHasColumn` | main.py:824-860 | Every column's sprites are in the row's layout. |
| `LevelGrid.RowOnlyColumns` | main.py:824-860 | A row's layout holds nothing that no column placed. |
| `LevelGrid.GridHasTile` | main.py:1039-1094 | Every tile's sprites are in the map's layout. |
| `LevelGrid.GridOnlyTiles` | main.py:1039-1094 | A map's layout holds nothing that no tile placed. |
| `LevelGrid.LayoutMembers` | main.py:1039-1094 | A sprite is placed exactly when some tile's character places it at that tile's centre. |
| `LevelGrid.PlayerStartOne` | main.py:846-850 | The level-1 player starts at (96, 404), above the `P` in row 1, column 1. |
| `LevelGrid.PlayerStartTwo` | main.py:1091-1093 | The level-2 player starts at (96, 148), above the `P` in row 12, column 1. |

## Left out

- Drawing, text, menus, character and level selection, views, the window and `main()` are presentation and are not modelled. So are camera smoothing, sprite animation, the coin float and the torch flicker.
- The player's own movement, jumping and ladders belong to arcade's platformer engine, whose code is not part of this model. The rules take what the player overlaps after moving as an input.
- `arcade.check_for_collision_with_list` is foreign code. Its result is modelled as the live items in an input set, in list order, and removal as dropping items from a sequence. Physics takes the overlapped walls as an input sequence in query order.
- The calls of `update_ai` for every mouse and frog inside the level-2 `on_update` are not modelled. `Patrol.Enemy.UpdateAi` models one such call; a level-2 tick does not chain them.
- Sounds, reading and writing the JSON records file, and `time.time()` are I/O. The parsed file (or its absence or corruption) and the elapsed seconds are inputs. What `save_record` would write is part of its result.
- `Records.SaveRecord`: a records file that parses to JSON other than an object (`[]`, `5`, `null`) is returned unchanged by `load_records`, and `save_record` then crashes with `AttributeError` at `records.get`; the model has no such file and no crash.
- `Records.LoadRecords`: a file whose entry for a level is falsy (`{}`) or lacks the `score`/`time` keys is not modelled. Every stored entry is a full record.
- `random.uniform`, `random.randint`, `random.random`, `math.cos` and `math.sin` become parameters restricted to the drawn ranges. A particle's random velocity is constrained only by its length being in [10, 30]; the trigonometry is not modelled.
- The particle colour is not modelled. The burst counts (20 and 10 by default) are the number of draws the caller passes.
- Python floats are modelled as exact reals. Rounding is not modelled, so positions and velocities are exact values.
- `Particles.ParticleSystem.Update`: in the source, removing a particle while iterating over the sprite list skips the next particle in that pass. The model updates each particle exactly once. `Particles.AllExpire` and `Particles.ExplosionClears` therefore hold for the model only: in the source a skipped particle does not age in that pass and can outlive their bound.
- `Bomb.explode` (a particle burst at the bomb) is never called by the rules and is not modelled. `Bomb.active` and `AnimatedCoin.collected` are modelled by list membership, because a flag is set only on the item being removed.
- The hop of a patrolling enemy and the lowering of the level-1 door top are modelled; the move speeds 0.8 and 1.2 that `setup` gives mice and frogs are not, since `LevelGrid` records only a sprite's kind and centre.
- `Physics`: sprite edges are modelled as centre plus or minus half the sprite's size. In arcade, `left`, `right`, `top` and `bottom` follow the sprite's hit box, which need not be centred on the sprite.
- `LevelGrid`: the per-kind sprite lists of `setup` are its single placement sequence filtered by kind. Textures and scales are not modelled.
