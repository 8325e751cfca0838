# Tower-defense game rules in Dafny

This project models the rules of a small Phaser tower-defense game, with the
engine left out. A base at the bottom of the screen fires automatically at
the nearest enemy in range. Enemies of tiers 1 to 3 spawn on the screen edges
in waves and walk to the base. Kills pay gold and XP, and gold buys four
upgrades: damage, fire rate, maximum health and a heal. The game ends when
the base's health reaches zero.

The model follows the four source files one to one:

- `base.dfy` (module `BaseObject`) models the base. The class `Base` keeps
  current and maximum health and changes them in place. Each method is
  proved against a pure function on a `Health` value (`Damaged`, `Healed`,
  `Raised`). Lemmas over those functions show the clamps keep
  `0 <= current <= maximum`.
- `enemy.ts` becomes `enemy.dfy` (module `EnemyObject`). `Enemy` has `const`
  stats fixed by its tier and a mutable position, health and fill colour.
  `StatsFor` and `TypeColour` are the constructor's tier formulas.
- `projectile.ts` becomes `projectile.dfy` (module `ProjectileObject`). A
  projectile has a constant speed and damage, and an update that destroys it
  once it is out of bounds (`OutOfBounds`).
- `mainScene.ts` is split in two:
  - `scene_rules.dfy` (module `SceneRules`) holds the scene's pure formulas
    as functions: the wave quota, the spawn delay, the spawn edge and point,
    the enemy tier, the gold check and the nearest-enemy scan.
  - `scene.dfy` (module `Scene`) holds the class `MainScene`, which has the
    scene's fields and one method per handler.
- `common.dfy` (module `Common`) holds the sequence helpers. The engine's
  groups are sequences of objects. Removing one object is `Without` and
  culling by a flag is `Select`.
- `scenarios.dfy` (module `Scenarios`) drives the scene through short games
  on an 800 x 600 screen and states the resulting numbers.

`MainScene.Valid()` is the invariant every handler keeps:

- the base's health stays within its bounds;
- the groups hold each object once;
- every enemy has the stats of a tier from 1 to 3, and no projectile in the
  group is destroyed;
- gold and XP are non-negative;
- a destroyed base means the game is over, and a finished game has no spawn
  timer;
- the quota and spawn delay are those of the current wave;
- alive plus killed enemies equal the number spawned, which never exceeds
  the quota;
- a wave restart is pending only once the whole quota has been killed.

Engine timers become methods the caller invokes:

- the spawn timer firing is `SpawnTick`;
- the 2-second wave restart is `WaveRestartFires`;
- the 100 ms hit-flash callback is `Enemy.RestoreFill`.

Pending callbacks are counted in `pendingRestarts` and `pendingRestores`.
The clock (`now`) and every `Math.random` roll are parameters. `SpawnTick`
requires each of its five rolls to lie in `0 <= r < 1`, the range of
`Math.random`.

Four behaviours of the code are easy to misread; the model follows the
code:

- `wave` starts at 1 and `startWave` raises it before computing the quota.
  The first wave played is therefore wave 2, with 8 enemies and a 1900 ms
  spawn delay, not wave 1 with 5 enemies and 1950 ms.
- The base's `takeDamage` clamps only at zero, not also at the maximum.
- The collision handlers do not check `gameOver`. Only `update` does, so
  collisions are still resolved after the game has ended.
- A wave completes only through projectile kills. A base–enemy collision
  counts a kill but never schedules the next wave. If the last enemy of a
  wave reaches the base, the wave is never restarted. The model keeps this:
  `HandleBaseEnemyCollision` leaves `pendingRestarts` unchanged.

## Model

| member | source | states |
|---|---|---|
| BaseObject.Damaged | src/scripts/objects/base.ts:23-27 | damage leaves the maximum alone, never takes health below zero, gives zero exactly when the damage reaches the health, and otherwise subtracts exactly the damage |
| BaseObject.Healed | src/scripts/objects/base.ts:29-33 | healing leaves the maximum alone, never exceeds it, reaches it exactly when health plus amount reaches it, and otherwise adds exactly the amount |
| BaseObject.Raised | src/scripts/objects/base.ts:35-39 | the upgrade raises maximum and current health by exactly the amount, keeps the missing health the same, and keeps the bounds for non-negative amounts |
| BaseObject.Destroyed | src/scripts/objects/base.ts:49-51 | for health within its bounds, destroyed holds exactly when the health is zero |
| BaseObject.BarColour | src/scripts/objects/base.ts:66-71 | green exactly above half the maximum, yellow exactly above a quarter and at most a half, red otherwise |
| BaseObject.BarColourEnds | src/scripts/objects/base.ts:66-71 | a full living base shows green and a destroyed one shows red |
| BaseObject.ChangeKeepsSound | src/scripts/objects/base.ts:23-39 | any one of damage, heal or upgrade with a non-negative amount keeps 0 <= current <= maximum and never lowers the maximum |
| BaseObject.ChangesKeepSound | src/scripts/objects/base.ts:23-39 | any sequence of those changes with non-negative amounts keeps 0 <= current <= maximum and never lowers the maximum |
| BaseObject.Base.constructor | src/scripts/objects/base.ts:9-21 | a new base is at its position with current and maximum health both 100 |
| BaseObject.Base.TakeDamage | src/scripts/objects/base.ts:23-27 | the new health is `Damaged` of the old one, and the bounds hold after non-negative damage |
| BaseObject.Base.Heal | src/scripts/objects/base.ts:29-33 | the new health is `Healed` of the old one, and the bounds hold after a non-negative heal |
| BaseObject.Base.IncreaseMaxHealth | src/scripts/objects/base.ts:35-39 | the new health is `Raised` of the old one, and the bounds hold after a non-negative raise |
| BaseObject.Base.GetHealth | src/scripts/objects/base.ts:41-43 | for a valid base, the reported health is between zero and the maximum |
| BaseObject.Base.GetMaxHealth | src/scripts/objects/base.ts:45-47 | for a valid base, the reported maximum is non-negative and at least the current health |
| BaseObject.Base.IsDestroyed | src/scripts/objects/base.ts:49-51 | destroyed exactly when health is at most zero, which for a valid base means exactly zero |
| BaseObject.Base.HealthColour | src/scripts/objects/base.ts:66-71 | the bar's colour band for the base's current and maximum health |
| EnemyObject.StatsFor | src/scripts/objects/enemy.ts:13-26 | health is four times the gold value, XP twice it, damage equal to it; size plus speed is 70; tiers 1 to 3 have speed 35..45 (so at least 35), size 25..35, damage and gold 5..15 |
| EnemyObject.StatsMonotone | src/scripts/objects/enemy.ts:21-26 | a higher tier has more health, damage, XP and gold and less speed |
| EnemyObject.TypeColour | src/scripts/objects/enemy.ts:14 | the construction colour is red, orange or magenta |
| EnemyObject.RestoreColour | src/scripts/objects/enemy.ts:48 | the flash-restore colour is red, orange or magenta |
| EnemyObject.RestoreMatchesType | src/scripts/objects/enemy.ts:46-50 | the colour worked out from the gold value equals the colour chosen from the tier, for every tier |
| EnemyObject.Enemy.constructor | src/scripts/objects/enemy.ts:12-34 | the enemy has the stats and colour of its tier, its position and target, and full health |
| EnemyObject.Enemy.TakeDamage | src/scripts/objects/enemy.ts:41-56 | health drops by exactly the damage with no clamp, the result is true exactly when health is now at most zero, the fill turns white and one restore is scheduled |
| EnemyObject.Enemy.RestoreFill | src/scripts/objects/enemy.ts:46-50 | the restore sets the fill to the colour derived from gold, which for a well-formed enemy is its tier colour, and uses up one scheduled restore |
| EnemyObject.Enemy.GetDamage | src/scripts/objects/enemy.ts:58-60 | for a well-formed enemy, 5 per tier |
| EnemyObject.Enemy.GetXPValue | src/scripts/objects/enemy.ts:62-64 | for a well-formed enemy, 10 per tier |
| EnemyObject.Enemy.GetGoldValue | src/scripts/objects/enemy.ts:66-68 | for a well-formed enemy, 5 per tier |
| EnemyObject.HitKeepsStats | src/scripts/objects/enemy.ts:41-68 | after a hit the getters still return the tier's constructor values, health is 20 per tier minus the damage, and the enemy is dead exactly when the damage reaches its health |
| ProjectileObject.OutOfBounds | src/scripts/objects/projectile.ts:29-34 | out of bounds exactly when outside the box [-50, width+50] x [-50, height+50] |
| ProjectileObject.ClosedBoxSurvives | src/scripts/objects/projectile.ts:29-34 | a projectile in the closed box, edges and corners included, is not out, and one step past an edge is |
| ProjectileObject.Projectile.constructor | src/scripts/objects/projectile.ts:8-21 | speed is 300 whatever the arguments, damage is the one given, and the projectile is live |
| ProjectileObject.Projectile.Update | src/scripts/objects/projectile.ts:27-37 | destroyed afterwards exactly when it was already or is now out of bounds; the position is unchanged |
| ProjectileObject.Projectile.Destroy | src/scripts/objects/projectile.ts:35 | the projectile is destroyed and stays where it is |
| ProjectileObject.PayloadKept | src/scripts/objects/projectile.ts:11-25 | through any updates a projectile keeps the damage it was fired with and speed 300 |
| Common.Without | src/scripts/scenes/mainScene.ts:176 | removing an object keeps every other member, adds none, never lengthens the group and changes nothing when the object is absent |
| Common.WithoutDistinct | src/scripts/scenes/mainScene.ts:176 | removing a member from a group without repeats shortens it by exactly one and keeps it without repeats |
| Common.SelectFrom | src/scripts/scenes/mainScene.ts:285-287 | every projectile left after culling is one whose update did not destroy it |
| Common.SelectKeeps | src/scripts/scenes/mainScene.ts:285-287 | every projectile whose update did not destroy it is left after culling |
| Common.SelectDistinct | src/scripts/scenes/mainScene.ts:285-287 | culling a group without repeats leaves one without repeats |
| SceneRules.Quota | src/scripts/scenes/mainScene.ts:115 | every wave from 1 on has at least 5 enemies |
| SceneRules.QuotaStep | src/scripts/scenes/mainScene.ts:115 | each wave has exactly 3 enemies more than the one before |
| SceneRules.FirstWavePlayed | src/scripts/scenes/mainScene.ts:111-115 | since `wave` starts at 1 and is raised first, the first wave played is wave 2 with 8 enemies |
| SceneRules.SpawnDelay | src/scripts/scenes/mainScene.ts:121 | the delay is 2000 - 50·wave floored at 1000, so between 1000 and 2000 ms for every wave from 0 on |
| SceneRules.SpawnDelayNonIncreasing | src/scripts/scenes/mainScene.ts:121 | a later wave never spawns more slowly |
| SceneRules.Side | src/scripts/scenes/mainScene.ts:136 | the floor of four times the roll, an edge 0 to 3 |
| SceneRules.SpawnPoint | src/scripts/scenes/mainScene.ts:135-154 | the point is 20 units outside the edge the first roll picks (top, right, bottom, left for its four quarters, each exactly when that edge's coordinate is taken), at the second roll times that edge's length along it |
| SceneRules.EveryEdgePointOccurs | src/scripts/scenes/mainScene.ts:135-154 | every position along each of the four edges is the spawn point for some pair of rolls whose first picks that edge |
| SceneRules.EnemyType | src/scripts/scenes/mainScene.ts:156-159 | tier 1 up to wave 3; in waves 4 to 6 tier 2 exactly when the first roll exceeds 0.7 and never tier 3; from wave 7 tier 3 exactly when the second roll exceeds 0.8 and tier 2 exactly when it does not and the third exceeds 0.5 |
| SceneRules.EveryAllowedTierOccurs | src/scripts/scenes/mainScene.ts:156-159 | tier 1 can occur in every wave, tier 2 from wave 4, tier 3 from wave 7 |
| SceneRules.Spend | src/scripts/scenes/mainScene.ts:72-73 | a purchase succeeds exactly when the gold covers the cost, takes exactly the cost, and never leaves gold negative |
| SceneRules.SquaredDistance | src/scripts/scenes/mainScene.ts:212 | squared distances are non-negative |
| SceneRules.SquaresKeepOrder | src/scripts/scenes/mainScene.ts:212-213 | for non-negative distances, comparing squares orders them exactly as the distances |
| SceneRules.NearestWithin | src/scripts/scenes/mainScene.ts:206-217 | the chosen enemy is strictly within range, no farther than any other, strictly nearer than every earlier one, so the first wins ties; none is chosen exactly when all are out of range |
| SceneRules.NearestIsUnique | src/scripts/scenes/mainScene.ts:206-217 | any enemy with those properties is the one chosen |
| Scene.Distances | src/scripts/scenes/mainScene.ts:210-212 | one squared distance from the base per enemy, in group order |
| Scene.OutFlags | src/scripts/scenes/mainScene.ts:285-287 | one out-of-bounds flag per projectile, in group order |
| Scene.SelectedAreLive | src/scripts/scenes/mainScene.ts:285-287 | after culling, the group holds only live projectiles, each once |
| Scene.MainScene.constructor | src/scripts/scenes/mainScene.ts:36-68 | the base is at the bottom centre with 100 health; the first `startWave` leaves wave 2, quota 8, delay 1900 ms, 50 gold, 10 damage, 1000 ms between shots, a running spawn timer and the invariant |
| Scene.MainScene.StartWave | src/scripts/scenes/mainScene.ts:110-126 | the wave number goes up by one, the quota and delay are the new wave's, the spawn and kill counts are zero, the spawn timer runs, and nothing else changes |
| Scene.MainScene.BuyDamage | src/scripts/scenes/mainScene.ts:71-78 | with less than 30 gold nothing changes; otherwise 30 gold is paid and damage rises by 5, and nothing else changes |
| Scene.MainScene.BuyFireRate | src/scripts/scenes/mainScene.ts:80-87 | with less than 40 gold nothing changes; otherwise 40 gold is paid and the time between shots becomes 0.8 of what it was, never longer |
| Scene.MainScene.BuyMaxHealth | src/scripts/scenes/mainScene.ts:89-97 | with less than 50 gold nothing changes; otherwise 50 gold is paid and the base's maximum and current health both rise by 50 |
| Scene.MainScene.BuyHeal | src/scripts/scenes/mainScene.ts:99-107 | with less than 25 gold nothing changes; otherwise 25 gold is paid and the base heals by 30 up to its maximum |
| Scene.MainScene.SpawnTick | src/scripts/scenes/mainScene.ts:128-164 | once the quota is spawned only the timer stops; otherwise exactly one new enemy is appended and the spawn count rises by one; the enemy has the rolled tier and edge point, targets the base and has full health; spawned never exceeds the quota |
| Scene.MainScene.HandleProjectileEnemyCollision | src/scripts/scenes/mainScene.ts:166-187 | the projectile is always destroyed and removed; the enemy loses the projectile's damage; a surviving enemy changes no counter; a dead one is removed and pays its XP and gold, the kill is counted, and a restart is pending exactly when the kills reach the quota |
| Scene.MainScene.DestroyProjectile | src/scripts/scenes/mainScene.ts:168 | the projectile is destroyed and leaves its group; no counter changes |
| Scene.MainScene.RemoveKilledEnemy | src/scripts/scenes/mainScene.ts:170-186 | XP and gold rise by the enemy's values, it leaves the group, the kill is counted, and a restart is scheduled exactly when the kills reach the quota |
| Scene.MainScene.CollectReward | src/scripts/scenes/mainScene.ts:171-172 | XP and gold rise by exactly the enemy's values and nothing else changes |
| Scene.MainScene.CountKill | src/scripts/scenes/mainScene.ts:175-185 | the enemy leaves the group, the kill count rises by one, and a restart is pending exactly when the kills reach the quota |
| Scene.MainScene.HandleBaseEnemyCollision | src/scripts/scenes/mainScene.ts:189-200 | the base takes the enemy's damage, the enemy is removed and counted as killed, no restart is scheduled, and the game ends exactly when the base is destroyed |
| Scene.MainScene.EndGame | src/scripts/scenes/mainScene.ts:230-232 | the game-over flag is set, the spawn timer stops, and nothing else changes |
| Scene.MainScene.WaveRestartFires | src/scripts/scenes/mainScene.ts:182-184 | the restart callback starts the next wave exactly when the game is not over |
| Scene.MainScene.NearestEnemy | src/scripts/scenes/mainScene.ts:206-217 | the scan's result is `NearestWithin` over the squared distances with range 400² |
| Scene.MainScene.FireAt | src/scripts/scenes/mainScene.ts:219-223 | one new projectile with the current damage and speed 300 is appended, fired from the base at the target, and the shot time is set; nothing else changes |
| Scene.MainScene.ShootAtNearestEnemy | src/scripts/scenes/mainScene.ts:202-224 | while the cooldown runs, or no enemy is in range, nothing changes; otherwise one projectile with the current damage is fired at the chosen enemy and only the shot time changes |
| Scene.MainScene.CullProjectiles | src/scripts/scenes/mainScene.ts:285-287 | each projectile ends up destroyed exactly when it is out of bounds; the live ones are returned in order |
| Scene.MainScene.UpdateProjectiles | src/scripts/scenes/mainScene.ts:284-287 | the group becomes the projectiles still in bounds, in order; no counter changes |
| Scene.MainScene.Update | src/scripts/scenes/mainScene.ts:276-294 | once the game is over nothing changes; otherwise the in-bounds projectiles stay in order, and a shot with the current damage, aimed at the nearest enemy in range, is appended and the shot time set exactly when the cooldown has run out and such an enemy exists; otherwise no counter changes |
| Scenarios.Opening | src/scripts/scenes/mainScene.ts:13-30 | a new game is wave 2 with 8 enemies due, 1900 ms between spawns, 50 gold, 100 health, spawn timer running |
| Scenarios.DamageUpgrade | src/scripts/scenes/mainScene.ts:71-78 | from 50 gold one damage upgrade gives 20 gold and 15 damage, and a second is refused |
| Scenarios.HealThenRaise | src/scripts/scenes/mainScene.ts:89-107 | healing a full base costs 25 gold and leaves it at 100 of 100, after which the 50-gold upgrade is refused |
| Scenarios.BaseHit | src/scripts/scenes/mainScene.ts:189-200 | a tier-1 enemy reaching the base leaves it at 95 health, one kill, the game running, no enemies left |
| Scenarios.LoneEnemyTargeted | src/scripts/scenes/mainScene.ts:206-217 | a lone enemy strictly within range is the target |
| Scenarios.TwoShotKill | src/scripts/scenes/mainScene.ts:166-224 | two 10-damage shots kill a tier-1 enemy; the first leaves it at 10 health, the second pays 10 XP and 5 gold |

## Left out

- `src/scripts/objects/gameUI.ts` and `src/scripts/scenes/preloadScene.ts` are not part of this model. They are presentation and a scene hand-off.
- All drawing is left out: the health-bar rectangles, the game-over overlay and text, and the background colour. The only part kept is the bar's colour band.
- The restart button (`scene.restart()`) is left out. It rebuilds the scene through the engine.
- Velocity and heading are left out: `moveTowardsTarget`, the enemies' per-frame `update`, and the projectile's velocity set from `Math.cos`/`Math.sin`. They are floating-point trigonometry that the engine integrates. The engine's movement appears only as `MoveTo` on enemies and projectiles.
- Physics overlap detection is left out. The collision handlers are methods the caller invokes on a projectile and an enemy, or on an enemy, that are in their groups.
- Engine timers are events the caller triggers, not timed callbacks. The model does not capture when they fire: the spawn interval, the 2-second restart delay and the 100 ms flash. Replacing the spawn timer in `startWave` is modelled as restarting one timer flag.
- `Math.random` and `this.time.now` are parameters.
- Scene.MainScene.NearestEnemy compares squared distances against 400² instead of square-rooted distances against 400. `SquaresKeepOrder` shows that this orders non-negative distances the same way.
- Numbers are Dafny `int` and `real`, not IEEE doubles. Repeated fire-rate upgrades multiply exactly by 0.8, and there is no rounding.
- Scene.MainScene.ShootAtNearestEnemy drops the `nearestEnemy.x !== undefined` test. A group member always has a position.
- Scene.MainScene.HandleProjectileEnemyCollision assumes both objects are still in their groups. It does not model the engine calling it with an object already destroyed in the same frame.
- Scene.MainScene.UpdateProjectiles removes destroyed projectiles after the loop. The engine removes them during the `forEach`, which can skip the next element; this ordering is not modelled.
- EnemyObject.Enemy.constructor takes the tier as a required argument. The source's default of tier 1 is not modelled; the scene always passes a tier.
- Scene.MainScene.constructor requires a non-negative screen size, which the engine's camera always has.
