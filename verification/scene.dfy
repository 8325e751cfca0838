/** The main scene (src/scripts/scenes/mainScene.ts) without the engine: the
    gold/XP economy, the four upgrades, the wave counters, spawning, the
    nearest-enemy auto-shot, both collision handlers and the game-over flag.
    Engine timers are events the caller triggers (`SpawnTick`,
    `WaveRestartFires`), `Math.random` and the clock are parameters, and the
    collision handlers are methods the caller invokes on a live pair. */
module Scene {
  import opened Common
  import opened SceneRules
  import B = BaseObject
  import E = EnemyObject
  import P = ProjectileObject

  const StartingGold: int := 50
  const StartingDamage: int := 10
  const StartingFireRate: real := 1000.0
  const ProjectileRange: real := 400.0

  const DamageCost: int := 30
  const DamageStep: int := 5
  const FireRateCost: int := 40
  const FireRateFactor: real := 0.8
  const MaxHealthCost: int := 50
  const MaxHealthStep: int := 50
  const HealCost: int := 25
  const HealAmount: int := 30

  /** Every scalar field of the scene, so that a contract can say which of
      them a step changes and that the others stay as they were. */
  datatype SceneCounters = SceneCounters(
    xp: int, gold: int, wave: int, enemiesInWave: int, enemiesSpawned: int, enemiesKilled: int,
    baseDamage: int, fireRate: real, lastShotTime: real, gameOver: bool,
    spawnTimerActive: bool, spawnDelay: int, pendingRestarts: nat)

  /** Squared distances from (baseX, baseY) to each enemy, in group order. */
  function Distances(baseX: real, baseY: real, es: seq<E.Enemy>): (ds: seq<real>)
    reads es
    ensures |ds| == |es|
    ensures forall i :: 0 <= i < |es| ==> ds[i] == SquaredDistance(baseX, baseY, es[i].x, es[i].y)
  {
    if es == [] then []
    else Distances(baseX, baseY, es[..|es| - 1]) + [SquaredDistance(baseX, baseY, es[|es| - 1].x, es[|es| - 1].y)]
  }

  /** The enemy a shot from (baseX, baseY) goes to: the first of those nearest,
      strictly within range. Distances are compared squared. */
  function TargetAmong(baseX: real, baseY: real, es: seq<E.Enemy>): Option<nat>
    reads es
  {
    NearestWithin(Distances(baseX, baseY, es), ProjectileRange * ProjectileRange)
  }

  /** For each projectile, whether its update finds it out of bounds. */
  function OutFlags(ps: seq<P.Projectile>, width: real, height: real): (f: seq<bool>)
    reads ps
    ensures |f| == |ps|
    ensures forall i :: 0 <= i < |ps| ==> f[i] == P.OutOfBounds(ps[i].x, ps[i].y, width, height)
  {
    if ps == [] then []
    else OutFlags(ps[..|ps| - 1], width, height) + [P.OutOfBounds(ps[|ps| - 1].x, ps[|ps| - 1].y, width, height)]
  }

  /** The projectile group: each projectile once, none of them destroyed. */
  ghost predicate Live(ps: seq<P.Projectile>)
    reads ps
  {
    Distinct(ps) && forall p :: p in ps ==> !p.destroyed
  }

  lemma LiveWithout(ps: seq<P.Projectile>, p: P.Projectile)
    requires Live(ps)
    ensures Live(Without(ps, p)) && p !in Without(ps, p)
  {
    WithoutDistinct(ps, p);
  }

  lemma LiveAppend(ps: seq<P.Projectile>, p: P.Projectile)
    requires Live(ps) && p !in ps && !p.destroyed
    ensures Live(ps + [p])
  {
    DistinctAppend(ps, p);
  }

  /** The projectiles a selection keeps are those whose flag says they were
      not destroyed, so culling a group without repetitions leaves a live
      group. */
  lemma SelectedAreLive(ps: seq<P.Projectile>, outs: seq<bool>)
    requires |outs| == |ps| && Distinct(ps)
    requires forall j :: 0 <= j < |ps| ==> ps[j].destroyed == outs[j]
    ensures Live(Select(ps, outs))
  {
    SelectFrom(ps, outs);
    SelectDistinct(ps, outs);
  }

  /** The enemy group: each enemy once, each with the stats and colour of a
      tier from 1 to 3. */
  ghost predicate Roster(es: seq<E.Enemy>)
  {
    Distinct(es) && forall e :: e in es ==> e.WellFormed() && 1 <= e.kind <= 3
  }

  lemma RosterWithout(es: seq<E.Enemy>, e: E.Enemy)
    requires Roster(es)
    ensures Roster(Without(es, e))
    ensures e in es ==> |Without(es, e)| == |es| - 1
  {
    WithoutDistinct(es, e);
  }

  lemma RosterAppend(es: seq<E.Enemy>, e: E.Enemy)
    requires Roster(es) && e !in es && e.WellFormed() && 1 <= e.kind <= 3
    ensures Roster(es + [e])
  {
    DistinctAppend(es, e);
  }

  class MainScene {
    const width: real
    const height: real
    const base: B.Base
    var xp: int
    var gold: int
    var wave: int
    var enemiesInWave: int
    var enemiesKilled: int
    var baseDamage: int
    /** Milliseconds between shots. */
    var fireRate: real
    var lastShotTime: real
    var enemiesSpawned: int
    var gameOver: bool
    /** The engine groups, in iteration order. */
    var enemies: seq<E.Enemy>
    var projectiles: seq<P.Projectile>
    /** Whether the current wave's spawn timer is still running, and its delay. */
    var spawnTimerActive: bool
    var spawnDelay: int
    /** Wave-restart callbacks scheduled and not yet run. */
    var pendingRestarts: nat

    function Counters(): SceneCounters
      reads this
    {
      SceneCounters(xp, gold, wave, enemiesInWave, enemiesSpawned, enemiesKilled,
               baseDamage, fireRate, lastShotTime, gameOver,
               spawnTimerActive, spawnDelay, pendingRestarts)
    }

    /** Everything but the wave counters: the base keeps its bounds, the
        groups hold live, well-formed objects once each, gold and XP are
        non-negative, a destroyed base has ended the game, and an ended game
        has no spawn timer. */
    ghost predicate Sane()
      reads this, base, projectiles
    {
      && width >= 0.0 && height >= 0.0
      && base.Valid()
      && Roster(enemies)
      && Live(projectiles)
      && gold >= 0 && xp >= 0
      && baseDamage >= StartingDamage && fireRate > 0.0
      && (base.IsDestroyed() ==> gameOver)
      && (gameOver ==> !spawnTimerActive)
      && pendingRestarts <= 1
    }

    /** The wave counters: the quota and delay are those of the wave, every
        enemy spawned this wave is alive or counted as killed, never more are
        spawned than the quota, and a restart is pending only for a wave whose
        quota has all been killed. */
    ghost predicate WaveValid()
      reads this
    {
      && wave > InitialWave
      && enemiesInWave == Quota(wave)
      && spawnDelay == SpawnDelay(wave)
      && 0 <= enemiesKilled
      && |enemies| + enemiesKilled == enemiesSpawned <= enemiesInWave
      && (pendingRestarts == 1 ==> enemiesKilled == enemiesInWave)
    }

    ghost predicate Valid()
      reads this, base, projectiles
    {
      Sane() && WaveValid()
    }

    /** The field initialisers and `create`: the base at the bottom centre
        with full health, then the first `startWave`. */
    constructor (width: real, height: real)
      requires width >= 0.0 && height >= 0.0
      ensures Valid() && fresh(base)
      ensures this.width == width && this.height == height
      ensures base.x == width / 2.0 && base.y == height - 100.0
      ensures base.State() == B.Health(B.StartingHealth, B.StartingHealth)
      ensures Counters() == SceneCounters(0, StartingGold, InitialWave + 1, Quota(InitialWave + 1), 0, 0,
                                          StartingDamage, StartingFireRate, 0.0, false,
                                          true, SpawnDelay(InitialWave + 1), 0)
      ensures enemies == [] && projectiles == []
    {
      this.width := width;
      this.height := height;
      xp := 0;
      gold := 50;
      wave := 1;
      enemiesInWave := 0;
      enemiesKilled := 0;
      baseDamage := 10;
      fireRate := 1000.0;
      lastShotTime := 0.0;
      enemiesSpawned := 0;
      gameOver := false;
      enemies := [];
      projectiles := [];
      spawnTimerActive := false;
      spawnDelay := 0;
      pendingRestarts := 0;
      base := new B.Base(width / 2.0, height - 100.0);
      new;
      StartWave();
    }

    /** Raises the wave number, then sets its quota, clears the spawn and kill
        counts and starts the spawn timer with the wave's delay. */
    method StartWave()
      requires Sane() && enemies == [] && pendingRestarts == 0 && !gameOver && wave >= InitialWave
      modifies this
      ensures Valid()
      ensures Counters() == old(Counters()).(wave := old(wave) + 1, enemiesInWave := Quota(old(wave) + 1),
                                             enemiesSpawned := 0, enemiesKilled := 0,
                                             spawnTimerActive := true, spawnDelay := SpawnDelay(old(wave) + 1))
      ensures enemies == old(enemies) && projectiles == old(projectiles)
    {
      wave := wave + 1;
      enemiesInWave := 5 + (wave - 1) * 3;
      enemiesSpawned := 0;
      enemiesKilled := 0;
      spawnDelay := 2000 - (if wave * 50 < 1000 then wave * 50 else 1000);
      spawnTimerActive := true;
    }

    /** The "Increase Damage" upgrade: with 30 gold, pay it and add 5 damage. */
    method BuyDamage()
      requires Valid()
      modifies this
      ensures Valid()
      ensures Spend(old(gold), DamageCost).None? ==> Counters() == old(Counters())
      ensures Spend(old(gold), DamageCost).Some? ==>
        Counters() == old(Counters()).(gold := Spend(old(gold), DamageCost).value,
                                       baseDamage := old(baseDamage) + DamageStep)
      ensures enemies == old(enemies) && projectiles == old(projectiles)
    {
      if gold >= 30 {
        gold := gold - 30;
        baseDamage := baseDamage + 5;
      }
    }

    /** The "Fire Rate" upgrade: with 40 gold, pay it and shorten the time
        between shots to 0.8 of what it was. */
    method BuyFireRate()
      requires Valid()
      modifies this
      ensures Valid()
      ensures Spend(old(gold), FireRateCost).None? ==> Counters() == old(Counters())
      ensures Spend(old(gold), FireRateCost).Some? ==>
        Counters() == old(Counters()).(gold := Spend(old(gold), FireRateCost).value,
                                       fireRate := old(fireRate) * FireRateFactor)
      ensures fireRate <= old(fireRate)
      ensures enemies == old(enemies) && projectiles == old(projectiles)
    {
      if gold >= 40 {
        gold := gold - 40;
        fireRate := fireRate * 0.8;
      }
    }

    /** The "Max Health" upgrade: with 50 gold, pay it and raise the base's
        maximum and current health by 50. */
    method BuyMaxHealth()
      requires Valid()
      modifies this, base
      ensures Valid()
      ensures Spend(old(gold), MaxHealthCost).None? ==>
        Counters() == old(Counters()) && base.State() == old(base.State())
      ensures Spend(old(gold), MaxHealthCost).Some? ==>
        Counters() == old(Counters()).(gold := Spend(old(gold), MaxHealthCost).value)
        && base.State() == B.Raised(old(base.State()), MaxHealthStep)
      ensures enemies == old(enemies) && projectiles == old(projectiles)
    {
      if gold >= 50 {
        gold := gold - 50;
        base.IncreaseMaxHealth(50);
      }
    }

    /** The "Heal" upgrade: with 25 gold, pay it and heal the base by 30, up
        to its maximum. */
    method BuyHeal()
      requires Valid()
      modifies this, base
      ensures Valid()
      ensures Spend(old(gold), HealCost).None? ==>
        Counters() == old(Counters()) && base.State() == old(base.State())
      ensures Spend(old(gold), HealCost).Some? ==>
        Counters() == old(Counters()).(gold := Spend(old(gold), HealCost).value)
        && base.State() == B.Healed(old(base.State()), HealAmount)
      ensures enemies == old(enemies) && projectiles == old(projectiles)
    {
      if gold >= 25 {
        gold := gold - 25;
        base.Heal(30);
      }
    }

    /** The spawn timer fires (`spawnEnemy`). Once the quota is spawned it
        only stops the timer; otherwise it adds one enemy, of the tier the
        wave and rolls give, at the edge point the rolls give, aimed at the
        base. */
    method SpawnTick(sideRoll: real, alongRoll: real, roll1: real, roll2: real, roll3: real)
      requires Valid() && spawnTimerActive
      requires IsRoll(sideRoll) && IsRoll(alongRoll)
      requires IsRoll(roll1) && IsRoll(roll2) && IsRoll(roll3)
      modifies this
      ensures Valid()
      ensures old(enemiesSpawned) >= old(enemiesInWave) ==>
        Counters() == old(Counters()).(spawnTimerActive := false) && enemies == old(enemies)
      ensures old(enemiesSpawned) < old(enemiesInWave) ==>
        Counters() == old(Counters()).(enemiesSpawned := old(enemiesSpawned) + 1)
        && |enemies| == |old(enemies)| + 1 && enemies[..|old(enemies)|] == old(enemies)
        && var e := enemies[|enemies| - 1];
           fresh(e) && e.kind == EnemyType(wave, roll1, roll2, roll3)
           && SpawnPoint(sideRoll, alongRoll, width, height) == Point(e.x, e.y)
           && e.targetX == base.x && e.targetY == base.y && e.currentHealth == e.maxHealth
      ensures projectiles == old(projectiles)
    {
      if enemiesSpawned >= enemiesInWave {
        spawnTimerActive := false;
        return;
      }
      var at := SpawnPoint(sideRoll, alongRoll, width, height);
      var kind := EnemyType(wave, roll1, roll2, roll3);
      var e := new E.Enemy(at.x, at.y, base.x, base.y, kind);
      RosterAppend(enemies, e);
      enemies := enemies + [e];
      enemiesSpawned := enemiesSpawned + 1;
    }

    /** A projectile overlaps an enemy. The enemy takes the projectile's
        damage and the projectile is destroyed; if the enemy died it is
        removed, its XP and gold are awarded, the kill is counted, and a wave
        restart is scheduled when the kills reach the quota. */
    method HandleProjectileEnemyCollision(p: P.Projectile, e: E.Enemy)
      requires Valid() && p in projectiles && e in enemies
      modifies this, p, e
      ensures Valid()
      ensures p.destroyed && projectiles == Without(old(projectiles), p)
      ensures e.currentHealth == old(e.currentHealth) - p.damage && e.x == old(e.x) && e.y == old(e.y)
      ensures e.fill == E.White && e.pendingRestores == old(e.pendingRestores) + 1
      ensures e.currentHealth > 0 ==> Counters() == old(Counters()) && enemies == old(enemies)
      ensures e.currentHealth <= 0 ==>
        enemies == Without(old(enemies), e)
        && Counters() == old(Counters()).(
             xp := old(xp) + e.xpValue, gold := old(gold) + e.goldValue,
             enemiesKilled := old(enemiesKilled) + 1,
             pendingRestarts := if old(enemiesKilled) + 1 >= enemiesInWave then 1 else 0)
    {
      var isDead := e.TakeDamage(p.damage);
      DestroyProjectile(p);
      if isDead {
        RemoveKilledEnemy(e);
      }
    }

    /** `projectile.destroy()`: the projectile is destroyed and leaves its group. */
    method DestroyProjectile(p: P.Projectile)
      requires Valid() && p in projectiles
      modifies this, p
      ensures Valid()
      ensures p.destroyed && projectiles == Without(old(projectiles), p)
      ensures Counters() == old(Counters()) && enemies == old(enemies)
    {
      LiveWithout(projectiles, p);
      projectiles := Without(projectiles, p);
      p.Destroy();
    }

    /** The kill branch of the projectile collision: award the enemy's XP and
        gold, remove it, count the kill and schedule a wave restart when the
        kills reach the quota. */
    method RemoveKilledEnemy(e: E.Enemy)
      requires Valid() && e in enemies
      modifies this
      ensures Valid()
      ensures enemies == Without(old(enemies), e) && projectiles == old(projectiles)
      ensures Counters() == old(Counters()).(
                xp := old(xp) + e.xpValue, gold := old(gold) + e.goldValue,
                enemiesKilled := old(enemiesKilled) + 1,
                pendingRestarts := if old(enemiesKilled) + 1 >= enemiesInWave then 1 else 0)
    {
      CollectReward(e);
      CountKill(e);
    }

    /** A killed enemy pays its XP and gold. */
    method CollectReward(e: E.Enemy)
      requires Valid() && e in enemies
      modifies this
      ensures Valid()
      ensures enemies == old(enemies) && projectiles == old(projectiles)
      ensures Counters() == old(Counters()).(xp := old(xp) + e.xpValue, gold := old(gold) + e.goldValue)
    {
      xp := xp + e.xpValue;
      gold := gold + e.goldValue;
    }

    /** A killed enemy leaves the group and is counted; a wave restart is
        scheduled when the kills reach the quota. */
    method CountKill(e: E.Enemy)
      requires Valid() && e in enemies
      modifies this
      ensures Valid()
      ensures enemies == Without(old(enemies), e) && projectiles == old(projectiles)
      ensures Counters() == old(Counters()).(
                enemiesKilled := old(enemiesKilled) + 1,
                pendingRestarts := if old(enemiesKilled) + 1 >= enemiesInWave then 1 else 0)
    {
      assert enemiesKilled < enemiesInWave && pendingRestarts == 0 by {
        assert |enemies| > 0;
      }
      RosterWithout(enemies, e);
      enemies := Without(enemies, e);
      enemiesKilled := enemiesKilled + 1;
      if enemiesKilled >= enemiesInWave {
        pendingRestarts := pendingRestarts + 1;
      }
    }

    /** An enemy reaches the base. The base takes the enemy's damage, the
        enemy is removed and counted as killed, and the game ends exactly when
        the base is destroyed. No wave restart is scheduled here. */
    method HandleBaseEnemyCollision(e: E.Enemy)
      requires Valid() && e in enemies
      modifies this, base
      ensures Valid()
      ensures base.State() == B.Damaged(old(base.State()), e.damage)
      ensures enemies == Without(old(enemies), e)
      ensures Counters() == old(Counters()).(
                enemiesKilled := old(enemiesKilled) + 1,
                gameOver := old(gameOver) || base.IsDestroyed(),
                spawnTimerActive := old(spawnTimerActive) && !base.IsDestroyed())
      ensures projectiles == old(projectiles)
    {
      base.TakeDamage(e.damage);
      RosterWithout(enemies, e);
      enemies := Without(enemies, e);
      enemiesKilled := enemiesKilled + 1;
      if base.IsDestroyed() {
        EndGame();
      }
    }

    /** Sets the terminal flag and stops the spawn timer. */
    method EndGame()
      modifies this
      ensures Counters() == old(Counters()).(gameOver := true, spawnTimerActive := false)
      ensures enemies == old(enemies) && projectiles == old(projectiles)
    {
      gameOver := true;
      spawnTimerActive := false;
    }

    /** The delayed wave restart runs: it starts the next wave unless the
        game is over. */
    method WaveRestartFires()
      requires Valid() && pendingRestarts > 0
      modifies this
      ensures Valid()
      ensures old(gameOver) ==> Counters() == old(Counters()).(pendingRestarts := 0)
      ensures !old(gameOver) ==>
        Counters() == old(Counters()).(pendingRestarts := 0, wave := old(wave) + 1,
                                       enemiesInWave := Quota(old(wave) + 1),
                                       enemiesSpawned := 0, enemiesKilled := 0, spawnTimerActive := true,
                                       spawnDelay := SpawnDelay(old(wave) + 1))
      ensures enemies == old(enemies) == [] && projectiles == old(projectiles)
    {
      pendingRestarts := pendingRestarts - 1;
      if !gameOver {
        StartWave();
      }
    }

    /** The scan of `shootAtNearestEnemy`: walk the enemies in group order,
        keeping the first one closer than the best distance so far, which
        starts at the range. */
    method NearestEnemy() returns (target: Option<nat>)
      ensures target == TargetAmong(base.x, base.y, enemies)
      ensures target.Some? ==> target.value < |enemies|
    {
      ghost var ds := Distances(base.x, base.y, enemies);
      var limit := ProjectileRange * ProjectileRange;
      var minDistance := limit;
      target := None;
      var i := 0;
      while i < |enemies|
        invariant 0 <= i <= |enemies|
        invariant target == NearestWithin(ds[..i], limit)
        invariant minDistance == if target.None? then limit else ds[target.value]
      {
        var e := enemies[i];
        var distance := SquaredDistance(base.x, base.y, e.x, e.y);
        assert ds[..i + 1][..i] == ds[..i];
        if distance < minDistance {
          minDistance := distance;
          target := Some(i);
        }
        i := i + 1;
      }
      assert ds[..|enemies|] == ds;
    }

    /** Fires one projectile with the current damage from the base at the
        enemy `e` and sets the shot time to `now`. */
    method FireAt(e: E.Enemy, now: real)
      requires Valid()
      modifies this
      ensures Valid()
      ensures enemies == old(enemies)
      ensures Counters() == old(Counters()).(lastShotTime := now)
      ensures |projectiles| == |old(projectiles)| + 1 && projectiles[..|old(projectiles)|] == old(projectiles)
      ensures var p := projectiles[|projectiles| - 1];
        fresh(p) && p.damage == baseDamage && p.speed == P.Speed
        && p.x == base.x && p.y == base.y && p.targetX == e.x && p.targetY == e.y
    {
      var p := new P.Projectile(base.x, base.y, e.x, e.y, baseDamage);
      LiveAppend(projectiles, p);
      projectiles := projectiles + [p];
      lastShotTime := now;
    }

    /** The auto-shot: while the cooldown runs nothing happens; otherwise, if
        an enemy is within range, a projectile with the current damage is
        fired from the base at the chosen enemy and the shot time is set. */
    method ShootAtNearestEnemy(now: real)
      requires Valid()
      modifies this
      ensures Valid()
      ensures enemies == old(enemies)
      ensures var target := old(TargetAmong(base.x, base.y, enemies));
        if now - old(lastShotTime) < fireRate || target.None? then
          Counters() == old(Counters()) && projectiles == old(projectiles)
        else
          Counters() == old(Counters()).(lastShotTime := now)
          && |projectiles| == |old(projectiles)| + 1
          && projectiles[..|old(projectiles)|] == old(projectiles)
          && var p := projectiles[|projectiles| - 1];
             fresh(p) && p.damage == baseDamage && p.speed == P.Speed
             && p.x == base.x && p.y == base.y
             && p.targetX == enemies[target.value].x && p.targetY == enemies[target.value].y
    {
      if now - lastShotTime < fireRate {
        return;
      }
      var target := NearestEnemy();
      if target.None? {
        return;
      }
      FireAt(enemies[target.value], now);
    }

    /** The loop of the projectile part of `update`: each projectile checks
        its bounds and destroys itself when out; the ones left alive are
        returned in order. */
    method CullProjectiles(ps: seq<P.Projectile>) returns (kept: seq<P.Projectile>)
      requires Distinct(ps) && forall j :: 0 <= j < |ps| ==> !ps[j].destroyed
      modifies ps
      ensures kept == Select(ps, old(OutFlags(ps, width, height)))
      ensures forall j :: 0 <= j < |ps| ==>
        ps[j].x == old(ps[j].x) && ps[j].y == old(ps[j].y)
        && (ps[j].destroyed <==> P.OutOfBounds(ps[j].x, ps[j].y, width, height))
    {
      ghost var flags := OutFlags(ps, width, height);
      kept := [];
      var i := 0;
      while i < |ps|
        invariant 0 <= i <= |ps|
        invariant kept == Select(ps[..i], flags[..i])
        invariant forall j :: 0 <= j < |ps| ==> ps[j].x == old(ps[j].x) && ps[j].y == old(ps[j].y)
        invariant forall j :: 0 <= j < i ==> ps[j].destroyed == flags[j]
        invariant forall j :: i <= j < |ps| ==> !ps[j].destroyed
      {
        var p := ps[i];
        p.Update(width, height);
        assert p.destroyed == flags[i];
        SelectStep(ps, flags, i, kept);
        if !p.destroyed {
          kept := kept + [p];
        }
        i := i + 1;
      }
      assert ps[..|ps|] == ps && flags[..|ps|] == flags;
    }

    /** The projectile part of `update`: cull the group, keeping the
        projectiles still in bounds, in order. */
    method UpdateProjectiles()
      requires Valid()
      modifies this, projectiles
      ensures Valid()
      ensures projectiles == Select(old(projectiles), old(OutFlags(projectiles, width, height)))
      ensures forall j :: 0 <= j < |old(projectiles)| ==>
        var p := old(projectiles)[j];
        p.x == old(p.x) && p.y == old(p.y) && (p.destroyed <==> P.OutOfBounds(p.x, p.y, width, height))
      ensures Counters() == old(Counters()) && enemies == old(enemies)
    {
      var ps := projectiles;
      ghost var outs := OutFlags(ps, width, height);
      var kept := CullProjectiles(ps);
      SelectedAreLive(ps, outs);
      projectiles := kept;
    }

    /** The per-frame `update`: nothing at all once the game is over;
        otherwise cull the projectiles, then try a shot. */
    method Update(now: real)
      requires Valid()
      modifies this, projectiles
      ensures Valid()
      ensures enemies == old(enemies)
      ensures old(gameOver) ==>
        Counters() == old(Counters()) && projectiles == old(projectiles)
        && forall p :: p in old(projectiles) ==> unchanged(p)
      ensures !old(gameOver) ==>
        var kept := Select(old(projectiles), old(OutFlags(projectiles, width, height)));
        var target := old(TargetAmong(base.x, base.y, enemies));
        if now - old(lastShotTime) < old(fireRate) || target.None? then
          Counters() == old(Counters()) && projectiles == kept
        else
          Counters() == old(Counters()).(lastShotTime := now)
          && |projectiles| == |kept| + 1 && projectiles[..|kept|] == kept
          && var p := projectiles[|kept|];
             fresh(p) && p.damage == baseDamage && p.speed == P.Speed
             && p.x == base.x && p.y == base.y
             && p.targetX == enemies[target.value].x && p.targetY == enemies[target.value].y
    {
      if gameOver {
        return;
      }
      ghost var kept := Select(projectiles, OutFlags(projectiles, width, height));
      ghost var target := TargetAmong(base.x, base.y, enemies);
      ghost var counters := Counters();
      UpdateProjectiles();
      assert projectiles == kept && Counters() == counters;
      assert TargetAmong(base.x, base.y, enemies) == target;
      ShootAtNearestEnemy(now);
    }
  }
}
