/** Short plays of the main scene on an 800 x 600 screen, each driving the
    scene's own methods and stating the numbers the game shows afterwards. */
module Scenarios {
  import opened Common
  import opened SceneRules
  import opened Scene
  import E = EnemyObject

  /** A new game: wave 2 with eight enemies due, 1.9 s between spawns, 50
      gold, a full base of 100 health, and the spawn timer running. */
  method Opening() returns (wave: int, quota: int, delay: int, gold: int, health: int, spawning: bool)
    ensures wave == 2 && quota == 8 && delay == 1900
    ensures gold == 50 && health == 100 && spawning
  {
    var scene := new MainScene(800.0, 600.0);
    wave, quota, delay := scene.wave, scene.enemiesInWave, scene.spawnDelay;
    gold, health, spawning := scene.gold, scene.base.currentHealth, scene.spawnTimerActive;
  }

  /** Buying the damage upgrade with the starting 50 gold leaves 20 gold and
      15 damage; a second purchase is refused and changes nothing. */
  method DamageUpgrade() returns (goldAfterOne: int, damageAfterOne: int, goldAfterTwo: int, damageAfterTwo: int)
    ensures goldAfterOne == 20 && damageAfterOne == 15
    ensures goldAfterTwo == 20 && damageAfterTwo == 15
  {
    var scene := new MainScene(800.0, 600.0);
    scene.BuyDamage();
    goldAfterOne, damageAfterOne := scene.gold, scene.baseDamage;
    scene.BuyDamage();
    goldAfterTwo, damageAfterTwo := scene.gold, scene.baseDamage;
  }

  /** With the starting gold, healing a full base pays 25 gold and leaves its
      health at the maximum; the max-health upgrade then costs more than is
      left. */
  method HealThenRaise() returns (gold: int, health: int, maxHealth: int)
    ensures gold == 25 && health == 100 && maxHealth == 100
  {
    var scene := new MainScene(800.0, 600.0);
    scene.BuyHeal();
    scene.BuyMaxHealth();
    gold, health, maxHealth := scene.gold, scene.base.currentHealth, scene.base.maxHealth;
  }

  /** The first enemy of wave 2 is a tier-1 enemy; when it reaches the base
      the base drops to 95 health, the enemy counts as killed, and the game
      goes on. */
  method BaseHit() returns (health: int, killed: int, over: bool, alive: int)
    ensures health == 95 && killed == 1 && !over && alive == 0
  {
    var scene := new MainScene(800.0, 600.0);
    scene.SpawnTick(0.5, 0.5, 0.9, 0.9, 0.9);
    var e := scene.enemies[0];
    scene.HandleBaseEnemyCollision(e);
    health, killed, over, alive := scene.base.currentHealth, scene.enemiesKilled, scene.gameOver, |scene.enemies|;
  }

  /** A lone enemy inside the range is the one a shot goes to. */
  lemma LoneEnemyTargeted(baseX: real, baseY: real, es: seq<E.Enemy>)
    requires |es| == 1
    requires SquaredDistance(baseX, baseY, es[0].x, es[0].y) < ProjectileRange * ProjectileRange
    ensures TargetAmong(baseX, baseY, es) == Some(0)
  {
    var ds := Distances(baseX, baseY, es);
    assert ds[..0] == [];
  }

  /** A new game whose first spawn puts a tier-1 enemy on the bottom edge,
      straight below the base. */
  method LoneEnemyScene() returns (scene: MainScene, e: E.Enemy)
    ensures fresh(scene) && fresh(scene.base) && fresh(e) && scene.Valid()
    ensures scene.enemies == [e] && scene.projectiles == []
    ensures e.x == 400.0 && e.y == 620.0 && e.currentHealth == 20 && e.xpValue == 10 && e.goldValue == 5
    ensures scene.base.x == 400.0 && scene.base.y == 500.0
    ensures scene.xp == 0 && scene.gold == 50 && scene.enemiesKilled == 0
    ensures scene.baseDamage == 10 && scene.fireRate == 1000.0 && scene.lastShotTime == 0.0
  {
    scene := new MainScene(800.0, 600.0);
    scene.SpawnTick(0.5, 0.5, 0.0, 0.0, 0.0);
    e := scene.enemies[0];
    assert e.WellFormed() && e.kind == 1;
  }

  /** With a lone enemy in range and the cooldown over, a shot is fired at it
      and hits it. */
  method ShootLoneEnemy(scene: MainScene, e: E.Enemy, now: real)
    requires scene.Valid() && scene.enemies == [e] && scene.projectiles == []
    requires now - scene.lastShotTime >= scene.fireRate
    requires SquaredDistance(scene.base.x, scene.base.y, e.x, e.y) < ProjectileRange * ProjectileRange
    modifies scene, e
    ensures scene.Valid() && scene.projectiles == [] && scene.lastShotTime == now
    ensures e.currentHealth == old(e.currentHealth) - scene.baseDamage && e.x == old(e.x) && e.y == old(e.y)
    ensures scene.baseDamage == old(scene.baseDamage) && scene.fireRate == old(scene.fireRate)
    ensures e.currentHealth > 0 ==>
      scene.enemies == [e] && scene.xp == old(scene.xp) && scene.gold == old(scene.gold)
      && scene.enemiesKilled == old(scene.enemiesKilled)
    ensures e.currentHealth <= 0 ==>
      scene.enemies == [] && scene.xp == old(scene.xp) + e.xpValue && scene.gold == old(scene.gold) + e.goldValue
      && scene.enemiesKilled == old(scene.enemiesKilled) + 1
  {
    LoneEnemyTargeted(scene.base.x, scene.base.y, scene.enemies);
    scene.ShootAtNearestEnemy(now);
    var p := scene.projectiles[0];
    scene.HandleProjectileEnemyCollision(p, e);
    assert [e][0] == e;
  }

  /** A tier-1 enemy spawned at the bottom edge below the base is in range:
      the first shot fires at it and its hit leaves it at 10 health; a shot
      the cooldown allows again kills it, paying 10 XP and 5 gold. */
  method TwoShotKill() returns (healthAfterOne: int, xp: int, gold: int, killed: int, alive: int)
    ensures healthAfterOne == 10
    ensures xp == 10 && gold == 55 && killed == 1 && alive == 0
  {
    var scene, e := LoneEnemyScene();
    ShootLoneEnemy(scene, e, 1000.0);
    healthAfterOne := e.currentHealth;
    ShootLoneEnemy(scene, e, 2000.0);
    xp, gold, killed, alive := scene.xp, scene.gold, scene.enemiesKilled, |scene.enemies|;
  }
}
