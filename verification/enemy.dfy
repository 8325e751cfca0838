/** An enemy (src/scripts/objects/enemy.ts): every stat is a fixed linear
    function of its tier 1 to 3; damage is subtracted from its health without
    a clamp, and a hit flashes it white until a delayed callback restores a
    colour that it works out from the gold value. */
module EnemyObject {

  /** Fill colours of the three tiers, and of the hit flash. */
  const Red: int := 0xFF0000
  const Orange: int := 0xFF8800
  const Magenta: int := 0xFF00FF
  const White: int := 0xFFFFFF

  /** The stats an enemy fixes at construction. */
  datatype Stats = Stats(size: int, maxHealth: int, speed: int, damage: int, xpValue: int, goldValue: int)

  /** Stats of an enemy of tier `kind`: size 20+5k, health 20k, speed 50-5k,
      damage 5k, 10k experience and 5k gold. */
  function StatsFor(kind: int): (s: Stats)
    ensures s.maxHealth == 4 * s.goldValue && s.xpValue == 2 * s.goldValue && s.damage == s.goldValue
    ensures s.size + s.speed == 70
    ensures 1 <= kind <= 3 ==> 35 <= s.speed <= 45 && 25 <= s.size <= 35
    ensures 1 <= kind <= 3 ==> 5 <= s.damage <= 15 && 5 <= s.goldValue <= 15
  {
    Stats(20 + kind * 5, 20 * kind, 50 - kind * 5, 5 * kind, 10 * kind, 5 * kind)
  }

  /** A stronger tier has more health, damage and reward, and is slower. */
  lemma StatsMonotone(k1: int, k2: int)
    requires k1 < k2
    ensures StatsFor(k1).maxHealth < StatsFor(k2).maxHealth
    ensures StatsFor(k1).damage < StatsFor(k2).damage
    ensures StatsFor(k1).goldValue < StatsFor(k2).goldValue
    ensures StatsFor(k1).xpValue < StatsFor(k2).xpValue
    ensures StatsFor(k1).speed > StatsFor(k2).speed
  {
  }

  /** The colour chosen from the tier at construction. */
  function TypeColour(kind: int): (c: int)
    ensures c in {Red, Orange, Magenta}
  {
    if kind == 1 then Red else if kind == 2 then Orange else Magenta
  }

  /** The colour the flash callback restores, worked out from the gold value. */
  function RestoreColour(goldValue: int): (c: int)
    ensures c in {Red, Orange, Magenta}
  {
    if goldValue == 5 then Red else if goldValue == 10 then Orange else Magenta
  }

  /** Working the colour out from the gold value gives back the tier's colour,
      for every integer tier (gold is 5k, which is 5 only for k = 1 and 10 only
      for k = 2). */
  lemma RestoreMatchesType(kind: int)
    ensures RestoreColour(StatsFor(kind).goldValue) == TypeColour(kind)
  {
  }

  class Enemy {
    const kind: int
    const size: int
    const maxHealth: int
    const speed: int
    const damage: int
    const xpValue: int
    const goldValue: int
    const colour: int
    const targetX: real
    const targetY: real
    var x: real
    var y: real
    var currentHealth: int
    /** The colour it is drawn with now. */
    var fill: int
    /** Flash-restore callbacks scheduled and not yet run. */
    var pendingRestores: nat

    function StatBlock(): Stats
    {
      Stats(size, maxHealth, speed, damage, xpValue, goldValue)
    }

    /** Stats and colour are those of its tier. */
    predicate WellFormed()
    {
      StatBlock() == StatsFor(kind) && colour == TypeColour(kind)
    }

    constructor (x: real, y: real, targetX: real, targetY: real, kind: int)
      ensures this.kind == kind && WellFormed()
      ensures this.x == x && this.y == y && this.targetX == targetX && this.targetY == targetY
      ensures currentHealth == maxHealth && fill == colour && pendingRestores == 0
    {
      this.kind := kind;
      size := 20 + kind * 5;
      colour := if kind == 1 then Red else if kind == 2 then Orange else Magenta;
      this.targetX := targetX;
      this.targetY := targetY;
      this.x := x;
      this.y := y;
      maxHealth := 20 * kind;
      currentHealth := 20 * kind;
      speed := 50 - kind * 5;
      damage := 5 * kind;
      xpValue := 10 * kind;
      goldValue := 5 * kind;
      fill := colour;
      pendingRestores := 0;
    }

    /** Subtracts `amount` without a clamp, flashes white, schedules the
        colour restore, and reports whether the enemy is now dead. */
    method TakeDamage(amount: int) returns (dead: bool)
      modifies this
      ensures currentHealth == old(currentHealth) - amount
      ensures dead <==> currentHealth <= 0
      ensures fill == White && pendingRestores == old(pendingRestores) + 1
      ensures x == old(x) && y == old(y)
    {
      currentHealth := currentHealth - amount;
      fill := White;
      pendingRestores := pendingRestores + 1;
      if currentHealth <= 0 {
        return true;
      }
      return false;
    }

    /** The delayed flash callback: the fill returns to the tier's colour. */
    method RestoreFill()
      requires pendingRestores > 0
      modifies this
      ensures fill == RestoreColour(goldValue)
      ensures WellFormed() ==> fill == colour
      ensures pendingRestores == old(pendingRestores) - 1
      ensures currentHealth == old(currentHealth) && x == old(x) && y == old(y)
    {
      RestoreMatchesType(kind);
      fill := if goldValue == 5 then Red else if goldValue == 10 then Orange else Magenta;
      pendingRestores := pendingRestores - 1;
    }

    function GetDamage(): (d: int)
      ensures WellFormed() ==> d == 5 * kind
    {
      damage
    }

    function GetXPValue(): (v: int)
      ensures WellFormed() ==> v == 10 * kind
    {
      xpValue
    }

    function GetGoldValue(): (v: int)
      ensures WellFormed() ==> v == 5 * kind
    {
      goldValue
    }

    /** The engine has moved the enemy to (nx, ny); the velocity that took it
        there is not part of this model. */
    method MoveTo(nx: real, ny: real)
      modifies this
      ensures x == nx && y == ny
      ensures currentHealth == old(currentHealth) && fill == old(fill) && pendingRestores == old(pendingRestores)
    {
      x, y := nx, ny;
    }
  }

  /** Hits change only the health: after any hit the getters still return
      what the constructor set for the tier, and the health has dropped by
      exactly the damage, below zero if need be. */
  method HitKeepsStats(kind: int, amount: int) returns (damage: int, xp: int, gold: int, health: int, dead: bool)
    ensures damage == 5 * kind && xp == 10 * kind && gold == 5 * kind
    ensures health == 20 * kind - amount
    ensures dead <==> amount >= 20 * kind
  {
    var e := new Enemy(0.0, 0.0, 0.0, 0.0, kind);
    dead := e.TakeDamage(amount);
    damage, xp, gold, health := e.GetDamage(), e.GetXPValue(), e.GetGoldValue(), e.currentHealth;
  }
}
