/** A projectile (src/scripts/objects/projectile.ts): a fixed speed and damage
    set once, and an update that destroys it when it has left the play area
    by more than a 50-unit margin. */
module ProjectileObject {

  /** Every projectile travels at this speed, whatever it is aimed at. */
  const Speed: int := 300

  /** How far outside the visible area a projectile may go before it is destroyed. */
  const Margin: real := 50.0

  /** The out-of-bounds test of `update`, on a play area of the given size. */
  function OutOfBounds(x: real, y: real, width: real, height: real): (out: bool)
    ensures out <==> !(-Margin <= x <= width + Margin && -Margin <= y <= height + Margin)
  {
    x < -50.0 || x > width + 50.0 || y < -50.0 || y > height + 50.0
  }

  class Projectile {
    const speed: int
    const damage: int
    /** The position it was aimed at when it was fired. */
    const targetX: real
    const targetY: real
    var x: real
    var y: real
    var destroyed: bool

    constructor (x: real, y: real, targetX: real, targetY: real, damage: int)
      ensures speed == Speed && this.damage == damage
      ensures this.x == x && this.y == y && this.targetX == targetX && this.targetY == targetY
      ensures !destroyed
    {
      speed := 300;
      this.damage := damage;
      this.targetX := targetX;
      this.targetY := targetY;
      this.x := x;
      this.y := y;
      destroyed := false;
    }

    function GetDamage(): int
    {
      damage
    }

    /** Destroys the projectile exactly when it is out of bounds; speed and
        damage are constant fields, so no update can change them. */
    method Update(width: real, height: real)
      modifies this
      ensures destroyed == (old(destroyed) || OutOfBounds(x, y, width, height))
      ensures x == old(x) && y == old(y)
    {
      if x < -50.0 || x > width + 50.0 || y < -50.0 || y > height + 50.0 {
        Destroy();
      }
    }

    method Destroy()
      modifies this
      ensures destroyed
      ensures x == old(x) && y == old(y)
    {
      destroyed := true;
    }

    /** The engine has moved the projectile to (nx, ny). */
    method MoveTo(nx: real, ny: real)
      modifies this
      ensures x == nx && y == ny && destroyed == old(destroyed)
    {
      x, y := nx, ny;
    }
  }

  /** A projectile anywhere in the closed box [-50, width+50] x
      [-50, height+50], its edges and corners included, is not out of bounds,
      so `Update` leaves it alive; one step past an edge is out. */
  lemma ClosedBoxSurvives(x: real, y: real, width: real, height: real)
    requires -Margin <= x <= width + Margin && -Margin <= y <= height + Margin
    ensures !OutOfBounds(x, y, width, height)
    ensures !OutOfBounds(-Margin, -Margin, width, height) == (0.0 <= width + 2.0 * Margin && 0.0 <= height + 2.0 * Margin)
    ensures OutOfBounds(width + Margin + 1.0, y, width, height) && OutOfBounds(x, -Margin - 1.0, width, height)
  {
  }

  /** A projectile carries the damage it was fired with and the fixed speed,
      whatever it is aimed at, and keeps both through any number of
      updates. */
  method PayloadKept(x: real, y: real, targetX: real, targetY: real, damage: int, width: real, height: real)
    returns (carried: int, speed: int)
    ensures carried == damage && speed == Speed
  {
    var p := new Projectile(x, y, targetX, targetY, damage);
    p.Update(width, height);
    p.Update(width, height);
    carried, speed := p.GetDamage(), p.speed;
  }
}
