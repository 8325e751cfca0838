/** The player's base (src/scripts/objects/base.ts): a current and a maximum
    health that damage, healing and the max-health upgrade change in place,
    a destroyed test, and the colour band of its health bar. */
module BaseObject {

  /** Both health values of the base; the class keeps its fields equal to one. */
  datatype Health = Health(current: int, maximum: int)

  /** The bounds the clamps in the base are there to keep. */
  ghost predicate Sound(h: Health)
  {
    0 <= h.current <= h.maximum
  }

  /** A new base starts full at this health. */
  const StartingHealth: int := 100

  /** Health-bar colours (the fill colours the bar is drawn with). */
  const Green: int := 0x00FF00
  const Yellow: int := 0xFFFF00
  const Red: int := 0xFF0000

  /** Health after taking `amount` damage: subtract, then clamp at zero. */
  function Damaged(h: Health, amount: int): (r: Health)
    ensures r.maximum == h.maximum
    ensures r.current >= 0
    ensures r.current == 0 <==> h.current <= amount
    ensures r.current > 0 ==> r.current == h.current - amount
  {
    var c := h.current - amount;
    Health(if c < 0 then 0 else c, h.maximum)
  }

  /** Health after healing `amount`: add, then clamp at the maximum. */
  function Healed(h: Health, amount: int): (r: Health)
    ensures r.maximum == h.maximum
    ensures r.current <= h.maximum
    ensures r.current == h.maximum <==> h.current + amount >= h.maximum
    ensures r.current < h.maximum ==> r.current == h.current + amount
  {
    var c := h.current + amount;
    Health(if c > h.maximum then h.maximum else c, h.maximum)
  }

  /** Health after the maximum is raised by `amount`: the current value
      rises with it, so the missing health stays the same. */
  function Raised(h: Health, amount: int): (r: Health)
    ensures r.maximum - h.maximum == amount && r.current - h.current == amount
    ensures r.maximum - r.current == h.maximum - h.current
    ensures Sound(h) && amount >= 0 ==> Sound(r)
  {
    Health(h.current + amount, h.maximum + amount)
  }

  /** The destroyed test: no health left. Under the clamp this means exactly zero. */
  function Destroyed(h: Health): (b: bool)
    ensures Sound(h) ==> (b <==> h.current == 0)
  {
    h.current <= 0
  }

  /** The colour band of the health bar: above a half green, above a quarter
      yellow, otherwise red. */
  function BarColour(h: Health): (c: int)
    ensures c == Green <==> 2 * h.current > h.maximum
    ensures c == Yellow <==> 2 * h.current <= h.maximum && 4 * h.current > h.maximum
    ensures c == Red <==> 2 * h.current <= h.maximum && 4 * h.current <= h.maximum
  {
    if h.current as real > h.maximum as real * 0.5 then Green
    else if h.current as real > h.maximum as real * 0.25 then Yellow
    else Red
  }

  /** A full, living base shows green and a destroyed sound base shows red. */
  lemma BarColourEnds(h: Health)
    requires Sound(h)
    ensures h.current == h.maximum > 0 ==> BarColour(h) == Green
    ensures Destroyed(h) ==> BarColour(h) == Red
  {
  }

  /** One of the three health changes the base offers. */
  datatype Change = DamageBy(amount: int) | HealBy(amount: int) | RaiseMaxBy(amount: int)

  function Apply(h: Health, c: Change): Health
  {
    match c
    case DamageBy(a) => Damaged(h, a)
    case HealBy(a) => Healed(h, a)
    case RaiseMaxBy(a) => Raised(h, a)
  }

  function ApplyAll(h: Health, cs: seq<Change>): Health
    decreases |cs|
  {
    if cs == [] then h else ApplyAll(Apply(h, cs[0]), cs[1..])
  }

  ghost predicate NonNegative(cs: seq<Change>)
  {
    forall i :: 0 <= i < |cs| ==> cs[i].amount >= 0
  }

  /** Any single change with a non-negative amount keeps the bounds. */
  lemma ChangeKeepsSound(h: Health, c: Change)
    requires Sound(h) && c.amount >= 0
    ensures Sound(Apply(h, c))
    ensures Apply(h, c).maximum >= h.maximum
  {
  }

  /** Any sequence of changes with non-negative amounts keeps
      0 <= current <= maximum, and the maximum never shrinks. */
  lemma {:induction false} ChangesKeepSound(h: Health, cs: seq<Change>)
    requires Sound(h) && NonNegative(cs)
    ensures Sound(ApplyAll(h, cs))
    ensures ApplyAll(h, cs).maximum >= h.maximum
    decreases |cs|
  {
    if cs != [] {
      ChangeKeepsSound(h, cs[0]);
      assert NonNegative(cs[1..]) by {
        forall i | 0 <= i < |cs[1..]| ensures cs[1..][i].amount >= 0 {
          assert cs[1..][i] == cs[i + 1];
        }
      }
      ChangesKeepSound(Apply(h, cs[0]), cs[1..]);
    }
  }

  /** The base as the scene holds it: its health fields change in place. */
  class Base {
    const x: real
    const y: real
    var maxHealth: int
    var currentHealth: int

    function State(): Health
      reads this
    {
      Health(currentHealth, maxHealth)
    }

    ghost predicate Valid()
      reads this
    {
      Sound(State())
    }

    constructor (x: real, y: real)
      ensures this.x == x && this.y == y
      ensures State() == Health(StartingHealth, StartingHealth)
      ensures Valid()
    {
      this.x := x;
      this.y := y;
      maxHealth := StartingHealth;
      currentHealth := StartingHealth;
    }

    method TakeDamage(damage: int)
      modifies this
      ensures State() == Damaged(old(State()), damage)
      ensures old(Valid()) && damage >= 0 ==> Valid()
    {
      currentHealth := currentHealth - damage;
      if currentHealth < 0 {
        currentHealth := 0;
      }
    }

    method Heal(amount: int)
      modifies this
      ensures State() == Healed(old(State()), amount)
      ensures old(Valid()) && amount >= 0 ==> Valid()
    {
      currentHealth := currentHealth + amount;
      if currentHealth > maxHealth {
        currentHealth := maxHealth;
      }
    }

    method IncreaseMaxHealth(amount: int)
      modifies this
      ensures State() == Raised(old(State()), amount)
      ensures old(Valid()) && amount >= 0 ==> Valid()
    {
      maxHealth := maxHealth + amount;
      currentHealth := currentHealth + amount;
    }

    function GetHealth(): (h: int)
      reads this
      ensures Valid() ==> 0 <= h <= maxHealth
    {
      currentHealth
    }

    function GetMaxHealth(): (m: int)
      reads this
      ensures Valid() ==> m >= currentHealth && m >= 0
    {
      maxHealth
    }

    predicate IsDestroyed()
      reads this
      ensures IsDestroyed() <==> currentHealth <= 0
      ensures Valid() ==> (IsDestroyed() <==> currentHealth == 0)
    {
      Destroyed(State())
    }

    function HealthColour(): (c: int)
      reads this
      ensures c == Green <==> 2 * currentHealth > maxHealth
      ensures c == Yellow <==> 2 * currentHealth <= maxHealth && 4 * currentHealth > maxHealth
      ensures c == Red <==> 2 * currentHealth <= maxHealth && 4 * currentHealth <= maxHealth
    {
      BarColour(State())
    }
  }
}
