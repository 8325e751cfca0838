/** The formulas of the main scene (src/scripts/scenes/mainScene.ts), as
    functions of their inputs: the wave quota, the spawn delay, the edge a new
    enemy appears on, its tier, the upgrade purchase, and the choice of the
    nearest enemy in range. Random rolls are parameters. */
module SceneRules {
  import opened Common

  /** The value of `wave` before the first wave starts. */
  const InitialWave: int := 1

  /** Enemies in wave `wave`: five, and three more per later wave. */
  function Quota(wave: int): (q: int)
    ensures wave >= 1 ==> q >= 5
  {
    5 + (wave - 1) * 3
  }

  /** Each wave brings three enemies more than the one before. */
  lemma QuotaStep(wave: int)
    ensures Quota(wave + 1) == Quota(wave) + 3
  {
  }

  /** Since the wave number is raised before its quota is computed, the first
      wave played is wave 2, with eight enemies. */
  lemma FirstWavePlayed()
    ensures InitialWave + 1 == 2 && Quota(InitialWave + 1) == 8
  {
  }

  /** Milliseconds between spawns in wave `wave`. */
  function SpawnDelay(wave: int): (d: int)
    ensures wave >= 0 ==> 1000 <= d <= 2000
    ensures d == if 2000 - 50 * wave > 1000 then 2000 - 50 * wave else 1000
  {
    2000 - (if wave * 50 < 1000 then wave * 50 else 1000)
  }

  /** The delay never grows as the wave number grows. */
  lemma SpawnDelayNonIncreasing(w1: int, w2: int)
    requires w1 <= w2
    ensures SpawnDelay(w2) <= SpawnDelay(w1)
  {
  }

  /** A roll of `Math.random`. */
  predicate IsRoll(r: real)
  {
    0.0 <= r < 1.0
  }

  /** The edge chosen by a roll: 0 top, 1 right, 2 bottom, 3 left. */
  function Side(roll: real): (side: int)
    requires IsRoll(roll)
    ensures 0 <= side <= 3
    ensures side as real <= roll * 4.0 < side as real + 1.0
  {
    (roll * 4.0).Floor
  }

  datatype Point = Point(x: real, y: real)

  /** A roll scales a length to a point within it. */
  lemma Scaled(roll: real, length: real)
    requires IsRoll(roll) && length >= 0.0
    ensures 0.0 <= roll * length <= length
  {
    assert length - roll * length == (1.0 - roll) * length;
  }

  /** Where a new enemy appears: 20 units outside the chosen edge, at a
      position along it given by the second roll. */
  function SpawnPoint(sideRoll: real, alongRoll: real, width: real, height: real): (p: Point)
    requires IsRoll(sideRoll) && IsRoll(alongRoll)
    requires width >= 0.0 && height >= 0.0
    ensures (p.y == -20.0 || p.y == height + 20.0) ==> 0.0 <= p.x <= width
    ensures (p.x == -20.0 || p.x == width + 20.0) ==> 0.0 <= p.y <= height
    ensures p.y == -20.0 || p.x == width + 20.0 || p.y == height + 20.0 || p.x == -20.0
    ensures Side(sideRoll) == 0 <==> p.y == -20.0
    ensures Side(sideRoll) == 1 <==> p.x == width + 20.0
    ensures Side(sideRoll) == 2 <==> p.y == height + 20.0
    ensures Side(sideRoll) == 3 <==> p.x == -20.0
    ensures Side(sideRoll) % 2 == 0 ==> p.x == alongRoll * width
    ensures Side(sideRoll) % 2 == 1 ==> p.y == alongRoll * height
  {
    Scaled(alongRoll, width);
    Scaled(alongRoll, height);
    match Side(sideRoll)
    case 0 => Point(alongRoll * width, -20.0)
    case 1 => Point(width + 20.0, alongRoll * height)
    case 2 => Point(alongRoll * width, height + 20.0)
    case _ => Point(-20.0, alongRoll * height)
  }

  /** The roll that puts a point at `t` along an edge of the given length. */
  lemma RollAlong(t: real, length: real) returns (a: real)
    requires 0.0 <= t < length
    ensures IsRoll(a) && a * length == t
  {
    a := t / length;
  }

  /** Every point along each edge, 20 units outside the screen, is where a
      new enemy appears for some pair of rolls whose first picks that edge. */
  lemma EveryEdgePointOccurs(width: real, height: real, t: real)
    requires width >= 0.0 && height >= 0.0
    ensures 0.0 <= t < width ==>
      exists s, a :: IsRoll(s) && IsRoll(a) && Side(s) == 0 && SpawnPoint(s, a, width, height) == Point(t, -20.0)
    ensures 0.0 <= t < height ==>
      exists s, a :: IsRoll(s) && IsRoll(a) && Side(s) == 1 && SpawnPoint(s, a, width, height) == Point(width + 20.0, t)
    ensures 0.0 <= t < width ==>
      exists s, a :: IsRoll(s) && IsRoll(a) && Side(s) == 2 && SpawnPoint(s, a, width, height) == Point(t, height + 20.0)
    ensures 0.0 <= t < height ==>
      exists s, a :: IsRoll(s) && IsRoll(a) && Side(s) == 3 && SpawnPoint(s, a, width, height) == Point(-20.0, t)
  {
    if 0.0 <= t < width {
      var a := RollAlong(t, width);
      assert Side(0.0) == 0 && SpawnPoint(0.0, a, width, height) == Point(t, -20.0);
      assert Side(0.5) == 2 && SpawnPoint(0.5, a, width, height) == Point(t, height + 20.0);
    }
    if 0.0 <= t < height {
      var a := RollAlong(t, height);
      assert Side(0.25) == 1 && SpawnPoint(0.25, a, width, height) == Point(width + 20.0, t);
      assert Side(0.75) == 3 && SpawnPoint(0.75, a, width, height) == Point(-20.0, t);
    }
  }

  /** The tier of a new enemy. From wave 4 a first roll above 0.7 gives tier 2;
      from wave 7 that roll is discarded and a second roll above 0.8 gives
      tier 3, otherwise a third roll above 0.5 gives tier 2. */
  function EnemyType(wave: int, roll1: real, roll2: real, roll3: real): (kind: int)
    ensures 1 <= kind <= 3
    ensures wave <= 3 ==> kind == 1
    ensures 4 <= wave <= 6 ==> (kind == 2 <==> roll1 > 0.7) && kind != 3
    ensures wave > 6 ==> (kind == 3 <==> roll2 > 0.8) && (kind == 2 <==> roll2 <= 0.8 && roll3 > 0.5)
  {
    var fromWave4 := if wave > 3 then (if roll1 > 0.7 then 2 else 1) else 1;
    if wave > 6 then (if roll2 > 0.8 then 3 else if roll3 > 0.5 then 2 else 1) else fromWave4
  }

  /** Every tier the rule allows in a wave occurs for some rolls. */
  lemma EveryAllowedTierOccurs(wave: int)
    ensures exists r1, r2, r3 :: IsRoll(r1) && IsRoll(r2) && IsRoll(r3) && EnemyType(wave, r1, r2, r3) == 1
    ensures wave > 3 ==> exists r1, r2, r3 :: IsRoll(r1) && IsRoll(r2) && IsRoll(r3) && EnemyType(wave, r1, r2, r3) == 2
    ensures wave > 6 ==> exists r1, r2, r3 :: IsRoll(r1) && IsRoll(r2) && IsRoll(r3) && EnemyType(wave, r1, r2, r3) == 3
  {
    assert EnemyType(wave, 0.0, 0.0, 0.0) == 1;
    if wave > 3 {
      assert EnemyType(wave, 0.9, 0.6, 0.6) == 2;
    }
    if wave > 6 {
      assert EnemyType(wave, 0.0, 0.9, 0.0) == 3;
    }
  }

  /** Gold left after a purchase of cost `cost`, or None when the funds are short. */
  function Spend(gold: int, cost: int): (r: Option<int>)
    ensures r.Some? <==> gold >= cost
    ensures r.Some? ==> r.value + cost == gold
    ensures r.Some? && cost >= 0 ==> 0 <= r.value <= gold
  {
    if gold >= cost then Some(gold - cost) else None
  }

  /** Square of the distance between two points; comparing squares of
      non-negative distances orders them as the distances themselves. */
  function SquaredDistance(x1: real, y1: real, x2: real, y2: real): (d: real)
    ensures d >= 0.0
  {
    (x2 - x1) * (x2 - x1) + (y2 - y1) * (y2 - y1)
  }

  /** Comparing squares of non-negative distances orders them as the
      distances themselves, so the scan may compare squared distances
      against the squared range. */
  lemma SquaresKeepOrder(a: real, b: real)
    requires a >= 0.0 && b >= 0.0
    ensures a < b <==> a * a < b * b
  {
    var aa, ab, bb := a * a, a * b, b * b;
    if a < b {
      assert aa <= ab by {
        assert ab - aa == a * (b - a);
      }
      assert ab < bb by {
        assert bb - ab == (b - a) * b;
      }
    } else {
      assert bb <= ab by {
        assert ab - bb == b * (a - b);
      }
      assert ab <= aa by {
        assert aa - ab == (a - b) * a;
      }
    }
  }

  /** The scan over the enemies, front to back: keep the first whose distance
      is below the best so far, starting from the range limit. */
  function NearestWithin(ds: seq<real>, limit: real): (r: Option<nat>)
    ensures r.Some? ==> r.value < |ds| && ds[r.value] < limit
    ensures r.Some? ==> forall j :: 0 <= j < |ds| ==> ds[r.value] <= ds[j]
    ensures r.Some? ==> forall j :: 0 <= j < r.value ==> ds[r.value] < ds[j]
    ensures r.None? <==> forall j :: 0 <= j < |ds| ==> ds[j] >= limit
    decreases |ds|
  {
    if ds == [] then None
    else
      var last := |ds| - 1;
      var front := NearestWithin(ds[..last], limit);
      var best := if front.None? then limit else ds[front.value];
      if ds[last] < best then Some(last) else front
  }

  /** The characterisation pins the choice down: any index with those
      properties is the one the scan picks. */
  lemma {:induction false} NearestIsUnique(ds: seq<real>, limit: real, k: nat)
    requires k < |ds| && ds[k] < limit
    requires forall j :: 0 <= j < |ds| ==> ds[k] <= ds[j]
    requires forall j :: 0 <= j < k ==> ds[k] < ds[j]
    ensures NearestWithin(ds, limit) == Some(k)
  {
    var r := NearestWithin(ds, limit);
    assert r.Some? by {
      assert !(ds[k] >= limit);
    }
  }
}
