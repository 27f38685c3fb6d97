/**
 * One entry of the prestige shop: a level bought with prestige points, whose next price
 * grows geometrically with the level and is cut to a C# int.
 */
module PrestigeUpgrades {
  import opened BigDoubles

  const IntMax: int := 2147483647
  const IntMin: int := -2147483648

  // ---------------------------------------------------------------------------
  // C# numeric conversions

  /** Truncation toward zero, as C# casts a double to an integer. */
  function Truncate(x: real): (r: int)
    ensures 0.0 <= x ==> 0 <= r && r as real <= x < r as real + 1.0
    ensures x < 0.0 ==> r <= 0 && r as real - 1.0 < x <= r as real
  {
    if x >= 0.0 then x.Floor else -((-x).Floor)
  }

  /**
   * (int) of a double: truncation toward zero, saturated at the ends of the int range, the
   * conversion of .NET 9 and later (out-of-range casts are otherwise unspecified in C#).
   */
  function CastToInt(x: real): (r: int)
    ensures IntMin <= r <= IntMax
    ensures IntMin as real <= x <= IntMax as real ==> r == Truncate(x)
    ensures x >= IntMax as real ==> r == IntMax
  {
    if x >= IntMax as real then IntMax
    else if x <= IntMin as real then IntMin
    else Truncate(x)
  }

  // ---------------------------------------------------------------------------
  // Prices

  /** cost * priceScaling^level, before the cast. */
  function ScaledCost(cost: int, priceScaling: real, level: nat): real
  {
    Times(cost as real, RealPow(priceScaling, level))
  }

  /** GetNextCost for the given fields: int.MaxValue at the cap, otherwise (int)(cost * scaling^level). */
  function NextCostAt(cost: int, maxLevel: int, priceScaling: real, level: nat): int
  {
    if level >= maxLevel then IntMax else CastToInt(ScaledCost(cost, priceScaling, level))
  }

  lemma {:induction false} RealPowAtLeast(x: real, n: nat, bound: real)
    requires bound == 0.0 || bound == 1.0
    requires x >= bound
    ensures RealPow(x, n) >= bound
  {
    if n > 0 {
      RealPowAtLeast(x, n - 1, bound);
      var p := RealPow(x, n - 1);
      assert RealPow(x, n) == x * p;
      assert x * p >= bound by {
        if bound == 1.0 {
          assert x * p >= p;
        }
      }
    }
  }

  /** At level 0 the scaled cost is the cost; with a non-negative cost and scaling it is non-negative. */
  lemma ScaledCostFacts(cost: int, priceScaling: real, level: nat)
    ensures level == 0 ==> ScaledCost(cost, priceScaling, level) == cost as real
    ensures cost >= 0 && priceScaling >= 0.0 ==> ScaledCost(cost, priceScaling, level) >= 0.0
  {
    if cost >= 0 && priceScaling >= 0.0 {
      RealPowAtLeast(priceScaling, level, 0.0);
    }
  }

  /** A price that does not shrink: a non-negative cost, a scaling of at least 1. */
  lemma CostGrowsWithLevel(cost: int, priceScaling: real, level: nat)
    requires cost >= 0 && priceScaling >= 1.0
    ensures ScaledCost(cost, priceScaling, level) <= ScaledCost(cost, priceScaling, level + 1)
  {
    var p := RealPow(priceScaling, level);
    RealPowAtLeast(priceScaling, level, 1.0);
    assert RealPow(priceScaling, level + 1) == priceScaling * p;
    assert p <= priceScaling * p;
    assert cost as real * p <= cost as real * (priceScaling * p);
  }

  lemma CastMonotone(x: real, y: real)
    requires x <= y
    ensures CastToInt(x) <= CastToInt(y)
  {
  }

  /**
   * With a non-negative cost and a scaling of at least 1, the next cost never decreases as
   * the level rises, the step onto the cap (int.MaxValue) included.
   */
  lemma NextCostMonotone(cost: int, maxLevel: int, priceScaling: real, level: nat)
    requires cost >= 0 && priceScaling >= 1.0
    ensures NextCostAt(cost, maxLevel, priceScaling, level) <= NextCostAt(cost, maxLevel, priceScaling, level + 1)
  {
    if level + 1 < maxLevel {
      CostGrowsWithLevel(cost, priceScaling, level);
      CastMonotone(ScaledCost(cost, priceScaling, level), ScaledCost(cost, priceScaling, level + 1));
    }
  }

  /** What the levels below the given one actually cost, one purchase at a time. */
  function PaidFor(cost: int, maxLevel: int, priceScaling: real, level: nat): int
  {
    if level == 0 then 0 else PaidFor(cost, maxLevel, priceScaling, level - 1) + NextCostAt(cost, maxLevel, priceScaling, level - 1)
  }

  /** With a flat price (scaling 1), cost * level is exactly what the levels cost. */
  lemma {:induction false} TotalCostIsPaidWhenFlat(cost: int, maxLevel: int, level: nat)
    requires 0 <= cost <= IntMax && level <= maxLevel
    ensures PaidFor(cost, maxLevel, 1.0, level) == cost * level
  {
    if level > 0 {
      TotalCostIsPaidWhenFlat(cost, maxLevel, level - 1);
      RealPowOne(level - 1);
      assert ScaledCost(cost, 1.0, level - 1) == cost as real;
      assert cost * level == cost * (level - 1) + cost;
    }
  }

  /**
   * With a rising price, cost * level understates what was paid: tier 8's upgrade (cost 10,
   * scaling 1.25) has cost 10 + 12 = 22 for its first two levels, GetTotalCost says 20.
   */
  lemma TotalCostUnderstatesScaled()
    ensures PaidFor(10, 999, 1.25, 2) == 22
  {
    assert RealPow(1.25, 1) == 1.25;
    assert ScaledCost(10, 1.25, 0) == 10.0 && ScaledCost(10, 1.25, 1) == 12.5;
    assert NextCostAt(10, 999, 1.25, 0) == 10;
    assert NextCostAt(10, 999, 1.25, 1) == 12;
  }

  class PrestigeUpgrade {
    const id: string
    const cost: int
    const maxLevel: int
    const priceScaling: real
    var level: nat

    /** A new upgrade at level 0 with the given cost, cap and scaling. */
    constructor (id: string, cost: int, maxLevel: int, priceScaling: real)
      ensures this.id == id && this.cost == cost && this.maxLevel == maxLevel && this.priceScaling == priceScaling
      ensures level == 0
    {
      this.id := id;
      this.cost := cost;
      this.maxLevel := maxLevel;
      this.priceScaling := priceScaling;
      level := 0;
    }

    /** GetTotalCost: cost * level (an exact count only for a flat price, see TotalCostIsPaidWhenFlat). */
    function GetTotalCost(): int
      reads this
    {
      cost * level
    }

    /** GetNextCost: int.MaxValue at or above the cap, the base cost at level 0, always a C# int. */
    function GetNextCost(): (r: int)
      reads this
      ensures IntMin <= r <= IntMax
      ensures level >= maxLevel ==> r == IntMax
      ensures level == 0 < maxLevel && IntMin <= cost <= IntMax ==> r == cost
      ensures 0 <= cost && 0.0 <= priceScaling ==> 0 <= r
    {
      ScaledCostFacts(cost, priceScaling, level);
      NextCostAt(cost, maxLevel, priceScaling, level)
    }

    /** CanAfford: enough points for the next cost, and the cap not yet reached. */
    predicate CanAfford(points: int)
      reads this
    {
      points >= GetNextCost() && level < maxLevel
    }

    /** Purchase: one level more, only below the cap; so a level at or below the cap stays there. */
    method Purchase()
      modifies this
      ensures level == if old(level) < maxLevel then old(level) + 1 else old(level)
      ensures old(level) <= maxLevel ==> level <= maxLevel
    {
      if level < maxLevel {
        level := level + 1;
      }
    }
  }

  /** An upgrade at the cap can never be afforded, however many points are offered. */
  lemma CannotAffordAtCap(u: PrestigeUpgrade, points: int)
    requires u.level >= u.maxLevel
    ensures !u.CanAfford(points)
  {
  }

  /** Affording leaves the points non-negative after paying, whenever the cost is. */
  lemma AffordLeavesPoints(u: PrestigeUpgrade, points: int)
    requires u.CanAfford(points) && u.cost >= 0 && u.priceScaling >= 0.0
    ensures 0 <= points - u.GetNextCost() <= points
  {
  }
}
