/**
 * The tickspeed upgrade: a level bought with antimatter whose price grows tenfold per level
 * and which multiplies the time every production step sees.
 */
module TickSpeed {
  import opened BigDoubles
  import opened GameManagers

  const PriceMultiplier: real := 10.0
  const SpeedMultiplierPerLevel: real := 1.1

  /** The price of the level-0 tickspeed, new BigDouble(100). */
  const TickspeedBasePrice: BigDouble := FromReal(100.0)

  /** GetTickspeedMultiplier for a level and a prestige boost: 1 at level 0, (1.1 + boost)^level otherwise. */
  function SpeedAt(level: nat, tickspeedBoost: real): real
  {
    if level == 0 then 1.0 else RealPow(SpeedMultiplierPerLevel + tickspeedBoost, level)
  }

  /**
   * The speed is exactly 1 at level 0, each level multiplies it by 1.1 + boost, and so with
   * a non-negative boost it never drops below 1.
   */
  lemma {:induction false} SpeedPerLevel(level: nat, tickspeedBoost: real)
    ensures SpeedAt(0, tickspeedBoost) == 1.0
    ensures SpeedAt(level + 1, tickspeedBoost) == (SpeedMultiplierPerLevel + tickspeedBoost) * SpeedAt(level, tickspeedBoost)
    ensures tickspeedBoost >= 0.0 ==> SpeedAt(level, tickspeedBoost) >= 1.0
  {
    var base := SpeedMultiplierPerLevel + tickspeedBoost;
    assert RealPow(base, level + 1) == base * RealPow(base, level);
    if level > 0 {
      SpeedPerLevel(level - 1, tickspeedBoost);
      if tickspeedBoost >= 0.0 {
        AtLeastOneProduct(base, SpeedAt(level - 1, tickspeedBoost));
      }
    }
  }

  /** With a non-negative boost every level bought makes production strictly faster. */
  lemma SpeedIncreases(level: nat, tickspeedBoost: real)
    requires tickspeedBoost >= 0.0
    ensures SpeedAt(level + 1, tickspeedBoost) > SpeedAt(level, tickspeedBoost)
  {
    SpeedPerLevel(level, tickspeedBoost);
    GrowsByFactor(SpeedMultiplierPerLevel + tickspeedBoost, SpeedAt(level, tickspeedBoost));
  }

  lemma GrowsByFactor(x: real, y: real)
    requires x > 1.0 && y >= 1.0
    ensures x * y > y
  {
  }

  lemma AtLeastOneProduct(x: real, y: real)
    requires x >= 1.0 && y >= 1.0
    ensures x * y >= 1.0
  {
  }

  /** Without a prestige boost the speed is 1.1^level. */
  lemma SpeedWithoutBoost(level: nat)
    ensures SpeedAt(level, 0.0) == RealPow(1.1, level)
  {
  }

  /** 100 * 10^level is the pair (1, level + 2), with no rounding. */
  lemma PriceIsPowerOfTen(level: nat)
    ensures Mul(TickspeedBasePrice, Pow(FromReal(PriceMultiplier), level)) == BigDouble(1.0, level + 2)
  {
    assert TickspeedBasePrice == BigDouble(1.0, 2);
    PowOfTen(level);
    TimesOne(1.0);
    CreateOfNormal(BigDouble(1.0, 2 + level));
  }

  class TickSpeedManager {
    var tickspeedLevel: nat

    /** A new manager starts at level 0. */
    constructor ()
      ensures tickspeedLevel == 0
    {
      tickspeedLevel := 0;
    }

    /** GetCurrentPrice: basePrice * Pow(10, level), which is exactly 10^(level + 2). */
    function GetCurrentPrice(): (r: BigDouble)
      reads this
      ensures r == BigDouble(1.0, tickspeedLevel + 2)
    {
      PriceIsPowerOfTen(tickspeedLevel);
      Mul(TickspeedBasePrice, Pow(FromReal(PriceMultiplier), tickspeedLevel))
    }

    /** CanBuyTickspeed: false without a game manager, otherwise antimatter >= the current price. */
    predicate CanBuyTickspeed(game: GameManager?)
      reads this, game
    {
      game != null && Ge(game.antimatter, GetCurrentPrice())
    }

    /** BuyTickspeed: a no-op when unaffordable; otherwise pay the price and gain exactly one level. */
    method BuyTickspeed(game: GameManager?)
      modifies this, game
      ensures !old(CanBuyTickspeed(game)) ==>
        tickspeedLevel == old(tickspeedLevel) && (game != null ==> game.antimatter == old(game.antimatter))
      ensures old(CanBuyTickspeed(game)) ==>
        game.antimatter == Sub(old(game.antimatter), BigDouble(1.0, old(tickspeedLevel) + 2)) &&
        tickspeedLevel == old(tickspeedLevel) + 1
      ensures game != null ==> game.infinityReached == old(game.infinityReached)
    {
      if !CanBuyTickspeed(game) {
        return;
      }
      var price := GetCurrentPrice();
      game.antimatter := Sub(game.antimatter, price);
      tickspeedLevel := tickspeedLevel + 1;
    }

    /**
     * GetTickspeedMultiplier.  tickspeedBoost is what the prestige layer reports
     * (GetTickspeedBoost, or 0 when there is no prestige layer).
     */
    function GetTickspeedMultiplier(tickspeedBoost: real): real
      reads this
    {
      SpeedAt(tickspeedLevel, tickspeedBoost)
    }

    /** Reset: back to level 0. */
    method Reset()
      modifies this
      ensures tickspeedLevel == 0
    {
      tickspeedLevel := 0;
    }
  }
}
