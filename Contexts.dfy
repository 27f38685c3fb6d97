/**
 * The managers the game reaches through their static Instance properties, gathered in one
 * object.  Every manager may be missing; the readers below supply the fallbacks the code
 * uses when an Instance is null.
 */
module Contexts {
  import opened BigDoubles
  import opened Dimensions
  import opened GameManagers
  import opened TickSpeed
  import opened DimBoosts
  import opened PrestigeUpgrades
  import opened Prestige

  class Context {
    const game: GameManager?
    const tickspeed: TickSpeedManager?
    const boosts: DimBoostManager?
    const prestige: PrestigeManager?

    constructor (game: GameManager?, tickspeed: TickSpeedManager?, boosts: DimBoostManager?, prestige: PrestigeManager?)
      ensures this.game == game && this.tickspeed == tickspeed && this.boosts == boosts && this.prestige == prestige
    {
      this.game := game;
      this.tickspeed := tickspeed;
      this.boosts := boosts;
      this.prestige := prestige;
    }

    /** The managers that are present are in the shape their initialisation gives them. */
    predicate Valid()
      reads game
    {
      (game != null ==> game.Valid()) && (prestige != null ==> prestige.Valid())
    }

    /** What the prestige layer adds to the tickspeed base: GetTickspeedBoost, 0 without the layer. */
    function TickspeedBoost(): (r: real)
      reads if prestige == null then {} else prestige.upgrades.Values
      ensures r >= 0.0
      ensures prestige == null ==> r == 0.0
    {
      if prestige == null then 0.0 else prestige.GetTickspeedBoost()
    }

    /**
     * The multiplier ProduceDimensions applies to the frame time: 1.0 without a tickspeed
     * manager, otherwise GetTickspeedMultiplier with the prestige boost.  It is never below 1.
     */
    function TickspeedMultiplier(): (r: real)
      reads tickspeed, if prestige == null then {} else prestige.upgrades.Values
      ensures tickspeed == null ==> r == 1.0
      ensures tickspeed != null ==> r == SpeedAt(tickspeed.tickspeedLevel, TickspeedBoost())
      ensures r >= 1.0
    {
      if tickspeed == null then 1.0
      else
        SpeedPerLevel(tickspeed.tickspeedLevel, TickspeedBoost());
        tickspeed.GetTickspeedMultiplier(TickspeedBoost())
    }

    /** The bulk bonus and the eight tier multipliers of GetProduction; NoPrestige without the layer. */
    function Effects(): (r: PrestigeEffects)
      reads if prestige == null then {} else prestige.upgrades.Values
      ensures prestige == null ==> r == NoPrestige
      ensures prestige != null ==> r.bulkIncrease == prestige.GetBulkBonusIncrease() && |r.tierMultipliers| == DimensionCount
    {
      if prestige == null then NoPrestige
      else
        PrestigeEffects(prestige.GetBulkBonusIncrease(),
          seq(DimensionCount, i requires 0 <= i < DimensionCount reads prestige.upgrades.Values => prestige.GetDimensionMultiplier(i + 1)))
    }

    /**
     * Every tier of GetProduction sees GetDimensionMultiplier(tier) of the prestige layer,
     * and 1.0 when there is no layer; the bulk bonus is 0 without one.
     */
    lemma EffectsMatchPrestige(tier: int)
      ensures prestige == null ==> TierMultiplier(Effects(), tier) == 1.0 && Effects().bulkIncrease == 0.0
      ensures prestige != null ==> TierMultiplier(Effects(), tier) == prestige.GetDimensionMultiplier(tier)
      ensures TierMultiplier(Effects(), tier) >= 1.0
    {
      if prestige != null && 1 <= tier <= DimensionCount {
        assert Effects().tierMultipliers[tier - 1] == prestige.GetDimensionMultiplier(tier);
      }
    }

    /** The production rate of a frame of the given length, as the tier loop computes it. */
    function FrameRateNow(deltaTime: real): (r: Rate)
      reads tickspeed, if prestige == null then {} else prestige.upgrades.Values
    {
      FrameRate(Effects(), Times(deltaTime, TickspeedMultiplier()))
    }

    /** GameManager.Update with the tickspeed multiplier and the prestige effects read from the context as the frame starts. */
    method Update(deltaTime: real)
      requires game != null && Valid()
      modifies game, game.dimensions
      ensures game.infinityReached == NextInfinityFlag(old(game.antimatter), old(game.infinityReached))
      ensures Lt(old(game.antimatter), Infinity) ==>
        Frame(game.antimatter, game.States()) ==
          Produce(old(game.antimatter), old(game.States()), DimensionCount, old(FrameRateNow(deltaTime)))
      ensures !Lt(old(game.antimatter), Infinity) ==> game.antimatter == old(game.antimatter) && game.States() == old(game.States())
    {
      var multiplier := TickspeedMultiplier();
      var effects := Effects();
      ghost var rate := FrameRateNow(deltaTime);
      assert rate == FrameRate(effects, Times(deltaTime, multiplier));
      game.Update(deltaTime, multiplier, effects);
    }
  }
}
