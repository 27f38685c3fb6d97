/**
 * Dimension boosts: once the highest unlocked tier has enough units, a boost resets the
 * dimensions, unlocks the next tier and doubles the multipliers of the lowest tiers.
 */
module DimBoosts {
  import opened BigDoubles
  import opened Dimensions
  import opened GameManagers
  import opened TickSpeed

  const RequiredAmount: nat := 20
  /** What GetHighestUnlockedTier reports without a game or without an unlocked tier. */
  const FallbackTier: nat := 2

  /** The downward scan of GetHighestUnlockedTier over the first n tiers. */
  function HighestAmong(ds: seq<DimState>, n: nat): int
    requires n <= |ds|
    decreases n
  {
    if n == 0 then FallbackTier else if ds[n - 1].unlocked then n else HighestAmong(ds, n - 1)
  }

  /** GetHighestUnlockedTier on the tier states. */
  function HighestUnlockedTier(ds: seq<DimState>): int
  {
    HighestAmong(ds, |ds|)
  }

  /**
   * The scan finds the largest unlocked tier among the first n, and reports 2 when none of
   * them is unlocked.
   */
  lemma {:induction false} HighestAmongSpec(ds: seq<DimState>, n: nat)
    requires n <= |ds|
    ensures (forall j :: 0 <= j < n ==> !ds[j].unlocked) ==> HighestAmong(ds, n) == FallbackTier
    ensures (exists j :: 0 <= j < n && ds[j].unlocked) ==>
      1 <= HighestAmong(ds, n) <= n && ds[HighestAmong(ds, n) - 1].unlocked &&
      forall j :: HighestAmong(ds, n) <= j < n ==> !ds[j].unlocked
    decreases n
  {
    if n > 0 && !ds[n - 1].unlocked {
      HighestAmongSpec(ds, n - 1);
    }
  }

  /** The highest tier reported is between 1 and 8 for eight tiers. */
  lemma HighestInRange(ds: seq<DimState>)
    requires |ds| == DimensionCount
    ensures 1 <= HighestUnlockedTier(ds) <= DimensionCount
  {
    HighestAmongSpec(ds, |ds|);
  }

  /** GetRequiredAmount: 20 below tier 8, otherwise the next multiple of 20 above tier 8's bought. */
  function RequiredFor(ds: seq<DimState>): int
    requires |ds| == DimensionCount
  {
    if HighestUnlockedTier(ds) < DimensionCount then RequiredAmount
    else (ds[7].bought / RequiredAmount + 1) * RequiredAmount
  }

  /** Once tier 8 is the highest, the requirement is always strictly above tier 8's bought. */
  lemma RequirementAboveTierEight(ds: seq<DimState>)
    requires |ds| == DimensionCount && HighestUnlockedTier(ds) == DimensionCount
    ensures RequiredFor(ds) > ds[7].bought
    ensures RequiredFor(ds) % RequiredAmount == 0
  {
  }

  /** CanDimBoost on the tier states of a game. */
  predicate CanBoost(ds: seq<DimState>)
    requires |ds| == DimensionCount
  {
    var highest := HighestUnlockedTier(ds);
    if highest < 2 then false
    else if highest < DimensionCount then ds[highest - 1].bought >= RequiredAmount
    else ds[7].bought >= RequiredFor(ds)
  }

  /** With tier 8 unlocked no boost is ever possible: the requirement outruns tier 8's bought. */
  lemma NoBoostWithTierEight(ds: seq<DimState>)
    requires |ds| == DimensionCount && ds[7].unlocked
    ensures !CanBoost(ds)
  {
    HighestAmongSpec(ds, |ds|);
    RequirementAboveTierEight(ds);
  }

  /** Below tier 8 a boost needs exactly 20 of the highest tier, unless that tier is tier 1 alone. */
  lemma BoostBelowTierEight(ds: seq<DimState>)
    requires |ds| == DimensionCount && HighestUnlockedTier(ds) < DimensionCount
    ensures CanBoost(ds) <==>
      HighestUnlockedTier(ds) >= 2 && ds[HighestUnlockedTier(ds) - 1].bought >= RequiredAmount
  {
  }

  /** The guard rejects only a highest tier of 1: with tiers 1 and 2 unlocked, 20 of tier 2 suffice. */
  lemma TwoTiersAreEnough(ds: seq<DimState>)
    requires |ds| == DimensionCount && ds[1].unlocked && ds[1].bought >= RequiredAmount
    requires forall j :: 2 <= j < DimensionCount ==> !ds[j].unlocked
    ensures HighestUnlockedTier(ds) == 2
    ensures CanBoost(ds)
  {
    HighestAmongSpec(ds, |ds|);
  }

  /** The multiplier a boost gives: One times new BigDouble(2.0). */
  const Doubled: BigDouble := Mul(One, FromReal(2.0))

  lemma DoubledIsTwo()
    ensures Doubled == BigDouble(2.0, 0)
  {
    Constants();
    TimesOne(2.0);
    assert Times(1.0, 2.0) == 2.0;
    CreateOfNormal(BigDouble(2.0, 0));
  }

  /**
   * The tier states after DoDimBoost with dimBoosts earlier boosts: every tier reset, tiers
   * 1 .. highest + 1 unlocked, and the lowest dimBoosts + 1 tiers at multiplier 2.
   */
  function AfterBoost(ds: seq<DimState>, dimBoosts: nat): seq<DimState>
    requires |ds| == DimensionCount
  {
    var nextTier := HighestUnlockedTier(ds) + 1;
    seq(DimensionCount, i requires 0 <= i < DimensionCount =>
      DimState(Zero, BasePrice(i), 0, i < nextTier, if i < dimBoosts + 1 then Doubled else One))
  }

  /**
   * After a boost exactly the tiers 1 .. min(old highest + 1, 8) are unlocked, nothing is
   * bought, every price is the base price, and the multiplier is 2 up to tier dimBoosts + 1,
   * 1 above it.
   */
  lemma AfterBoostSpec(ds: seq<DimState>, dimBoosts: nat, i: nat)
    requires |ds| == DimensionCount && i < DimensionCount
    ensures AfterBoost(ds, dimBoosts)[i].unlocked <==> i < HighestUnlockedTier(ds) + 1
    ensures AfterBoost(ds, dimBoosts)[i].bought == 0 && AfterBoost(ds, dimBoosts)[i].amount == Zero
    ensures AfterBoost(ds, dimBoosts)[i].currentPrice == BasePrice(i)
    ensures AfterBoost(ds, dimBoosts)[i].multiplier == if i <= dimBoosts then BigDouble(2.0, 0) else BigDouble(1.0, 0)
  {
    DoubledIsTwo();
    Constants();
  }

  /**
   * Doublings do not accumulate: a second boost right after the first leaves tier 1 at
   * multiplier 2, not 4, because every multiplier is reset to 1 before the doubling.
   */
  lemma BoostsDoNotCompound(ds: seq<DimState>, dimBoosts: nat)
    requires |ds| == DimensionCount
    ensures AfterBoost(AfterBoost(ds, dimBoosts), dimBoosts + 1)[0].multiplier == BigDouble(2.0, 0)
    ensures Value(AfterBoost(AfterBoost(ds, dimBoosts), dimBoosts + 1)[0].multiplier) == 2.0
  {
    AfterBoostSpec(AfterBoost(ds, dimBoosts), dimBoosts + 1, 0);
    FromRealValue(2.0);
    Constants();
  }

  /** The unlock step of DoDimBoost: tiers 1 and 2, then indices 2 .. nextTier - 1. */
  function UnlockRange(ds: seq<DimState>, hi: nat): seq<DimState>
    requires |ds| == DimensionCount
  {
    seq(DimensionCount, j requires 0 <= j < DimensionCount => if j < 2 || j < hi then ds[j].(unlocked := true) else ds[j])
  }

  /** Tier k unlocked, the others unchanged. */
  function Unlock(ds: seq<DimState>, k: nat): seq<DimState>
    requires k < |ds|
  {
    ds[k := ds[k].(unlocked := true)]
  }

  lemma UnlockFirstTwo(ds: seq<DimState>)
    requires |ds| == DimensionCount
    ensures Unlock(Unlock(ds, 0), 1) == UnlockRange(ds, 2)
  {
  }

  lemma UnlockRangeStep(ds: seq<DimState>, hi: nat)
    requires |ds| == DimensionCount && hi < DimensionCount
    ensures Unlock(UnlockRange(ds, hi), hi) == UnlockRange(ds, hi + 1)
  {
  }

  /** Unlocking a tier the range already unlocked changes nothing. */
  lemma UnlockRangeAgain(ds: seq<DimState>, hi: nat, k: nat)
    requires |ds| == DimensionCount && k < DimensionCount && (k < 2 || k < hi)
    ensures Unlock(UnlockRange(ds, hi), k) == UnlockRange(ds, hi)
  {
  }

  /** Ranges that cover the same indices are the same. */
  lemma UnlockRangeSame(ds: seq<DimState>, a: int, b: int)
    requires |ds| == DimensionCount && 0 <= a && 0 <= b
    requires a == b || (a <= 2 && b <= 2) || (a >= DimensionCount && b >= DimensionCount)
    ensures UnlockRange(ds, a) == UnlockRange(ds, b)
  {
  }

  /** The doubling step of DoDimBoost over the first n tiers. */
  function DoublePrefix(ds: seq<DimState>, n: nat): seq<DimState>
    requires |ds| == DimensionCount
  {
    seq(DimensionCount, j requires 0 <= j < DimensionCount =>
      if j < n then ds[j].(multiplier := Mul(ds[j].multiplier, FromReal(2.0))) else ds[j])
  }

  lemma DoublePrefixStep(ds: seq<DimState>, n: nat)
    requires |ds| == DimensionCount && n < DimensionCount
    ensures DoublePrefix(ds, n)[n := ds[n].(multiplier := Mul(ds[n].multiplier, FromReal(2.0)))] == DoublePrefix(ds, n + 1)
  {
  }

  /** Reset, unlock and double, one after the other, give AfterBoost. */
  lemma BoostSteps(ds: seq<DimState>, dimBoosts: nat)
    requires |ds| == DimensionCount
    ensures var nextTier := HighestUnlockedTier(ds) + 1;
      var boostCount := if dimBoosts + 1 < DimensionCount then dimBoosts + 1 else DimensionCount;
      DoublePrefix(UnlockRange(ResetPrefix(ds, DimensionCount), nextTier), boostCount) == AfterBoost(ds, dimBoosts)
  {
    HighestInRange(ds);
  }

  class DimBoostManager {
    var dimBoosts: nat

    /** A new manager has no boosts. */
    constructor ()
      ensures dimBoosts == 0
    {
      dimBoosts := 0;
    }

    /** GetHighestUnlockedTier: 2 without a game; otherwise the downward scan over the dimensions. */
    static method GetHighestUnlockedTier(game: GameManager?) returns (tier: int)
      requires game != null ==> game.Valid()
      ensures tier == if game == null then FallbackTier else HighestUnlockedTier(game.States())
    {
      if game == null {
        return FallbackTier;
      }
      var i := |game.dimensions| - 1;
      while i >= 0
        invariant -1 <= i < |game.dimensions|
        invariant HighestAmong(game.States(), i + 1) == HighestUnlockedTier(game.States())
        decreases i + 1
      {
        if game.dimensions[i].unlocked {
          return i + 1;
        }
        i := i - 1;
      }
      return FallbackTier;
    }

    /** GetNextUnlockTier: one above the highest unlocked tier. */
    static method GetNextUnlockTier(game: GameManager?) returns (tier: int)
      requires game != null ==> game.Valid()
      ensures tier == 1 + if game == null then FallbackTier else HighestUnlockedTier(game.States())
    {
      var highest := GetHighestUnlockedTier(game);
      tier := highest + 1;
    }

    /** GetRequiredAmount. */
    static method GetRequiredAmount(game: GameManager?) returns (required: int)
      requires game != null ==> game.Valid()
      ensures required == if game == null then RequiredAmount else RequiredFor(game.States())
    {
      var highest := GetHighestUnlockedTier(game);
      if highest < DimensionCount {
        return RequiredAmount;
      }
      if game == null {
        return RequiredAmount;
      }
      var currentBought := game.dimensions[7].bought;
      required := (currentBought / RequiredAmount + 1) * RequiredAmount;
    }

    /** CanDimBoost: false without a game; otherwise the rule of CanBoost. */
    static method CanDimBoost(game: GameManager?) returns (ok: bool)
      requires game != null ==> game.Valid()
      ensures ok == (game != null && CanBoost(game.States()))
    {
      if game == null {
        return false;
      }
      var highest := GetHighestUnlockedTier(game);
      if highest < 2 {
        return false;
      }
      if highest < DimensionCount {
        ok := game.dimensions[highest - 1].bought >= RequiredAmount;
      } else {
        var required := GetRequiredAmount(game);
        ok := game.dimensions[7].bought >= required;
      }
    }

    /**
     * DoDimBoost: a no-op unless CanDimBoost holds; otherwise antimatter back to 10, the
     * dimensions as AfterBoost says, one more boost, the infinity flag cleared and the
     * tickspeed level back to 0.
     */
    method DoDimBoost(game: GameManager?, tick: TickSpeedManager?)
      requires game != null ==> game.Valid()
      modifies this, game, if game == null then [] else game.dimensions, tick
      ensures !old(game != null && CanBoost(game.States())) ==>
        dimBoosts == old(dimBoosts) && (tick != null ==> tick.tickspeedLevel == old(tick.tickspeedLevel)) &&
        (game != null ==>
          game.antimatter == old(game.antimatter) && game.States() == old(game.States()) &&
          game.infinityReached == old(game.infinityReached))
      ensures old(game != null && CanBoost(game.States())) ==>
        game.antimatter == BigDouble(1.0, 1) && !game.infinityReached &&
        game.States() == AfterBoost(old(game.States()), old(dimBoosts)) &&
        dimBoosts == old(dimBoosts) + 1 &&
        (tick != null ==> tick.tickspeedLevel == 0)
    {
      var ok := CanDimBoost(game);
      if !ok {
        return;
      }
      Boost(game, tick);
    }

    /** The part of DoDimBoost after its guard. */
    method Boost(game: GameManager, tick: TickSpeedManager?)
      requires game.Valid() && CanBoost(game.States())
      modifies this, game, game.dimensions, tick
      ensures game.antimatter == BigDouble(1.0, 1) && !game.infinityReached
      ensures game.States() == AfterBoost(old(game.States()), old(dimBoosts))
      ensures dimBoosts == old(dimBoosts) + 1
      ensures tick != null ==> tick.tickspeedLevel == 0
    {
      var boosts := dimBoosts;
      game.antimatter := FromReal(StartingAntimatter);
      Rebuild(game, boosts);
      dimBoosts := boosts + 1;
      game.infinityReached := false;
      if tick != null {
        tick.Reset();
      }
      Constants();
    }

    /** The three dimension loops of DoDimBoost: reset, unlock up to the next tier, double the first dimBoosts + 1. */
    static method Rebuild(game: GameManager, dimBoosts: nat)
      requires game.Valid()
      modifies game.dimensions
      ensures game.States() == AfterBoost(old(game.States()), dimBoosts)
    {
      ghost var start := game.States();
      var nextTier := GetNextUnlockTier(game);
      HighestInRange(start);
      ResetEach(game);
      UnlockUpTo(game, nextTier);
      assert game.States() == UnlockRange(ResetPrefix(start, DimensionCount), nextTier);
      var boostCount := dimBoosts + 1;
      DoubleFirst(game, boostCount);
      BoostSteps(start, dimBoosts);
    }

    /** The first loop of DoDimBoost: Reset on every dimension. */
    static method ResetEach(game: GameManager)
      requires game.Valid()
      modifies game.dimensions
      ensures game.States() == ResetPrefix(old(game.States()), DimensionCount)
    {
      ghost var ds := game.States();
      for i := 0 to |game.dimensions|
        invariant game.States() == ResetPrefix(ds, i)
      {
        label before:
        assert game.States()[i] == game.dimensions[i].State();
        game.dimensions[i].Reset();
        game.OneTierChanged@before(i);
        assert game.dimensions[i].State() == ResetTier(ds[i], i);
        ResetPrefixStep(ds, i);
      }
    }

    /** Tiers 1 and 2, the loop over indices 2 .. nextTier - 1, and the next tier itself when it exists. */
    static method UnlockUpTo(game: GameManager, nextTier: int)
      requires game.Valid() && 1 <= nextTier
      modifies game.dimensions
      ensures game.States() == UnlockRange(old(game.States()), nextTier)
    {
      ghost var ds := game.States();
      UnlockOne(game, 0);
      UnlockOne(game, 1);
      UnlockFirstTwo(ds);
      var i := 2;
      while i < nextTier && i < |game.dimensions|
        invariant 2 <= i <= DimensionCount && (i == 2 || i <= nextTier)
        invariant game.States() == UnlockRange(ds, i)
      {
        UnlockOne(game, i);
        UnlockRangeStep(ds, i);
        i := i + 1;
      }
      UnlockRangeSame(ds, i, nextTier);
      if nextTier <= DimensionCount {
        UnlockOne(game, nextTier - 1);
        UnlockRangeAgain(ds, nextTier, nextTier - 1);
      }
    }

    /** dimensions[k].unlocked = true. */
    static method UnlockOne(game: GameManager, k: nat)
      requires game.Valid() && k < |game.dimensions|
      modifies game.dimensions[k]
      ensures game.States() == Unlock(old(game.States()), k)
    {
      game.dimensions[k].unlocked := true;
      game.OneTierChanged(k);
    }

    /** The doubling loop of DoDimBoost over the first boostCount tiers (at most eight). */
    static method DoubleFirst(game: GameManager, boostCount: int)
      requires game.Valid()
      modifies game.dimensions
      ensures game.States() == DoublePrefix(old(game.States()), if boostCount < 0 then 0 else if boostCount < DimensionCount then boostCount else DimensionCount)
    {
      ghost var ds := game.States();
      var i := 0;
      while i < boostCount && i < |game.dimensions|
        invariant 0 <= i <= DimensionCount && (i <= boostCount || i == 0)
        invariant game.States() == DoublePrefix(ds, i)
      {
        label before:
        assert game.States()[i] == game.dimensions[i].State();
        game.dimensions[i].ApplyPrestigeMultiplier(FromReal(2.0));
        game.OneTierChanged@before(i);
        DoublePrefixStep(ds, i);
        i := i + 1;
      }
    }

    /** Reset: no boosts. */
    method Reset()
      modifies this
      ensures dimBoosts == 0
    {
      dimBoosts := 0;
    }
  }
}
