/**
 * The game state: antimatter, the eight dimensions and the infinity flag, with the
 * per-frame production cascade, the infinity gate and the guarded purchases.
 */
module GameManagers {
  import opened BigDoubles
  import opened Dimensions

  const DimensionCount: nat := 8
  const StartingAntimatter: real := 10.0

  /** Exponents of the base prices of tiers 1..8: 10, 1e3, 1e10, 1e40, 1e80, 1e130, 1e200, 1e260. */
  const BasePriceExponents: seq<int> := [1, 3, 10, 40, 80, 130, 200, 260]

  /** The base price of the dimension at index i. */
  function BasePrice(i: nat): BigDouble
    requires i < DimensionCount
  {
    BigDouble(1.0, BasePriceExponents[i])
  }

  /** The dimensions as InitializeGame leaves them: nothing bought at the base price, tiers 1 and 2 unlocked. */
  function InitialStates(): seq<DimState>
  {
    seq(DimensionCount, i requires 0 <= i < DimensionCount => InitialState(i))
  }

  /** Tier i + 1 as InitializeGame leaves it. */
  function InitialState(i: nat): DimState
    requires i < DimensionCount
  {
    DimState(Zero, BasePrice(i), 0, i < 2, One)
  }

  /** Dimension.Reset on the tier at index i: nothing bought, base price, multiplier 1, tiers above 2 locked. */
  function ResetTier(s: DimState, i: nat): DimState
    requires i < DimensionCount
  {
    DimState(Zero, BasePrice(i), 0, s.unlocked && i + 1 <= 2, One)
  }

  /** The tier states after the reset loop has passed the first n tiers. */
  function ResetPrefix(ds: seq<DimState>, n: nat): seq<DimState>
    requires |ds| == DimensionCount
  {
    seq(DimensionCount, j requires 0 <= j < DimensionCount => if j < n then ResetTier(ds[j], j) else ds[j])
  }

  /** Resetting tier n extends the reset prefix by one. */
  lemma ResetPrefixStep(ds: seq<DimState>, n: nat)
    requires |ds| == DimensionCount && n < DimensionCount
    ensures ResetPrefix(ds, n)[n := ResetTier(ds[n], n)] == ResetPrefix(ds, n + 1)
  {
  }

  /** What the prestige layer contributes to production (no layer: bulk 0, every multiplier 1). */
  datatype PrestigeEffects = PrestigeEffects(bulkIncrease: real, tierMultipliers: seq<real>)

  const NoPrestige: PrestigeEffects := PrestigeEffects(0.0, [])

  /** The multiplier for one tier; 1.0 where the layer reports none. */
  function TierMultiplier(effects: PrestigeEffects, tier: int): real
  {
    if 1 <= tier <= |effects.tierMultipliers| then effects.tierMultipliers[tier - 1] else 1.0
  }

  /** Antimatter and the dimension fields: what one frame of production changes. */
  datatype Frame = Frame(antimatter: BigDouble, dims: seq<DimState>)

  /** What a tier adds to the tier below in one frame, from its fields and its tier number. */
  type Rate = (DimState, int) -> BigDouble

  /** The rate of the game: GetProduction of the tier times the frame time dt. */
  function FrameRate(effects: PrestigeEffects, dt: real): Rate
  {
    (d: DimState, tier: int) => Mul(Production(d, effects.bulkIncrease, TierMultiplier(effects, tier)), FromReal(dt))
  }

  /** rate gives what FrameRate(effects, dt) gives, tier by tier. */
  ghost predicate IsFrameRate(rate: Rate, effects: PrestigeEffects, dt: real)
  {
    forall d: DimState, tier: int {:trigger FrameRate(effects, dt)(d, tier)} :: rate(d, tier) == FrameRate(effects, dt)(d, tier)
  }

  /** A tier produces when it is unlocked and its amount is nonzero. */
  predicate Active(d: DimState)
  {
    d.unlocked && d.amount.mantissa != 0.0
  }

  /** The amount of tier i + 1 grown by what tier i + 2 produced. */
  function Fed(ds: seq<DimState>, i: nat, output: BigDouble): seq<DimState>
    requires i < |ds|
  {
    ds[i := ds[i].(amount := Add(ds[i].amount, output))]
  }

  /**
   * ProduceDimensions over the indices n - 1 down to 0: an active tier n adds its output to
   * tier n - 1 (tier 1 to antimatter) at once, so the next lower tier already sees the new amount.
   */
  function Produce(am: BigDouble, ds: seq<DimState>, n: nat, rate: Rate): Frame
    requires n <= |ds|
    decreases n
  {
    if n == 0 then
      Frame(am, ds)
    else if !Active(ds[n - 1]) then
      Produce(am, ds, n - 1, rate)
    else if n == 1 then
      Frame(Add(am, rate(ds[0], 1)), ds)
    else
      Produce(am, Fed(ds, n - 2, rate(ds[n - 1], n)), n - 1, rate)
  }

  /** The fields production may not touch. */
  predicate SamePurchases(a: DimState, b: DimState)
  {
    a.bought == b.bought && a.currentPrice == b.currentPrice && a.multiplier == b.multiplier && a.unlocked == b.unlocked
  }

  /**
   * Production changes only amounts: bought, price, multiplier and unlock of every tier are
   * kept, and tier n (the top one visited) and everything above it keep their amount too.
   */
  lemma {:induction false} ProduceKeeps(am: BigDouble, ds: seq<DimState>, n: nat, rate: Rate)
    requires n <= |ds|
    ensures |Produce(am, ds, n, rate).dims| == |ds|
    ensures forall j :: 0 <= j < |ds| ==> SamePurchases(Produce(am, ds, n, rate).dims[j], ds[j])
    ensures forall j :: 0 <= j < |ds| && n <= j + 1 ==> Produce(am, ds, n, rate).dims[j] == ds[j]
    decreases n
  {
    if n > 0 {
      if !Active(ds[n - 1]) {
        ProduceKeeps(am, ds, n - 1, rate);
      } else if n > 1 {
        ProduceKeeps(am, Fed(ds, n - 2, rate(ds[n - 1], n)), n - 1, rate);
      }
    }
  }

  /** With no active tier nothing is produced. */
  lemma {:induction false} ProduceIdle(am: BigDouble, ds: seq<DimState>, n: nat, rate: Rate)
    requires n <= |ds|
    requires forall j :: 0 <= j < n ==> !Active(ds[j])
    ensures Produce(am, ds, n, rate) == Frame(am, ds)
    decreases n
  {
    if n > 0 {
      ProduceIdle(am, ds, n - 1, rate);
    }
  }

  /** Antimatter comes only from tier 1: while it is locked, antimatter does not change. */
  lemma {:induction false} AntimatterOnlyFromTierOne(am: BigDouble, ds: seq<DimState>, n: nat, rate: Rate)
    requires 0 < |ds| && n <= |ds| && !ds[0].unlocked
    ensures Produce(am, ds, n, rate).antimatter == am
    decreases n
  {
    if n > 1 {
      if Active(ds[n - 1]) {
        AntimatterOnlyFromTierOne(am, Fed(ds, n - 2, rate(ds[n - 1], n)), n - 1, rate);
      } else {
        AntimatterOnlyFromTierOne(am, ds, n - 1, rate);
      }
    }
  }

  /** One pass of the loop at index i: an active tier feeds the tier below it, or antimatter from tier 1. */
  function Visit(am: BigDouble, ds: seq<DimState>, i: nat, rate: Rate): Frame
    requires i < |ds|
  {
    if !Active(ds[i]) then Frame(am, ds)
    else if i == 0 then Frame(Add(am, rate(ds[0], 1)), ds)
    else Frame(am, Fed(ds, i - 1, rate(ds[i], i + 1)))
  }

  /** Produce over i + 1 tiers is the pass at index i followed by Produce over the first i. */
  lemma ProduceUnfold(am: BigDouble, ds: seq<DimState>, i: nat, rate: Rate)
    requires i < |ds|
    ensures |Visit(am, ds, i, rate).dims| == |ds|
    ensures Produce(am, ds, i + 1, rate) ==
      Produce(Visit(am, ds, i, rate).antimatter, Visit(am, ds, i, rate).dims, i, rate)
  {
  }

  /** CheckInfinity: set the flag at >= Infinity, clear it below; otherwise leave it. */
  function NextInfinityFlag(am: BigDouble, flag: bool): bool
  {
    if Ge(am, Infinity) && !flag then true
    else if Lt(am, Infinity) && flag then false
    else flag
  }

  /** Unless antimatter is within the epsilon just below Infinity, the flag ends as "antimatter >= Infinity". */
  lemma InfinityFlagTracks(am: BigDouble, flag: bool)
    requires !(Ge(am, Infinity) && Lt(am, Infinity))
    ensures NextInfinityFlag(am, flag) == Ge(am, Infinity)
  {
    GeOrLt(am, Infinity);
  }

  /** Just below Infinity both >= and < hold, so each frame flips the flag. */
  lemma InfinityFlagFlickers()
    ensures NextInfinityFlag(BigDouble(1.78999999999, 308), false)
    ensures !NextInfinityFlag(BigDouble(1.78999999999, 308), true)
  {
    Constants();
  }

  /** The multi-unit estimate of CanBuyDimension/BuyDimension after i units: running total and price. */
  datatype Estimate = Estimate(total: BigDouble, price: BigDouble)

  /** The estimate's price after the justBought-th unit: times 1.2, and by a flat 5 on every decade. */
  function EstimateStep(price: BigDouble, justBought: int): BigDouble
  {
    var next := Mul(price, FromReal(PriceIncreasePerPurchase));
    if CompletesDecade(justBought) then Mul(next, FromReal(PriceIncreasePer10)) else next
  }

  /** The flat 5 is the true decade factor on the first decade and on no decade. */
  lemma EstimateStepIsPriceStep(price: BigDouble, justBought: int)
    requires CompletesDecade(justBought) ==> justBought == 10
    ensures EstimateStep(price, justBought) == PriceStep(price, justBought)
  {
    if CompletesDecade(justBought) {
      assert DecadeFactor(justBought) == PriceIncreasePer10;
    }
  }

  /** Each unit adds the current price to the total, then the price takes one estimate step. */
  function EstimateAfter(price: BigDouble, bought: int, i: nat): Estimate
  {
    if i == 0 then
      Estimate(Zero, price)
    else
      var e := EstimateAfter(price, bought, i - 1);
      Estimate(Add(e.total, e.price), EstimateStep(e.price, bought + i))
  }

  /** The cost CanBuyDimension and BuyDimension charge for count units: the current price when count <= 1. */
  function EstimatedCost(price: BigDouble, bought: int, count: nat): BigDouble
  {
    if count > 1 then EstimateAfter(price, bought, count).total else price
  }

  /** The true cost of count units: the sum of the prices UpdatePrice walks through. */
  function WalkCost(price: BigDouble, bought: int, count: nat): BigDouble
  {
    if count == 0 then Zero else Add(WalkCost(price, bought, count - 1), PriceAfter(price, bought, count - 1))
  }

  /** No decade after the first completes among the units bought + 1 .. bought + m. */
  predicate OnlyFirstDecade(bought: int, m: nat)
  {
    forall j :: bought < j <= bought + m && CompletesDecade(j) ==> j == 10
  }

  /** The flat 5 equals the true factor 5 * 1.15^0 at the first decade, so the prices agree until a later one. */
  lemma {:induction false} EstimatePriceMatches(price: BigDouble, bought: int, m: nat)
    requires OnlyFirstDecade(bought, m)
    ensures EstimateAfter(price, bought, m).price == PriceAfter(price, bought, m)
  {
    if m > 0 {
      assert OnlyFirstDecade(bought, m - 1);
      EstimatePriceMatches(price, bought, m - 1);
      EstimateStepIsPriceStep(EstimateAfter(price, bought, m - 1).price, bought + m);
    }
  }

  /** Hence the estimate is the true cost unless a boundary at 20, 30, ... falls before the last unit. */
  lemma {:induction false} EstimateMatchesWalk(price: BigDouble, bought: int, count: nat)
    requires count > 0 && OnlyFirstDecade(bought, count - 1)
    ensures EstimateAfter(price, bought, count).total == WalkCost(price, bought, count)
  {
    if count > 1 {
      assert OnlyFirstDecade(bought, count - 2);
      EstimateMatchesWalk(price, bought, count - 1);
      EstimatePriceMatches(price, bought, count - 1);
    }
  }

  /** Two units of a 10-priced tier with 19 bought: the estimate charges 70, the walk costs 79. */
  lemma EstimateMissesLaterDecades()
    ensures EstimatedCost(BigDouble(1.0, 1), 19, 2) == BigDouble(7.0, 1)
    ensures WalkCost(BigDouble(1.0, 1), 19, 2) == BigDouble(7.9, 1)
  {
    Constants();
    assert FromReal(1.2) == BigDouble(1.2, 0);
    assert FromReal(5.0) == BigDouble(5.0, 0);
    assert FromReal(5.75) == BigDouble(5.75, 0);
    assert DecadeFactor(20) == 5.75;
    assert Mul(BigDouble(1.0, 1), BigDouble(1.2, 0)) == BigDouble(1.2, 1);
    assert Mul(BigDouble(1.2, 1), BigDouble(5.0, 0)) == BigDouble(6.0, 1);
    assert Mul(BigDouble(1.2, 1), BigDouble(5.75, 0)) == BigDouble(6.9, 1);
    assert PriceAfter(BigDouble(1.0, 1), 19, 1) == BigDouble(6.9, 1);
    assert Add(BigDouble(1.0, 1), BigDouble(6.0, 1)) == BigDouble(7.0, 1);
    assert Add(BigDouble(1.0, 1), BigDouble(6.9, 1)) == BigDouble(7.9, 1);
  }

  class GameManager {
    var antimatter: BigDouble
    const dimensions: seq<Dimension>
    var infinityReached: bool

    /** Eight dimensions, the i-th of tier i + 1 (so no two are the same object) at its base price. */
    predicate Valid()
    {
      |dimensions| == DimensionCount &&
      forall i :: 0 <= i < |dimensions| ==> dimensions[i].tier == i + 1 && dimensions[i].basePrice == BasePrice(i)
    }

    /** The dimension fields, tier by tier. */
    function States(): seq<DimState>
      reads dimensions
    {
      seq(|dimensions|, i reads dimensions requires 0 <= i < |dimensions| => dimensions[i].State())
    }

    /** InitializeGame: 10 antimatter and the eight tiers at their base prices, tiers 1 and 2 unlocked. */
    constructor ()
      ensures Valid() && !infinityReached
      ensures antimatter == BigDouble(1.0, 1)
      ensures States() == InitialStates()
    {
      antimatter := FromReal(StartingAntimatter);
      var ds := NewDimensions();
      dimensions := ds;
      infinityReached := false;
      new;
      BasePricesAreNormal();
    }

    /** The eight dimensions of InitializeGame, tiers 1 and 2 unlocked. */
    static method NewDimensions() returns (ds: seq<Dimension>)
      ensures |ds| == DimensionCount
      ensures forall i :: 0 <= i < DimensionCount ==> ds[i].tier == i + 1 && ds[i].basePrice == BasePrice(i)
      ensures forall i :: 0 <= i < DimensionCount ==> ds[i].State() == InitialState(i)
    {
      var low := NewLowTiers();
      var high := NewHighTiers();
      ds := low + high;
      assert forall i :: 0 <= i < 3 ==> ds[i] == low[i];
      assert forall j :: 0 <= j < 5 ==> ds[j + 3] == high[j];
    }

    /** Tiers 1 to 3, priced from doubles; tiers 1 and 2 unlocked. */
    static method NewLowTiers() returns (ds: seq<Dimension>)
      ensures |ds| == 3
      ensures forall i :: 0 <= i < 3 ==> ds[i].tier == i + 1 && ds[i].basePrice == BasePrice(i)
      ensures forall i :: 0 <= i < 3 ==> ds[i].State() == InitialState(i)
    {
      BasePricesAreNormal();
      var d1 := new Dimension.FromDouble(1, 10.0);
      var d2 := new Dimension.FromDouble(2, 1000.0);
      var d3 := new Dimension.FromDouble(3, 10000000000.0);
      d1.unlocked := true;
      d2.unlocked := true;
      ds := [d1, d2, d3];
    }

    /** Tiers 4 to 8, priced as BigDoubles. */
    static method NewHighTiers() returns (ds: seq<Dimension>)
      ensures |ds| == 5
      ensures forall j :: 0 <= j < 5 ==> ds[j].tier == j + 4 && ds[j].basePrice == BasePrice(j + 3)
      ensures forall j :: 0 <= j < 5 ==> ds[j].State() == InitialState(j + 3)
    {
      BasePricesAreNormal();
      var d4 := new Dimension(4, Create(1.0, 40));
      var d5 := new Dimension(5, Create(1.0, 80));
      var d6 := new Dimension(6, Create(1.0, 130));
      var d7 := new Dimension(7, Create(1.0, 200));
      var d8 := new Dimension(8, Create(1.0, 260));
      ds := [d4, d5, d6, d7, d8];
    }

    static lemma BasePricesAreNormal()
      ensures FromReal(10.0) == BigDouble(1.0, 1) && FromReal(1000.0) == BigDouble(1.0, 3)
      ensures FromReal(10000000000.0) == BigDouble(1.0, 10)
      ensures Create(1.0, 40) == BigDouble(1.0, 40) && Create(1.0, 80) == BigDouble(1.0, 80)
      ensures Create(1.0, 130) == BigDouble(1.0, 130) && Create(1.0, 200) == BigDouble(1.0, 200)
      ensures Create(1.0, 260) == BigDouble(1.0, 260)
    {
    }

    /** CheckInfinity. */
    method CheckInfinity()
      modifies this
      ensures infinityReached == NextInfinityFlag(old(antimatter), old(infinityReached))
      ensures antimatter == old(antimatter)
    {
      if Ge(antimatter, Infinity) && !infinityReached {
        infinityReached := true;
      } else if Lt(antimatter, Infinity) && infinityReached {
        infinityReached := false;
      }
    }

    /**
     * ProduceDimensions: tiers 8 down to 1, each active one adding GetProduction times
     * deltaTime * tickspeedMultiplier into the tier below, tier 1 into antimatter.
     */
    method ProduceDimensions(deltaTime: real, tickspeedMultiplier: real, effects: PrestigeEffects)
      requires Valid()
      modifies this, dimensions
      ensures Frame(antimatter, States()) ==
        Produce(old(antimatter), old(States()), DimensionCount, FrameRate(effects, Times(deltaTime, tickspeedMultiplier)))
      ensures infinityReached == old(infinityReached)
    {
      var effectiveDeltaTime := Times(deltaTime, tickspeedMultiplier);
      Cascade(FrameRate(effects, effectiveDeltaTime), effects, effectiveDeltaTime);
    }

    /** The loop of ProduceDimensions, for a rate known only through IsFrameRate. */
    method Cascade(ghost rate: Rate, effects: PrestigeEffects, effectiveDeltaTime: real)
      requires Valid() && IsFrameRate(rate, effects, effectiveDeltaTime)
      modifies this, dimensions
      ensures Frame(antimatter, States()) == Produce(old(antimatter), old(States()), DimensionCount, rate)
      ensures infinityReached == old(infinityReached)
    {
      var i := |dimensions| - 1;
      while i >= 0
        invariant -1 <= i < |dimensions|
        invariant Produce(antimatter, States(), i + 1, rate) == Produce(old(antimatter), old(States()), DimensionCount, rate)
        invariant infinityReached == old(infinityReached)
        decreases i + 1
      {
        ProduceUnfold(antimatter, States(), i, rate);
        VisitTier(i, rate, effects, effectiveDeltaTime);
        i := i - 1;
      }
    }

    /** The body of ProduceDimensions' loop at index i. */
    method VisitTier(i: nat, ghost rate: Rate, effects: PrestigeEffects, effectiveDeltaTime: real)
      requires Valid() && i < |dimensions| && IsFrameRate(rate, effects, effectiveDeltaTime)
      modifies this, dimensions
      ensures Frame(antimatter, States()) == Visit(old(antimatter), old(States()), i, rate)
      ensures infinityReached == old(infinityReached)
    {
      var dim := dimensions[i];
      if dim.unlocked && dim.amount.mantissa != 0.0 {
        var production := TierOutput(i, rate, effects, effectiveDeltaTime);
        if i == 0 {
          antimatter := Add(antimatter, production);
        } else {
          Feed(i - 1, production);
        }
      }
    }

    /** GetProduction of the dimension at index i times the frame time. */
    method TierOutput(i: nat, ghost rate: Rate, effects: PrestigeEffects, effectiveDeltaTime: real) returns (production: BigDouble)
      requires Valid() && i < |dimensions| && IsFrameRate(rate, effects, effectiveDeltaTime)
      ensures production == rate(States()[i], i + 1)
    {
      var dim := dimensions[i];
      production := Mul(dim.GetProduction(effects.bulkIncrease, TierMultiplier(effects, dim.tier)), FromReal(effectiveDeltaTime));
      assert production == FrameRate(effects, effectiveDeltaTime)(States()[i], i + 1);
    }

    /** dimensions[j].amount += production. */
    method Feed(j: nat, production: BigDouble)
      requires Valid() && j < |dimensions|
      modifies dimensions[j]
      ensures States() == Fed(old(States()), j, production)
    {
      var lower := dimensions[j];
      lower.amount := Add(lower.amount, production);
      OneTierChanged(j);
    }

    /** When only dimension j changed between two states, the tier states differ only at j. */
    twostate lemma OneTierChanged(j: nat)
      requires Valid() && j < |dimensions|
      requires forall k :: 0 <= k < |dimensions| && k != j ==> unchanged(dimensions[k])
      ensures States() == old(States())[j := dimensions[j].State()]
    {
    }

    /** Update without the frame hook: the infinity gate, then production only below Infinity. */
    method Update(deltaTime: real, tickspeedMultiplier: real, effects: PrestigeEffects)
      requires Valid()
      modifies this, dimensions
      ensures infinityReached == NextInfinityFlag(old(antimatter), old(infinityReached))
      ensures Lt(old(antimatter), Infinity) ==>
        Frame(antimatter, States()) ==
          Produce(old(antimatter), old(States()), DimensionCount, FrameRate(effects, Times(deltaTime, tickspeedMultiplier)))
      ensures !Lt(old(antimatter), Infinity) ==> antimatter == old(antimatter) && States() == old(States())
    {
      CheckInfinity();
      if Lt(antimatter, Infinity) {
        ProduceDimensions(deltaTime, tickspeedMultiplier, effects);
      }
    }

    /** The guard of CanBuyDimension: a valid, unlocked tier whose estimated cost antimatter covers. */
    predicate CanBuy(tier: int, count: nat)
      reads this, dimensions
    {
      1 <= tier <= |dimensions| && dimensions[tier - 1].unlocked &&
      Ge(antimatter, EstimatedCost(dimensions[tier - 1].currentPrice, dimensions[tier - 1].bought, count))
    }

    /** The cost loop of CanBuyDimension and BuyDimension. */
    method EstimateCost(dim: Dimension, count: nat) returns (totalCost: BigDouble)
      ensures totalCost == EstimatedCost(dim.currentPrice, dim.bought, count)
    {
      totalCost := dim.currentPrice;
      if count > 1 {
        var tempPrice := dim.currentPrice;
        totalCost := Zero;
        for i := 0 to count
          invariant EstimateAfter(dim.currentPrice, dim.bought, i) == Estimate(totalCost, tempPrice)
        {
          totalCost := Add(totalCost, tempPrice);
          tempPrice := Mul(tempPrice, FromReal(PriceIncreasePerPurchase));
          var justBought := dim.bought + i + 1;
          if justBought % 10 == 0 && justBought > 0 {
            tempPrice := Mul(tempPrice, FromReal(PriceIncreasePer10));
          }
        }
      }
    }

    /** CanBuyDimension(tier, count). */
    method CanBuyDimension(tier: int, count: nat) returns (ok: bool)
      ensures ok == CanBuy(tier, count)
    {
      if tier < 1 || tier > |dimensions| {
        return false;
      }
      var dim := dimensions[tier - 1];
      if !dim.unlocked {
        return false;
      }
      var totalCost := EstimateCost(dim, count);
      ok := Ge(antimatter, totalCost);
    }

    /** For one unit the guard is exactly "valid unlocked tier and antimatter >= its current price". */
    lemma CanBuySingle(tier: int)
      ensures CanBuy(tier, 1) <==>
        1 <= tier <= |dimensions| && dimensions[tier - 1].unlocked && Ge(antimatter, dimensions[tier - 1].currentPrice)
    {
    }

    /** BuyDimension: a no-op unless CanBuyDimension holds; then pay the estimate and Buy(count). */
    method BuyDimension(tier: int, count: nat)
      requires Valid()
      modifies this, dimensions
      ensures !old(CanBuy(tier, count)) ==> antimatter == old(antimatter) && States() == old(States())
      ensures old(CanBuy(tier, count)) ==>
        antimatter == Sub(old(antimatter), EstimatedCost(old(States())[tier - 1].currentPrice, old(States())[tier - 1].bought, count)) &&
        States() == old(States())[tier - 1 := AfterBuy(old(States())[tier - 1], count)]
      ensures infinityReached == old(infinityReached)
    {
      var ok := CanBuyDimension(tier, count);
      if !ok {
        return;
      }
      var dim := dimensions[tier - 1];
      var totalCost := EstimateCost(dim, count);
      antimatter := Sub(antimatter, totalCost);
      label before:
      dim.Buy(count);
      OneTierChanged@before(tier - 1);
    }

    /** BuyMaxDimension: a no-op for an invalid or locked tier; pays BuyMax's total only when it bought something. */
    method BuyMaxDimension(tier: int)
      requires Valid()
      modifies this, dimensions
      ensures !(1 <= tier <= DimensionCount && old(dimensions[tier - 1].unlocked)) ==>
        antimatter == old(antimatter) && States() == old(States())
      ensures 1 <= tier <= DimensionCount && old(dimensions[tier - 1].unlocked) ==>
        var start := Start(old(antimatter), old(States())[tier - 1].currentPrice, old(States())[tier - 1].bought);
        var n := BuyMaxCount(start, 0);
        antimatter == (if n > 0 then Sub(old(antimatter), Iterate(start, n).total) else old(antimatter)) &&
        States() == old(States())[tier - 1 := AfterBuyMax(old(States())[tier - 1], n)]
      ensures infinityReached == old(infinityReached)
    {
      if tier < 1 || tier > |dimensions| {
        return;
      }
      var dim := dimensions[tier - 1];
      if !dim.unlocked {
        return;
      }
      label before:
      var amountBought, totalCost := dim.BuyMax(antimatter);
      OneTierChanged@before(tier - 1);
      if amountBought > 0 {
        antimatter := Sub(antimatter, totalCost);
      }
    }

    /** IsDimensionUnlocked: false outside 1..8, otherwise the tier's unlocked flag. */
    function IsDimensionUnlocked(tier: int): (r: bool)
      reads dimensions
      ensures r <==> 1 <= tier <= |dimensions| && dimensions[tier - 1].unlocked
    {
      if tier < 1 || tier > |dimensions| then false else dimensions[tier - 1].unlocked
    }

    /** GetAntimatterString: the rendering of the antimatter amount. */
    function AntimatterString(): (r: Rendering)
      reads this
      ensures r == Literal("0") <==> antimatter.mantissa == 0.0
    {
      ToString(antimatter)
    }

    /** GetDimensionAmountString: "0" for a tier outside 1..8, otherwise the tier's amount. */
    function DimensionAmountString(tier: int): (r: Rendering)
      reads dimensions
      ensures (tier < 1 || tier > |dimensions|) ==> r == Literal("0")
      ensures 1 <= tier <= |dimensions| ==> r == ToString(dimensions[tier - 1].amount)
    {
      if tier < 1 || tier > |dimensions| then Literal("0") else ToString(dimensions[tier - 1].amount)
    }

    /** GetDimensionPriceString: "0" for a tier outside 1..8, otherwise the tier's current price. */
    function DimensionPriceString(tier: int): (r: Rendering)
      reads dimensions
      ensures (tier < 1 || tier > |dimensions|) ==> r == Literal("0")
      ensures 1 <= tier <= |dimensions| ==> r == ToString(dimensions[tier - 1].currentPrice)
    {
      if tier < 1 || tier > |dimensions| then Literal("0") else ToString(dimensions[tier - 1].currentPrice)
    }

    /** GetDimensionProductionString: "0" for a tier outside 1..8, otherwise the tier's production. */
    function DimensionProductionString(tier: int, effects: PrestigeEffects): (r: Rendering)
      reads dimensions
      ensures (tier < 1 || tier > |dimensions|) ==> r == Literal("0")
      ensures 1 <= tier <= |dimensions| ==>
        r == ToString(dimensions[tier - 1].GetProduction(effects.bulkIncrease, TierMultiplier(effects, tier)))
    {
      if tier < 1 || tier > |dimensions| then Literal("0")
      else ToString(dimensions[tier - 1].GetProduction(effects.bulkIncrease, TierMultiplier(effects, tier)))
    }
  }
}
