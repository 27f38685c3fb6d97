/**
 * One producer tier: its amount, purchase counter, price walk and multiplier.
 */
module Dimensions {
  import opened BigDoubles

  const PriceIncreasePerPurchase: real := 1.2
  const PriceIncreasePer10: real := 5.0
  const DecadeGrowth: real := 1.15

  /** True when the justBought-th unit completes a decade (10, 20, 30, ...). */
  predicate CompletesDecade(justBought: int)
  {
    justBought % 10 == 0 && justBought > 0
  }

  /** The extra factor after the k-th decade: 5 * 1.15^(k-1). */
  function DecadeFactor(justBought: int): real
    requires CompletesDecade(justBought)
  {
    PriceIncreasePer10 * RealPow(DecadeGrowth, justBought / 10 - 1)
  }

  /** The price after the justBought-th unit is paid for: times 1.2, and times the decade factor on a decade. */
  function PriceStep(price: BigDouble, justBought: int): (r: BigDouble)
  {
    var p := Mul(price, FromReal(PriceIncreasePerPurchase));
    if CompletesDecade(justBought) then Mul(p, FromReal(DecadeFactor(justBought))) else p
  }

  /** Each unit raises the price by 20 percent, and a completed decade multiplies it again by its factor. */
  lemma PriceStepValue(price: BigDouble, justBought: int)
    ensures !CompletesDecade(justBought) ==>
      Value(PriceStep(price, justBought)) == Times(Value(price), PriceIncreasePerPurchase)
    ensures CompletesDecade(justBought) ==>
      Value(PriceStep(price, justBought)) == Times(Times(Value(price), PriceIncreasePerPurchase), DecadeFactor(justBought))
    ensures IsNormal(PriceStep(price, justBought))
  {
    var p := Mul(price, FromReal(PriceIncreasePerPurchase));
    MulNormal(p, FromReal(PriceIncreasePerPurchase));
    MulNormal(price, FromReal(PriceIncreasePerPurchase));
    MulValue(price, FromReal(PriceIncreasePerPurchase));
    FromRealValue(PriceIncreasePerPurchase);
    if CompletesDecade(justBought) {
      MulValue(p, FromReal(DecadeFactor(justBought)));
      MulNormal(p, FromReal(DecadeFactor(justBought)));
      FromRealValue(DecadeFactor(justBought));
    }
  }

  /** The price after units bought + 1 .. bought + count have been paid for, one step per unit. */
  function PriceAfter(price: BigDouble, bought: int, count: nat): BigDouble
  {
    if count == 0 then price else PriceStep(PriceAfter(price, bought, count - 1), bought + count)
  }

  /** Walking n units and then m more is walking n + m units. */
  lemma {:induction false} PriceAfterSplit(price: BigDouble, bought: int, n: nat, m: nat)
    ensures PriceAfter(price, bought, n + m) == PriceAfter(PriceAfter(price, bought, n), bought + n, m)
  {
    if m > 0 {
      PriceAfterSplit(price, bought, n, m - 1);
      assert bought + n + m == (bought + n) + m;
    }
  }

  /** Buying count units at once walks the price exactly like count successive one-unit buys. */
  lemma {:induction false} PriceAfterOneByOne(price: BigDouble, bought: int, count: nat)
    ensures count > 0 ==>
      PriceAfter(price, bought, count) == PriceAfter(PriceAfter(price, bought, count - 1), bought + count - 1, 1)
    ensures PriceAfter(price, bought, 1) == PriceStep(price, bought + 1)
  {
    if count > 0 {
      PriceAfterSplit(price, bought, count - 1, 1);
    }
  }

  /** Between decades every unit raises the price by exactly 20 percent. */
  lemma {:induction false} PriceAfterWithinDecade(price: BigDouble, bought: nat, count: nat)
    requires bought % 10 + count < 10
    ensures Value(PriceAfter(price, bought, count)) == Times(Value(price), RealPow(PriceIncreasePerPurchase, count))
  {
    if count == 0 {
      TimesOne(Value(price));
    } else {
      WithinDecade(bought, count);
      PriceAfterWithinDecade(price, bought, count - 1);
      PriceAfterLast(price, bought, count);
      GrowStep(Value(price), RealPow(PriceIncreasePerPurchase, count - 1));
    }
  }

  lemma WithinDecade(bought: nat, count: nat)
    requires bought % 10 + count < 10 && count > 0
    ensures !CompletesDecade(bought + count)
  {
  }

  /** The last unit of a walk that completes no decade multiplies the price by 1.2. */
  lemma PriceAfterLast(price: BigDouble, bought: int, count: nat)
    requires count > 0 && !CompletesDecade(bought + count)
    ensures Value(PriceAfter(price, bought, count))
      == Times(Value(PriceAfter(price, bought, count - 1)), PriceIncreasePerPurchase)
  {
    PriceStepValue(PriceAfter(price, bought, count - 1), bought + count);
  }

  lemma GrowStep(v: real, g: real)
    ensures Times(Times(v, g), PriceIncreasePerPurchase) == Times(v, PriceIncreasePerPurchase * g)
  {
  }

  /** The fields of a dimension that change after construction. */
  datatype DimState = DimState(amount: BigDouble, currentPrice: BigDouble, bought: nat, unlocked: bool, multiplier: BigDouble)

  /**
   * GetProduction: amount * multiplier * (2 + bulkIncrease)^(bought div 10) * prestigeMultiplier.
   * bulkIncrease and prestigeMultiplier are what the prestige layer reports (0 and 1 without one).
   */
  function Production(s: DimState, bulkIncrease: real, prestigeMultiplier: real): BigDouble
  {
    Product(ProductionFactors(s, bulkIncrease, prestigeMultiplier))
  }

  /** The four factors of GetProduction, in the order the source multiplies them. */
  function ProductionFactors(s: DimState, bulkIncrease: real, prestigeMultiplier: real): seq<BigDouble>
  {
    [s.amount, s.multiplier, Pow(FromReal(2.0 + bulkIncrease), s.bought / 10), FromReal(prestigeMultiplier)]
  }

  /** The factors multiplied left to right, as a chain of * evaluates them. */
  function Product(factors: seq<BigDouble>): BigDouble
    requires |factors| > 0
    decreases |factors|
  {
    if |factors| == 1 then factors[0] else Mul(Product(factors[..|factors| - 1]), factors[|factors| - 1])
  }

  /** GetProduction's chain of three multiplications. */
  lemma ProductionIsChain(s: DimState, bulkIncrease: real, prestigeMultiplier: real)
    ensures Production(s, bulkIncrease, prestigeMultiplier) ==
      Mul(Mul(Mul(s.amount, s.multiplier), Pow(FromReal(2.0 + bulkIncrease), s.bought / 10)), FromReal(prestigeMultiplier))
  {
    ProductOfFour(s.amount, s.multiplier, Pow(FromReal(2.0 + bulkIncrease), s.bought / 10), FromReal(prestigeMultiplier));
  }

  /** One more factor on the right multiplies the product by it. */
  lemma ProductSnoc(factors: seq<BigDouble>, x: BigDouble)
    requires |factors| > 0
    ensures Product(factors + [x]) == Mul(Product(factors), x)
  {
    assert (factors + [x])[..|factors|] == factors;
  }

  lemma ProductOfFour(a: BigDouble, b: BigDouble, c: BigDouble, d: BigDouble)
    ensures Product([a, b, c, d]) == Mul(Mul(Mul(a, b), c), d)
  {
    assert [a, b, c, d][..3] == [a, b, c];
    assert Product([a, b, c, d]) == Mul(Product([a, b, c]), d);
    assert [a, b, c][..2] == [a, b];
    assert Product([a, b, c]) == Mul(Product([a, b]), c);
    assert [a, b][..1] == [a];
  }

  /** The value produced is the product of the four factors. */
  lemma ProductionValue(s: DimState, bulkIncrease: real, prestigeMultiplier: real)
    ensures Value(Production(s, bulkIncrease, prestigeMultiplier))
      == Times(Times(Times(Value(s.amount), Value(s.multiplier)), RealPow(2.0 + bulkIncrease, s.bought / 10)), prestigeMultiplier)
  {
    ProductionIsChain(s, bulkIncrease, prestigeMultiplier);
    var am := Mul(s.amount, s.multiplier);
    var bonus := Pow(FromReal(2.0 + bulkIncrease), s.bought / 10);
    MulValue(s.amount, s.multiplier);
    MulValue(am, bonus);
    PowValue(FromReal(2.0 + bulkIncrease), s.bought / 10);
    FromRealValue(2.0 + bulkIncrease);
    MulValue(Mul(am, bonus), FromReal(prestigeMultiplier));
    FromRealValue(prestigeMultiplier);
  }

  /** The production is normal, and nothing is produced while the amount is zero. */
  lemma ProductionNormal(s: DimState, bulkIncrease: real, prestigeMultiplier: real)
    ensures IsNormal(Production(s, bulkIncrease, prestigeMultiplier))
    ensures s.amount.mantissa == 0.0 ==> Production(s, bulkIncrease, prestigeMultiplier) == Zero
  {
    ProductionIsChain(s, bulkIncrease, prestigeMultiplier);
    var am := Mul(s.amount, s.multiplier);
    var bonus := Pow(FromReal(2.0 + bulkIncrease), s.bought / 10);
    Constants();
    MulNormal(s.amount, s.multiplier);
    MulNormal(am, bonus);
    MulNormal(Mul(am, bonus), FromReal(prestigeMultiplier));
  }

  /** Below ten bought, the bulk bonus is Pow(x, 0) = One and drops out of the product. */
  lemma ProductionBelowTen(s: DimState, bulkIncrease: real, prestigeMultiplier: real)
    requires s.bought < 10
    ensures Production(s, bulkIncrease, prestigeMultiplier) == Mul(Mul(s.amount, s.multiplier), FromReal(prestigeMultiplier))
  {
    ProductionIsChain(s, bulkIncrease, prestigeMultiplier);
    PowZero(FromReal(2.0 + bulkIncrease));
    MulNormal(s.amount, s.multiplier);
    MulOne(Mul(s.amount, s.multiplier));
  }

  /** The fields after Buy(count): count more units, the price walked over them. */
  function AfterBuy(s: DimState, count: nat): DimState
  {
    DimState(Add(s.amount, FromReal(count as real)), PriceAfter(s.currentPrice, s.bought, count),
      s.bought + count, s.unlocked, s.multiplier)
  }

  /** The fields after BuyMax bought n units: the amount grows only when n > 0. */
  function AfterBuyMax(s: DimState, n: nat): DimState
  {
    DimState(if n > 0 then Add(s.amount, FromReal(n as real)) else s.amount,
      PriceAfter(s.currentPrice, s.bought, n), s.bought + n, s.unlocked, s.multiplier)
  }

  /** n successive Buy(1) calls. */
  function BuyOneByOne(s: DimState, n: nat): DimState
  {
    if n == 0 then s else AfterBuy(BuyOneByOne(s, n - 1), 1)
  }

  /** Buy(n) leaves bought, price, unlock and multiplier as n successive Buy(1) calls do. */
  lemma {:induction false} BuyAtOnceIsOneByOne(s: DimState, n: nat)
    ensures BuyOneByOne(s, n).bought == AfterBuy(s, n).bought
    ensures BuyOneByOne(s, n).currentPrice == AfterBuy(s, n).currentPrice
    ensures BuyOneByOne(s, n).unlocked == s.unlocked && BuyOneByOne(s, n).multiplier == s.multiplier
  {
    if n > 0 {
      BuyAtOnceIsOneByOne(s, n - 1);
      PriceAfterSplit(s.currentPrice, s.bought, n - 1, 1);
    }
  }

  /**
   * The amounts can differ: at amount 1e16 a single unit is more than 15 orders below and
   * is dropped by +, while ten units at once are added exactly.
   */
  lemma OneByOneDropsUnits()
    ensures AfterBuy(DimState(BigDouble(1.0, 16), One, 0, true, One), 1).amount == BigDouble(1.0, 16)
    ensures Value(AfterBuy(DimState(BigDouble(1.0, 16), One, 0, true, One), 10).amount) == Value(BigDouble(1.0, 16)) + 10.0
  {
    Constants();
    AddValue(BigDouble(1.0, 16), BigDouble(1.0, 1));
  }

  class Dimension {
    const tier: int
    const basePrice: BigDouble
    var amount: BigDouble
    var currentPrice: BigDouble
    var bought: nat
    var unlocked: bool
    var multiplier: BigDouble

    function State(): DimState
      reads this
    {
      DimState(amount, currentPrice, bought, unlocked, multiplier)
    }

    /** new Dimension(tier, BigDouble basePrice): nothing bought, unlocked iff tier <= 2. */
    constructor (tier: int, basePrice: BigDouble)
      ensures this.tier == tier && this.basePrice == basePrice
      ensures State() == DimState(Zero, basePrice, 0, tier <= 2, One)
    {
      this.tier := tier;
      this.basePrice := basePrice;
      amount := Zero;
      currentPrice := basePrice;
      bought := 0;
      unlocked := tier <= 2;
      multiplier := One;
    }

    /** new Dimension(tier, double basePrice): the price converted to a normal pair first. */
    constructor FromDouble(tier: int, basePrice: real)
      ensures this.tier == tier && this.basePrice == FromReal(basePrice)
      ensures State() == DimState(Zero, FromReal(basePrice), 0, tier <= 2, One)
    {
      this.tier := tier;
      this.basePrice := FromReal(basePrice);
      amount := Zero;
      currentPrice := FromReal(basePrice);
      bought := 0;
      unlocked := tier <= 2;
      multiplier := One;
    }

    /**
     * GetProduction, on this dimension's fields: a normal pair worth amount * multiplier *
     * (2 + bulkIncrease)^(bought div 10) * prestigeMultiplier, and Zero while the amount is zero.
     */
    function GetProduction(bulkIncrease: real, prestigeMultiplier: real): (r: BigDouble)
      reads this
      ensures IsNormal(r)
      ensures Value(r) == Times(Times(Times(Value(amount), Value(multiplier)), RealPow(2.0 + bulkIncrease, bought / 10)), prestigeMultiplier)
      ensures amount.mantissa == 0.0 ==> r == Zero
    {
      ProductionValue(State(), bulkIncrease, prestigeMultiplier);
      ProductionNormal(State(), bulkIncrease, prestigeMultiplier);
      Production(State(), bulkIncrease, prestigeMultiplier)
    }

    /** UpdatePrice: the for loop that walks the price over count units after the ones already bought. */
    method UpdatePrice(count: nat)
      modifies this
      ensures currentPrice == PriceAfter(old(currentPrice), bought, count)
      ensures amount == old(amount) && bought == old(bought)
      ensures unlocked == old(unlocked) && multiplier == old(multiplier)
    {
      for i := 0 to count
        invariant currentPrice == PriceAfter(old(currentPrice), bought, i)
        invariant amount == old(amount) && bought == old(bought)
        invariant unlocked == old(unlocked) && multiplier == old(multiplier)
      {
        var justBought := bought + i + 1;
        currentPrice := Mul(currentPrice, FromReal(PriceIncreasePerPurchase));
        if justBought % 10 == 0 && justBought > 0 {
          var tier10Index := justBought / 10 - 1;
          currentPrice := Mul(currentPrice, FromReal(PriceIncreasePer10 * RealPow(DecadeGrowth, tier10Index)));
        }
      }
    }

    /** Buy(count): count more units, the price walked over them, bought raised by count. */
    method Buy(count: nat)
      modifies this
      ensures State() == AfterBuy(old(State()), count)
    {
      amount := Add(amount, FromReal(count as real));
      UpdatePrice(count);
      bought := bought + count;
    }

    /**
     * BuyMax: while the remaining currency is at least the current price (BigDouble >=)
     * and fewer than 1000 units were bought, pay for one more unit.
     */
    method BuyMax(currency: BigDouble) returns (amountBought: nat, totalCost: BigDouble)
      modifies this
      ensures amountBought == BuyMaxCount(Start(currency, old(currentPrice), old(bought)), 0)
      ensures totalCost == Iterate(Start(currency, old(currentPrice), old(bought)), amountBought).total
      ensures State() == AfterBuyMax(old(State()), amountBought)
    {
      ghost var start := Start(currency, currentPrice, bought);
      amountBought := 0;
      totalCost := Zero;
      var remaining := currency;
      while Ge(remaining, currentPrice) && amountBought < MaxBulk
        invariant amountBought <= MaxBulk
        invariant Iterate(start, amountBought) == Run(remaining, currentPrice, bought, totalCost)
        invariant BuyMaxCount(start, amountBought) == BuyMaxCount(start, 0)
        invariant bought == old(bought) + amountBought
        invariant amount == old(amount) && unlocked == old(unlocked) && multiplier == old(multiplier)
        decreases MaxBulk - amountBought
      {
        BuyMaxCountStep(start, amountBought);
        remaining, totalCost := PayForOne(remaining, totalCost);
        amountBought := amountBought + 1;
      }
      BuyMaxCountStop(start, amountBought);
      IteratePrice(start, amountBought);
      if amountBought > 0 {
        amount := Add(amount, FromReal(amountBought as real));
      }
    }

    /** One pass of BuyMax's loop body: pay the current price, walk it one unit, count the unit as bought. */
    method PayForOne(remaining: BigDouble, totalCost: BigDouble) returns (remaining': BigDouble, totalCost': BigDouble)
      modifies this
      ensures Run(remaining', currentPrice, bought, totalCost') == Step(Run(remaining, old(currentPrice), old(bought), totalCost))
      ensures amount == old(amount) && unlocked == old(unlocked) && multiplier == old(multiplier)
    {
      totalCost' := Add(totalCost, currentPrice);
      remaining' := Sub(remaining, currentPrice);
      UpdatePrice(1);
      bought := bought + 1;
    }

    /** ApplyPrestigeMultiplier: the multiplier is multiplied by m; nothing else changes. */
    method ApplyPrestigeMultiplier(m: BigDouble)
      modifies this
      ensures multiplier == Mul(old(multiplier), m)
      ensures amount == old(amount) && currentPrice == old(currentPrice)
      ensures bought == old(bought) && unlocked == old(unlocked)
    {
      multiplier := Mul(multiplier, m);
    }

    /** Reset: nothing bought, base price, multiplier 1; tiers above 2 are locked again. */
    method Reset()
      modifies this
      ensures State() == DimState(Zero, basePrice, 0, old(unlocked) && tier <= 2, One)
    {
      amount := Zero;
      bought := 0;
      currentPrice := basePrice;
      multiplier := One;
      if tier > 2 {
        unlocked := false;
      }
    }

    /** CheckUnlock: a locked dimension unlocks once the previous tier has 40 bought. */
    method CheckUnlock(previous: Dimension?)
      modifies this
      ensures unlocked == (old(unlocked) || (previous != null && old(previous.bought) >= UnlockThreshold))
      ensures amount == old(amount) && currentPrice == old(currentPrice)
      ensures bought == old(bought) && multiplier == old(multiplier)
    {
      if !unlocked && previous != null {
        if previous.bought >= UnlockThreshold {
          unlocked := true;
        }
      }
    }
  }

  const MaxBulk: nat := 1000
  const UnlockThreshold: nat := 40

  /** The variables of BuyMax's loop. */
  datatype Run = Run(remaining: BigDouble, price: BigDouble, bought: nat, total: BigDouble)

  function Start(currency: BigDouble, price: BigDouble, bought: nat): Run
  {
    Run(currency, price, bought, Zero)
  }

  /** BuyMax's loop condition on the money. */
  predicate Affordable(r: Run)
  {
    Ge(r.remaining, r.price)
  }

  /** One pass of BuyMax's loop: pay the price, walk it one unit. */
  function Step(r: Run): Run
  {
    Run(Sub(r.remaining, r.price), PriceAfter(r.price, r.bought, 1), r.bought + 1, Add(r.total, r.price))
  }

  function Iterate(r: Run, k: nat): Run
  {
    if k == 0 then r else Step(Iterate(r, k - 1))
  }

  /** The number of units BuyMax buys from loop state start: passes run while affordable, at most 1000. */
  function BuyMaxCount(start: Run, k: nat): nat
    decreases MaxBulk - k
  {
    if k >= MaxBulk || !Affordable(Iterate(start, k)) then k else BuyMaxCount(start, k + 1)
  }

  /** An affordable pass below the cap does not change the final count. */
  lemma BuyMaxCountStep(start: Run, k: nat)
    requires k < MaxBulk && Affordable(Iterate(start, k))
    ensures BuyMaxCount(start, k + 1) == BuyMaxCount(start, k)
  {
  }

  /** The count is the first pass that is unaffordable or at the cap. */
  lemma BuyMaxCountStop(start: Run, k: nat)
    requires k >= MaxBulk || !Affordable(Iterate(start, k))
    ensures BuyMaxCount(start, k) == k
  {
  }

  /**
   * What BuyMax's count means: at most 1000 units (or none past the start), every pass
   * before the count was affordable, and below the cap the pass at the count is not.
   */
  lemma {:induction false} BuyMaxCountSpec(start: Run, j: nat)
    requires j <= MaxBulk
    ensures j <= BuyMaxCount(start, j) <= MaxBulk
    ensures forall k :: j <= k < BuyMaxCount(start, j) ==> Affordable(Iterate(start, k))
    ensures BuyMaxCount(start, j) < MaxBulk ==> !Affordable(Iterate(start, BuyMaxCount(start, j)))
    decreases MaxBulk - j
  {
    if j < MaxBulk && Affordable(Iterate(start, j)) {
      BuyMaxCountSpec(start, j + 1);
    }
  }

  /** With the currency below the current price at the start, BuyMax buys nothing. */
  lemma BuyMaxUnaffordable(currency: BigDouble, price: BigDouble, bought: nat)
    requires !Ge(currency, price)
    ensures BuyMaxCount(Start(currency, price, bought), 0) == 0
  {
  }

  /** After k passes the loop has walked the price over k units and counted them. */
  lemma {:induction false} IteratePrice(r: Run, k: nat)
    ensures Iterate(r, k).price == PriceAfter(r.price, r.bought, k)
    ensures Iterate(r, k).bought == r.bought + k
  {
    if k > 0 {
      IteratePrice(r, k - 1);
      PriceAfterSplit(r.price, r.bought, k - 1, 1);
    }
  }
}
