# Antimatter-style incremental game core, modelled in Dafny

This project models the simulation and economy core of the Unity game *my_Unity_Game*, an
"antimatter dimensions" style idle game. It covers:

- **BigDouble**, the (mantissa, exponent) number type the whole economy runs on. It has
  normalisation, `+ - * /` with a 15-order precision cutoff, exponent-first comparison with
  epsilon equality, `Pow`, `ToDouble` and `ToString`.
- **Dimension**, one of eight producer tiers. It covers price growth per unit and per decade,
  `Buy`, `BuyMax`, `Reset` and `CheckUnlock`.
- **GameManager.** It owns the antimatter and the tiers. It covers the initial game, the
  infinity flag, the high-to-low production cascade of one frame, and the dimension purchases.
- **TickSpeedManager**, **DimBoostManager**, **PrestigeManager** and **PrestigeUpgrade**: the speed
  layer, the boost reset, the prestige reset and the upgrade shop.
- **The snapshot and merge logic of SaveManager**: what a save record holds and how loading
  merges it into the live managers.

Doubles are modelled as exact reals, and C# `int` as unbounded integers. The two C#
conversions whose behaviour matters are written out: the `(int)` cast, which truncates toward
zero and saturates, and truncating `/`. The static `Instance` singletons become one explicit
`Contexts.Context` object. Each manager in it may be absent, and its readers supply the
fallbacks the code uses for a null `Instance`: tickspeed multiplier 1.0, no prestige effects,
highest tier 2.

Modules follow the source files:

| module | source file |
|---|---|
| `BigDoubles` | BigDouble.cs |
| `Dimensions` | Dimension.cs |
| `GameManagers` | GameManager.cs |
| `TickSpeed` | TickSpeedManager.cs |
| `DimBoosts` | DimBoostManager.cs |
| `PrestigeUpgrades` | PrestigeUpgrade.cs |
| `Prestige` | PrestigeManager.cs |
| `Contexts` | the Instance registry |
| `Saves` | SaveManager.cs |

Objects whose fields the code updates in place are classes:

- `Dimension`, `GameManager`, `TickSpeedManager`, `DimBoostManager`, `PrestigeUpgrade` and
  `PrestigeManager` are classes;
- `GameManager.dimensions` is a sequence of `Dimension` objects;
- `PrestigeManager.upgrades` is a map from ids to `PrestigeUpgrade` objects.

Every loop of the source is a `while` or `for` loop with invariants. Each loop is proved
against a pure specification function: `Create` for `Normalize`, `BuyMaxCount`/`Iterate` for
`BuyMax`, `Produce` for the production cascade, `AfterBoost` for `DoDimBoost`, and
`ApplyEntries` for the upgrade merge. The properties the source promises are then proved
about those functions.

The model follows the code, including where it behaves otherwise than its comments describe. Each such behaviour is exposed by a lemma:

- **Boost guard.** The guard of `CanDimBoost` rejects only a highest tier below 2, although
  its comment says tier 3. So with tiers 1 and 2 unlocked, 20 bought of tier 2 already allow a
  boost (`DimBoosts.TwoTiersAreEnough`).
- **Boost doublings.** They do not accumulate. Every multiplier is reset to 1 before the
  first `dimBoosts + 1` tiers are doubled, so a tier's multiplier after any boost is 2, never
  4 (`DimBoosts.BoostsDoNotCompound`).
- **Tier 8 boosts.** Once tier 8 is the highest unlocked tier, the requirement
  `(bought / 20 + 1) * 20` is always strictly above tier 8's `bought`, so no further boost is
  possible (`DimBoosts.NoBoostWithTierEight`).
- **Cost estimate.** `CanBuyDimension` and `BuyDimension` estimate a multi-unit cost with a
  flat ×5 per decade. The real price walk of `Dimension.UpdatePrice` uses 5·1.15^k, so the
  estimate is right only until the second decade boundary
  (`GameManagers.EstimateMissesLaterDecades`, `GameManagers.EstimateMatchesWalk`).
- **Infinity flag.** Just below `Infinity`, epsilon equality makes both `>=` and `<` true,
  and `CheckInfinity` flips the flag on every frame (`GameManagers.InfinityFlagFlickers`).
- **Buying one by one.** It is not the same as buying at once when the amount is large.
  `+` drops an operand more than 15 orders smaller, so a single unit added to 1e16 is lost
  (`Dimensions.OneByOneDropsUnits`).
- **GetTotalCost.** It returns `cost * level`, which is what the levels cost only for a flat
  price (`PrestigeUpgrades.TotalCostIsPaidWhenFlat`). With the catalog's rising prices it
  understates the total (`PrestigeUpgrades.TotalCostUnderstatesScaled`).
- **Overdrawn antimatter.** Epsilon equality lets a purchase cost slightly more than the
  antimatter held. The negative remainder can sit at a high exponent, where the
  exponent-first `<` does not place it below 1e10, and it is then worth a prestige point
  (`Prestige.OverdrawnAntimatterEarnsPoint`).
- **Overflow sign.** `ToDouble` returns +infinity above exponent 308 whatever the sign of the
  mantissa (`BigDoubles.ToDoubleLosesSign`).
- **Zero compares high.** Because the exponent is compared first, zero compares above any
  positive value below 1 (`BigDoubles.ZeroComparesAboveSmallPositive`).

## Model

| member | source | states |
|---|---|---|
| BigDoubles.Magnitude | Scripts/BigDouble.cs:31-50 | a nonzero normal pair lies in [10^e, 10^(e+1)) in magnitude |
| BigDoubles.NormalFormUnique | Scripts/BigDouble.cs:31-50 | two normal pairs with the same value are the same pair |
| BigDoubles.ZeroOnlyAtZero | Scripts/BigDouble.cs:31-37 | a normal pair is worth zero exactly when it is (0, 0) |
| BigDoubles.SameExponent | Scripts/BigDouble.cs:31-50 | the decades of two different exponents do not overlap |
| BigDoubles.CreateNormal | Scripts/BigDouble.cs:31-50 | normalisation ends in mantissa 0 with exponent 0, or a mantissa magnitude in [1, 10); the mantissa is zero only if it was zero |
| BigDoubles.CreateValue | Scripts/BigDouble.cs:31-50 | normalisation keeps mantissa * 10^exponent |
| BigDoubles.Normalize | Scripts/BigDouble.cs:31-50 | the two while loops end in the pair the specification function Create gives |
| BigDoubles.CreateOfNormal | Scripts/BigDouble.cs:24-50 | a pair that is already normal is left unchanged |
| BigDoubles.FromRealValue | Scripts/BigDouble.cs:10-22 | new BigDouble(v) is normal, worth exactly v, and has mantissa zero only for v = 0 |
| BigDoubles.FromRealAnyExponentGuess | Scripts/BigDouble.cs:10-22 | whatever integer the Log10 exponent guess is, dividing by that power and normalising gives the same pair |
| BigDoubles.Constants | Scripts/BigDouble.cs:184-186 | Zero is (0, 0), One is (1, 0), Infinity is (1.79, 308); new BigDouble(2.0) is (2, 0) and new BigDouble(10) is (1, 1) |
| BigDoubles.AlignedSum | Scripts/BigDouble.cs:52-76 | the aligned mantissa sum and difference have the exact value of a ± b |
| BigDoubles.AddIdentity | Scripts/BigDouble.cs:52-55 | Zero + x is x, and x + Zero is x for a normal x |
| BigDoubles.AddNormal | Scripts/BigDouble.cs:52-63 | the sum of normal values is normal |
| BigDoubles.AddCommutative | Scripts/BigDouble.cs:52-63 | a + b == b + a for normal values |
| BigDoubles.AddValue | Scripts/BigDouble.cs:57-62 | within the 15-order window the sum is exact |
| BigDoubles.SubIdentity | Scripts/BigDouble.cs:65-67 | a - Zero is a; a normal a minus itself is Zero |
| BigDoubles.SubNormal | Scripts/BigDouble.cs:65-76 | the difference of normal values is normal |
| BigDoubles.SubValue | Scripts/BigDouble.cs:70-75 | within the 15-order window the difference is exact |
| BigDoubles.SubNegatesSurvivor | Scripts/BigDouble.cs:68-72 | when a is zero or more than 15 orders below b, the result is worth exactly -b; for a normal b only the mantissa's sign flips |
| BigDoubles.CutoffIsNegligible | Scripts/BigDouble.cs:58-59 | the cutoff drops only an operand below 10^-15 of the kept one |
| BigDoubles.MulNormal | Scripts/BigDouble.cs:78-81 | a product is normal, and it is Zero when either mantissa is zero |
| BigDoubles.MulValue | Scripts/BigDouble.cs:78-81 | the value of a * b is the product of the values |
| BigDoubles.MulOne | Scripts/BigDouble.cs:78-81 | a normal value times One is itself |
| BigDoubles.DivOutcome | Scripts/BigDouble.cs:83-88 | / fails exactly on a zero-mantissa divisor; otherwise the quotient is normal |
| BigDoubles.DivValue | Scripts/BigDouble.cs:83-88 | the quotient times the divisor is worth the dividend |
| BigDoubles.CompareTo | Scripts/BigDouble.cs:124-129 | 1 when a > b, -1 when a < b, 0 only for identical pairs |
| BigDoubles.CompareToAntisymmetric | Scripts/BigDouble.cs:90-129 | swapping the operands negates CompareTo, and a > b iff b < a |
| BigDoubles.GeOrLt | Scripts/BigDouble.cs:97-117 | one of < and >= always holds, and both hold only for epsilon-close pairs with a < b |
| BigDoubles.GtMatchesValue | Scripts/BigDouble.cs:90-102 | for positive normal values, > and < agree with the order of the values |
| BigDoubles.GeFromValue | Scripts/BigDouble.cs:104-117 | for positive normal values, a value not smaller compares >= |
| BigDoubles.ZeroComparesAboveSmallPositive | Scripts/BigDouble.cs:90-95 | Zero > (5, -1): the exponent is compared first |
| BigDoubles.LessAndAtLeastTogether | Scripts/BigDouble.cs:97-117 | a pair exists for which a < b and a >= b both hold |
| BigDoubles.ToDoubleRange | Scripts/BigDouble.cs:143-150 | for a normal nonzero pair: +infinity exactly when the magnitude is at least 10^309 (past the largest double), 0 exactly when it is below 10^-308, and the exact value exactly in between |
| BigDoubles.ToDoubleLosesSign | Scripts/BigDouble.cs:145-146 | a negative pair above exponent 308 is worth less than zero and still converts to +infinity |
| BigDoubles.RoundHalfEven | Scripts/BigDouble.cs:161 | Math.Round: within 1/2 of x, ties to the even neighbour |
| BigDoubles.ToString | Scripts/BigDouble.cs:152-154 | "0" exactly for a zero mantissa |
| BigDoubles.ToStringForm | Scripts/BigDouble.cs:156-168 | for a normal nonzero pair: fixed point exactly when 0.01 <= magnitude < 10^6, showing the pair's own value; otherwise scientific form with a mantissa of magnitude in [1, 10) that, scaled by the exponent shown, is the value |
| BigDoubles.PowValue | Scripts/BigDouble.cs:171-182 | for an integer power n the result is normal and worth value^n |
| BigDoubles.PowZero | Scripts/BigDouble.cs:171-182 | Pow(x, 0) is One |
| BigDoubles.PowOfTen | Scripts/BigDouble.cs:171-182 | Pow(10, k) is exactly (1, k) |
| BigDoubles.AddExample | Scripts/BigDouble.cs:52-63 | (1, 40) + (1, 40) == (2, 40) |
| Dimensions.PriceStepValue | Scripts/Dimension.cs:92-109 | each unit multiplies the price by 1.2, and by 5·1.15^k more when a decade k completes |
| Dimensions.PriceAfterSplit | Scripts/Dimension.cs:92-109 | walking n units and then m more is walking n + m units |
| Dimensions.PriceAfterOneByOne | Scripts/Dimension.cs:62-67 | walking count units at once is count successive one-unit walks |
| Dimensions.PriceAfterWithinDecade | Scripts/Dimension.cs:96-107 | between decade boundaries every unit raises the price by exactly 20 percent |
| Dimensions.PriceAfterLast | Scripts/Dimension.cs:96-107 | the last unit of a walk that completes no decade multiplies the price by 1.2 |
| Dimensions.ProductionIsChain | Scripts/Dimension.cs:59 | GetProduction is the product amount · multiplier · bulk bonus · prestige multiplier |
| Dimensions.ProductionValue | Scripts/Dimension.cs:40-60 | the value produced is the product of the four factors, the bulk bonus being (2 + increase)^(bought / 10) |
| Dimensions.ProductionNormal | Scripts/Dimension.cs:40-60 | production is normal and is Zero while the amount is zero |
| Dimensions.ProductionBelowTen | Scripts/Dimension.cs:49-50 | below ten bought the bulk bonus is One and drops out of the product |
| Dimensions.BuyAtOnceIsOneByOne | Scripts/Dimension.cs:62-67 | Buy(n) gives the bought count, price, unlock and multiplier of n successive Buy(1) |
| Dimensions.OneByOneDropsUnits | Scripts/Dimension.cs:64 | at amount 1e16, Buy(1) leaves the amount unchanged while Buy(10) adds exactly 10 |
| Dimensions.Dimension.constructor | Scripts/Dimension.cs:29-38 | nothing bought, price at base, multiplier One, unlocked iff tier <= 2 |
| Dimensions.Dimension.GetProduction | Scripts/Dimension.cs:40-60 | a normal pair worth amount · multiplier · (2 + bulk increase)^(bought div 10) · prestige multiplier, and Zero while the amount is zero |
| Dimensions.Dimension.FromDouble | Scripts/Dimension.cs:18-27 | as the BigDouble constructor, with the price converted to a normal pair |
| Dimensions.Dimension.UpdatePrice | Scripts/Dimension.cs:92-109 | the loop walks the price over count units after the bought ones, as PriceAfter |
| Dimensions.Dimension.Buy | Scripts/Dimension.cs:62-67 | the new state is AfterBuy: amount + count, price walked, bought + count |
| Dimensions.Dimension.BuyMax | Scripts/Dimension.cs:69-90 | the count is BuyMaxCount of the greedy run; the total is what that run paid; the state is AfterBuyMax |
| Dimensions.Dimension.PayForOne | Scripts/Dimension.cs:78-82 | one loop pass: pay the price, walk it one unit, count one more bought |
| Dimensions.Dimension.ApplyPrestigeMultiplier | Scripts/Dimension.cs:111-114 | the multiplier is multiplied by m; nothing else changes |
| Dimensions.Dimension.Reset | Scripts/Dimension.cs:116-127 | amount Zero, bought 0, base price, multiplier One; tiers above 2 locked, others keep their unlock |
| Dimensions.Dimension.CheckUnlock | Scripts/Dimension.cs:129-139 | unlocked afterwards iff it was unlocked or a previous tier exists with at least 40 bought; no other field changes |
| Dimensions.BuyMaxCountStep | Scripts/Dimension.cs:76-84 | an affordable pass below the cap leaves the final count unchanged |
| Dimensions.BuyMaxCountStop | Scripts/Dimension.cs:76 | an unaffordable pass or the cap ends the count there |
| Dimensions.BuyMaxCountSpec | Scripts/Dimension.cs:69-90 | at most 1000 units; every pass before the count was affordable; below the cap the next is not |
| Dimensions.BuyMaxUnaffordable | Scripts/Dimension.cs:76 | currency below the price buys nothing |
| Dimensions.IteratePrice | Scripts/Dimension.cs:76-84 | after k passes the price is walked over k units and k are counted |
| GameManagers.ResetPrefixStep | Scripts/DimBoostManager.cs:103-106 | resetting tier n extends the reset prefix by one |
| GameManagers.ProduceKeeps | Scripts/GameManager.cs:73-90 | production changes only amounts, and not those of the top tier visited or above |
| GameManagers.ProduceIdle | Scripts/GameManager.cs:77-78 | with no active tier antimatter and every tier stay as they are |
| GameManagers.AntimatterOnlyFromTierOne | Scripts/GameManager.cs:82-85 | while tier 1 is locked, antimatter does not change |
| GameManagers.ProduceUnfold | Scripts/GameManager.cs:73-90 | the cascade over i + 1 tiers is the pass at index i followed by the cascade over i |
| GameManagers.InfinityFlagTracks | Scripts/GameManager.cs:99-111 | away from the epsilon band below Infinity, the flag ends as antimatter >= Infinity |
| GameManagers.InfinityFlagFlickers | Scripts/GameManager.cs:99-111 | at (1.78999999999, 308) the flag turns on when it is off and off when it is on |
| GameManagers.EstimateStepIsPriceStep | Scripts/GameManager.cs:130-140 | the flat 5 equals the true decade factor only at the first decade |
| GameManagers.EstimatePriceMatches | Scripts/GameManager.cs:130-140 | estimate and walk agree on the price while no boundary after the first is passed |
| GameManagers.EstimateMatchesWalk | Scripts/GameManager.cs:123-143 | the estimated cost is the sum paid by the true walk unless a boundary at 20, 30, ... is passed |
| GameManagers.EstimateMissesLaterDecades | Scripts/GameManager.cs:130-140 | two units of a 10-priced tier with 19 bought: estimate 70, walk 79 |
| GameManagers.GameManager.constructor | Scripts/GameManager.cs:29-45 | antimatter 10, the eight tiers of InitialStates: base prices 10 .. 1e260, tiers 1 and 2 unlocked |
| GameManagers.GameManager.NewDimensions | Scripts/GameManager.cs:32-44 | eight fresh dimensions in the states InitialStates lists |
| GameManagers.GameManager.NewLowTiers | Scripts/GameManager.cs:34-36 | tiers 1 to 3 priced from doubles |
| GameManagers.GameManager.NewHighTiers | Scripts/GameManager.cs:37-41 | tiers 4 to 8 priced as BigDoubles |
| GameManagers.GameManager.BasePricesAreNormal | Scripts/GameManager.cs:31-41 | the doubles 10, 1000, 1e10 convert to (1, 1), (1, 3), (1, 10) |
| GameManagers.GameManager.CheckInfinity | Scripts/GameManager.cs:99-111 | the flag becomes NextInfinityFlag; nothing else changes |
| GameManagers.GameManager.ProduceDimensions | Scripts/GameManager.cs:62-91 | antimatter and tiers become Produce over all eight tiers at the frame rate of deltaTime · multiplier |
| GameManagers.GameManager.Cascade | Scripts/GameManager.cs:73-90 | the downward loop ends in Produce for any rate equal to FrameRate |
| GameManagers.GameManager.VisitTier | Scripts/GameManager.cs:75-89 | one pass: skip an inactive tier, else add its output to the tier below or to antimatter |
| GameManagers.GameManager.TierOutput | Scripts/GameManager.cs:80 | the output is GetProduction times the frame time |
| GameManagers.GameManager.Feed | Scripts/GameManager.cs:88 | only tier j's amount changes, by + production |
| GameManagers.GameManager.OneTierChanged | Scripts/GameManager.cs:10 | when only dimension j changed, the tier states differ only at j |
| GameManagers.GameManager.Update | Scripts/GameManager.cs:47-60 | flag from CheckInfinity; Produce below Infinity; nothing else at or above it |
| GameManagers.GameManager.EstimateCost | Scripts/GameManager.cs:123-141 | the cost loop equals EstimatedCost: the current price for one unit, the flat-5 sum otherwise |
| GameManagers.GameManager.CanBuyDimension | Scripts/GameManager.cs:113-144 | valid unlocked tier and antimatter >= the estimated cost |
| GameManagers.GameManager.CanBuySingle | Scripts/GameManager.cs:113-144 | for one unit: valid unlocked tier and antimatter >= its current price |
| GameManagers.GameManager.BuyDimension | Scripts/GameManager.cs:146-177 | a no-op unless CanBuy; otherwise antimatter minus the estimate and that tier AfterBuy(count), others unchanged |
| GameManagers.GameManager.BuyMaxDimension | Scripts/GameManager.cs:179-199 | no-op for a bad or locked tier; otherwise that tier AfterBuyMax, antimatter debited only if units were bought |
| GameManagers.GameManager.IsDimensionUnlocked | Scripts/GameManager.cs:229-235 | true exactly for a tier in 1..8 whose dimension is unlocked |
| GameManagers.GameManager.AntimatterString | Scripts/GameManager.cs:200-203 | the rendering of the antimatter, "0" exactly when its mantissa is zero |
| GameManagers.GameManager.DimensionAmountString | Scripts/GameManager.cs:205-211 | "0" for a tier outside 1..8, otherwise the rendering of that tier's amount |
| GameManagers.GameManager.DimensionPriceString | Scripts/GameManager.cs:213-219 | "0" for a tier outside 1..8, otherwise the rendering of that tier's current price |
| GameManagers.GameManager.DimensionProductionString | Scripts/GameManager.cs:221-227 | "0" for a tier outside 1..8, otherwise the rendering of that tier's production |
| TickSpeed.SpeedPerLevel | Scripts/TickSpeedManager.cs:50-65 | 1 at level 0; each level multiplies by 1.1 + boost; never below 1 for a non-negative boost |
| TickSpeed.SpeedIncreases | Scripts/TickSpeedManager.cs:50-65 | with a non-negative prestige boost each further level strictly raises the tickspeed multiplier |
| TickSpeed.SpeedWithoutBoost | Scripts/TickSpeedManager.cs:50-65 | without a boost the speed is 1.1^level |
| TickSpeed.PriceIsPowerOfTen | Scripts/TickSpeedManager.cs:25-28 | 100 · Pow(10, level) is the pair (1, level + 2) |
| TickSpeed.TickSpeedManager.constructor | Scripts/TickSpeedManager.cs:7 | level 0 |
| TickSpeed.TickSpeedManager.GetCurrentPrice | Scripts/TickSpeedManager.cs:25-28 | the price is exactly 10^(level + 2) |
| TickSpeed.TickSpeedManager.BuyTickspeed | Scripts/TickSpeedManager.cs:30-48 | no-op without a game or when antimatter is below the price; else antimatter minus 10^(level + 2) and one more level; the flag is kept |
| TickSpeed.TickSpeedManager.Reset | Scripts/TickSpeedManager.cs:67-70 | level 0 |
| DimBoosts.HighestAmongSpec | Scripts/DimBoostManager.cs:77-90 | the scan gives the largest unlocked tier among the first n, or 2 when none is |
| DimBoosts.HighestInRange | Scripts/DimBoostManager.cs:77-90 | the highest tier lies in 1 .. 8 |
| DimBoosts.RequirementAboveTierEight | Scripts/DimBoostManager.cs:63-74 | with tier 8 highest the requirement is strictly above tier 8's bought |
| DimBoosts.NoBoostWithTierEight | Scripts/DimBoostManager.cs:40-45 | with tier 8 unlocked CanBoost is false |
| DimBoosts.BoostBelowTierEight | Scripts/DimBoostManager.cs:31-39 | below tier 8 a boost holds iff the highest tier is at least 2 and has 20 bought |
| DimBoosts.TwoTiersAreEnough | Scripts/DimBoostManager.cs:31-32 | with tiers 1 and 2 unlocked, 20 bought of tier 2 allow a boost |
| DimBoosts.DoubledIsTwo | Scripts/DimBoostManager.cs:129 | One times new BigDouble(2.0) is (2, 0) |
| DimBoosts.AfterBoostSpec | Scripts/DimBoostManager.cs:102-130 | exactly tiers 1 .. min(highest + 1, 8) unlocked, nothing bought, base prices, multiplier 2 up to tier boosts + 1 and 1 above |
| DimBoosts.BoostsDoNotCompound | Scripts/DimBoostManager.cs:103-130 | two boosts in a row leave tier 1 at multiplier 2 |
| DimBoosts.UnlockRangeAgain | Scripts/DimBoostManager.cs:109-122 | unlocking a tier already in the range changes nothing |
| DimBoosts.UnlockRangeSame | Scripts/DimBoostManager.cs:113 | ranges covering the same indices are equal |
| DimBoosts.BoostSteps | Scripts/DimBoostManager.cs:102-130 | reset, unlock and double in sequence give AfterBoost |
| DimBoosts.DimBoostManager.constructor | Scripts/DimBoostManager.cs:7 | no boosts |
| DimBoosts.DimBoostManager.GetHighestUnlockedTier | Scripts/DimBoostManager.cs:77-90 | 2 without a game, otherwise the HighestAmong scan |
| DimBoosts.DimBoostManager.GetNextUnlockTier | Scripts/DimBoostManager.cs:48-52 | one above the highest tier |
| DimBoosts.DimBoostManager.GetRequiredAmount | Scripts/DimBoostManager.cs:54-75 | 20 below tier 8 or without a game; otherwise the next multiple of 20 above tier 8's bought |
| DimBoosts.DimBoostManager.CanDimBoost | Scripts/DimBoostManager.cs:23-46 | false without a game; otherwise CanBoost of the tier states |
| DimBoosts.DimBoostManager.DoDimBoost | Scripts/DimBoostManager.cs:92-142 | no-op unless CanDimBoost; otherwise antimatter 10, tiers AfterBoost, one more boost, flag cleared, tickspeed level 0 |
| DimBoosts.DimBoostManager.Boost | Scripts/DimBoostManager.cs:97-141 | the same new state once the guard has passed |
| DimBoosts.DimBoostManager.Rebuild | Scripts/DimBoostManager.cs:103-130 | the three dimension loops give AfterBoost |
| DimBoosts.DimBoostManager.ResetEach | Scripts/DimBoostManager.cs:103-106 | every tier is Reset |
| DimBoosts.DimBoostManager.UnlockUpTo | Scripts/DimBoostManager.cs:109-122 | tiers 1 .. min(nextTier, 8) unlocked, everything else unchanged |
| DimBoosts.DimBoostManager.UnlockOne | Scripts/DimBoostManager.cs:115 | only tier k's unlock flag is set |
| DimBoosts.DimBoostManager.DoubleFirst | Scripts/DimBoostManager.cs:126-130 | the first max(0, min(boostCount, 8)) multipliers are doubled |
| DimBoosts.DimBoostManager.Reset | Scripts/DimBoostManager.cs:144-147 | no boosts |
| PrestigeUpgrades.Truncate | Scripts/PrestigeUpgrade.cs:38 | the integer toward zero within 1 of x |
| PrestigeUpgrades.CastToInt | Scripts/PrestigeUpgrade.cs:38 | always a C# int; Truncate inside the range; int.MaxValue at or above it (the saturating conversion of .NET 9 and later) |
| PrestigeUpgrades.ScaledCostFacts | Scripts/PrestigeUpgrade.cs:37-38 | at level 0 the scaled cost is the cost; non-negative for non-negative cost and scaling |
| PrestigeUpgrades.CostGrowsWithLevel | Scripts/PrestigeUpgrade.cs:37-38 | with cost >= 0 and scaling >= 1 the scaled cost does not shrink with the level |
| PrestigeUpgrades.CastMonotone | Scripts/PrestigeUpgrade.cs:38 | the cast keeps order |
| PrestigeUpgrades.NextCostMonotone | Scripts/PrestigeUpgrade.cs:31-39 | with cost >= 0 and scaling >= 1 the next cost never decreases with the level, up to the int.MaxValue cap |
| PrestigeUpgrades.TotalCostIsPaidWhenFlat | Scripts/PrestigeUpgrade.cs:25-29 | with scaling 1, cost · level is the sum of the next costs paid |
| PrestigeUpgrades.TotalCostUnderstatesScaled | Scripts/PrestigeUpgrade.cs:25-39 | cost 10, scaling 1.25: two levels cost 22 where GetTotalCost says 20 |
| PrestigeUpgrades.PrestigeUpgrade.constructor | Scripts/PrestigeUpgrade.cs:14-23 | fields as given, level 0 |
| PrestigeUpgrades.PrestigeUpgrade.GetNextCost | Scripts/PrestigeUpgrade.cs:31-39 | a C# int; int.MaxValue at the cap; the base cost at level 0; non-negative for non-negative cost and scaling |
| PrestigeUpgrades.PrestigeUpgrade.Purchase | Scripts/PrestigeUpgrade.cs:46-50 | one level more only below the cap; a level within the cap stays within it |
| PrestigeUpgrades.CannotAffordAtCap | Scripts/PrestigeUpgrade.cs:41-44 | at the cap CanAfford is false for every points value |
| PrestigeUpgrades.AffordLeavesPoints | Scripts/PrestigeUpgrade.cs:41-44 | after paying an affordable next cost the points stay in 0 .. points |
| Prestige.DimKeyInjective | Scripts/PrestigeManager.cs:43 | different tiers give different dim{i}_mult keys |
| Prestige.CatalogIdsDistinct | Scripts/PrestigeManager.cs:28-60 | the ten catalog ids are pairwise different and form CatalogKeys |
| Prestige.KeysBelowAll | Scripts/PrestigeManager.cs:28-60 | the ids of the ten entries are exactly the ten catalog keys |
| Prestige.CatalogShape | Scripts/PrestigeManager.cs:28-60 | ten distinct entries, each capped at 999 with cost >= 1 and scaling >= 1 |
| Prestige.FloorLog10 | Scripts/PrestigeManager.cs:82 | 10^r <= m < 10^(r+1) for m >= 1 |
| Prestige.TenfoldsBelowOne | Scripts/PrestigeManager.cs:82 | for 0 < m <= 1, the k with 10^-(k+1) < m <= 10^-k |
| Prestige.Log10Trunc | Scripts/PrestigeManager.cs:82 | (int)Math.Log10(m): the floor for m >= 1, toward zero for 0 < m < 1, int.MinValue for m = 0 (log -infinity) and 0 for m < 0 (log NaN), as the saturating conversion gives |
| Prestige.Log10OfMantissa | Scripts/PrestigeManager.cs:82 | a normal positive mantissa has truncated logarithm 0 |
| Prestige.TruncDiv | Scripts/PrestigeManager.cs:82 | C# division by a positive b: truncated toward zero |
| Prestige.PrestigePointsFor | Scripts/PrestigeManager.cs:70-84 | 0 below 1e10; for a normal positive amount, positive iff the exponent >= 10, and then exponent / 10 |
| Prestige.OverdrawnAntimatterEarnsPoint | Scripts/PrestigeManager.cs:78-83 | a purchase allowed by epsilon equality leaves antimatter (-5, 19), which is not below 1e10 and is worth one point |
| Prestige.PointsExamples | Scripts/PrestigeManager.cs:70-84 | 1e10 gives 1, 9e19 gives 1, 1e25 gives 2, just below 1e10 gives 0 |
| Prestige.PrestigeResetIsInitial | Scripts/PrestigeManager.cs:107-113 | resetting every tier and unlocking tiers 1 and 2 gives the tiers of a new game |
| Prestige.DimensionMultiplierDoubles | Scripts/PrestigeManager.cs:165-176 | one more level of dim{tier}_mult doubles its multiplier |
| Prestige.PrestigeManager.constructor | Scripts/PrestigeManager.cs:9-60 | no points, no prestiges, the ten catalog upgrades at level 0 |
| Prestige.PrestigeManager.NewCatalog | Scripts/PrestigeManager.cs:28-60 | a dictionary holding exactly the catalog entries in fresh objects |
| Prestige.PrestigeManager.CalculatePrestigePointsGained | Scripts/PrestigeManager.cs:70-84 | 0 without a game, else PrestigePointsFor(antimatter) |
| Prestige.PrestigeManager.DoPrestige | Scripts/PrestigeManager.cs:86-101 | no-op unless points would be gained; else points added, one more prestige, a new game's tiers, antimatter 10, flag off, tickspeed 0, boosts 0, levels kept |
| Prestige.PrestigeManager.ResetDimensions | Scripts/PrestigeManager.cs:103-128 | antimatter 10, tiers InitialStates, flag off, tickspeed and boosts reset when present |
| Prestige.PrestigeManager.RestartDimensions | Scripts/PrestigeManager.cs:107-113 | the tiers become InitialStates |
| Prestige.PrestigeManager.BuyUpgrade | Scripts/PrestigeManager.cs:130-154 | no-op unless CanBuyUpgrade; else points minus the next cost, and only that level + 1 |
| Prestige.PrestigeManager.OneLevelChanged | Scripts/PrestigeManager.cs:12 | when only one upgrade changed, the levels differ only at its id |
| Prestige.PrestigeManager.CatalogCostsArePositive | Scripts/PrestigeManager.cs:28-60 | every upgrade has cost >= 1 and scaling >= 1 |
| Prestige.PrestigeManager.GetTickspeedBoost | Scripts/PrestigeManager.cs:157-163 | 0.01 · level of tickspeed_boost, 0 without it; non-negative |
| Prestige.PrestigeManager.GetDimensionMultiplier | Scripts/PrestigeManager.cs:165-176 | 1 outside 1 .. 8 or without the key, else 2^level; always >= 1 |
| Prestige.PrestigeManager.GetBulkBonusIncrease | Scripts/PrestigeManager.cs:178-184 | 0.05 · level of bulk_bonus, 0 without it; non-negative |
| Contexts.Context.constructor | Scripts/GameManager.cs:7 | the context holds the given managers |
| Contexts.Context.TickspeedBoost | Scripts/TickSpeedManager.cs:56-59 | GetTickspeedBoost, 0 without a prestige manager; non-negative |
| Contexts.Context.TickspeedMultiplier | Scripts/GameManager.cs:65-69 | 1.0 without a tickspeed manager, else SpeedAt(level, boost); never below 1 |
| Contexts.Context.Effects | Scripts/Dimension.cs:43-57 | NoPrestige without a prestige manager, else its bulk increase and eight tier multipliers |
| Contexts.Context.EffectsMatchPrestige | Scripts/Dimension.cs:53-57 | each tier sees GetDimensionMultiplier(tier), 1 without the layer; always >= 1 |
| Contexts.Context.Update | Scripts/GameManager.cs:47-69 | GameManager.Update at the frame rate read from the context at the start of the frame |
| Saves.SaveRoundTrip | Scripts/SaveManager.cs:41-58 | applying a snapshot gives back the saved fields, and snapshotting restored fields gives the record |
| Saves.Snapshot | Scripts/SaveManager.cs:41-49 | the record holds the dimension's tier, amount, price, bought, unlock and multiplier |
| Saves.ApplyToDimension | Scripts/SaveManager.cs:51-58 | the five saved fields are written; tier and base price are kept |
| Saves.Snapshots | Scripts/SaveManager.cs:153-156 | one record per tier, tier i + 1 at index i |
| Saves.LoadedStates | Scripts/SaveManager.cs:204-207 | the first min(saved, live) tiers restored, the rest untouched |
| Saves.LoadSnapshots | Scripts/SaveManager.cs:153-156 | loading the snapshots of states into states of the same length gives them back |
| Saves.CatalogOrder | Scripts/SaveManager.cs:163 | ten ids, the order of InitializeUpgrades |
| Saves.SaveEntries | Scripts/SaveManager.cs:159-168 | entry i is (id of catalog entry i, its level) |
| Saves.ApplyEntries | Scripts/SaveManager.cs:218-227 | the merge keeps the set of ids |
| Saves.ApplyEntriesKeeps | Scripts/SaveManager.cs:220-226 | an id no entry names keeps its level |
| Saves.ApplyEntriesLast | Scripts/SaveManager.cs:220-226 | a known id takes the level of the last entry naming it |
| Saves.SavedEntryWins | Scripts/SaveManager.cs:159-168 | the saved entry of each catalog id is the last one naming it |
| Saves.LoadSavedEntries | Scripts/SaveManager.cs:159-227 | merging saved entries into any levels over the same catalog gives the saved levels |
| Saves.SaveGame | Scripts/SaveManager.cs:135-168 | None without a game or prestige manager; else the record of every field, tickspeed 0 without its manager |
| Saves.SaveDimensions | Scripts/SaveManager.cs:153-156 | the records are Snapshots of the tier states |
| Saves.SaveUpgrades | Scripts/SaveManager.cs:159-168 | the entries are SaveEntries of the levels |
| Saves.LoadGame | Scripts/SaveManager.cs:182-235 | no-op without a record, game or prestige manager; else the saved fields taken over, tiers merged, levels ApplyEntries, boosts untouched |
| Saves.LoadRecord | Scripts/SaveManager.cs:201-227 | the same writes once a record and both managers exist |
| Saves.LoadGameFields | Scripts/SaveManager.cs:201-207 | antimatter, flag, and the tiers LoadedStates |
| Saves.LoadManagers | Scripts/SaveManager.cs:209-227 | points, prestiges, tickspeed level when present; levels ApplyEntries or unchanged without entries |
| Saves.LoadCounters | Scripts/SaveManager.cs:209-215 | points, prestiges, tickspeed level; levels unchanged |
| Saves.LoadDimensions | Scripts/SaveManager.cs:204-207 | the tiers become LoadedStates |
| Saves.LoadUpgrades | Scripts/SaveManager.cs:218-227 | the levels become ApplyEntries of the entries |
| Saves.SaveLoadRoundTrip | Scripts/SaveManager.cs:135-227 | loading a saved record over the same catalog and tier count restores the tier states and the levels |

## Left out

- Floating point: doubles are exact reals. Rounding, NaN and overflow of `double` are not modelled. `Math.Log10` is modelled as the exact logarithm in the two places it reaches an integer.
- BigDoubles.Pow: only integer powers are modelled, and all of the source's callers use them. The fractional-exponent split `10^frac` is not modelled.
- BigDoubles.ToString: returns which of the three renderings applies, with the numbers it shows. The characters .NET's `F0` and `F2` formats produce are not modelled.
- C# `int` overflow: exponents, points, `bought` and `cost * level` are unbounded integers. Only the `(int)` cast of `GetNextCost` and the truncating `/` are written out.
- `bought`, `level`, `tickspeedLevel` and `dimBoosts` are `nat`. Negative values only come from hand-edited save files.
- PrestigeUpgrades.CastToInt and Prestige.Log10Trunc: both `(int)` casts follow the saturating conversion of .NET 9 and later, where NaN becomes 0, -infinity `int.MinValue` and a too-large value `int.MaxValue`. The C# standard leaves out-of-range casts unspecified, and x86/x64 runtimes before .NET 9 return `int.MinValue` for every out-of-range value. Under that older rule `GetNextCost` would return `int.MinValue` once the scaled cost passes `int.MaxValue`, and the overdrawn antimatter of `Prestige.OverdrawnAntimatterEarnsPoint` would give a negative gain, so no prestige. Neither outcome of the older rule is modelled.
- Prestige.Log10Trunc: the source reaches a non-positive mantissa only through a negative antimatter amount at a high exponent, which a purchase allowed by epsilon equality can leave behind. With the saturating rule the NaN logarithm adds 0, so such an amount earns exponent / 10 points.
- PrestigeUpgrades.PrestigeUpgrade.GetTotalCost: modelled as `cost * level` without a contract of its own; its properties are the two total-cost lemmas.
- Dictionary enumeration order is taken as insertion order (the order of `InitializeUpgrades`), as .NET does for a dictionary without removals.
- Unity: `Awake` and singleton registration, `DontDestroyOnLoad`, `Time.deltaTime` (a parameter of `Context.Update`) and `Debug.Log` are not modelled.
- `GameManager.CheckDimensionUnlocks` is empty in the source and is not modelled. `PrestigeManager.GetPrestigeInfo` builds a display string only and is left out.
- Upgrade names and descriptions are display strings and are left out.
- `PrestigeManager.CanPrestige` and `CanBuyUpgrade`, `TickSpeedManager.CanBuyTickspeed` and `GetTickspeedMultiplier` are predicates and functions without contracts of their own. Their meaning is stated by the methods that use them and by `TickSpeed.SpeedPerLevel`.
- SaveManager:
  - The file system, JSON serialisation and the autosave timer are not modelled. `DateTime.Now` is the `saveTime` parameter.
  - A missing file is `None` for `LoadGame`.
  - A failed save writes nothing, which is modelled by not writing.
  - A `try`/`catch` that aborts a load halfway, leaving some fields written, is not modelled.
  - A record's `dimensions` array is never null in the model.
- The UI, input coroutines and the other presentation scripts are not part of the core and are not modelled.
