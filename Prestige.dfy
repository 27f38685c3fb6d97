/**
 * The prestige layer: points earned from the exponent of the antimatter, a full reset of
 * the run, and the shop of ten upgrades bought with those points.
 */
module Prestige {
  import opened BigDoubles
  import opened Dimensions
  import opened GameManagers
  import opened TickSpeed
  import opened DimBoosts
  import opened PrestigeUpgrades

  // ---------------------------------------------------------------------------
  // The catalog of InitializeUpgrades

  const TickspeedBoostId: string := "tickspeed_boost"
  const BulkBonusId: string := "bulk_bonus"
  const DefaultMaxLevel: int := 999
  const DefaultScaling: real := 1.25
  const UpgradeCount: nat := 10
  const DimCosts: seq<int> := [1, 2, 3, 5, 7, 8, 9, 10]
  const DimPriceScaling: seq<real> := [1.10, 1.15, 1.15, 1.20, 1.25, 1.25, 1.25, 1.25]

  /** $"dim{tier}_mult" for a one-digit tier. */
  function DimKey(tier: int): string
    requires 1 <= tier <= DimensionCount
  {
    "dim" + [('0' as int + tier) as char] + "_mult"
  }

  /** The fields an upgrade is created with. */
  datatype Entry = Entry(id: string, cost: int, maxLevel: int, priceScaling: real)

  /** The i-th upgrade InitializeUpgrades creates: the tickspeed boost, the eight dimension boosts, the bulk bonus. */
  function CatalogEntry(i: nat): Entry
    requires i < UpgradeCount
  {
    if i == 0 then Entry(TickspeedBoostId, 1, DefaultMaxLevel, DefaultScaling)
    else if i <= DimensionCount then Entry(DimKey(i), DimCosts[i - 1], DefaultMaxLevel, DimPriceScaling[i - 1])
    else Entry(BulkBonusId, 2, DefaultMaxLevel, DefaultScaling)
  }

  const CatalogKeys: set<string> := {
    "tickspeed_boost", "dim1_mult", "dim2_mult", "dim3_mult", "dim4_mult",
    "dim5_mult", "dim6_mult", "dim7_mult", "dim8_mult", "bulk_bonus"
  }

  /** The ids of the first n catalog entries. */
  function KeysBelow(n: nat): set<string>
    requires n <= UpgradeCount
  {
    set i | 0 <= i < n :: CatalogEntry(i).id
  }

  lemma DimKeys()
    ensures DimKey(1) == "dim1_mult" && DimKey(2) == "dim2_mult" && DimKey(3) == "dim3_mult"
    ensures DimKey(4) == "dim4_mult" && DimKey(5) == "dim5_mult" && DimKey(6) == "dim6_mult"
    ensures DimKey(7) == "dim7_mult" && DimKey(8) == "dim8_mult"
  {
  }

  /** Two dimension keys differ in their digit. */
  lemma DimKeyInjective(a: int, b: int)
    requires 1 <= a <= DimensionCount && 1 <= b <= DimensionCount && DimKey(a) == DimKey(b)
    ensures a == b
  {
    assert DimKey(a)[3] == DimKey(b)[3];
  }

  /** The ten catalog ids are pairwise different, and they are exactly CatalogKeys. */
  lemma CatalogIdsDistinct(i: nat, j: nat)
    requires i < j < UpgradeCount
    ensures CatalogEntry(i).id != CatalogEntry(j).id
  {
    if 1 <= i <= DimensionCount && 1 <= j <= DimensionCount {
      if DimKey(i) == DimKey(j) {
        DimKeyInjective(i, j);
      }
    } else if i == 0 && j <= DimensionCount {
      assert CatalogEntry(i).id[0] != CatalogEntry(j).id[0];
    } else if i == 0 {
      assert CatalogEntry(i).id[0] != CatalogEntry(j).id[0];
    } else {
      assert CatalogEntry(i).id[0] != CatalogEntry(j).id[0];
    }
  }

  lemma KeysBelowStep(n: nat)
    requires n < UpgradeCount
    ensures KeysBelow(n + 1) == KeysBelow(n) + {CatalogEntry(n).id}
    ensures CatalogEntry(n).id !in KeysBelow(n)
  {
    if CatalogEntry(n).id in KeysBelow(n) {
      var i :| 0 <= i < n && CatalogEntry(i).id == CatalogEntry(n).id;
      CatalogIdsDistinct(i, n);
    }
  }

  lemma KeysBelowAll()
    ensures KeysBelow(UpgradeCount) == CatalogKeys
  {
    DimKeys();
    forall k | k in CatalogKeys
      ensures k in KeysBelow(UpgradeCount)
    {
      if k == TickspeedBoostId {
        assert CatalogEntry(0).id == k;
      } else if k == BulkBonusId {
        assert CatalogEntry(9).id == k;
      } else if k == "dim1_mult" {
        assert CatalogEntry(1).id == k;
      } else if k == "dim2_mult" {
        assert CatalogEntry(2).id == k;
      } else if k == "dim3_mult" {
        assert CatalogEntry(3).id == k;
      } else if k == "dim4_mult" {
        assert CatalogEntry(4).id == k;
      } else if k == "dim5_mult" {
        assert CatalogEntry(5).id == k;
      } else if k == "dim6_mult" {
        assert CatalogEntry(6).id == k;
      } else if k == "dim7_mult" {
        assert CatalogEntry(7).id == k;
      } else {
        assert CatalogEntry(8).id == k;
      }
    }
  }

  /** The catalog has exactly ten entries, every one capped at level 999 with a scaling of at least 1. */
  lemma CatalogShape()
    ensures |KeysBelow(UpgradeCount)| == UpgradeCount
    ensures forall i :: 0 <= i < UpgradeCount ==>
      CatalogEntry(i).maxLevel == 999 && CatalogEntry(i).cost >= 1 && CatalogEntry(i).priceScaling >= 1.0
  {
    var n := 0;
    while n < UpgradeCount
      invariant n <= UpgradeCount && |KeysBelow(n)| == n
    {
      KeysBelowStep(n);
      n := n + 1;
    }
  }

  /** The upgrade object carries the fields of the entry. */
  predicate Matches(u: PrestigeUpgrade, e: Entry)
  {
    u.id == e.id && u.cost == e.cost && u.maxLevel == e.maxLevel && u.priceScaling == e.priceScaling
  }

  /** The first n catalog entries are present with their fields, as different objects. */
  predicate HoldsEntries(m: map<string, PrestigeUpgrade>, n: nat)
    requires n <= UpgradeCount
  {
    m.Keys == KeysBelow(n) &&
    (forall i :: 0 <= i < n ==> CatalogEntry(i).id in m && Matches(m[CatalogEntry(i).id], CatalogEntry(i))) &&
    (forall a, b :: a in m && b in m && a != b ==> m[a] != m[b])
  }

  // ---------------------------------------------------------------------------
  // Points

  /** Tier 1's price 1e10, the antimatter a prestige needs. */
  const PrestigeThreshold: BigDouble := FromReal(10000000000.0)

  lemma FloorOfTenth(x: real)
    requires x >= 10.0
    ensures 0 <= (x / 10.0).Floor < x.Floor
  {
    var f := x.Floor;
    assert x < f as real + 1.0;
    assert (x / 10.0).Floor as real <= x / 10.0 < (f as real + 1.0) / 10.0 <= f as real;
  }

  /** floor(log10 m) for m >= 1. */
  function FloorLog10(m: real): (r: nat)
    requires m >= 1.0
    ensures Pow10(r) <= m < Pow10(r + 1)
    decreases m.Floor
  {
    if m < 10.0 then 0
    else
      FloorOfTenth(m);
      var r := FloorLog10(m / 10.0);
      assert Pow10(r + 1) == 10.0 * Pow10(r) && Pow10(r + 2) == 10.0 * Pow10(r + 1);
      1 + r
  }

  /** The number of times m (0 < m <= 1) can be multiplied by 10 without exceeding 1. */
  function TenfoldsBelowOne(m: real): (k: nat)
    requires 0.0 < m <= 1.0
    ensures Pow10(-(k as int) - 1) < m <= Pow10(-(k as int))
    decreases (1.0 / m).Floor
  {
    if m * 10.0 > 1.0 then
      assert Pow10(-1) == 1.0 / 10.0;
      0
    else
      FloorOfTenth(1.0 / m);
      assert 1.0 / (m * 10.0) == (1.0 / m) / 10.0;
      var k := TenfoldsBelowOne(m * 10.0);
      assert Pow10(-(k as int) - 1) == Pow10(-(k as int) - 2) * 10.0 && Pow10(-(k as int)) == Pow10(-(k as int) - 1) * 10.0;
      k + 1
  }

  /**
   * (int)Math.Log10(m): log10 truncated toward zero.  A non-positive mantissa has no
   * logarithm: Math.Log10 gives -infinity for 0 and NaN for a negative m, which the
   * saturating cast (the rule CastToInt follows) turns into int.MinValue and 0.
   */
  function Log10Trunc(m: real): (r: int)
    ensures m >= 1.0 ==> Pow10(r) <= m < Pow10(r + 1)
    ensures 0.0 < m < 1.0 ==> Pow10(r - 1) < m <= Pow10(r)
    ensures m == 0.0 ==> r == IntMin
    ensures m < 0.0 ==> r == 0
  {
    if m == 0.0 then IntMin
    else if m < 0.0 then 0
    else if m >= 1.0 then FloorLog10(m)
    else -(TenfoldsBelowOne(m) as int)
  }

  /** Any mantissa of a normal positive pair has logarithm 0 after truncation. */
  lemma Log10OfMantissa(m: real)
    requires 1.0 <= m < 10.0
    ensures Log10Trunc(m) == 0
  {
  }

  /** C# integer division of a by a positive b: the quotient truncated toward zero. */
  function TruncDiv(a: int, b: int): (r: int)
    requires b > 0
    ensures a >= 0 ==> r * b <= a < (r + 1) * b
    ensures a < 0 ==> (r - 1) * b < a <= r * b
  {
    if a >= 0 then a / b else -((-a) / b)
  }

  /**
   * CalculatePrestigePointsGained on the antimatter: 0 below 1e10, otherwise
   * (exponent + (int)Math.Log10(mantissa)) / 10.  For a normal positive amount this is
   * exponent / 10, positive exactly from exponent 10 on.
   */
  function PrestigePointsFor(am: BigDouble): (r: int)
    ensures Lt(am, BigDouble(1.0, 10)) ==> r == 0
    ensures IsNormal(am) && am.mantissa > 0.0 ==> (r > 0 <==> am.exponent >= 10)
    ensures IsNormal(am) && am.mantissa > 0.0 && am.exponent >= 10 ==> r == am.exponent / 10
  {
    GameManager.BasePricesAreNormal();
    if Lt(am, PrestigeThreshold) then 0
    else TruncDiv(am.exponent + Log10Trunc(am.mantissa), 10)
  }

  /** 1e10 gives 1 point, 9e19 still 1, 1e25 gives 2; just below 1e10 gives none. */
  lemma PointsExamples()
    ensures PrestigePointsFor(BigDouble(1.0, 10)) == 1
    ensures PrestigePointsFor(BigDouble(9.0, 19)) == 1
    ensures PrestigePointsFor(BigDouble(1.0, 25)) == 2
    ensures PrestigePointsFor(BigDouble(9.99, 9)) == 0
  {
  }

  /**
   * Epsilon equality lets a purchase overdraw: (1, 30) >= (1.00000000005, 30), and paying leaves
   * the negative pair (-5, 19).  That pair is not below 1e10 in the exponent-first order, and
   * its mantissa's logarithm is NaN, cast to 0, so it is worth one prestige point.
   */
  lemma OverdrawnAntimatterEarnsPoint()
    ensures Ge(BigDouble(1.0, 30), BigDouble(1.00000000005, 30))
    ensures Sub(BigDouble(1.0, 30), BigDouble(1.00000000005, 30)) == BigDouble(-5.0, 19)
    ensures !Lt(BigDouble(-5.0, 19), PrestigeThreshold)
    ensures PrestigePointsFor(BigDouble(-5.0, 19)) == 1
  {
    GameManager.BasePricesAreNormal();
  }

  /** ResetDimensions leaves exactly the dimensions of a new game, whatever they were. */
  lemma PrestigeResetIsInitial(ds: seq<DimState>)
    requires |ds| == DimensionCount
    ensures Unlock(Unlock(ResetPrefix(ds, DimensionCount), 0), 1) == InitialStates()
  {
    UnlockFirstTwo(ResetPrefix(ds, DimensionCount));
  }

  // ---------------------------------------------------------------------------
  // Effects of the upgrade levels

  function TickspeedBoostAt(level: nat): real
  {
    level as real * 0.01
  }

  function BulkBonusAt(level: nat): real
  {
    level as real * 0.05
  }

  /** Each level of a dimension upgrade doubles that tier's production. */
  lemma DimensionMultiplierDoubles(level: nat)
    ensures RealPow(2.0, level + 1) == 2.0 * RealPow(2.0, level)
    ensures RealPow(2.0, level) >= 1.0
  {
    RealPowAtLeast(2.0, level, 1.0);
  }

  class PrestigeManager {
    var prestigePoints: int
    var totalPrestiges: int
    const upgrades: map<string, PrestigeUpgrade>

    /** The catalog of InitializeUpgrades, one object per id. */
    predicate Valid()
    {
      HoldsEntries(upgrades, UpgradeCount)
    }

    /** The level of every upgrade, by id. */
    function Levels(): map<string, nat>
      reads upgrades.Values
    {
      map k | k in upgrades :: upgrades[k].level
    }

    /** Awake with InitializeUpgrades: no points, the ten upgrades at level 0. */
    constructor ()
      ensures Valid() && upgrades.Keys == CatalogKeys
      ensures prestigePoints == 0 && totalPrestiges == 0
      ensures forall k :: k in upgrades ==> upgrades[k].level == 0
    {
      var m := NewCatalog();
      upgrades := m;
      prestigePoints := 0;
      totalPrestiges := 0;
      new;
      KeysBelowAll();
    }

    /** InitializeUpgrades: tickspeed_boost, then dim1_mult .. dim8_mult in a loop, then bulk_bonus. */
    static method NewCatalog() returns (m: map<string, PrestigeUpgrade>)
      ensures HoldsEntries(m, UpgradeCount)
      ensures forall k :: k in m ==> m[k].level == 0
    {
      var tick := new PrestigeUpgrade(TickspeedBoostId, 1, DefaultMaxLevel, DefaultScaling);
      m := map[TickspeedBoostId := tick];
      assert KeysBelow(1) == {TickspeedBoostId} by {
        KeysBelowStep(0);
      }
      for i := 1 to DimensionCount + 1
        invariant HoldsEntries(m, i)
        invariant forall k :: k in m ==> m[k].level == 0
      {
        var u := new PrestigeUpgrade(DimKey(i), DimCosts[i - 1], DefaultMaxLevel, DimPriceScaling[i - 1]);
        KeysBelowStep(i);
        m := m[DimKey(i) := u];
      }
      var bulk := new PrestigeUpgrade(BulkBonusId, 2, DefaultMaxLevel, DefaultScaling);
      KeysBelowStep(UpgradeCount - 1);
      m := m[BulkBonusId := bulk];
    }

    /** CalculatePrestigePointsGained: 0 without a game, otherwise PrestigePointsFor its antimatter. */
    function CalculatePrestigePointsGained(game: GameManager?): (r: int)
      reads game
      ensures game == null ==> r == 0
      ensures game != null && Lt(game.antimatter, BigDouble(1.0, 10)) ==> r == 0
    {
      if game == null then 0 else PrestigePointsFor(game.antimatter)
    }

    /** CanPrestige: a game, and a positive gain. */
    predicate CanPrestige(game: GameManager?)
      reads game
    {
      game != null && CalculatePrestigePointsGained(game) > 0
    }

    /**
     * DoPrestige: a no-op unless CanPrestige holds; otherwise the gain is banked, one more
     * prestige is counted, and the run restarts as a new game: antimatter 10, the dimensions
     * of InitializeGame, no infinity flag, tickspeed level 0 and no boosts.  Upgrade levels stay.
     */
    method DoPrestige(game: GameManager?, tick: TickSpeedManager?, boosts: DimBoostManager?)
      requires game != null ==> game.Valid()
      modifies this, game, if game == null then [] else game.dimensions, tick, boosts
      ensures Levels() == old(Levels())
      ensures !old(CanPrestige(game)) ==>
        prestigePoints == old(prestigePoints) && totalPrestiges == old(totalPrestiges) &&
        (tick != null ==> tick.tickspeedLevel == old(tick.tickspeedLevel)) &&
        (boosts != null ==> boosts.dimBoosts == old(boosts.dimBoosts)) &&
        (game != null ==>
          game.antimatter == old(game.antimatter) && game.States() == old(game.States()) &&
          game.infinityReached == old(game.infinityReached))
      ensures old(CanPrestige(game)) ==>
        prestigePoints == old(prestigePoints) + old(CalculatePrestigePointsGained(game)) &&
        totalPrestiges == old(totalPrestiges) + 1 &&
        game.antimatter == BigDouble(1.0, 1) && game.States() == InitialStates() && !game.infinityReached &&
        (tick != null ==> tick.tickspeedLevel == 0) &&
        (boosts != null ==> boosts.dimBoosts == 0)
    {
      if !CanPrestige(game) {
        return;
      }
      var pointsGained := CalculatePrestigePointsGained(game);
      prestigePoints := prestigePoints + pointsGained;
      totalPrestiges := totalPrestiges + 1;
      ResetDimensions(game, tick, boosts);
    }

    /** ResetDimensions: antimatter 10, every dimension reset, tiers 1 and 2 unlocked, the other layers reset. */
    static method ResetDimensions(game: GameManager, tick: TickSpeedManager?, boosts: DimBoostManager?)
      requires game.Valid()
      modifies game, game.dimensions, tick, boosts
      ensures game.antimatter == BigDouble(1.0, 1) && game.States() == InitialStates() && !game.infinityReached
      ensures tick != null ==> tick.tickspeedLevel == 0
      ensures boosts != null ==> boosts.dimBoosts == 0
    {
      game.antimatter := FromReal(StartingAntimatter);
      RestartDimensions(game);
      game.infinityReached := false;
      if tick != null {
        tick.Reset();
      }
      if boosts != null {
        boosts.Reset();
      }
      Constants();
    }

    /** The dimension part of ResetDimensions: the reset loop, then tiers 1 and 2 unlocked. */
    static method RestartDimensions(game: GameManager)
      requires game.Valid()
      modifies game.dimensions
      ensures game.States() == InitialStates()
    {
      ghost var start := game.States();
      DimBoostManager.ResetEach(game);
      DimBoostManager.UnlockOne(game, 0);
      DimBoostManager.UnlockOne(game, 1);
      PrestigeResetIsInitial(start);
    }

    /** CanBuyUpgrade: a known id whose upgrade the current points afford. */
    predicate CanBuyUpgrade(upgradeId: string)
      reads this, upgrades.Values
    {
      upgradeId in upgrades && upgrades[upgradeId].CanAfford(prestigePoints)
    }

    /**
     * BuyUpgrade: a no-op unless CanBuyUpgrade holds; otherwise the points drop by the next
     * cost and that upgrade alone gains one level.  Points never go negative from a purchase.
     */
    method BuyUpgrade(upgradeId: string)
      requires Valid()
      modifies this, if upgradeId in upgrades then {upgrades[upgradeId]} else {}
      ensures !old(CanBuyUpgrade(upgradeId)) ==> prestigePoints == old(prestigePoints) && Levels() == old(Levels())
      ensures old(CanBuyUpgrade(upgradeId)) ==>
        prestigePoints == old(prestigePoints) - old(upgrades[upgradeId].GetNextCost()) &&
        Levels() == old(Levels())[upgradeId := old(upgrades[upgradeId].level) + 1]
      ensures old(prestigePoints) >= 0 ==> prestigePoints >= 0
      ensures totalPrestiges == old(totalPrestiges)
    {
      if !CanBuyUpgrade(upgradeId) {
        return;
      }
      var upgrade := upgrades[upgradeId];
      CatalogCostsArePositive(upgradeId);
      var cost := upgrade.GetNextCost();
      prestigePoints := prestigePoints - cost;
      upgrade.Purchase();
      OneLevelChanged(upgradeId);
    }

    /** When only the upgrade under id changed, the levels differ from before in that entry alone. */
    twostate lemma OneLevelChanged(id: string)
      requires Valid() && id in upgrades
      requires forall k :: k in upgrades && k != id ==> unchanged(upgrades[k])
      ensures Levels() == old(Levels())[id := upgrades[id].level]
    {
    }

    /** Every catalog upgrade has a positive cost and a scaling of at least 1. */
    lemma CatalogCostsArePositive(upgradeId: string)
      requires Valid() && upgradeId in upgrades
      ensures upgrades[upgradeId].cost >= 1 && upgrades[upgradeId].priceScaling >= 1.0
    {
      CatalogShape();
      var i :| 0 <= i < UpgradeCount && CatalogEntry(i).id == upgradeId;
    }

    /** GetTickspeedBoost: 0.01 per level of tickspeed_boost, 0 without that entry. */
    function GetTickspeedBoost(): (r: real)
      reads upgrades.Values
      ensures r >= 0.0
      ensures TickspeedBoostId in upgrades ==> r == TickspeedBoostAt(upgrades[TickspeedBoostId].level)
    {
      if TickspeedBoostId !in upgrades then 0.0 else TickspeedBoostAt(upgrades[TickspeedBoostId].level)
    }

    /** GetDimensionMultiplier: 1 outside tiers 1..8 or without the entry, 2^level of dim{tier}_mult otherwise. */
    function GetDimensionMultiplier(tier: int): (r: real)
      reads upgrades.Values
      ensures r >= 1.0
      ensures (tier < 1 || tier > DimensionCount) ==> r == 1.0
      ensures 1 <= tier <= DimensionCount && DimKey(tier) in upgrades ==> r == RealPow(2.0, upgrades[DimKey(tier)].level)
    {
      if tier < 1 || tier > DimensionCount then 1.0
      else if DimKey(tier) !in upgrades then 1.0
      else
        DimensionMultiplierDoubles(upgrades[DimKey(tier)].level);
        RealPow(2.0, upgrades[DimKey(tier)].level)
    }

    /** GetBulkBonusIncrease: 0.05 per level of bulk_bonus, 0 without that entry. */
    function GetBulkBonusIncrease(): (r: real)
      reads upgrades.Values
      ensures r >= 0.0
      ensures BulkBonusId in upgrades ==> r == BulkBonusAt(upgrades[BulkBonusId].level)
    {
      if BulkBonusId !in upgrades then 0.0 else BulkBonusAt(upgrades[BulkBonusId].level)
    }
  }
}
