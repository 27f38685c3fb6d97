/**
 * The save record and how it is filled from, and merged back into, the live managers.
 * Only the field copies are modelled: the file, the JSON encoding and the timers are not.
 */
module Saves {
  import opened BigDoubles
  import opened Dimensions
  import opened GameManagers
  import opened TickSpeed
  import opened DimBoosts
  import opened PrestigeUpgrades
  import opened Prestige
  import opened Contexts

  datatype Option<T> = None | Some(value: T)

  /** DimensionSaveData: the tier and the five fields a dimension changes. */
  datatype DimensionSaveData = DimensionSaveData(
    tier: int, amount: BigDouble, currentPrice: BigDouble, bought: nat, unlocked: bool, multiplier: BigDouble)

  /** PrestigeUpgradeSaveData: an upgrade id and its level. */
  datatype PrestigeUpgradeSaveData = PrestigeUpgradeSaveData(id: string, level: nat)

  /**
   * GameSaveData.  The upgrade array may be absent (null) in a record; saveTime is the
   * wall-clock text SaveGame stamps, passed in by the caller.
   */
  datatype GameSaveData = GameSaveData(
    antimatter: BigDouble,
    dimensions: seq<DimensionSaveData>,
    prestigePoints: int,
    totalPrestiges: int,
    infinityReached: bool,
    tickspeedLevel: nat,
    prestigeUpgrades: Option<seq<PrestigeUpgradeSaveData>>,
    saveTime: string)

  // ---------------------------------------------------------------------------
  // One dimension

  /** new DimensionSaveData(dim), on the dimension's tier and fields. */
  function SaveOf(tier: int, s: DimState): DimensionSaveData
  {
    DimensionSaveData(tier, s.amount, s.currentPrice, s.bought, s.unlocked, s.multiplier)
  }

  /** The fields ApplyToDimension writes. */
  function SavedState(d: DimensionSaveData): DimState
  {
    DimState(d.amount, d.currentPrice, d.bought, d.unlocked, d.multiplier)
  }

  /**
   * Snapshot and restore are inverse: applying the snapshot of a dimension gives back its
   * fields, and a record snapshotted from the fields it restores is that record.
   */
  lemma SaveRoundTrip(tier: int, s: DimState, d: DimensionSaveData)
    ensures SavedState(SaveOf(tier, s)) == s
    ensures SaveOf(d.tier, SavedState(d)) == d
  {
  }

  /** The DimensionSaveData constructor. */
  function Snapshot(dim: Dimension): (r: DimensionSaveData)
    reads dim
    ensures r.tier == dim.tier && SavedState(r) == dim.State()
  {
    SaveOf(dim.tier, dim.State())
  }

  /** ApplyToDimension: amount, currentPrice, bought, unlocked and multiplier; tier and base price are not written. */
  method ApplyToDimension(d: DimensionSaveData, dim: Dimension)
    modifies dim
    ensures dim.State() == SavedState(d)
  {
    dim.amount := d.amount;
    dim.currentPrice := d.currentPrice;
    dim.bought := d.bought;
    dim.unlocked := d.unlocked;
    dim.multiplier := d.multiplier;
  }

  // ---------------------------------------------------------------------------
  // The dimension list

  /** The records SaveGame writes for the tier states, tier i + 1 at index i. */
  function Snapshots(ds: seq<DimState>): (r: seq<DimensionSaveData>)
    ensures |r| == |ds|
  {
    seq(|ds|, i requires 0 <= i < |ds| => SaveOf(i + 1, ds[i]))
  }

  /** The load loop after its first n steps: those tiers restored from the save, if it has them. */
  function LoadedPrefix(saved: seq<DimensionSaveData>, ds: seq<DimState>, n: nat): seq<DimState>
  {
    seq(|ds|, j requires 0 <= j < |ds| => if j < n && j < |saved| then SavedState(saved[j]) else ds[j])
  }

  /** The tier states after a load: the first min(|saved|, |ds|) restored, the rest untouched. */
  function LoadedStates(saved: seq<DimensionSaveData>, ds: seq<DimState>): (r: seq<DimState>)
    ensures |r| == |ds|
    ensures forall j :: 0 <= j < |ds| && j < |saved| ==> r[j] == SavedState(saved[j])
    ensures forall j :: |saved| <= j < |ds| ==> r[j] == ds[j]
  {
    LoadedPrefix(saved, ds, |saved|)
  }

  lemma LoadedPrefixStep(saved: seq<DimensionSaveData>, ds: seq<DimState>, n: nat)
    requires n < |saved| && n < |ds|
    ensures LoadedPrefix(saved, ds, n)[n := SavedState(saved[n])] == LoadedPrefix(saved, ds, n + 1)
  {
  }

  lemma LoadedPrefixDone(saved: seq<DimensionSaveData>, ds: seq<DimState>, n: nat)
    requires n == |saved| || n == |ds|
    requires n <= |saved| && n <= |ds|
    ensures LoadedPrefix(saved, ds, n) == LoadedStates(saved, ds)
  {
  }

  /** Loading the snapshots of a list of states into any list of the same length gives that list back. */
  lemma LoadSnapshots(ds: seq<DimState>, live: seq<DimState>)
    requires |live| == |ds|
    ensures LoadedStates(Snapshots(ds), live) == ds
  {
    var r := LoadedStates(Snapshots(ds), live);
    forall j | 0 <= j < |ds|
      ensures r[j] == ds[j]
    {
      SaveRoundTrip(j + 1, ds[j], Snapshots(ds)[j]);
    }
  }

  // ---------------------------------------------------------------------------
  // Upgrade levels

  /** The upgrade ids in the order InitializeUpgrades inserts them, the order the dictionary yields them in. */
  function CatalogOrder(): (r: seq<string>)
    ensures |r| == UpgradeCount
  {
    seq(UpgradeCount, i requires 0 <= i < UpgradeCount => CatalogEntry(i).id)
  }

  /** The (id, level) entries SaveGame writes, one per catalog upgrade. */
  function SaveEntries(levels: map<string, nat>): (r: seq<PrestigeUpgradeSaveData>)
    requires forall i :: 0 <= i < UpgradeCount ==> CatalogEntry(i).id in levels
    ensures |r| == UpgradeCount
    ensures forall i :: 0 <= i < UpgradeCount ==> r[i].id == CatalogEntry(i).id && r[i].level == levels[CatalogEntry(i).id]
  {
    seq(UpgradeCount, i requires 0 <= i < UpgradeCount => PrestigeUpgradeSaveData(CatalogEntry(i).id, levels[CatalogEntry(i).id]))
  }

  /** The load loop over saved entries: a known id takes the saved level, an unknown id is skipped; later entries win. */
  function ApplyEntries(levels: map<string, nat>, entries: seq<PrestigeUpgradeSaveData>): (r: map<string, nat>)
    ensures r.Keys == levels.Keys
    decreases |entries|
  {
    if |entries| == 0 then levels
    else
      var prev := ApplyEntries(levels, entries[..|entries| - 1]);
      var last := entries[|entries| - 1];
      if last.id in prev then prev[last.id := last.level] else prev
  }

  /** An id no entry names keeps its level. */
  lemma {:induction false} ApplyEntriesKeeps(levels: map<string, nat>, entries: seq<PrestigeUpgradeSaveData>, k: string)
    requires k in levels && forall j :: 0 <= j < |entries| ==> entries[j].id != k
    ensures ApplyEntries(levels, entries)[k] == levels[k]
    decreases |entries|
  {
    if |entries| > 0 {
      ApplyEntriesKeeps(levels, entries[..|entries| - 1], k);
    }
  }

  /** A known id takes the level of the last entry that names it. */
  lemma {:induction false} ApplyEntriesLast(levels: map<string, nat>, entries: seq<PrestigeUpgradeSaveData>, j: nat)
    requires j < |entries| && entries[j].id in levels
    requires forall j' :: j < j' < |entries| ==> entries[j'].id != entries[j].id
    ensures ApplyEntries(levels, entries)[entries[j].id] == entries[j].level
    decreases |entries|
  {
    if j < |entries| - 1 {
      ApplyEntriesLast(levels, entries[..|entries| - 1], j);
    }
  }

  /** The entry SaveEntries writes for catalog position i is the last one naming its id. */
  lemma SavedEntryWins(saved: map<string, nat>, live: map<string, nat>, i: nat)
    requires saved.Keys == KeysBelow(UpgradeCount) && live.Keys == saved.Keys && i < UpgradeCount
    ensures ApplyEntries(live, SaveEntries(saved))[CatalogEntry(i).id] == saved[CatalogEntry(i).id]
  {
    var entries := SaveEntries(saved);
    forall j | i < j < UpgradeCount
      ensures entries[j].id != entries[i].id
    {
      CatalogIdsDistinct(i, j);
    }
    ApplyEntriesLast(live, entries, i);
  }

  /** Loading the entries saved from some levels into any levels over the same catalog gives those levels back. */
  lemma LoadSavedEntries(saved: map<string, nat>, live: map<string, nat>)
    requires saved.Keys == KeysBelow(UpgradeCount) && live.Keys == saved.Keys
    ensures ApplyEntries(live, SaveEntries(saved)) == saved
  {
    var r := ApplyEntries(live, SaveEntries(saved));
    forall k | k in saved
      ensures r[k] == saved[k]
    {
      var i :| 0 <= i < UpgradeCount && CatalogEntry(i).id == k;
      SavedEntryWins(saved, live, i);
    }
  }

  // ---------------------------------------------------------------------------
  // SaveGame and LoadGame

  /**
   * SaveGame without the file write: nothing without a game or a prestige manager;
   * otherwise the record of antimatter, every dimension, the points, the flag, the
   * tickspeed level (0 without a tickspeed manager) and one entry per upgrade.
   * The record has no place for the boost count.
   */
  method SaveGame(ctx: Context, saveTime: string) returns (save: Option<GameSaveData>)
    requires ctx.Valid()
    ensures ctx.game == null || ctx.prestige == null ==> save == None
    ensures ctx.game != null && ctx.prestige != null ==>
      save.Some? &&
      save.value.antimatter == ctx.game.antimatter &&
      save.value.dimensions == Snapshots(ctx.game.States()) &&
      save.value.prestigePoints == ctx.prestige.prestigePoints &&
      save.value.totalPrestiges == ctx.prestige.totalPrestiges &&
      save.value.infinityReached == ctx.game.infinityReached &&
      save.value.tickspeedLevel == (if ctx.tickspeed == null then 0 else ctx.tickspeed.tickspeedLevel) &&
      save.value.prestigeUpgrades == Some(SaveEntries(ctx.prestige.Levels())) &&
      save.value.saveTime == saveTime
  {
    var game := ctx.game;
    var prestige := ctx.prestige;
    if game == null || prestige == null {
      return None;
    }
    var dims := SaveDimensions(game);
    var upgrades := SaveUpgrades(prestige);
    var level := if ctx.tickspeed == null then 0 else ctx.tickspeed.tickspeedLevel;
    save := Some(GameSaveData(game.antimatter, dims, prestige.prestigePoints, prestige.totalPrestiges,
      game.infinityReached, level, Some(upgrades), saveTime));
  }

  /** The dimension loop of SaveGame. */
  method SaveDimensions(game: GameManager) returns (dims: seq<DimensionSaveData>)
    requires game.Valid()
    ensures dims == Snapshots(game.States())
  {
    dims := [];
    for i := 0 to |game.dimensions|
      invariant dims == Snapshots(game.States())[..i]
    {
      dims := dims + [Snapshot(game.dimensions[i])];
    }
  }

  /** The upgrade loop of SaveGame: (id, level) per entry, in dictionary order. */
  method SaveUpgrades(prestige: PrestigeManager) returns (entries: seq<PrestigeUpgradeSaveData>)
    requires prestige.Valid()
    ensures entries == SaveEntries(prestige.Levels())
  {
    var order := CatalogOrder();
    entries := [];
    for i := 0 to |order|
      invariant entries == SaveEntries(prestige.Levels())[..i]
    {
      var id := order[i];
      entries := entries + [PrestigeUpgradeSaveData(id, prestige.upgrades[id].level)];
    }
  }

  /**
   * LoadGame without the file read: nothing without a record, a game or a prestige manager.
   * Otherwise antimatter and the flag are taken over, the first min(saved, live) dimensions
   * restored, the points and the tickspeed level (when that manager exists) taken over,
   * and the saved levels merged into the known upgrades.  The boost count is not touched.
   */
  method LoadGame(file: Option<GameSaveData>, ctx: Context)
    requires ctx.Valid()
    modifies ctx.game, if ctx.game == null then [] else ctx.game.dimensions
    modifies ctx.prestige, if ctx.prestige == null then {} else ctx.prestige.upgrades.Values
    modifies ctx.tickspeed
    ensures ctx.boosts != null ==> ctx.boosts.dimBoosts == old(ctx.boosts.dimBoosts)
    ensures (file.None? || ctx.game == null || ctx.prestige == null) ==>
      (ctx.game != null ==>
        ctx.game.antimatter == old(ctx.game.antimatter) && ctx.game.infinityReached == old(ctx.game.infinityReached) &&
        ctx.game.States() == old(ctx.game.States())) &&
      (ctx.prestige != null ==>
        ctx.prestige.prestigePoints == old(ctx.prestige.prestigePoints) &&
        ctx.prestige.totalPrestiges == old(ctx.prestige.totalPrestiges) &&
        ctx.prestige.Levels() == old(ctx.prestige.Levels())) &&
      (ctx.tickspeed != null ==> ctx.tickspeed.tickspeedLevel == old(ctx.tickspeed.tickspeedLevel))
    ensures file.Some? && ctx.game != null && ctx.prestige != null ==>
      ctx.game.antimatter == file.value.antimatter && ctx.game.infinityReached == file.value.infinityReached &&
      ctx.game.States() == LoadedStates(file.value.dimensions, old(ctx.game.States())) &&
      ctx.prestige.prestigePoints == file.value.prestigePoints &&
      ctx.prestige.totalPrestiges == file.value.totalPrestiges &&
      (ctx.tickspeed != null ==> ctx.tickspeed.tickspeedLevel == file.value.tickspeedLevel) &&
      ctx.prestige.Levels() == (match file.value.prestigeUpgrades
        case None => old(ctx.prestige.Levels())
        case Some(entries) => ApplyEntries(old(ctx.prestige.Levels()), entries))
  {
    if file.None? {
      return;
    }
    var game := ctx.game;
    var prestige := ctx.prestige;
    if game == null || prestige == null {
      return;
    }
    LoadRecord(file.value, game, prestige, ctx.tickspeed);
  }

  /** The body of LoadGame once a record and both managers are there. */
  method LoadRecord(saveData: GameSaveData, game: GameManager, prestige: PrestigeManager, tick: TickSpeedManager?)
    requires game.Valid() && prestige.Valid()
    modifies game, game.dimensions, prestige, prestige.upgrades.Values, tick
    ensures game.antimatter == saveData.antimatter && game.infinityReached == saveData.infinityReached
    ensures game.States() == LoadedStates(saveData.dimensions, old(game.States()))
    ensures prestige.prestigePoints == saveData.prestigePoints && prestige.totalPrestiges == saveData.totalPrestiges
    ensures tick != null ==> tick.tickspeedLevel == saveData.tickspeedLevel
    ensures prestige.Levels() == (match saveData.prestigeUpgrades
      case None => old(prestige.Levels())
      case Some(entries) => ApplyEntries(old(prestige.Levels()), entries))
  {
    LoadGameFields(saveData, game);
    LoadManagers(saveData, prestige, tick);
  }

  /** The writes of LoadGame into the game manager: antimatter, the flag, the dimension loop. */
  method LoadGameFields(saveData: GameSaveData, game: GameManager)
    requires game.Valid()
    modifies game, game.dimensions
    ensures game.antimatter == saveData.antimatter && game.infinityReached == saveData.infinityReached
    ensures game.States() == LoadedStates(saveData.dimensions, old(game.States()))
  {
    game.antimatter := saveData.antimatter;
    game.infinityReached := saveData.infinityReached;
    LoadDimensions(saveData.dimensions, game);
  }

  /** The writes of LoadGame into the other managers: points, tickspeed level, upgrade levels. */
  method LoadManagers(saveData: GameSaveData, prestige: PrestigeManager, tick: TickSpeedManager?)
    requires prestige.Valid()
    modifies prestige, prestige.upgrades.Values, tick
    ensures prestige.prestigePoints == saveData.prestigePoints && prestige.totalPrestiges == saveData.totalPrestiges
    ensures tick != null ==> tick.tickspeedLevel == saveData.tickspeedLevel
    ensures prestige.Levels() == (match saveData.prestigeUpgrades
      case None => old(prestige.Levels())
      case Some(entries) => ApplyEntries(old(prestige.Levels()), entries))
  {
    LoadCounters(saveData, prestige, tick);
    if saveData.prestigeUpgrades.Some? {
      LoadUpgrades(saveData.prestigeUpgrades.value, prestige);
    }
  }

  /** The points, the prestige count and the tickspeed level; the upgrade levels stay as they are. */
  method LoadCounters(saveData: GameSaveData, prestige: PrestigeManager, tick: TickSpeedManager?)
    modifies prestige, tick
    ensures prestige.prestigePoints == saveData.prestigePoints && prestige.totalPrestiges == saveData.totalPrestiges
    ensures tick != null ==> tick.tickspeedLevel == saveData.tickspeedLevel
    ensures prestige.Levels() == old(prestige.Levels())
  {
    prestige.prestigePoints := saveData.prestigePoints;
    prestige.totalPrestiges := saveData.totalPrestiges;
    if tick != null {
      tick.tickspeedLevel := saveData.tickspeedLevel;
    }
  }

  /** The dimension loop of LoadGame. */
  method LoadDimensions(saved: seq<DimensionSaveData>, game: GameManager)
    requires game.Valid()
    modifies game.dimensions
    ensures game.States() == LoadedStates(saved, old(game.States()))
  {
    ghost var ds := game.States();
    var i := 0;
    while i < |saved| && i < |game.dimensions|
      invariant 0 <= i <= |saved| && i <= |game.dimensions|
      invariant game.States() == LoadedPrefix(saved, ds, i)
    {
      label before:
      ApplyToDimension(saved[i], game.dimensions[i]);
      game.OneTierChanged@before(i);
      LoadedPrefixStep(saved, ds, i);
      i := i + 1;
    }
    LoadedPrefixDone(saved, ds, i);
  }

  /** The upgrade loop of LoadGame. */
  method LoadUpgrades(entries: seq<PrestigeUpgradeSaveData>, prestige: PrestigeManager)
    requires prestige.Valid()
    modifies prestige.upgrades.Values
    ensures prestige.Levels() == ApplyEntries(old(prestige.Levels()), entries)
  {
    ghost var levels := prestige.Levels();
    for j := 0 to |entries|
      invariant prestige.Levels() == ApplyEntries(levels, entries[..j])
    {
      var entry := entries[j];
      assert entries[..j + 1][..j] == entries[..j];
      if entry.id in prestige.upgrades {
        label before:
        prestige.upgrades[entry.id].level := entry.level;
        prestige.OneLevelChanged@before(entry.id);
      }
    }
    assert entries[..|entries|] == entries;
  }

  /**
   * A record saved from one context and loaded into another over the same catalog and the
   * same number of dimensions reproduces every saved field: the tier states, the upgrade
   * levels and the rest are taken over as they were.
   */
  lemma SaveLoadRoundTrip(ds: seq<DimState>, live: seq<DimState>, levels: map<string, nat>, liveLevels: map<string, nat>)
    requires |live| == |ds|
    requires levels.Keys == KeysBelow(UpgradeCount) && liveLevels.Keys == levels.Keys
    ensures LoadedStates(Snapshots(ds), live) == ds
    ensures ApplyEntries(liveLevels, SaveEntries(levels)) == levels
  {
    LoadSnapshots(ds, live);
    LoadSavedEntries(levels, liveLevels);
  }
}
