/** Snapshot persistence through a key/value store (SaveSystem over
    PlayerPrefs): ten integer keys for the player's and the inventory's saved
    values, and a FirstLevel key that tells a load whether there is anything
    to restore. The store is a map from key to integer. */
module Persistence {
  import opened Vitals
  import opened Inventory

  datatype Option<T> = None | Some(value: T)

  type Prefs = map<string, int>

  const LevelKey := "PlayerLevel"
  const ExpKey := "PlayerExperience"
  const ExpToNextKey := "PlayerExpToNext"
  const HealthKey := "PlayerHealth"
  const MaxHealthKey := "PlayerMaxHealth"
  const InfectionKey := "PlayerInfection"
  const DamageKey := "PlayerDamage"
  const AntidotesKey := "Antidotes"
  const BandagesKey := "Bandages"
  const CoinsKey := "Coins"
  const FirstLevelKey := "FirstLevel"

  /** The ten keys that hold saved values. */
  const SavedKeys := {LevelKey, ExpKey, ExpToNextKey, HealthKey, MaxHealthKey, InfectionKey,
                      DamageKey, AntidotesKey, BandagesKey, CoinsKey}

  /** PlayerPrefs.GetInt(key, default). */
  function GetInt(prefs: Prefs, key: string, default: int): (r: int)
    ensures key in prefs ==> r == prefs[key]
    ensures key !in prefs ==> r == default
  {
    if key in prefs then prefs[key] else default
  }

  /** True when a load must do nothing: FirstLevel missing or equal to 1. */
  predicate IsFirstLevel(prefs: Prefs)
    ensures IsFirstLevel(prefs) <==> FirstLevelKey !in prefs || prefs[FirstLevelKey] == 1
  {
    GetInt(prefs, FirstLevelKey, 1) == 1
  }

  function WriteStats(prefs: Prefs, r: StatsRecord): Prefs
  {
    prefs[LevelKey := r.level][ExpKey := r.experience][ExpToNextKey := r.experienceToNext]
         [HealthKey := r.currentHealth][MaxHealthKey := r.maxHealth]
         [InfectionKey := r.currentInfection][DamageKey := r.currentDamage]
  }

  function WriteItems(prefs: Prefs, r: InventoryRecord): Prefs
  {
    prefs[AntidotesKey := r.antidotes][BandagesKey := r.bandages][CoinsKey := r.coins]
  }

  /** The store after a save: the player's values when there is a player, the
      inventory's when there is an inventory, and FirstLevel = 0 always. */
  function SaveInto(prefs: Prefs, stats: Option<StatsRecord>, items: Option<InventoryRecord>): (r: Prefs)
    ensures FirstLevelKey in r && r[FirstLevelKey] == 0
    ensures forall k :: k !in SavedKeys && k != FirstLevelKey ==> (k in r <==> k in prefs)
    ensures forall k :: k !in SavedKeys && k != FirstLevelKey && k in r ==> r[k] == prefs[k]
  {
    var withStats := if stats.Some? then WriteStats(prefs, stats.value) else prefs;
    var withItems := if items.Some? then WriteItems(withStats, items.value) else withStats;
    withItems[FirstLevelKey := 0]
  }

  /** The player's values a load reads, each key's default standing in for a
      missing key. */
  function ReadStats(prefs: Prefs): (r: StatsRecord)
    ensures (forall k :: k in SavedKeys ==> k !in prefs) ==> r == NewGameStats
  {
    assert LevelKey in SavedKeys && ExpKey in SavedKeys && ExpToNextKey in SavedKeys;
    assert HealthKey in SavedKeys && MaxHealthKey in SavedKeys && InfectionKey in SavedKeys;
    assert DamageKey in SavedKeys;
    StatsRecord(GetInt(prefs, LevelKey, 1), GetInt(prefs, ExpKey, 0), GetInt(prefs, ExpToNextKey, 100),
                GetInt(prefs, HealthKey, 100), GetInt(prefs, MaxHealthKey, 100),
                GetInt(prefs, InfectionKey, 0), GetInt(prefs, DamageKey, 20))
  }

  /** The inventory values a load reads, with the same per-key defaults. */
  function ReadItems(prefs: Prefs): (r: InventoryRecord)
    ensures (forall k :: k in SavedKeys ==> k !in prefs) ==> r == NewGameItems
  {
    assert AntidotesKey in SavedKeys && BandagesKey in SavedKeys && CoinsKey in SavedKeys;
    InventoryRecord(GetInt(prefs, AntidotesKey, 1), GetInt(prefs, BandagesKey, 1), GetInt(prefs, CoinsKey, 0))
  }

  /** The store after ResetData: the ten keys deleted, FirstLevel stored as
      1, and every other key kept as it was. */
  function ResetPrefs(prefs: Prefs): (r: Prefs)
    ensures forall k :: k in SavedKeys ==> k !in r
    ensures FirstLevelKey in r && r[FirstLevelKey] == 1
    ensures IsFirstLevel(r)
    ensures forall k :: k !in SavedKeys && k != FirstLevelKey ==> (k in r <==> k in prefs)
    ensures forall k :: k !in SavedKeys && k != FirstLevelKey && k in r ==> r[k] == prefs[k]
  {
    (prefs - SavedKeys)[FirstLevelKey := 1]
  }

  /** Save then load restores exactly what was saved. */
  lemma SaveLoadRoundTrip(prefs: Prefs, stats: StatsRecord, items: InventoryRecord)
    ensures !IsFirstLevel(SaveInto(prefs, Some(stats), Some(items)))
    ensures ReadStats(SaveInto(prefs, Some(stats), Some(items))) == stats
    ensures ReadItems(SaveInto(prefs, Some(stats), Some(items))) == items
  {
  }

  /** A save clears the first-level guard even with neither object present,
      and then changes no saved value. */
  lemma SaveWithoutObjects(prefs: Prefs)
    ensures !IsFirstLevel(SaveInto(prefs, None, None))
    ensures ReadStats(SaveInto(prefs, None, None)) == ReadStats(prefs)
    ensures ReadItems(SaveInto(prefs, None, None)) == ReadItems(prefs)
  {
  }

  /** Saving only one object's values writes them and leaves the other's
      saved values alone. */
  lemma SavesAreIndependent(prefs: Prefs, stats: StatsRecord, items: InventoryRecord)
    ensures ReadStats(SaveInto(prefs, Some(stats), None)) == stats
    ensures ReadItems(SaveInto(prefs, Some(stats), None)) == ReadItems(prefs)
    ensures ReadItems(SaveInto(prefs, None, Some(items))) == items
    ensures ReadStats(SaveInto(prefs, None, Some(items))) == ReadStats(prefs)
  {
  }

  /** After a reset, a load is guarded off, and the saved values read as the
      new-game values. */
  lemma ResetForgetsSave(prefs: Prefs)
    ensures IsFirstLevel(ResetPrefs(prefs))
    ensures ReadStats(ResetPrefs(prefs)) == NewGameStats
    ensures ReadItems(ResetPrefs(prefs)) == NewGameItems
  {
  }

  class SaveSystem {
    /** The PlayerPrefs store. */
    var prefs: Prefs

    constructor (prefs: Prefs)
      ensures this.prefs == prefs
    {
      this.prefs := prefs;
    }

    /** Writes the player's values when there is a player, the inventory's when
        there is an inventory, and FirstLevel = 0 in every case. */
    method SavePlayerData(stats: PlayerStats?, inventory: InventoryManager?)
      modifies this`prefs
      ensures prefs == SaveInto(old(prefs), if stats == null then None else Some(stats.Record()),
                                 if inventory == null then None else Some(inventory.Record()))
    {
      if stats != null {
        prefs := prefs[LevelKey := stats.level];
        prefs := prefs[ExpKey := stats.experience];
        prefs := prefs[ExpToNextKey := stats.experienceToNext];
        prefs := prefs[HealthKey := stats.currentHealth];
        prefs := prefs[MaxHealthKey := stats.maxHealth];
        prefs := prefs[InfectionKey := stats.currentInfection];
        prefs := prefs[DamageKey := stats.currentDamage];
      }
      if inventory != null {
        prefs := prefs[AntidotesKey := inventory.antidotes];
        prefs := prefs[BandagesKey := inventory.bandages];
        prefs := prefs[CoinsKey := inventory.coins];
      }
      prefs := prefs[FirstLevelKey := 0];
    }

    /** Restores the saved values into the objects that exist, unless the
        first-level guard is set; the values that are not saved (stamina,
        the infection cap, the base damage, the cooldown stamps) are untouched. */
    method LoadPlayerData(stats: PlayerStats?, inventory: InventoryManager?)
      modifies StatsFrame(stats)`level, StatsFrame(stats)`experience, StatsFrame(stats)`experienceToNext,
               StatsFrame(stats)`currentHealth, StatsFrame(stats)`maxHealth,
               StatsFrame(stats)`currentInfection, StatsFrame(stats)`currentDamage,
               InventoryFrame(inventory)`antidotes, InventoryFrame(inventory)`bandages,
               InventoryFrame(inventory)`coins
      ensures stats != null ==>
                stats.Record() == (if IsFirstLevel(prefs) then old(stats.Record()) else ReadStats(prefs))
                && stats.maxStamina == old(stats.maxStamina) && stats.currentStamina == old(stats.currentStamina)
      ensures inventory != null ==>
                inventory.Record() == (if IsFirstLevel(prefs) then old(inventory.Record()) else ReadItems(prefs))
    {
      var isFirstLevel := GetInt(prefs, FirstLevelKey, 1) == 1;
      if isFirstLevel {
        return;
      }
      if stats != null {
        stats.level := GetInt(prefs, LevelKey, 1);
        stats.experience := GetInt(prefs, ExpKey, 0);
        stats.experienceToNext := GetInt(prefs, ExpToNextKey, 100);
        stats.currentHealth := GetInt(prefs, HealthKey, 100);
        stats.maxHealth := GetInt(prefs, MaxHealthKey, 100);
        stats.currentInfection := GetInt(prefs, InfectionKey, 0);
        stats.currentDamage := GetInt(prefs, DamageKey, 20);
      }
      if inventory != null {
        inventory.antidotes := GetInt(prefs, AntidotesKey, 1);
        inventory.bandages := GetInt(prefs, BandagesKey, 1);
        inventory.coins := GetInt(prefs, CoinsKey, 0);
      }
    }

    /** Deletes the ten keys and sets FirstLevel = 1. */
    method ResetData()
      modifies this`prefs
      ensures prefs == ResetPrefs(old(prefs))
    {
      prefs := (prefs - SavedKeys)[FirstLevelKey := 1];
    }
  }
}
