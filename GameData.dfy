/** The in-memory snapshot (GameDataManager) that carries the player's and the
    inventory's values across a scene load: ten fields plus the first-level
    guard. */
module GameData {
  import opened Vitals
  import opened Inventory

  class GameDataManager {
    var playerLevel: int
    var playerExperience: int
    var playerExperienceToNext: int
    var playerHealth: int
    var playerMaxHealth: int
    var playerInfection: int
    var playerDamage: int
    var antidotes: int
    var bandages: int
    var coins: int
    var isFirstLevel: bool

    /** The field initialisers: the new-game values and the guard set. */
    constructor ()
      ensures StatsSnapshot() == NewGameStats && ItemsSnapshot() == NewGameItems && isFirstLevel
    {
      playerLevel, playerExperience, playerExperienceToNext := 1, 0, 100;
      playerHealth, playerMaxHealth, playerInfection, playerDamage := 100, 100, 0, 20;
      antidotes, bandages, coins := 1, 1, 0;
      isFirstLevel := true;
    }

    /** The player's values held by the snapshot. */
    function StatsSnapshot(): StatsRecord
      reads this
    {
      StatsRecord(playerLevel, playerExperience, playerExperienceToNext, playerHealth,
                  playerMaxHealth, playerInfection, playerDamage)
    }

    /** The inventory's values held by the snapshot. */
    function ItemsSnapshot(): InventoryRecord
      reads this
    {
      InventoryRecord(antidotes, bandages, coins)
    }

    /** Copies the player's values when there is a player and the inventory's
        when there is an inventory, and clears the guard in every case. */
    method SavePlayerData(stats: PlayerStats?, inventory: InventoryManager?)
      modifies this
      ensures StatsSnapshot() == if stats == null then old(StatsSnapshot()) else stats.Record()
      ensures ItemsSnapshot() == if inventory == null then old(ItemsSnapshot()) else inventory.Record()
      ensures !isFirstLevel
    {
      if stats != null {
        playerLevel := stats.level;
        playerExperience := stats.experience;
        playerExperienceToNext := stats.experienceToNext;
        playerHealth := stats.currentHealth;
        playerMaxHealth := stats.maxHealth;
        playerInfection := stats.currentInfection;
        playerDamage := stats.currentDamage;
      }
      if inventory != null {
        antidotes := inventory.antidotes;
        bandages := inventory.bandages;
        coins := inventory.coins;
      }
      isFirstLevel := false;
    }

    /** Copies the snapshot back into the objects that exist, unless the guard
        is set; the player's unsaved values (stamina, the infection cap, the
        base damage) are untouched. */
    method LoadPlayerData(stats: PlayerStats?, inventory: InventoryManager?)
      modifies StatsFrame(stats)`level, StatsFrame(stats)`experience, StatsFrame(stats)`experienceToNext,
               StatsFrame(stats)`currentHealth, StatsFrame(stats)`maxHealth,
               StatsFrame(stats)`currentInfection, StatsFrame(stats)`currentDamage,
               InventoryFrame(inventory)`antidotes, InventoryFrame(inventory)`bandages,
               InventoryFrame(inventory)`coins
      ensures stats != null ==>
                stats.Record() == (if isFirstLevel then old(stats.Record()) else StatsSnapshot())
                && stats.maxStamina == old(stats.maxStamina) && stats.currentStamina == old(stats.currentStamina)
      ensures inventory != null ==>
                inventory.Record() == (if isFirstLevel then old(inventory.Record()) else ItemsSnapshot())
    {
      if isFirstLevel {
        return;
      }
      if stats != null {
        stats.level := playerLevel;
        stats.experience := playerExperience;
        stats.experienceToNext := playerExperienceToNext;
        stats.currentHealth := playerHealth;
        stats.maxHealth := playerMaxHealth;
        stats.currentInfection := playerInfection;
        stats.currentDamage := playerDamage;
      }
      if inventory != null {
        inventory.antidotes := antidotes;
        inventory.bandages := bandages;
        inventory.coins := coins;
      }
    }

    /** Back to the new-game values with the guard set. */
    method ResetData()
      modifies this
      ensures StatsSnapshot() == NewGameStats && ItemsSnapshot() == NewGameItems && isFirstLevel
    {
      playerLevel := 1;
      playerExperience := 0;
      playerExperienceToNext := 100;
      playerHealth := 100;
      playerMaxHealth := 100;
      playerInfection := 0;
      playerDamage := 20;
      antidotes := 1;
      bandages := 1;
      coins := 0;
      isFirstLevel := true;
    }
  }
}
