/** Short play sequences on fresh objects and on the persistence classes, each
    driving the modelled methods and stating the outcome the game promises. */
module Scenarios {
  import opened Vitals
  import opened Inventory
  import opened EnemyAI
  import opened Movement
  import opened Weapon
  import opened Persistence
  import opened GameData
  import opened Encounter

  /** A 60-coin purchase is refused with 50 coins and nothing is paid; with 60
      coins it goes through and leaves none. */
  method ShopPurchase() returns (refused: bool, bought: bool, antidotes: int, coinsLeft: int)
    ensures refused && bought && antidotes == 2 && coinsLeft == 0
  {
    var inventory := new InventoryManager(null);
    inventory.AddCoins(50);
    var ok := inventory.BuyAntidote(60);
    refused := !ok;
    inventory.AddCoins(10);
    bought := inventory.BuyAntidote(60);
    antidotes, coinsLeft := inventory.antidotes, inventory.coins;
  }

  /** Coins are capped: 95 plus a 20-coin drop gives the cap of 100. */
  method CoinCap() returns (coins: int)
    ensures coins == 100
  {
    var inventory := new InventoryManager(null);
    inventory.AddCoins(95);
    inventory.AddCoins(20);
    coins := inventory.coins;
  }

  /** 150 experience at level 1 gives exactly one level-up, to level 2 with 50
      experience carried over and 120 needed next. */
  method FirstLevelUp() returns (r: Progress)
    ensures r == Progress(2, 50, 120, 105, 105, 105, 105, 21)
  {
    var stats := new PlayerStats();
    stats.AddExperience(150);
    LevelUpExample();
    r := stats.CurrentProgress();
  }

  /** One tracked enemy: no victory while it lives; its own delayed check,
      run while it is still present, does not fire; once it is destroyed the
      next frame fires the victory, after which the player
      takes no damage. */
  method KillLastEnemy() returns (wonBefore: bool, wonAfter: bool, enemyDead: bool, health: int)
    ensures !wonBefore && wonAfter && enemyDead && health == 100
  {
    var stats := new PlayerStats();
    var enemy := new Enemy(stats, true);
    var manager := new GameManager([enemy], "TestScene1", stats, null, null);
    assert manager.allEnemies == [enemy];
    assert !Gone(manager.allEnemies[0]);
    manager.Update();
    wonBefore := manager.victoryTriggered;
    assert !wonBefore && !stats.gameWon;
    enemy.TakeDamage(50, null, 10);
    enemyDead := enemy.isDead;
    assert enemyDead && !stats.gameWon && stats.currentHealth == 100;
    assert manager.allEnemies == [enemy];
    assert !Gone(manager.allEnemies[0]);
    manager.RunScheduledCheck(enemy);
    assert !manager.victoryTriggered && !stats.gameWon;
    enemy.FinishDeathAnimation();
    assert manager.VictoryDue();
    manager.Update();
    wonAfter := manager.victoryTriggered && stats.gameWon;
    assert wonAfter && stats.currentHealth == 100;
    stats.TakeDamage(30);
    health := stats.currentHealth;
  }

  /** Two clicks half a second apart: the first swing deals the player's 20
      damage to the enemy it hits and costs 10 stamina; the second falls
      inside the 0.8 s cooldown and is refused. */
  method TwoQuickSwings() returns (first: bool, second: bool, enemyHealth: int, stamina: real)
    ensures first && !second && enemyHealth == 30 && stamina == 90.0
  {
    var stats := new PlayerStats();
    var controller := new PlayerController();
    var weapon := new WeaponController(stats, controller);
    var enemy := new Enemy(stats, false);
    first := weapon.Update(1.0, false, true, HitEnemy(enemy), null, 10);
    second := weapon.Update(1.5, false, true, HitEnemy(enemy), null, 10);
    enemyHealth, stamina := enemy.currentHealth, controller.currentStamina;
  }

  /** A drained controller resting for one second regains 15 stamina, exactly
      the jump's cost, so a jump in that frame goes through and leaves none;
      a second jump in a frame without rest is refused. */
  method RestThenJump() returns (first: bool, second: bool, stamina: real)
    ensures first && !second && stamina == 0.0
  {
    var controller := new PlayerController();
    controller.UseStamina(100.0);
    first := controller.Update(1.0, false, false, true, true);
    second := controller.Update(0.0, false, false, true, true);
    stamina := controller.currentStamina;
  }

  /** A scene change through the key/value store: what one scene's objects
      save, the next scene's objects load. */
  method CarryOverThroughStore(saves: SaveSystem, stats: PlayerStats, inventory: InventoryManager,
                               nextStats: PlayerStats, nextInventory: InventoryManager)
    modifies saves`prefs, nextStats`level, nextStats`experience, nextStats`experienceToNext,
             nextStats`currentHealth, nextStats`maxHealth, nextStats`currentInfection, nextStats`currentDamage,
             nextInventory`antidotes, nextInventory`bandages, nextInventory`coins
    ensures nextStats.Record() == old(stats.Record()) && nextInventory.Record() == old(inventory.Record())
  {
    saves.SavePlayerData(stats, inventory);
    SaveLoadRoundTrip(old(saves.prefs), old(stats.Record()), old(inventory.Record()));
    saves.LoadPlayerData(nextStats, nextInventory);
  }

  /** After a reset of the store, the next scene's objects keep their own
      values. */
  method ResetThenLoadStore(saves: SaveSystem, stats: PlayerStats, inventory: InventoryManager)
    modifies saves`prefs, stats`level, stats`experience, stats`experienceToNext,
             stats`currentHealth, stats`maxHealth, stats`currentInfection, stats`currentDamage,
             inventory`antidotes, inventory`bandages, inventory`coins
    ensures stats.Record() == old(stats.Record()) && inventory.Record() == old(inventory.Record())
  {
    saves.ResetData();
    saves.LoadPlayerData(stats, inventory);
  }

  /** The same scene change through the in-memory snapshot. */
  method CarryOverInMemory(data: GameDataManager, stats: PlayerStats, inventory: InventoryManager,
                           nextStats: PlayerStats, nextInventory: InventoryManager)
    modifies data, nextStats`level, nextStats`experience, nextStats`experienceToNext,
             nextStats`currentHealth, nextStats`maxHealth, nextStats`currentInfection, nextStats`currentDamage,
             nextInventory`antidotes, nextInventory`bandages, nextInventory`coins
    ensures nextStats.Record() == old(stats.Record()) && nextInventory.Record() == old(inventory.Record())
  {
    data.SavePlayerData(stats, inventory);
    data.LoadPlayerData(nextStats, nextInventory);
  }

  /** After a reset of the snapshot, a load changes nothing. */
  method ResetThenLoadInMemory(data: GameDataManager, stats: PlayerStats, inventory: InventoryManager)
    modifies data, stats`level, stats`experience, stats`experienceToNext,
             stats`currentHealth, stats`maxHealth, stats`currentInfection, stats`currentDamage,
             inventory`antidotes, inventory`bandages, inventory`coins
    ensures stats.Record() == old(stats.Record()) && inventory.Record() == old(inventory.Record())
  {
    data.ResetData();
    data.LoadPlayerData(stats, inventory);
  }
}
