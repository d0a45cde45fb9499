/** Victory tracking (GameManager): the tracked enemies, the one-shot victory
    that fires once every tracked entry is gone, what the victory switches
    off, and the level routing after it. Scene loading is the scene name
    returned; the panel, the cursor and the sound are left out. */
module Encounter {
  import opened Vitals
  import opened Inventory
  import opened EnemyAI
  import opened Movement
  import opened Weapon
  import opened Persistence

  /** Unity's `enemy == null`: an entry that was never set or whose enemy has
      been destroyed. */
  predicate Gone(e: Enemy?)
    reads e
  {
    e == null || e.destroyed
  }

  /** The enemies an array of entries refers to. */
  function Entries(s: seq<Enemy?>): set<Enemy?>
  {
    set i | 0 <= i < |s| :: s[i]
  }

  /** The number of entries that are not gone. */
  function AliveCount(s: seq<Enemy?>): (n: nat)
    reads Entries(s)
    ensures n <= |s|
    ensures n == |s| ==> forall i :: 0 <= i < |s| ==> !Gone(s[i])
  {
    if |s| == 0 then 0
    else
      AliveCount(s[..|s| - 1]) + (if Gone(s[|s| - 1]) then 0 else 1)
  }

  /** No entry is alive exactly when every entry is gone. */
  lemma {:induction false} NoneAliveIffAllGone(s: seq<Enemy?>)
    ensures AliveCount(s) == 0 <==> forall i :: 0 <= i < |s| ==> Gone(s[i])
  {
    if |s| > 0 {
      var p := s[..|s| - 1];
      NoneAliveIffAllGone(p);
      assert forall i :: 0 <= i < |p| ==> p[i] == s[i];
    }
  }

  function ControllerFrame(c: PlayerController?): set<PlayerController>
  {
    if c == null then {} else {c}
  }

  function WeaponFrame(w: WeaponController?): set<WeaponController>
  {
    if w == null then {} else {w}
  }

  class GameManager {
    /** The enemies found by Start plus those registered since. */
    var allEnemies: seq<Enemy?>
    var victoryTriggered: bool
    /** Whether the scene is the last level, decided by Start from its name. */
    const isLastLevel: bool
    const nextLevelScene: string
    const mainMenuScene: string
    /** The objects TriggerVictory looks up; null when the scene has none. */
    const playerStats: PlayerStats?
    const playerController: PlayerController?
    const weaponController: WeaponController?

    /** The field initialisers (Inspector values as defaults) followed by
        Start in the scene named `currentScene`. */
    constructor (enemies: seq<Enemy?>, currentScene: string, playerStats: PlayerStats?,
                 playerController: PlayerController?, weaponController: WeaponController?,
                 nextLevelScene: string := "TestScene2", mainMenuScene: string := "MainMenuScene")
      ensures allEnemies == enemies && !victoryTriggered
      ensures isLastLevel == (currentScene == "TestScene2")
      ensures this.nextLevelScene == nextLevelScene && this.mainMenuScene == mainMenuScene
      ensures this.playerStats == playerStats && this.playerController == playerController
      ensures this.weaponController == weaponController
    {
      allEnemies, victoryTriggered := enemies, false;
      isLastLevel := currentScene == "TestScene2";
      this.nextLevelScene, this.mainMenuScene := nextLevelScene, mainMenuScene;
      this.playerStats, this.playerController := playerStats, playerController;
      this.weaponController := weaponController;
    }

    /** The victory condition: something was tracked and all of it is gone. */
    predicate VictoryDue()
      reads this, Entries(allEnemies)
    {
      |allEnemies| > 0 && forall i :: 0 <= i < |allEnemies| ==> Gone(allEnemies[i])
    }

    /** The effect of a victory, or of none, on the manager and on the
        objects it switches off. */
    twostate predicate VictoryStep(fired: bool)
      reads this, StatsFrame(playerStats), ControllerFrame(playerController), WeaponFrame(weaponController)
    {
      victoryTriggered == (old(victoryTriggered) || fired)
      && (playerStats != null ==> playerStats.gameWon == (old(playerStats.gameWon) || fired))
      && (playerController != null ==> playerController.enabled == (old(playerController.enabled) && !fired))
      && (weaponController != null ==> weaponController.enabled == (old(weaponController.enabled) && !fired))
    }

    /** The counting loop of CheckVictoryCondition. */
    method CountAliveEnemies() returns (aliveEnemies: nat)
      ensures aliveEnemies == AliveCount(allEnemies)
    {
      aliveEnemies := 0;
      var k := 0;
      while k < |allEnemies|
        invariant 0 <= k <= |allEnemies|
        invariant aliveEnemies == AliveCount(allEnemies[..k])
      {
        assert allEnemies[..k + 1][..k] == allEnemies[..k];
        if allEnemies[k] != null && !allEnemies[k].destroyed {
          aliveEnemies := aliveEnemies + 1;
        }
        k := k + 1;
      }
      assert allEnemies[..k] == allEnemies;
    }

    /** Fires the victory exactly when the condition holds; an empty array
        never does. */
    method CheckVictoryCondition()
      modifies this`victoryTriggered, StatsFrame(playerStats)`gameWon,
               ControllerFrame(playerController)`enabled, WeaponFrame(weaponController)`enabled
      ensures VictoryStep(VictoryDue())
    {
      var aliveEnemies := CountAliveEnemies();
      NoneAliveIffAllGone(allEnemies);
      if aliveEnemies == 0 && |allEnemies| > 0 {
        TriggerVictory();
      }
    }

    /** Marks the victory, tells the player's stats that the game is won and
        disables the movement and weapon controllers that exist. */
    method TriggerVictory()
      modifies this`victoryTriggered, StatsFrame(playerStats)`gameWon,
               ControllerFrame(playerController)`enabled, WeaponFrame(weaponController)`enabled
      ensures VictoryStep(true)
    {
      victoryTriggered := true;
      if playerStats != null {
        playerStats.OnGameWon();
      }
      if playerController != null {
        playerController.enabled := false;
      }
      if weaponController != null {
        weaponController.enabled := false;
      }
    }

    /** One frame: the condition is checked only until the victory fired. */
    method Update()
      modifies this`victoryTriggered, StatsFrame(playerStats)`gameWon,
               ControllerFrame(playerController)`enabled, WeaponFrame(weaponController)`enabled
      ensures VictoryStep(!old(victoryTriggered) && VictoryDue())
    {
      if !victoryTriggered {
        CheckVictoryCondition();
      }
    }

    /** The check an enemy's death requests: the same one-shot guard. */
    method CheckForVictory()
      modifies this`victoryTriggered, StatsFrame(playerStats)`gameWon,
               ControllerFrame(playerController)`enabled, WeaponFrame(weaponController)`enabled
      ensures VictoryStep(!old(victoryTriggered) && VictoryDue())
    {
      if !victoryTriggered {
        CheckVictoryCondition();
      }
    }

    /** The delayed check a dying enemy scheduled (CheckVictoryAfterDeath),
        run when its delay has passed: it is consumed and asks for the check. */
    method RunScheduledCheck(e: Enemy)
      requires e.victoryCheckScheduled
      modifies e`victoryCheckScheduled, this`victoryTriggered, StatsFrame(playerStats)`gameWon,
               ControllerFrame(playerController)`enabled, WeaponFrame(weaponController)`enabled
      ensures !e.victoryCheckScheduled
      ensures VictoryStep(!old(victoryTriggered) && VictoryDue())
    {
      e.victoryCheckScheduled := false;
      CheckForVictory();
    }

    /** Appends one entry and keeps the others in place. */
    method RegisterEnemy(enemy: Enemy?)
      modifies this`allEnemies
      ensures allEnemies == old(allEnemies) + [enemy]
    {
      allEnemies := allEnemies + [enemy];
    }

    /** Saves the snapshot, then names the scene to load: the main menu after
        the last level, the next level otherwise. */
    method LoadNextLevel(saves: SaveSystem, inventory: InventoryManager?) returns (scene: string)
      modifies saves`prefs
      ensures saves.prefs == SaveInto(old(saves.prefs),
                                      if playerStats == null then None else Some(playerStats.Record()),
                                      if inventory == null then None else Some(inventory.Record()))
      ensures scene == if isLastLevel then mainMenuScene else nextLevelScene
    {
      saves.SavePlayerData(playerStats, inventory);
      if isLastLevel {
        scene := mainMenuScene;
      } else {
        scene := nextLevelScene;
      }
    }

    /** The main-menu button. */
    method LoadMainMenu() returns (scene: string)
      ensures scene == mainMenuScene
    {
      scene := mainMenuScene;
    }
  }
}
