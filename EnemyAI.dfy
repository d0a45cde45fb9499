/** One hostile (Enemy): a detected/undetected flag with a hysteresis band,
    a cooldown-gated attack that raises the player's infection, and a death
    that pays experience and coins. Distances, time and random draws arrive
    as parameters; navigation is reduced to the command the enemy gives. */
module EnemyAI {
  import opened Numeric
  import opened Vitals
  import opened Inventory

  /** What the enemy asks of its navigation agent in one tick. */
  datatype NavCommand = NoCommand | Halt | SeekPlayer

  /** The detection flag after one tick of a live enemy facing a live player:
      a player within detectionRange is noticed, and a noticed player is lost
      only beyond both attackRange and 1.5 times detectionRange. */
  function NextDetected(detected: bool, distance: real, detectionRange: real, attackRange: real): (r: bool)
    ensures r ==> detected || distance <= detectionRange
    ensures r ==> distance <= attackRange || distance <= detectionRange * 1.5
  {
    var noticed := detected || distance <= detectionRange;
    noticed && (distance <= attackRange || distance <= detectionRange * 1.5)
  }

  /** The navigation command of that tick. */
  function NextCommand(detected: bool, distance: real, detectionRange: real, attackRange: real): (c: NavCommand)
    ensures NextDetected(detected, distance, detectionRange, attackRange) ==> c != NoCommand
    ensures c == SeekPlayer ==>
              NextDetected(detected, distance, detectionRange, attackRange)
              && attackRange < distance <= detectionRange * 1.5
  {
    if !(detected || distance <= detectionRange) then NoCommand
    else if distance <= attackRange then Halt
    else if distance <= detectionRange * 1.5 then SeekPlayer
    else Halt
  }

  /** The detection flag after a run of ticks at the given distances. */
  function DetectedAfter(detected: bool, distances: seq<real>, detectionRange: real, attackRange: real): bool
    decreases |distances|
  {
    if |distances| == 0 then detected
    else DetectedAfter(NextDetected(detected, distances[0], detectionRange, attackRange),
                       distances[1..], detectionRange, attackRange)
  }

  /** An undetected enemy notices the player exactly when the distance is
      within detectionRange. */
  lemma NoticeExactlyInRange(distance: real, detectionRange: real, attackRange: real)
    requires 0.0 <= distance
    ensures NextDetected(false, distance, detectionRange, attackRange) <==> distance <= detectionRange
  {
  }

  /** A detected enemy keeps the player while the distance stays within
      attackRange or within 1.5 times detectionRange, chasing beyond attackRange and halting within it. */
  lemma HysteresisBand(distance: real, detectionRange: real, attackRange: real)
    requires distance <= attackRange || distance <= detectionRange * 1.5
    ensures NextDetected(true, distance, detectionRange, attackRange)
    ensures NextCommand(true, distance, detectionRange, attackRange)
            == if distance <= attackRange then Halt else SeekPlayer
  {
  }

  /** A detected enemy beyond both attackRange and 1.5 times detectionRange
      loses the player and halts. */
  lemma LosesBeyondBand(distance: real, detectionRange: real, attackRange: real)
    requires distance > detectionRange * 1.5 && distance > attackRange
    ensures !NextDetected(true, distance, detectionRange, attackRange)
    ensures NextCommand(true, distance, detectionRange, attackRange) == Halt
  {
  }

  /** No flicker: over any run of ticks whose distances all stay within the
      band, a detected enemy stays detected at every step. */
  lemma {:induction false} StaysDetectedInBand(distances: seq<real>, detectionRange: real, attackRange: real)
    requires forall k :: 0 <= k < |distances| ==> distances[k] <= detectionRange * 1.5
    ensures DetectedAfter(true, distances, detectionRange, attackRange)
  {
    if |distances| > 0 {
      HysteresisBand(distances[0], detectionRange, attackRange);
      StaysDetectedInBand(distances[1..], detectionRange, attackRange);
    }
  }

  /** The oscillation case, as an instance of StaysDetectedInBand: a player
      whose distance oscillates around attackRange, up to attackRange + 1
      (inside the band for the default ranges, attack 2 and detection 8),
      never makes a detected enemy lose detection. */
  lemma NoThrashAtAttackRange(distances: seq<real>, detectionRange: real, attackRange: real)
    requires attackRange + 1.0 <= detectionRange * 1.5
    requires forall k :: 0 <= k < |distances| ==> distances[k] <= attackRange + 1.0
    ensures DetectedAfter(true, distances, detectionRange, attackRange)
  {
    StaysDetectedInBand(distances, detectionRange, attackRange);
  }

  /** The effect of Enemy.TakeDamage: ignored once dead; otherwise health
      drops by `damage`; a survivor notices the player, and a hit that leaves
      no health kills the enemy, pays its experienceReward to the player and
      the coin roll into the inventory (when there is one), and schedules the
      victory check (when there is a GameManager). */
  twostate predicate TookDamage(e: Enemy, damage: int, inventory: InventoryManager?, coinRoll: int)
    reads e, e.playerStats, InventoryFrame(inventory)
  {
    && (old(e.isDead) ==>
          e.currentHealth == old(e.currentHealth) && e.playerDetected == old(e.playerDetected)
          && e.isDead && e.victoryCheckScheduled == old(e.victoryCheckScheduled)
          && e.playerStats.CurrentProgress() == old(e.playerStats.CurrentProgress())
          && (inventory != null ==> inventory.coins == old(inventory.coins)))
    && (!old(e.isDead) ==> e.currentHealth == old(e.currentHealth) - damage)
    && (!old(e.isDead) && e.currentHealth > 0 ==>
          e.playerDetected && !e.isDead && e.victoryCheckScheduled == old(e.victoryCheckScheduled)
          && e.playerStats.CurrentProgress() == old(e.playerStats.CurrentProgress())
          && (inventory != null ==> inventory.coins == old(inventory.coins)))
    && (!old(e.isDead) && e.currentHealth <= 0 ==>
          e.isDead && e.playerDetected == old(e.playerDetected)
          && e.victoryCheckScheduled == (old(e.victoryCheckScheduled) || e.hasGameManager)
          && e.playerStats.CurrentProgress()
             == GainExperience(old(e.playerStats.CurrentProgress()), e.experienceReward, e.playerStats.baseDamage)
          && (inventory != null ==>
                inventory.coins == Clamp(old(inventory.coins) + coinRoll, 0, inventory.maxCoins)))
  }

  class Enemy {
    const maxHealth: int
    var currentHealth: int
    const experienceReward: int
    const attackRange: real
    const detectionRange: real
    const attackCooldown: real
    /** The player's stats found by Start. */
    const playerStats: PlayerStats
    /** Whether Start found a GameManager. */
    const hasGameManager: bool
    var isDead: bool
    var playerDetected: bool
    var lastAttackTime: real
    /** Set when Die starts the delayed victory check. */
    var victoryCheckScheduled: bool
    /** Set when the death animation ends with Destroy: the enemy is gone. */
    var destroyed: bool

    /** The field initialisers (Inspector values as defaults) followed by
        Start, which fills health. */
    constructor (playerStats: PlayerStats, hasGameManager: bool, maxHealth: int := 50,
                 experienceReward: int := 25, attackRange: real := 2.0,
                 detectionRange: real := 8.0, attackCooldown: real := 2.0)
      ensures this.playerStats == playerStats && this.hasGameManager == hasGameManager
      ensures this.maxHealth == maxHealth && currentHealth == maxHealth
      ensures this.experienceReward == experienceReward
      ensures this.attackRange == attackRange && this.detectionRange == detectionRange
      ensures this.attackCooldown == attackCooldown
      ensures !isDead && !playerDetected && lastAttackTime == 0.0
      ensures !victoryCheckScheduled && !destroyed
    {
      this.playerStats, this.hasGameManager := playerStats, hasGameManager;
      this.maxHealth, currentHealth := maxHealth, maxHealth;
      this.experienceReward := experienceReward;
      this.attackRange, this.detectionRange := attackRange, detectionRange;
      this.attackCooldown := attackCooldown;
      isDead, playerDetected, lastAttackTime := false, false, 0.0;
      victoryCheckScheduled, destroyed := false, false;
    }

    predicate AttackReady(now: real)
      reads this
    {
      now >= lastAttackTime + attackCooldown
    }

    /** One tick at `distance` from the player. A dead enemy does nothing; a
        defeated player makes it halt and do nothing else; otherwise the
        detection rule runs, and a detected enemy within attackRange halts
        and attacks when its cooldown has passed. `infectionRoll` is the draw
        of Random.Range(10, 25). */
    method Update(now: real, distance: real, infectionRoll: int) returns (command: NavCommand, attacked: bool)
      requires 10 <= infectionRoll <= 24
      modifies this`playerDetected, this`lastAttackTime, playerStats`currentInfection
      ensures old(isDead) ==> command == NoCommand
      ensures !old(isDead) && old(playerStats.currentHealth) <= 0 ==> command == Halt
      ensures old(isDead || playerStats.currentHealth <= 0) ==>
                !attacked && playerDetected == old(playerDetected)
      ensures old(!isDead && playerStats.currentHealth > 0) ==>
                playerDetected == NextDetected(old(playerDetected), distance, detectionRange, attackRange)
                && command == NextCommand(old(playerDetected), distance, detectionRange, attackRange)
                && attacked == ((old(playerDetected) || distance <= detectionRange)
                                && distance <= attackRange && old(AttackReady(now)))
      ensures lastAttackTime == if attacked then now else old(lastAttackTime)
      ensures playerStats.currentInfection ==
                if attacked then Clamp(old(playerStats.currentInfection) + infectionRoll, 0, playerStats.maxInfection)
                else old(playerStats.currentInfection)
    {
      command, attacked := NoCommand, false;
      if isDead {
        return;
      }
      if playerStats.currentHealth <= 0 {
        command := Halt;
        return;
      }
      if !playerDetected && distance <= detectionRange {
        playerDetected := true;
      }
      if playerDetected {
        if distance <= attackRange {
          command := Halt;
          if now >= lastAttackTime + attackCooldown {
            attacked := AttackPlayer(now, infectionRoll);
          }
        } else if distance <= detectionRange * 1.5 {
          command := SeekPlayer;
        } else {
          playerDetected := false;
          command := Halt;
        }
      }
    }

    /** Attacks a live player: stamps the attack time and raises the player's
        infection by the roll; the player's health is never touched. */
    method AttackPlayer(now: real, infectionRoll: int) returns (attacked: bool)
      requires 10 <= infectionRoll <= 24
      modifies this`lastAttackTime, playerStats`currentInfection
      ensures attacked == (old(playerStats.currentHealth) > 0)
      ensures lastAttackTime == if attacked then now else old(lastAttackTime)
      ensures playerStats.currentInfection ==
                if attacked then Clamp(old(playerStats.currentInfection) + infectionRoll, 0, playerStats.maxInfection)
                else old(playerStats.currentInfection)
      ensures playerStats.currentHealth == old(playerStats.currentHealth)
    {
      if playerStats.currentHealth <= 0 {
        return false;
      }
      lastAttackTime := now;
      playerStats.AddInfection(infectionRoll);
      return true;
    }

    /** A hit: ignored once dead; otherwise health drops by `damage`, and the
        enemy either notices the player or dies. `inventory` is the
        InventoryManager that Die looks up and `coinRoll` the draw of
        Random.Range(5, 16). */
    method TakeDamage(damage: int, inventory: InventoryManager?, coinRoll: int)
      requires 5 <= coinRoll <= 15
      modifies this`currentHealth, this`playerDetected, this`isDead, this`victoryCheckScheduled,
               playerStats`experience, playerStats`level, playerStats`experienceToNext,
               playerStats`maxHealth, playerStats`currentHealth, playerStats`maxStamina,
               playerStats`currentStamina, playerStats`currentDamage, InventoryFrame(inventory)`coins
      ensures TookDamage(this, damage, inventory, coinRoll)
    {
      if isDead {
        return;
      }
      currentHealth := currentHealth - damage;
      if currentHealth <= 0 {
        Die(inventory, coinRoll);
      } else {
        playerDetected := true;
      }
    }

    /** Death: marks the enemy dead, grants experienceReward to the player,
        drops the coin roll into the inventory when there is one, and
        schedules the victory check when there is a GameManager. */
    method Die(inventory: InventoryManager?, coinRoll: int)
      requires 5 <= coinRoll <= 15
      modifies this`isDead, this`victoryCheckScheduled,
               playerStats`experience, playerStats`level, playerStats`experienceToNext,
               playerStats`maxHealth, playerStats`currentHealth, playerStats`maxStamina,
               playerStats`currentStamina, playerStats`currentDamage, InventoryFrame(inventory)`coins
      ensures isDead
      ensures victoryCheckScheduled == (old(victoryCheckScheduled) || hasGameManager)
      ensures playerStats.CurrentProgress()
              == GainExperience(old(playerStats.CurrentProgress()), experienceReward, playerStats.baseDamage)
      ensures inventory != null ==> inventory.coins == Clamp(old(inventory.coins) + coinRoll, 0, inventory.maxCoins)
    {
      isDead := true;
      playerStats.AddExperience(experienceReward);
      if inventory != null {
        inventory.AddCoins(coinRoll);
      }
      if hasGameManager {
        victoryCheckScheduled := true;
      }
    }

    /** The end of the death animation: Destroy removes a dead enemy. */
    method FinishDeathAnimation()
      modifies this`destroyed
      ensures destroyed == (old(destroyed) || isDead)
    {
      if isDead {
        destroyed := true;
      }
    }
  }
}
