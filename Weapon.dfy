/** Melee combat (WeaponController): an attack is allowed once its cooldown
    has passed and the controller has the stamina for it; every attack stamps
    the time and spends the stamina, and only a ray that hits an enemy
    damages it. The camera raycast arrives as its result. */
module Weapon {
  import opened Vitals
  import opened Inventory
  import opened EnemyAI
  import opened Movement

  /** What the attack ray hit within attackRange. */
  datatype RayHit = NoHit | HitEnemy(enemy: Enemy) | HitOther

  /** The enemy a ray hit, as a frame. */
  function HitFrame(hit: RayHit): set<Enemy>
  {
    if hit.HitEnemy? then {hit.enemy} else {}
  }

  /** The stats of the enemy's player, as a frame. */
  function HitStatsFrame(hit: RayHit): set<PlayerStats>
  {
    if hit.HitEnemy? then {hit.enemy.playerStats} else {}
  }

  class WeaponController {
    const attackRange: real
    const attackCooldown: real
    const playerStats: PlayerStats
    const playerController: PlayerController
    var lastAttackTime: real
    /** Cleared by GameManager.TriggerVictory; Unity stops calling Update then. */
    var enabled: bool

    /** The field initialisers (Inspector values as defaults) and Start's
        component lookups. */
    constructor (playerStats: PlayerStats, playerController: PlayerController,
                 attackRange: real := 3.0, attackCooldown: real := 0.8)
      ensures this.playerStats == playerStats && this.playerController == playerController
      ensures this.attackRange == attackRange && this.attackCooldown == attackCooldown
      ensures lastAttackTime == 0.0 && enabled
    {
      this.playerStats, this.playerController := playerStats, playerController;
      this.attackRange, this.attackCooldown := attackRange, attackCooldown;
      lastAttackTime, enabled := 0.0, true;
    }

    predicate CanAttack(now: real)
      reads this, playerController
    {
      now >= lastAttackTime + attackCooldown
      && playerController.CanUseStamina(playerController.attackStaminaCost)
    }

    /** One frame: nothing while disabled or while a UI panel is open; a click
        attacks when CanAttack holds, and without an attack nothing in the
        frame changes. */
    method Update(now: real, uiOpen: bool, clicked: bool, hit: RayHit,
                  inventory: InventoryManager?, coinRoll: int) returns (attacked: bool)
      requires 5 <= coinRoll <= 15
      modifies this`lastAttackTime, playerController`currentStamina,
               HitFrame(hit)`currentHealth, HitFrame(hit)`playerDetected, HitFrame(hit)`isDead,
               HitFrame(hit)`victoryCheckScheduled,
               HitStatsFrame(hit)`experience, HitStatsFrame(hit)`level, HitStatsFrame(hit)`experienceToNext,
               HitStatsFrame(hit)`maxHealth, HitStatsFrame(hit)`currentHealth, HitStatsFrame(hit)`maxStamina,
               HitStatsFrame(hit)`currentStamina, HitStatsFrame(hit)`currentDamage, InventoryFrame(inventory)`coins
      ensures attacked == (enabled && !uiOpen && clicked && old(CanAttack(now)))
      ensures !attacked ==>
                unchanged(this, playerController, HitFrame(hit), HitStatsFrame(hit), InventoryFrame(inventory))
      ensures attacked ==> Attacked(now, hit, old(playerStats.currentDamage), inventory, coinRoll)
    {
      attacked := false;
      if !enabled || uiOpen {
        return;
      }
      if clicked && CanAttack(now) {
        Attack(now, hit, inventory, coinRoll);
        attacked := true;
      }
    }

    /** The effect of one attack at `now` that deals `damage`. */
    twostate predicate Attacked(now: real, hit: RayHit, damage: int, inventory: InventoryManager?, coinRoll: int)
      reads this, playerController, HitFrame(hit), HitStatsFrame(hit), InventoryFrame(inventory)
    {
      lastAttackTime == now
      && playerController.currentStamina
         == Numeric.MaxReal(old(playerController.currentStamina) - playerController.attackStaminaCost, 0.0)
      && (hit.HitEnemy? ==> TookDamage(hit.enemy, damage, inventory, coinRoll))
      && (!hit.HitEnemy? && inventory != null ==> inventory.coins == old(inventory.coins))
    }

    /** Swings: stamps the attack time and spends attackStaminaCost (floored at
        zero) whatever the ray hit; an enemy hit takes exactly the player's
        current damage, nothing else is damaged, and a miss pays no coins. */
    method Attack(now: real, hit: RayHit, inventory: InventoryManager?, coinRoll: int)
      requires 5 <= coinRoll <= 15
      modifies this`lastAttackTime, playerController`currentStamina,
               HitFrame(hit)`currentHealth, HitFrame(hit)`playerDetected, HitFrame(hit)`isDead,
               HitFrame(hit)`victoryCheckScheduled,
               HitStatsFrame(hit)`experience, HitStatsFrame(hit)`level, HitStatsFrame(hit)`experienceToNext,
               HitStatsFrame(hit)`maxHealth, HitStatsFrame(hit)`currentHealth, HitStatsFrame(hit)`maxStamina,
               HitStatsFrame(hit)`currentStamina, HitStatsFrame(hit)`currentDamage, InventoryFrame(inventory)`coins
      ensures Attacked(now, hit, old(playerStats.currentDamage), inventory, coinRoll)
      ensures forall later :: later < now + attackCooldown ==> !CanAttack(later)
    {
      lastAttackTime := now;
      playerController.UseStamina(playerController.attackStaminaCost);
      if hit.HitEnemy? {
        var damageDealt := playerStats.currentDamage;
        hit.enemy.TakeDamage(damageDealt, inventory, coinRoll);
      }
    }
  }
}
