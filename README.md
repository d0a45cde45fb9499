# Plagueborn game rules in Dafny

This project models the non-visual rules of Plagueborn, a Unity first-person survival game. The player fights infected enemies, manages an infection meter, and carries progress from one level to the next. Each C# component that keeps state is modelled as a Dafny class, and its methods are modelled as Dafny methods. Every method changes only the fields its `modifies` clause names, and its `ensures` give the new value of each of those fields.

The class fields are the rule-bearing fields of the C# component, with these differences:

- Fields that only drive physics, animation or presentation are dropped. Examples: `moveSpeed`, `walkSpeed`, `sprintSpeed`, `jumpForce`, `mouseSensitivity`, `gravityMultiplier`, the head-bob and footstep settings, `deathDelay`, and the audio, camera and UI references.
- Fields are added where a coroutine, a `Destroy` or Unity's `enabled` switch decides later behaviour:
  - `PlayerStats.restartScheduled`;
  - `Enemy.victoryCheckScheduled` and `Enemy.destroyed`;
  - `PlayerController.enabled` and `WeaponController.enabled`.
- `Enemy.hasGameManager` stands for the enemy's `gameManager` reference, which is tested against null and then asked for a victory check (`GameManager.RunScheduledCheck`).
- References that `Start` looks up are constructor parameters.

| Dafny file | module | C# component |
|---|---|---|
| Numeric.dfy | Numeric | `Mathf.Clamp`, `Mathf.RoundToInt`, `Mathf.Min`/`Max` |
| Vitals.dfy | Vitals | `PlayerStats`: health, integer stamina, infection ticks, experience and levels, dead/won flags |
| Inventory.dfy | Inventory | `InventoryManager`: antidotes, bandages, coins, shop, loot intake, item cooldowns |
| EnemyAI.dfy | EnemyAI | `Enemy`: detection with a hysteresis band, cooldown attacks, death payout |
| Movement.dfy | Movement | `PlayerController`: float stamina, sprint decision, jump gate |
| Weapon.dfy | Weapon | `WeaponController`: attack gating and melee hits |
| Loot.dfy | Loot | `Chest`: item claiming |
| Encounter.dfy | Encounter | `GameManager`: one-shot victory, enemy registration, level routing |
| Persistence.dfy | Persistence | `SaveSystem` over PlayerPrefs, modelled as `map<string, int>` |
| GameData.dfy | GameData | `GameDataManager`: the in-memory snapshot |
| Scenarios.dfy | Scenarios | short play sequences that link the components |

Unity's services become plain model elements:

- `Time.time` and `Time.deltaTime` are parameters (`now`, `dt`).
- `Random.Range` draws are parameters limited to the draw's integer range:
  - `Random.Range(10, 25)` is 10..24;
  - `Random.Range(5, 16)` is 5..15.
- Physics results are inputs:
  - the distance to the player;
  - the grounded flag;
  - the attack ray's hit, as `RayHit`.
- A `FindFirstObjectByType` lookup that the source tests against null is a nullable reference, and a missing object takes the branch the source gives it. Lookups the source never tests are non-null references; see "## Left out".
- Navigation is reduced to the command the enemy issues (`NavCommand`).
- A destroyed enemy (Unity's `enemy == null`) is the `destroyed` flag.

Behaviour of the code worth noting:

- `Heal` does not check the dead flag (Assets/Scripts/PlayerStats.cs:124-127).
- `AddExperience` levels up at most once per call: `CheckLevelUp` uses an `if`, not a loop (Assets/Scripts/PlayerStats.cs:135-141).
- An enemy's infection hit is 10..24, because the integer `Random.Range` excludes its upper bound (Assets/Scripts/Enemy.cs:132).
- `PlayerStats.TakeDamage` is ignored after a victory as well as after death (Assets/Scripts/PlayerStats.cs:101).

There are two stamina values, and they are unrelated:

- `PlayerController.currentStamina` is a float. Sprinting, jumping and attacking spend it.
- `PlayerStats.currentStamina` is an int. `Start` fills it, and only `LevelUp` refills it.

**Victory timing.** A dying enemy schedules a victory check 0.5 s later (`CheckVictoryAfterDeath`). Its death animation destroys it only after about 2.2 s. So when the last enemy dies, its own delayed check still finds it present and does not fire. The victory comes later, from `GameManager.Update`, which checks the condition every frame until the victory has fired. The model keeps both paths:

- `RunScheduledCheck` is the delayed check.
- `Update` is the per-frame check.
- `Scenarios.KillLastEnemy` plays this case through.

## Model

| member | source | states |
|---|---|---|
| Numeric.Clamp | Assets/Scripts/PlayerStats.cs:89-97 | a value below lo gives lo; otherwise a value above hi gives hi; a value in [lo, hi] is returned unchanged; for lo ≤ hi the result lies in [lo, hi] |
| Numeric.RoundToInt | Assets/Scripts/PlayerStats.cs:147-154 | the result is within ½ of x, and a tie rounds to the even neighbour |
| Numeric.RoundMonotone | Assets/Scripts/PlayerStats.cs:147-154 | rounding is monotone |
| Numeric.RoundBetween | Assets/Scripts/PlayerStats.cs:75 | a value between two integers rounds to a value between them |
| Numeric.MaxReal | Assets/Scripts/PlayerController.cs:105 | Mathf.Max on floats: the result is at least both arguments and is one of them |
| Numeric.MinReal | Assets/Scripts/PlayerController.cs:110 | Mathf.Min on floats: the result is at most both arguments and is one of them |
| Numeric.Min | Assets/Scripts/PlayerStats.cs:126 | Mathf.Min on ints: the result is at most both arguments and is one of them |
| Vitals.LevelDamage | Assets/Scripts/PlayerStats.cs:154 | the damage is within ½ of baseDamage × (1 + 0.05 × (level − 1)), and at level 1 it is exactly the base damage |
| Vitals.LevelUpStep | Assets/Scripts/PlayerStats.cs:143-155 | one level-up: level + 1; the threshold is subtracted from experience; the new threshold is within ½ of 1.2 × the old one, and the new maximum health and maximum stamina are each within ½ of 1.05 × the old one; health and stamina are refilled to the new maxima; damage is recomputed from the base damage and the new level |
| Vitals.GainExperience | Assets/Scripts/PlayerStats.cs:129-141 | the level rises by at most one, and it rises iff experience + amount reaches the threshold; with no level-up only experience changes |
| Vitals.SingleLevelUpPerReward | Assets/Scripts/PlayerStats.cs:129-141 | a reward worth two or more thresholds still levels up once and leaves at least one threshold of experience unspent |
| Vitals.LevelUpExample | Assets/Scripts/PlayerStats.cs:143-155 | (level 1, 0 + 150 experience, threshold 100) becomes (2, 50, 120) with maxima 105 and damage 21 |
| Vitals.DamageFromBaseOnly | Assets/Scripts/PlayerStats.cs:154 | a level-up's result does not depend on the damage before it |
| Vitals.InfectionPercent | Assets/Scripts/PlayerStats.cs:67 | the fraction, scaled by the capacity, gives back the infection |
| Vitals.InfectionInterval | Assets/Scripts/PlayerStats.cs:68 | the interval formula, the rate shortened by 80% of the fraction; its properties are IntervalShrinks and IntervalAtFullInfection |
| Vitals.InfectionTickDamage | Assets/Scripts/PlayerStats.cs:75 | an empty meter deals exactly the per-tick damage and a full one exactly three times it; TickDamageBounds covers the fractions between |
| Vitals.PercentBetween | Assets/Scripts/PlayerStats.cs:67 | a meter within [0, maxInfection] is a fraction in [0, 1], and a full meter is exactly 1 |
| Vitals.PercentIncreasing | Assets/Scripts/PlayerStats.cs:67 | more infection is a strictly larger fraction |
| Vitals.IntervalShrinks | Assets/Scripts/PlayerStats.cs:68 | for a positive rate, a larger fraction gives a strictly shorter interval between ticks |
| Vitals.MoreInfectionTicksSooner | Assets/Scripts/PlayerStats.cs:67-68 | for a positive rate, more infection gives a strictly shorter interval between ticks |
| Vitals.IntervalAtFullInfection | Assets/Scripts/PlayerStats.cs:67-68 | at full infection the interval is 0.2 × the rate |
| Vitals.TickFactorBetween | Assets/Scripts/PlayerStats.cs:75 | at a fraction in [0, 1] the scaled base lies between one and three times the base |
| Vitals.TickDamageBounds | Assets/Scripts/PlayerStats.cs:75 | at a fraction in [0, 1] (a meter within bounds, by PercentBetween) a tick deals between 1 and 3 times a non-negative per-tick damage |
| Vitals.PlayerStats.constructor | Assets/Scripts/PlayerStats.cs:36-40 | starts at level 1, experience 0, threshold 100, health and stamina full, damage = base damage, no infection, neither dead nor won; with the default values this is the new-game record |
| Vitals.PlayerStats.TickDue | Assets/Scripts/PlayerStats.cs:67-71 | a full meter makes a tick due after a fifth of the base interval, an empty one after the whole interval |
| Vitals.PlayerStats.Update | Assets/Scripts/PlayerStats.cs:51-59 | nothing changes when dead, won, uninfected or not yet due; otherwise exactly one infection tick happens |
| Vitals.PlayerStats.OnGameWon | Assets/Scripts/PlayerStats.cs:61-64 | sets the won flag |
| Vitals.PlayerStats.ProcessInfection | Assets/Scripts/PlayerStats.cs:66-87 | when not due, nothing changes; when due: the time is stamped; health drops by the tick damage, and a result ≤ 0 is stored as 0 and kills; health is never negative; a restart is scheduled only on the transition to dead |
| Vitals.PlayerStats.AddInfection | Assets/Scripts/PlayerStats.cs:89-92 | infection becomes clamp(infection + amount, 0, max) and always stays in that range |
| Vitals.PlayerStats.ReduceInfection | Assets/Scripts/PlayerStats.cs:94-97 | infection becomes clamp(infection − amount, 0, max); reducing by the current infection gives 0 |
| Vitals.PlayerStats.TakeDamage | Assets/Scripts/PlayerStats.cs:99-112 | a no-op when dead or won; otherwise health drops by the damage, and a result ≤ 0 is stored as 0 and marks the player dead |
| Vitals.PlayerStats.Heal | Assets/Scripts/PlayerStats.cs:124-127 | health becomes min(health + amount, maxHealth), never above maxHealth, whatever the dead flag |
| Vitals.PlayerStats.AddExperience | Assets/Scripts/PlayerStats.cs:129-133 | the progress after the call is GainExperience of the progress before it: at most one level-up |
| Vitals.PlayerStats.CheckLevelUp | Assets/Scripts/PlayerStats.cs:135-141 | one level-up when the threshold is reached, no change otherwise |
| Vitals.PlayerStats.LevelUp | Assets/Scripts/PlayerStats.cs:143-155 | the progress after the call is LevelUpStep of the progress before it |
| Vitals.PlayerStats.Die | Assets/Scripts/PlayerStats.cs:157-163 | sets the dead flag; the restart is scheduled only by the first call, so the method is idempotent |
| Inventory.CooldownRemaining | Assets/Scripts/InventoryManager.cs:84-94 | never negative; zero iff now ≥ last + cooldown; when positive it is exactly the time left |
| Inventory.InventoryManager.constructor | Assets/Scripts/InventoryManager.cs:30-53 | Start's initial values: 1 antidote, 1 bandage, 0 coins; both cooldown stamps at −999; with caps maxItems ≥ 1 and maxCoins ≥ 0 the counts start within their caps (Valid) |
| Inventory.InventoryManager.CanUseAntidote | Assets/Scripts/InventoryManager.cs:68-74 | usable iff an antidote is held, a player exists and is infected, and the antidote's cooldown has passed; UseAntidote acts exactly when it holds |
| Inventory.InventoryManager.CanUseBandage | Assets/Scripts/InventoryManager.cs:76-82 | usable iff a bandage is held, a player exists and is below maximum health, and the bandage's cooldown has passed; UseBandage acts exactly when it holds |
| Inventory.InventoryManager.GetAntidoteCooldownRemaining | Assets/Scripts/InventoryManager.cs:84-88 | never negative, and zero exactly when the antidote's time condition holds |
| Inventory.InventoryManager.GetBandageCooldownRemaining | Assets/Scripts/InventoryManager.cs:90-94 | never negative, and zero exactly when the bandage's time condition holds |
| Inventory.InventoryManager.Update | Assets/Scripts/InventoryManager.cs:55-66 | nothing happens while a UI panel is open; otherwise key 1 uses a bandage and key 2 an antidote, each only when usable; coins never change |
| Inventory.InventoryManager.UseAntidote | Assets/Scripts/InventoryManager.cs:96-115 | a no-op unless there is an antidote, the player is infected and the cooldown has passed; when used, one antidote is spent, its own stamp is set to now and infection becomes 0; the bandage state is untouched; caps are preserved |
| Inventory.InventoryManager.UseBandage | Assets/Scripts/InventoryManager.cs:117-136 | a no-op unless there is a bandage, the player is hurt and the cooldown has passed; when used, one bandage is spent, its own stamp is set to now and health becomes min(health + heal amount, max); the antidote state is untouched; caps are preserved |
| Inventory.InventoryManager.AddCoins | Assets/Scripts/InventoryManager.cs:138-142 | coins become clamp(coins + amount, 0, maxCoins); caps are preserved |
| Inventory.InventoryManager.CanBuyItem | Assets/Scripts/InventoryManager.cs:144-147 | affordable iff the coins cover the cost |
| Inventory.InventoryManager.CanBuyAntidote | Assets/Scripts/InventoryManager.cs:169-172 | affordable and below the item cap; BuyAntidote succeeds exactly when it holds |
| Inventory.InventoryManager.CanBuyBandage | Assets/Scripts/InventoryManager.cs:174-177 | affordable and below the item cap; BuyBandage succeeds exactly when it holds |
| Inventory.InventoryManager.BuyAntidote | Assets/Scripts/InventoryManager.cs:149-157 | succeeds iff CanBuyAntidote(cost) held; on success it pays exactly the cost and adds exactly one antidote; on failure nothing changes; bandages are never touched |
| Inventory.InventoryManager.BuyBandage | Assets/Scripts/InventoryManager.cs:159-167 | succeeds iff CanBuyBandage(cost) held; on success it pays exactly the cost and adds exactly one bandage; on failure nothing changes; antidotes are never touched |
| Inventory.InventoryManager.AddBandage | Assets/Scripts/InventoryManager.cs:187-193 | refused with no change at the cap; otherwise accepted, and the count becomes clamp(count + amount, 0, maxItems) |
| Inventory.InventoryManager.AddAntidote | Assets/Scripts/InventoryManager.cs:195-201 | refused with no change at the cap; otherwise accepted, and the count becomes clamp(count + amount, 0, maxItems) |
| EnemyAI.NextDetected | Assets/Scripts/Enemy.cs:69-99 | a player is detected after a tick only if it was detected before or is within detectionRange, and only while it is within attackRange or 1.5 × detectionRange |
| EnemyAI.NextCommand | Assets/Scripts/Enemy.cs:69-99 | a detected enemy always issues a command; it seeks the player only while detected and between attackRange and 1.5 × detectionRange |
| EnemyAI.NoticeExactlyInRange | Assets/Scripts/Enemy.cs:69-72 | an undetected enemy becomes detected iff the distance is ≤ detectionRange, for every non-negative distance and any Inspector ranges |
| EnemyAI.HysteresisBand | Assets/Scripts/Enemy.cs:74-91 | within attackRange or within 1.5 × detectionRange a detected enemy stays detected; it halts within attackRange and seeks the player beyond it |
| EnemyAI.LosesBeyondBand | Assets/Scripts/Enemy.cs:92-99 | beyond both attackRange and 1.5 × detectionRange the enemy loses detection and halts |
| EnemyAI.StaysDetectedInBand | Assets/Scripts/Enemy.cs:66-99 | over any run of ticks that stays inside the band, a detected enemy stays detected |
| EnemyAI.NoThrashAtAttackRange | Assets/Scripts/Enemy.cs:74-99 | an instance of StaysDetectedInBand: a player oscillating around attackRange, up to attackRange + 1 inside the band, never makes a detected enemy lose detection |
| EnemyAI.Enemy.constructor | Assets/Scripts/Enemy.cs:7-32 | the defaults: health 50, reward 25, attack range 2, detection range 8, cooldown 2; starts at full health, alive and undetected |
| EnemyAI.Enemy.Update | Assets/Scripts/Enemy.cs:54-101 | does nothing when dead; halts without detecting or attacking when the player has no health; otherwise follows NextDetected/NextCommand, and attacks iff the player is detected, within attackRange and the cooldown has passed; the infection added is clamped |
| EnemyAI.Enemy.AttackPlayer | Assets/Scripts/Enemy.cs:111-141 | refuses when the player has no health; otherwise stamps the time and adds the 10..24 roll to infection, clamped; player health is never touched |
| EnemyAI.Enemy.TakeDamage | Assets/Scripts/Enemy.cs:143-158 | ignored once dead; otherwise health drops by the damage; a survivor becomes detected; at ≤ 0 health the enemy dies, pays its reward and the coin roll once, and schedules the victory check |
| EnemyAI.Enemy.Die | Assets/Scripts/Enemy.cs:178-210 | sets the dead flag; the player gains experienceReward, with at most one level-up; coins become clamp(coins + 5..15 roll, 0, max) when there is an inventory; the victory check is scheduled when there is a GameManager |
| EnemyAI.Enemy.FinishDeathAnimation | Assets/Scripts/Enemy.cs:218-251 | the closing Destroy: a dead enemy becomes gone |
| Movement.PlayerController.constructor | Assets/Scripts/PlayerController.cs:13-57 | stamina starts full, which satisfies 0 ≤ stamina ≤ max |
| Movement.PlayerController.Update | Assets/Scripts/PlayerController.cs:72-96 | nothing happens while disabled or while a UI panel is open; otherwise canSprint is old stamina ≥ minimum, grounded is copied, sprinting is (key ∧ canSprint ∧ grounded); with s the stamina after this frame's drain or regeneration (StaminaAfterFrame), a jump happens iff the key is pressed, the player is grounded and s ≥ jumpStaminaCost, and the new stamina is s minus the jump's cost when it jumps and s otherwise; the stamina bounds are preserved for dt ≥ 0 and non-negative rates |
| Movement.PlayerController.CanUseStamina | Assets/Scripts/PlayerController.cs:120-123 | enough stamina iff the stamina covers the amount; it gates the jump and, through CanAttack, the attack |
| Movement.PlayerController.HandleStamina | Assets/Scripts/PlayerController.cs:98-112 | the new stamina is StaminaAfterFrame of the old state; canSprint iff stamina ≥ minStaminaToSprint; sprinting on the ground drains cost × dt, floored at 0; not sprinting regenerates rate × dt, capped at max; sprinting in the air leaves stamina unchanged; the bounds are preserved |
| Movement.PlayerController.UseStamina | Assets/Scripts/PlayerController.cs:114-118 | stamina becomes max(stamina − amount, 0); the bounds are preserved for amount ≥ 0 |
| Movement.PlayerController.HandleMovement | Assets/Scripts/PlayerController.cs:139-149 | sprinting iff the key is held, canSprint holds and the player is grounded |
| Movement.PlayerController.HandleJump | Assets/Scripts/PlayerController.cs:190-203 | jumps iff the key is pressed, the player is grounded and CanUseStamina(jumpStaminaCost) holds; a jump deducts exactly that cost |
| Weapon.WeaponController.constructor | Assets/Scripts/WeaponController.cs:6-36 | the defaults: range 3, cooldown 0.8 |
| Weapon.WeaponController.CanAttack | Assets/Scripts/WeaponController.cs:50-54 | an attack is allowed iff the cooldown has passed since the last attack and the controller has the attack's stamina |
| Weapon.WeaponController.Update | Assets/Scripts/WeaponController.cs:38-48 | attacks iff enabled, no UI panel is open, the button was clicked and CanAttack held; without an attack nothing in its frame changes: the weapon, the controller, the enemy hit, that enemy's player and the inventory; with an attack the effect is Attacked, which on a miss also keeps the inventory's coins |
| Weapon.WeaponController.Attack | Assets/Scripts/WeaponController.cs:56-94 | stamps the time and spends attackStaminaCost (floored at 0) whatever was hit; an enemy that was hit takes exactly the player's current damage; on a miss the inventory's coins stay as they were; nothing else is damaged; a further attack before the cooldown ends is not allowed |
| Loot.RemoveFirst | Assets/Scripts/Chest.cs:61 | without a match the list is unchanged; with a match it is one entry shorter |
| Loot.RemoveFirstTakesOne | Assets/Scripts/Chest.cs:61 | with a match exactly one matching entry is gone, as a multiset, and nothing else |
| Loot.RemoveFirstKeepsOrder | Assets/Scripts/Chest.cs:61 | when index i holds the first match, the result is the list with exactly index i cut out, the rest in order |
| Loot.Chest.TakeItem | Assets/Scripts/Chest.cs:35-63 | does nothing without an inventory; a bandage goes to AddBandage, an antidote to AddAntidote and coins to AddCoins, which always accepts; the item leaves the chest only when it was accepted, so a refused item stays claimable |
| Loot.Chest.constructor | Assets/Scripts/Chest.cs:7-14 | the chest holds the given items and the InventoryManager that Start looked up (null when the scene has none) |
| Loot.Chest.Interact | Assets/Scripts/Chest.cs:21-33 | the chest opens iff a UI manager exists, no panel is open and interaction is not blocked this frame |
| Encounter.AliveCount | Assets/Scripts/GameMenager.cs:111-119 | the count of live entries is at most the array's length; when every entry counts, none is gone |
| Encounter.NoneAliveIffAllGone | Assets/Scripts/GameMenager.cs:111-121 | the count is zero iff every entry is gone |
| Encounter.GameManager.constructor | Assets/Scripts/GameMenager.cs:19-44 | starts with the found enemies and no victory; the scene is the last level iff it is "TestScene2"; the default scenes are "TestScene2" and "MainMenuScene" |
| Encounter.GameManager.CountAliveEnemies | Assets/Scripts/GameMenager.cs:111-119 | the counting loop returns AliveCount of the array |
| Encounter.GameManager.CheckVictoryCondition | Assets/Scripts/GameMenager.cs:109-125 | the victory fires iff the array is non-empty and every entry is gone; so an empty array never fires it |
| Encounter.GameManager.TriggerVictory | Assets/Scripts/GameMenager.cs:127-150 | sets the victory flag and the player's won flag, and disables the movement and weapon controllers that exist |
| Encounter.GameManager.Update | Assets/Scripts/GameMenager.cs:87-93 | fires only when the victory has not fired yet and is due; after the victory nothing changes |
| Encounter.GameManager.CheckForVictory | Assets/Scripts/GameMenager.cs:182-188 | the same one-shot guard |
| Encounter.GameManager.RunScheduledCheck | Assets/Scripts/Enemy.cs:212-216 | a dying enemy's delayed check is consumed and performs CheckForVictory |
| Encounter.GameManager.RegisterEnemy | Assets/Scripts/GameMenager.cs:190-195 | appends exactly one entry at the end and keeps the existing ones |
| Encounter.GameManager.LoadNextLevel | Assets/Scripts/GameMenager.cs:163-175 | saves the player and inventory values first, then routes to the main menu on the last level and to the next level otherwise |
| Encounter.GameManager.LoadMainMenu | Assets/Scripts/GameMenager.cs:177-180 | routes to the main-menu scene |
| Persistence.GetInt | Assets/Scripts/SaveSystem.cs:60-73 | a stored key reads its value and a missing key reads the default |
| Persistence.IsFirstLevel | Assets/Scripts/SaveSystem.cs:48 | the guard holds iff FirstLevel is missing or stored as 1 |
| Persistence.SaveInto | Assets/Scripts/SaveSystem.cs:19-44 | after a save FirstLevel is stored as 0, and every key other than the ten and FirstLevel is kept as it was |
| Persistence.ReadStats | Assets/Scripts/SaveSystem.cs:60-66 | with none of the ten keys stored, the player's values read as a new game: level 1, experience 0, threshold 100, health 100/100, infection 0, damage 20 |
| Persistence.ReadItems | Assets/Scripts/SaveSystem.cs:71-73 | with none of the ten keys stored, the inventory reads as a new game: 1 antidote, 1 bandage, 0 coins |
| Persistence.ResetPrefs | Assets/Scripts/SaveSystem.cs:77-91 | after a reset none of the ten saved keys remains, FirstLevel is stored as 1 (so the guard is set), and every other key is kept as it was |
| Persistence.SaveLoadRoundTrip | Assets/Scripts/SaveSystem.cs:19-75 | after a save the guard is clear, and a load reads back exactly the ten saved values |
| Persistence.SaveWithoutObjects | Assets/Scripts/SaveSystem.cs:19-44 | a save with neither object present still clears the guard and changes no saved value |
| Persistence.SavesAreIndependent | Assets/Scripts/SaveSystem.cs:24-40 | saving only the player's values writes them and leaves the inventory's saved values alone, and vice versa |
| Persistence.ResetForgetsSave | Assets/Scripts/SaveSystem.cs:46-91 | after a reset the guard is set and the saved values read as the new-game values |
| Persistence.SaveSystem.SavePlayerData | Assets/Scripts/SaveSystem.cs:19-44 | the store becomes SaveInto of the old store and of the objects that exist: their ten values are written and FirstLevel becomes 0 |
| Persistence.SaveSystem.LoadPlayerData | Assets/Scripts/SaveSystem.cs:46-75 | a no-op when FirstLevel is missing or 1; otherwise each present object gets the stored value or the key's default; the unsaved values are untouched (stamina, the infection cap and the base damage) |
| Persistence.SaveSystem.ResetData | Assets/Scripts/SaveSystem.cs:77-91 | the store becomes ResetPrefs of the old store |
| GameData.GameDataManager.constructor | Assets/Scripts/GameDataManager.cs:7-22 | starts with the new-game values and the guard set |
| GameData.GameDataManager.SavePlayerData | Assets/Scripts/GameDataManager.cs:37-61 | the snapshot takes the values of each object that exists, and the guard is cleared |
| GameData.GameDataManager.LoadPlayerData | Assets/Scripts/GameDataManager.cs:63-90 | a no-op while the guard is set; otherwise each present object's ten values become the snapshot's, and stamina is untouched |
| GameData.GameDataManager.ResetData | Assets/Scripts/GameDataManager.cs:92-107 | the snapshot becomes the new-game values with the guard set |
| Scenarios.ShopPurchase | Assets/Scripts/InventoryManager.cs:149-157 | a 60-coin antidote is refused with 50 coins and bought with 60, leaving 0 coins and 2 antidotes |
| Scenarios.CoinCap | Assets/Scripts/InventoryManager.cs:138-142 | 95 coins plus 20 gives the cap of 100 |
| Scenarios.FirstLevelUp | Assets/Scripts/PlayerStats.cs:129-155 | a new player given 150 experience reaches level 2 with 50 experience and a threshold of 120 |
| Scenarios.RestThenJump | Assets/Scripts/PlayerController.cs:72-123 | a drained controller resting 1 s regains 15 stamina and can jump once in that frame, leaving 0; a second jump without rest is refused |
| Scenarios.KillLastEnemy | Assets/Scripts/GameMenager.cs:87-135 | no victory while the one tracked enemy lives; its own delayed check, run before it is destroyed, does not fire; once it is destroyed the next frame fires the victory, and the player then takes no damage |
| Scenarios.TwoQuickSwings | Assets/Scripts/WeaponController.cs:50-94 | the first click deals 20 damage and costs 10 stamina; a click 0.5 s later falls inside the 0.8 s cooldown and is refused |
| Scenarios.CarryOverThroughStore | Assets/Scripts/SaveSystem.cs:19-75 | what one scene's objects save through the store, the next scene's objects load |
| Scenarios.ResetThenLoadStore | Assets/Scripts/SaveSystem.cs:46-91 | after a reset of the store, a load changes nothing |
| Scenarios.CarryOverInMemory | Assets/Scripts/GameDataManager.cs:37-90 | a save followed by a load through the snapshot restores exactly the ten values |
| Scenarios.ResetThenLoadInMemory | Assets/Scripts/GameDataManager.cs:63-107 | after a reset of the snapshot, a load changes nothing |

## Left out

- Floating point: C# floats (time, ranges, the controller's stamina, the growth factors) are exact reals. `Mathf.RoundToInt` is exact round-half-to-even. A float product can round differently: 110 × 1.05f gives 115 in floats, whereas the exact 115.5 rounds to 116. So the level-up contracts state ±½ bounds, and the concrete examples use values with no tie.
- 32-bit integers: ints are unbounded. Overflow of experience, coins or health is not modelled.
- Navigation, physics and input:
  - `MoveTowardsPlayer`'s `SetDestination` and the `ResetPath` calls become `SeekPlayer` and `Halt`;
  - the attack ray, the ground raycast (`CheckGroundWithRaycast`) and the distance to the player are inputs;
  - the knockback force of an enemy attack, the jump force and walking velocities are left out.
- Coroutines and delays. Only the decision each one leads to is modelled:
  - `RestartGameAfterDelay` is the `restartScheduled` flag, and the scene reload itself is left out;
  - `CheckVictoryAfterDeath` is `victoryCheckScheduled` plus `GameManager.RunScheduledCheck`;
  - the end of `DeathAnimation` is `Enemy.FinishDeathAnimation`, and its rotation and sinking are left out;
  - the 0.5 s, 1.2 s, 1 s and 2 s waits are not timed;
  - `PlayerStats.DamageFlash` and `PlayerStats.InfectionFlash` do nothing in the source;
  - `Enemy.DamageFlash` turns the enemy's renderer red for 0.15 s; that colour change is presentation and is left out.
- The load calls in `PlayerStats` (`LoadDataAfterFrame`) and in `InventoryManager.Start` are separate calls to `SaveSystem.LoadPlayerData` in the model. The constructors do not make them.
- Singletons and scene persistence:
  - `GameDataManager.Awake` (one instance kept across scenes through `DontDestroyOnLoad`) is left out;
  - the objects it would find are passed explicitly.
- Scene loading: `LoadNextLevel` and `LoadMainMenu` return the scene name instead of loading it. `PlayerPrefs.Save` (the flush to disk) is left out.
- `GameManager.CheckPlayerClass` reads a selected class but does nothing with it, so it is left out.
- Presentation: the victory panel, its texts and button labels, cursor state, audio, `UpdateUI` and `RefreshChest` are left out.
- Player controller cosmetics: mouse look, head bob and footsteps are left out.
- The `ChestItem` type is not part of this model. Chest entries are values, so `TakeItem` removes the first equal entry. If the C# type is a class, `List.Remove` removes the entry equal by reference, which can differ when two entries have the same kind and amount.
- Missing components that the source never tests for:
  - `Enemy.playerStats` (Assets/Scripts/Enemy.cs:33-34) and `WeaponController.playerStats`/`playerController` (Assets/Scripts/WeaponController.cs:22-23) are non-null in the model;
  - the source would throw a NullReferenceException when one is missing (Assets/Scripts/Enemy.cs:58, Assets/Scripts/WeaponController.cs:53);
  - the model does not capture that failure.
- A zero infection capacity: `maxInfection` is a positive integer in the model. Assets/Scripts/PlayerStats.cs:68 divides by it unchecked, and the float division by 0 is not modelled.
- `Numeric.RoundToInt`: states exact round-half-to-even on reals, not the float result; see above.
- `Vitals.LevelUpStep`: bounds the new threshold, maximum health and maximum stamina within ½ of the exact product instead of giving the float value, for the same reason.
- `Vitals.LevelDamage`: bounds the damage within ½ of the exact product instead of giving the float value, for the same reason.
