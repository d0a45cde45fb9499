/** The item and currency economy (InventoryManager): antidote and bandage
    counts capped at maxItems, coins capped at maxCoins, shop purchases, loot
    intake, and consumables whose use is gated by a per-item cooldown. */
module Inventory {
  import opened Numeric
  import opened Vitals

  /** The three inventory values the save systems persist. */
  datatype InventoryRecord = InventoryRecord(antidotes: int, bandages: int, coins: int)

  /** The persisted inventory of a new game: one antidote, one bandage, no coins. */
  const NewGameItems := InventoryRecord(1, 1, 0)

  /** The object a possibly missing InventoryManager lookup found, as a frame. */
  function InventoryFrame(i: InventoryManager?): set<InventoryManager>
  {
    if i == null then {} else {i}
  }

  /** Seconds until a cooldown started at `last` has run out, never negative. */
  function CooldownRemaining(last: real, cooldown: real, now: real): (r: real)
    ensures r >= 0.0
    ensures r == 0.0 <==> now >= last + cooldown
    ensures r > 0.0 ==> now + r == last + cooldown
  {
    MaxReal(0.0, (last + cooldown) - now)
  }

  class InventoryManager {
    var antidotes: int
    var bandages: int
    const maxItems: int
    var coins: int
    const maxCoins: int
    const bandageHealAmount: int
    const itemCooldown: real
    var lastAntidoteUse: real
    var lastBandageUse: real
    /** The PlayerStats that Start looked up; null when the scene has none. */
    const playerStats: PlayerStats?

    /** The field initialisers (Inspector values as defaults) followed by
        Start, which sets one antidote, one bandage and no coins. Start's call
        to SaveSystem.LoadPlayerData is a separate step of the model. */
    constructor (playerStats: PlayerStats?, maxItems: int := 3, maxCoins: int := 100,
                 bandageHealAmount: int := 20, itemCooldown: real := 5.0)
      ensures this.playerStats == playerStats && this.maxItems == maxItems
      ensures this.maxCoins == maxCoins && this.bandageHealAmount == bandageHealAmount
      ensures this.itemCooldown == itemCooldown
      ensures Record() == NewGameItems
      ensures lastAntidoteUse == -999.0 && lastBandageUse == -999.0
      ensures maxItems >= 1 && maxCoins >= 0 ==> Valid()
    {
      this.playerStats := playerStats;
      this.maxItems, this.maxCoins := maxItems, maxCoins;
      this.bandageHealAmount, this.itemCooldown := bandageHealAmount, itemCooldown;
      lastAntidoteUse, lastBandageUse := -999.0, -999.0;
      antidotes, bandages, coins := 1, 1, 0;
    }

    /** Counts within their caps. Every mutator keeps this (the two purchases
        for a non-negative cost); only a load from saved data can break it. */
    predicate Valid()
      reads this
    {
      0 <= antidotes <= maxItems && 0 <= bandages <= maxItems && 0 <= coins <= maxCoins
    }

    function Record(): InventoryRecord
      reads this
    {
      InventoryRecord(antidotes, bandages, coins)
    }

    predicate AntidoteReady(now: real)
      reads this
    {
      now >= lastAntidoteUse + itemCooldown
    }

    predicate BandageReady(now: real)
      reads this
    {
      now >= lastBandageUse + itemCooldown
    }

    predicate CanUseAntidote(now: real)
      reads this, playerStats
    {
      antidotes > 0 && playerStats != null && playerStats.currentInfection > 0 && AntidoteReady(now)
    }

    predicate CanUseBandage(now: real)
      reads this, playerStats
    {
      bandages > 0 && playerStats != null
      && playerStats.currentHealth < playerStats.maxHealth && BandageReady(now)
    }

    /** Time left before an antidote may be used again: zero exactly when its
        cooldown condition holds. */
    function GetAntidoteCooldownRemaining(now: real): (r: real)
      reads this
      ensures r >= 0.0
      ensures r == 0.0 <==> AntidoteReady(now)
    {
      CooldownRemaining(lastAntidoteUse, itemCooldown, now)
    }

    /** Time left before a bandage may be used again: zero exactly when its
        cooldown condition holds. */
    function GetBandageCooldownRemaining(now: real): (r: real)
      reads this
      ensures r >= 0.0
      ensures r == 0.0 <==> BandageReady(now)
    {
      CooldownRemaining(lastBandageUse, itemCooldown, now)
    }

    /** Per-frame input handling: nothing while a UI panel is open; key 1 uses
        a bandage and key 2 an antidote, each only when usable. */
    method Update(now: real, uiOpen: bool, bandageKey: bool, antidoteKey: bool)
      modifies this`bandages, this`lastBandageUse, this`antidotes, this`lastAntidoteUse,
               StatsFrame(playerStats)`currentHealth, StatsFrame(playerStats)`currentInfection
      ensures var used := !uiOpen && bandageKey && old(CanUseBandage(now));
              bandages == (if used then old(bandages) - 1 else old(bandages))
              && lastBandageUse == (if used then now else old(lastBandageUse))
              && (playerStats != null ==>
                    playerStats.currentHealth ==
                    if used then Min(old(playerStats.currentHealth) + bandageHealAmount, playerStats.maxHealth)
                    else old(playerStats.currentHealth))
      ensures var used := !uiOpen && antidoteKey && old(CanUseAntidote(now));
              antidotes == (if used then old(antidotes) - 1 else old(antidotes))
              && lastAntidoteUse == (if used then now else old(lastAntidoteUse))
              && (playerStats != null ==>
                    playerStats.currentInfection == if used then 0 else old(playerStats.currentInfection))
      ensures coins == old(coins)
    {
      if uiOpen {
        return;
      }
      if bandageKey && CanUseBandage(now) {
        UseBandage(now);
      }
      if antidoteKey && CanUseAntidote(now) {
        UseAntidote(now);
      }
    }

    /** Uses one antidote when one is held, the player is infected and the
        antidote cooldown has passed: the meter is cured completely. */
    method UseAntidote(now: real)
      modifies this`antidotes, this`lastAntidoteUse, StatsFrame(playerStats)`currentInfection
      ensures old(CanUseAntidote(now)) ==>
                antidotes == old(antidotes) - 1 && lastAntidoteUse == now
                && playerStats != null && playerStats.currentInfection == 0
      ensures !old(CanUseAntidote(now)) ==>
                antidotes == old(antidotes) && lastAntidoteUse == old(lastAntidoteUse)
                && (playerStats != null ==> playerStats.currentInfection == old(playerStats.currentInfection))
      ensures lastBandageUse == old(lastBandageUse) && bandages == old(bandages)
      ensures old(Valid()) ==> Valid()
    {
      if !CanUseAntidote(now) {
        return;
      }
      antidotes := antidotes - 1;
      lastAntidoteUse := now;
      var currentInfection := playerStats.currentInfection;
      playerStats.ReduceInfection(currentInfection);
    }

    /** Uses one bandage when one is held, the player is hurt and the bandage
        cooldown has passed: health rises by bandageHealAmount, up to the
        maximum. */
    method UseBandage(now: real)
      modifies this`bandages, this`lastBandageUse, StatsFrame(playerStats)`currentHealth
      ensures old(CanUseBandage(now)) ==>
                bandages == old(bandages) - 1 && lastBandageUse == now && playerStats != null
                && playerStats.currentHealth == Min(old(playerStats.currentHealth) + bandageHealAmount, playerStats.maxHealth)
      ensures !old(CanUseBandage(now)) ==>
                bandages == old(bandages) && lastBandageUse == old(lastBandageUse)
                && (playerStats != null ==> playerStats.currentHealth == old(playerStats.currentHealth))
      ensures lastAntidoteUse == old(lastAntidoteUse) && antidotes == old(antidotes)
      ensures old(Valid()) ==> Valid()
    {
      if !CanUseBandage(now) {
        return;
      }
      bandages := bandages - 1;
      lastBandageUse := now;
      playerStats.Heal(bandageHealAmount);
    }

    /** Adds (or, for a negative amount, removes) coins, clamped to
        [0, maxCoins]: overflow above the cap is discarded. */
    method AddCoins(amount: int)
      modifies this`coins
      ensures coins == Clamp(old(coins) + amount, 0, maxCoins)
      ensures old(Valid()) ==> Valid()
    {
      coins := Clamp(coins + amount, 0, maxCoins);
    }

    predicate CanBuyItem(cost: int)
      reads this
    {
      coins >= cost
    }

    predicate CanBuyAntidote(cost: int)
      reads this
    {
      CanBuyItem(cost) && antidotes < maxItems
    }

    predicate CanBuyBandage(cost: int)
      reads this
    {
      CanBuyItem(cost) && bandages < maxItems
    }

    /** Buys one antidote: succeeds exactly when CanBuyAntidote holds, then
        pays exactly `cost`; on failure nothing changes. */
    method BuyAntidote(cost: int) returns (ok: bool)
      modifies this`coins, this`antidotes
      ensures ok == old(CanBuyAntidote(cost))
      ensures ok ==> coins == old(coins) - cost && antidotes == old(antidotes) + 1
      ensures !ok ==> coins == old(coins) && antidotes == old(antidotes)
      ensures bandages == old(bandages)
      ensures old(Valid()) && cost >= 0 ==> Valid()
    {
      if !CanBuyItem(cost) || antidotes >= maxItems {
        return false;
      }
      coins := coins - cost;
      antidotes := antidotes + 1;
      return true;
    }

    /** Buys one bandage: succeeds exactly when CanBuyBandage holds, then
        pays exactly `cost`; on failure nothing changes. */
    method BuyBandage(cost: int) returns (ok: bool)
      modifies this`coins, this`bandages
      ensures ok == old(CanBuyBandage(cost))
      ensures ok ==> coins == old(coins) - cost && bandages == old(bandages) + 1
      ensures !ok ==> coins == old(coins) && bandages == old(bandages)
      ensures antidotes == old(antidotes)
      ensures old(Valid()) && cost >= 0 ==> Valid()
    {
      if !CanBuyItem(cost) || bandages >= maxItems {
        return false;
      }
      coins := coins - cost;
      bandages := bandages + 1;
      return true;
    }

    /** Loot intake of bandages: refused at the cap, otherwise accepted and
        clamped to [0, maxItems] rather than rejected. */
    method AddBandage(amount: int) returns (ok: bool)
      modifies this`bandages
      ensures ok == (old(bandages) < maxItems)
      ensures bandages == if ok then Clamp(old(bandages) + amount, 0, maxItems) else old(bandages)
      ensures old(Valid()) ==> Valid()
    {
      if bandages >= maxItems {
        return false;
      }
      bandages := Clamp(bandages + amount, 0, maxItems);
      return true;
    }

    /** Loot intake of antidotes: refused at the cap, otherwise accepted and
        clamped to [0, maxItems] rather than rejected. */
    method AddAntidote(amount: int) returns (ok: bool)
      modifies this`antidotes
      ensures ok == (old(antidotes) < maxItems)
      ensures antidotes == if ok then Clamp(old(antidotes) + amount, 0, maxItems) else old(antidotes)
      ensures old(Valid()) ==> Valid()
    {
      if antidotes >= maxItems {
        return false;
      }
      antidotes := Clamp(antidotes + amount, 0, maxItems);
      return true;
    }
  }
}
