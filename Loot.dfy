/** Loot containers (Chest): a list of items, each claimed by routing it to the
    matching inventory intake and removed only when the inventory took it. */
module Loot {
  import opened Numeric
  import opened Inventory

  datatype ItemKind = Bandage | Antidote | Coins

  datatype ChestItem = ChestItem(kind: ItemKind, amount: int)

  /** List.Remove: drops the first occurrence of `x`, or nothing when there is
      none. */
  function RemoveFirst<T(==)>(s: seq<T>, x: T): (r: seq<T>)
    ensures x !in s ==> r == s
    ensures x in s ==> |r| == |s| - 1
  {
    if |s| == 0 then []
    else if s[0] == x then s[1..]
    else [s[0]] + RemoveFirst(s[1..], x)
  }

  /** A removal takes exactly one copy of the item out of the list's contents. */
  lemma {:induction false} RemoveFirstTakesOne<T>(s: seq<T>, x: T)
    requires x in s
    ensures multiset(RemoveFirst(s, x)) == multiset(s) - multiset{x}
  {
    assert s == [s[0]] + s[1..];
    if s[0] != x {
      RemoveFirstTakesOne(s[1..], x);
    }
  }

  /** Slicing the tail of a sequence, seen from the whole sequence. */
  lemma TailSlices<T>(s: seq<T>, i: nat)
    requires 1 <= i < |s|
    ensures [s[0]] + s[1..][..i - 1] == s[..i]
    ensures s[1..][i..] == s[i + 1..]
  {
  }

  /** The removal takes out exactly the first matching entry, at index `i`;
      the entries before and after it keep their order. */
  lemma {:induction false} RemoveFirstKeepsOrder<T>(s: seq<T>, x: T, i: nat)
    requires i < |s| && s[i] == x
    requires forall j :: 0 <= j < i ==> s[j] != x
    ensures RemoveFirst(s, x) == s[..i] + s[i + 1..]
  {
    if i == 0 {
      assert s[..0] + s[1..] == s[1..];
    } else {
      RemoveFirstKeepsOrder(s[1..], x, i - 1);
      TailSlices(s, i);
    }
  }

  class Chest {
    var items: seq<ChestItem>
    /** The InventoryManager that Start looked up; null when the scene has none. */
    const inventory: InventoryManager?

    constructor (items: seq<ChestItem>, inventory: InventoryManager?)
      ensures this.items == items && this.inventory == inventory
    {
      this.items, this.inventory := items, inventory;
    }

    /** Whether the inventory takes `item` now: coins always, bandages and
        antidotes only below the cap. */
    predicate Accepts(item: ChestItem)
      reads this, inventory
      requires inventory != null
    {
      match item.kind
      case Bandage => inventory.bandages < inventory.maxItems
      case Antidote => inventory.antidotes < inventory.maxItems
      case Coins => true
    }

    /** Claims `item`: without an inventory nothing happens; otherwise the item
        goes to the intake of its kind, and it leaves the chest only when that
        intake accepted it, so an item refused by a full inventory stays
        claimable. */
    method TakeItem(item: ChestItem)
      modifies this`items, InventoryFrame(inventory)`bandages,
               InventoryFrame(inventory)`antidotes, InventoryFrame(inventory)`coins
      ensures inventory == null ==> items == old(items)
      ensures inventory != null ==>
                items == (if old(Accepts(item)) then RemoveFirst(old(items), item) else old(items))
      ensures inventory != null ==>
                inventory.bandages == (if item.kind == Bandage && old(Accepts(item))
                                       then Clamp(old(inventory.bandages) + item.amount, 0, inventory.maxItems)
                                       else old(inventory.bandages))
                && inventory.antidotes == (if item.kind == Antidote && old(Accepts(item))
                                           then Clamp(old(inventory.antidotes) + item.amount, 0, inventory.maxItems)
                                           else old(inventory.antidotes))
                && inventory.coins == (if item.kind == Coins
                                       then Clamp(old(inventory.coins) + item.amount, 0, inventory.maxCoins)
                                       else old(inventory.coins))
    {
      if inventory == null {
        return;
      }
      var added := false;
      match item.kind {
        case Bandage =>
          added := inventory.AddBandage(item.amount);
        case Antidote =>
          added := inventory.AddAntidote(item.amount);
        case Coins =>
          inventory.AddCoins(item.amount);
          added := true;
      }
      if !added {
        return;
      }
      items := RemoveFirst(items, item);
    }

    /** Interaction opens the chest only when a UI manager exists, no panel is
        open and interaction is not blocked this frame. */
    method Interact(uiManagerPresent: bool, anyUIOpen: bool, blockInteractThisFrame: bool)
      returns (shown: bool)
      ensures shown <==> uiManagerPresent && !anyUIOpen && !blockInteractThisFrame
    {
      if !uiManagerPresent || anyUIOpen || blockInteractThisFrame {
        return false;
      }
      return true;
    }
  }
}
