/** The player's fixed-size inventory of item slots. */
module Inventory {
  import opened Common

  /** An item in the world; `id` stands for the object's identity. */
  datatype Item = Item(id: nat, itemName: string)

  /** A slot holds an item or is empty (null in the game). */
  type Slot = Option<Item>

  /** Lowest index of an empty slot, or -1 when every slot is taken. */
  function FirstFreeSlot(slots: seq<Slot>): (r: int)
    ensures -1 <= r < |slots|
    ensures r == -1 <==> forall j :: 0 <= j < |slots| ==> slots[j].Some?
    ensures r >= 0 ==> slots[r].None? && forall j :: 0 <= j < r ==> slots[j].Some?
  {
    if |slots| == 0 then -1
    else if slots[0].None? then 0
    else
      var k := FirstFreeSlot(slots[1..]);
      if k == -1 then -1 else k + 1
  }

  /** List.IndexOf: the first index holding `x`, or -1 (used by HasItem). */
  function IndexOf(slots: seq<Slot>, x: Slot): (r: int)
    ensures -1 <= r < |slots|
    ensures r == -1 <==> x !in slots
    ensures r >= 0 ==> slots[r] == x && x !in slots[..r]
  {
    if |slots| == 0 then -1
    else if slots[0] == x then 0
    else
      var k := IndexOf(slots[1..], x);
      assert slots == [slots[0]] + slots[1..];
      if k == -1 then -1
      else
        assert slots[..k + 1] == [slots[0]] + slots[1..][..k];
        k + 1
  }

  predicate Named(s: Slot, name: string) {
    s.Some? && s.value.itemName == name
  }

  /** The first slot whose item carries `name`, or -1. */
  function FirstNamed(slots: seq<Slot>, name: string): (r: int)
    ensures -1 <= r < |slots|
    ensures r == -1 <==> forall j :: 0 <= j < |slots| ==> !Named(slots[j], name)
    ensures r >= 0 ==> Named(slots[r], name) && forall j :: 0 <= j < r ==> !Named(slots[j], name)
  {
    if |slots| == 0 then -1
    else if Named(slots[0], name) then 0
    else
      var k := FirstNamed(slots[1..], name);
      if k == -1 then -1 else k + 1
  }

  /** HasItemByName as written: the name scan finds a slot, then `IndexOf` locates that item. */
  function HasItemByName(slots: seq<Slot>, name: string): (r: int)
    ensures r == FirstNamed(slots, name)
  {
    var k := FirstNamed(slots, name);
    if k == -1 then -1
    else
      var r := IndexOf(slots, slots[k]);
      assert slots[k] == slots[..k + 1][k];
      r
  }

  /** The number of occupied slots (GetItemCount). */
  function ItemCount(slots: seq<Slot>): (n: nat)
    ensures n <= |slots|
    ensures n == |slots| <==> forall j :: 0 <= j < |slots| ==> slots[j].Some?
    ensures n == 0 <==> forall j :: 0 <= j < |slots| ==> slots[j].None?
  {
    if |slots| == 0 then 0
    else
      var rest := ItemCount(slots[1..]);
      assert forall j :: 1 <= j < |slots| ==> slots[j] == slots[1..][j - 1];
      (if slots[0].Some? then 1 else 0) + rest
  }

  /** The items in the occupied slots, in slot order. */
  function Items(slots: seq<Slot>): seq<Item> {
    if |slots| == 0 then []
    else
      assert slots == [slots[0]] + slots[1..];
      (if slots[0].Some? then [slots[0].value] else []) + Items(slots[1..])
  }

  /** Every item handed back came from some slot, and every stored item is handed back. */
  lemma {:induction false} ItemsMembers(slots: seq<Slot>, x: Item)
    ensures x in Items(slots) <==> Some(x) in slots
  {
    if |slots| > 0 {
      ItemsMembers(slots[1..], x);
      assert slots == [slots[0]] + slots[1..];
    }
  }

  /** DropAllItems hands back exactly as many items as GetItemCount reported. */
  lemma {:induction false} ItemsCount(slots: seq<Slot>)
    ensures |Items(slots)| == ItemCount(slots)
  {
    if |slots| > 0 {
      ItemsCount(slots[1..]);
    }
  }

  /** `n` empty slots. */
  function Empty(n: nat): (r: seq<Slot>)
    ensures |r| == n
    ensures forall j :: 0 <= j < n ==> r[j].None?
  {
    seq(n, _ => None)
  }

  /** The number of slots InitializeInventory creates for a configured size (none when negative). */
  function SlotCount(inventorySize: int): nat {
    if inventorySize < 0 then 0 else inventorySize
  }

  class InventorySystem {
    const inventorySize: int
    var inventory: seq<Slot>

    /** The component right after construction: the inventory list exists but is still empty. */
    constructor (inventorySize: int)
      ensures this.inventorySize == inventorySize && inventory == []
    {
      this.inventorySize := inventorySize;
      inventory := [];
    }

    /** Appends one empty slot per configured slot. */
    method InitializeInventory()
      modifies this
      ensures inventory == old(inventory) + Empty(SlotCount(inventorySize))
    {
      var i := 0;
      while i < inventorySize
        invariant 0 <= i <= SlotCount(inventorySize)
        invariant inventory == old(inventory) + Empty(i)
      {
        inventory := inventory + [None];
        i := i + 1;
      }
    }

    /** Puts `item` into the lowest-index empty slot; a full inventory is left unchanged. */
    method PickupItem(item: Item) returns (freeSlot: int)
      modifies this
      ensures freeSlot == FirstFreeSlot(old(inventory))
      ensures inventory == if freeSlot == -1 then old(inventory) else old(inventory)[freeSlot := Some(item)]
    {
      freeSlot := -1;
      var i := 0;
      while i < |inventory|
        invariant 0 <= i <= |inventory|
        invariant forall j :: 0 <= j < i ==> inventory[j].Some?
      {
        if inventory[i].None? {
          freeSlot := i;
          break;
        }
        i := i + 1;
      }
      if freeSlot != -1 {
        inventory := inventory[freeSlot := Some(item)];
      }
    }

    /** Clears one slot and hands back the item so that the caller can place it in the world. */
    method DropItem(slotIndex: int) returns (dropped: Slot)
      modifies this
      ensures dropped == if 0 <= slotIndex < |old(inventory)| then old(inventory)[slotIndex] else None
      ensures inventory == if 0 <= slotIndex < |old(inventory)| then old(inventory)[slotIndex := None] else old(inventory)
    {
      dropped := None;
      if slotIndex < 0 || slotIndex >= |inventory| {
        return;
      }
      dropped := inventory[slotIndex];
      if dropped.Some? {
        inventory := inventory[slotIndex := None];
      }
    }

    /** Clears one slot without dropping the item into the world. */
    method RemoveItem(slotIndex: int)
      modifies this
      ensures inventory == if 0 <= slotIndex < |old(inventory)| then old(inventory)[slotIndex := None] else old(inventory)
    {
      if slotIndex < 0 || slotIndex >= |inventory| {
        return;
      }
      if inventory[slotIndex].Some? {
        inventory := inventory[slotIndex := None];
      }
    }

    /** Drops every item; afterwards every slot is empty. */
    method DropAllItems() returns (dropped: seq<Item>)
      modifies this
      ensures inventory == Empty(|old(inventory)|)
      ensures dropped == Items(old(inventory))
    {
      dropped := [];
      var i := 0;
      ghost var was := inventory;
      while i < |inventory|
        invariant 0 <= i <= |was|
        invariant inventory == Empty(i) + was[i..]
        invariant dropped + Items(was[i..]) == Items(was)
      {
        DropStep(was, i);
        if inventory[i].Some? {
          var item := DropItem(i);
          dropped := dropped + [item.value];
        }
        i := i + 1;
      }
    }

    /** HasItem: the slot index holding `item` (null finds the first empty slot), or -1. */
    function HasItem(item: Slot): (r: int)
      reads this
      ensures r == IndexOf(inventory, item)
    {
      IndexOf(inventory, item)
    }

    /** The number of occupied slots: as many as DropAllItems would hand back, and every slot exactly when none is free. */
    function GetItemCount(): (n: nat)
      reads this
      ensures n <= |inventory| && n == |Items(inventory)|
      ensures n == |inventory| <==> FirstFreeSlot(inventory) == -1
    {
      ItemsCount(inventory);
      ItemCount(inventory)
    }

    /** With exactly the configured number of slots, IsFull holds precisely when PickupItem finds no free slot. */
    function IsFull(): (full: bool)
      reads this
      ensures |inventory| == SlotCount(inventorySize) ==> (full <==> FirstFreeSlot(inventory) == -1)
    {
      GetItemCount() >= inventorySize
    }
  }

  /** One iteration of DropAllItems: clearing slot `i` advances the empty prefix, and the item it held is the next one of `Items`. */
  lemma DropStep(s: seq<Slot>, i: nat)
    requires i < |s|
    ensures (Empty(i) + s[i..])[i] == s[i]
    ensures (Empty(i) + s[i..])[i := None] == Empty(i + 1) + s[i + 1..]
    ensures Empty(i) + s[i..] == Empty(i + 1) + s[i + 1..] <== s[i].None?
    ensures Items(s[i..]) == (if s[i].Some? then [s[i].value] else []) + Items(s[i + 1..])
  {
    assert s[i..][1..] == s[i + 1..];
    assert (Empty(i) + s[i..])[i := None] == Empty(i + 1) + s[i + 1..];
  }
}
