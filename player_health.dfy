/** The player's hearts counter, death and respawn. */
module Health {
  import opened Common
  import opened Inventory

  /** Hearts after one TakeDamage call: no change at zero or below, otherwise exactly one less. */
  function AfterHit(hearts: int): int {
    if hearts <= 0 then hearts else hearts - 1
  }

  /** Whether a TakeDamage call at `hearts` reaches zero and so calls Die. */
  predicate HitKills(hearts: int) {
    hearts > 0 && AfterHit(hearts) <= 0
  }

  /** Hearts after `n` consecutive hits with no respawn in between. */
  function AfterHits(hearts: int, n: nat): int {
    if n == 0 then hearts else AfterHits(AfterHit(hearts), n - 1)
  }

  /** How many of `n` consecutive hits call Die. */
  function DeathsIn(hearts: int, n: nat): nat {
    if n == 0 then 0 else (if HitKills(hearts) then 1 else 0) + DeathsIn(AfterHit(hearts), n - 1)
  }

  /**
   * From a non-negative count, `n` hits leave max(0, hearts - n) hearts and call Die
   * exactly once if they use up the last heart, never more: later hits before a respawn do nothing.
   */
  lemma {:induction false} RepeatedHits(hearts: int, n: nat)
    requires hearts >= 0
    ensures AfterHits(hearts, n) == if hearts >= n then hearts - n else 0
    ensures DeathsIn(hearts, n) == if 0 < hearts <= n then 1 else 0
  {
    if n > 0 {
      RepeatedHits(AfterHit(hearts), n - 1);
    }
  }

  class PlayerHealth {
    const maxHearts: int
    var currentHearts: int
    /** The respawn point's position, or None when the scene has none. */
    const respawnPoint: Option<Vec>
    var position: Vec
    /** A Respawn call scheduled by Die and not yet delivered. */
    var respawnPending: bool
    /** Items dropped into the world by deaths, in drop order. */
    var droppedItems: seq<Item>
    const controller: PlayerController
    const inventory: InventorySystem

    /** The component in the scene, before Start; `currentHearts` is the value set in the inspector. */
    constructor (maxHearts: int, currentHearts: int, respawnPoint: Option<Vec>, position: Vec,
                 controller: PlayerController, inventory: InventorySystem)
      ensures this.maxHearts == maxHearts && this.respawnPoint == respawnPoint
      ensures this.position == position && this.currentHearts == currentHearts
      ensures this.controller == controller && this.inventory == inventory
      ensures !respawnPending && droppedItems == []
    {
      this.maxHearts := maxHearts;
      this.respawnPoint := respawnPoint;
      this.position := position;
      this.controller := controller;
      this.inventory := inventory;
      this.currentHearts := currentHearts;
      respawnPending := false;
      droppedItems := [];
    }

    /** Start: the player begins with full hearts. */
    method Start()
      modifies this
      ensures currentHearts == maxHearts
      ensures position == old(position) && respawnPending == old(respawnPending)
      ensures droppedItems == old(droppedItems)
    {
      currentHearts := maxHearts;
    }

    /** Loses one heart unless none are left; reaching zero calls Die. */
    method TakeDamage() returns (died: bool)
      modifies this, controller, inventory
      ensures currentHearts == AfterHit(old(currentHearts))
      ensures died <==> HitKills(old(currentHearts))
      ensures died ==> !controller.canMove && respawnPending
      ensures died ==> inventory.inventory == Empty(|old(inventory.inventory)|)
      ensures died ==> droppedItems == old(droppedItems) + Items(old(inventory.inventory))
      ensures !died ==> controller.canMove == old(controller.canMove)
      ensures !died ==> inventory.inventory == old(inventory.inventory)
      ensures !died ==> respawnPending == old(respawnPending) && droppedItems == old(droppedItems)
      ensures position == old(position)
    {
      died := false;
      if currentHearts <= 0 {
        return;
      }
      currentHearts := currentHearts - 1;
      if currentHearts <= 0 {
        Die();
        died := true;
      }
    }

    /** Freezes the player, drops the whole inventory and schedules Respawn. */
    method Die()
      modifies this, controller, inventory
      ensures !controller.canMove && respawnPending
      ensures inventory.inventory == Empty(|old(inventory.inventory)|)
      ensures droppedItems == old(droppedItems) + Items(old(inventory.inventory))
      ensures currentHearts == old(currentHearts) && position == old(position)
    {
      controller.canMove := false;
      var dropped := inventory.DropAllItems();
      droppedItems := droppedItems + dropped;
      respawnPending := true;
    }

    /** Moves to the respawn point when there is one, refills the hearts and unfreezes the player. */
    method Respawn()
      modifies this, controller
      ensures currentHearts == maxHearts && controller.canMove && !respawnPending
      ensures position == if respawnPoint.Some? then respawnPoint.value else old(position)
      ensures droppedItems == old(droppedItems)
    {
      if respawnPoint.Some? {
        position := respawnPoint.value;
      }
      currentHearts := maxHearts;
      controller.canMove := true;
      respawnPending := false;
    }
  }
}
