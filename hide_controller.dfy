/** Hiding in closets: picking the nearest closet, entering and leaving it. */
module Hiding {
  import opened Common

  /** A closet in the scene; `id` stands for the object's identity. */
  datatype Closet = Closet(id: nat, position: Vec)

  /** One collider found by the overlap query: the closet component it carries, if any, and its distance. */
  datatype Overlap = Overlap(closet: Option<Closet>, distance: real)

  /**
   * The scan of CheckNearbyClosets over the overlap results in order: the index of the closet
   * with the smallest distance, a later one replacing it only when strictly closer; -1 when none.
   */
  function ClosestIndex(hits: seq<Overlap>): (r: int)
    ensures -1 <= r < |hits|
    ensures r == -1 <==> forall j :: 0 <= j < |hits| ==> hits[j].closet.None?
    ensures r >= 0 ==> hits[r].closet.Some?
    ensures r >= 0 ==> forall j :: 0 <= j < |hits| && hits[j].closet.Some? ==> hits[r].distance <= hits[j].distance
    ensures r >= 0 ==> forall j :: 0 <= j < r && hits[j].closet.Some? ==> hits[r].distance < hits[j].distance
  {
    if |hits| == 0 then -1
    else
      var k := ClosestIndex(hits[..|hits| - 1]);
      var last := hits[|hits| - 1];
      if last.closet.Some? && (k == -1 || last.distance < hits[k].distance) then |hits| - 1 else k
  }

  /** The closet CheckNearbyClosets selects, or None. */
  function Closest(hits: seq<Overlap>): (c: Option<Closet>)
    ensures c.None? <==> forall j :: 0 <= j < |hits| ==> hits[j].closet.None?
    ensures c.Some? ==> exists j :: 0 <= j < |hits| && hits[j].closet == c
  {
    var k := ClosestIndex(hits);
    if k == -1 then None else hits[k].closet
  }

  class HideController {
    var isHiding: bool
    var currentCloset: Option<Closet>
    var exitPosition: Vec
    /** The player's position. */
    var position: Vec
    /** Whether the scene assigned a player sprite. */
    const hasSprite: bool
    var spriteEnabled: bool
    /** The enabled state of every collider on the player (all are always set together). */
    var collidersEnabled: bool
    const controller: PlayerController

    /** The player is visible, can collide and can move exactly when not hiding. */
    predicate Presence()
      reads this, controller
    {
      (hasSprite ==> spriteEnabled == !isHiding) &&
      collidersEnabled == !isHiding && controller.canMove == !isHiding
    }

    constructor (position: Vec, hasSprite: bool, controller: PlayerController)
      requires controller.canMove
      ensures this.position == position && this.hasSprite == hasSprite && this.controller == controller
      ensures !isHiding && currentCloset.None? && Presence()
    {
      this.position := position;
      this.hasSprite := hasSprite;
      this.controller := controller;
      isHiding := false;
      currentCloset := None;
      exitPosition := position;
      spriteEnabled := true;
      collidersEnabled := true;
    }

    /** Shows or hides the player: sprite (when assigned), colliders and movement all follow `!hiding`. */
    method SetHidingState(hiding: bool)
      modifies this, controller
      ensures isHiding == hiding && Presence()
      ensures !hasSprite ==> spriteEnabled == old(spriteEnabled)
      ensures currentCloset == old(currentCloset) && position == old(position)
      ensures exitPosition == old(exitPosition)
    {
      isHiding := hiding;
      if hasSprite {
        spriteEnabled := !hiding;
      }
      collidersEnabled := !hiding;
      controller.canMove := !hiding;
    }

    /** Hides in the current closet, remembering where the player stood. */
    method EnterCloset()
      modifies this, controller
      ensures old(currentCloset.None? || isHiding) ==>
        isHiding == old(isHiding) && position == old(position) && exitPosition == old(exitPosition) &&
        spriteEnabled == old(spriteEnabled) && collidersEnabled == old(collidersEnabled) &&
        controller.canMove == old(controller.canMove)
      ensures old(currentCloset.Some? && !isHiding) ==>
        isHiding && Presence() && exitPosition == old(position) && position == old(currentCloset).value.position
      ensures currentCloset == old(currentCloset)
    {
      if currentCloset.None? || isHiding {
        return;
      }
      exitPosition := position;
      position := currentCloset.value.position;
      SetHidingState(true);
    }

    /** Leaves the closet and returns to the position saved on entry. */
    method ExitCloset()
      modifies this, controller
      ensures !old(isHiding) ==>
        isHiding == old(isHiding) && position == old(position) &&
        spriteEnabled == old(spriteEnabled) && collidersEnabled == old(collidersEnabled) &&
        controller.canMove == old(controller.canMove)
      ensures old(isHiding) ==> !isHiding && Presence() && position == old(exitPosition)
      ensures currentCloset == old(currentCloset) && exitPosition == old(exitPosition)
    {
      if !isHiding {
        return;
      }
      position := exitPosition;
      SetHidingState(false);
    }

    /** Leaves the closet if hiding; otherwise does nothing. */
    method ForceExitCloset()
      modifies this, controller
      ensures !old(isHiding) ==>
        isHiding == old(isHiding) && position == old(position) &&
        spriteEnabled == old(spriteEnabled) && collidersEnabled == old(collidersEnabled) &&
        controller.canMove == old(controller.canMove)
      ensures old(isHiding) ==> !isHiding && Presence() && position == old(exitPosition)
      ensures currentCloset == old(currentCloset) && exitPosition == old(exitPosition)
    {
      if isHiding {
        ExitCloset();
      }
    }

    /**
     * Re-selects the nearest closet from this frame's overlap results. When the selection changes
     * from a closet to none while hiding, the player is forced out first.
     */
    method CheckNearbyClosets(hits: seq<Overlap>)
      modifies this, controller
      ensures currentCloset == Closest(hits)
      ensures old(currentCloset).Some? && Closest(hits).None? && old(isHiding) ==>
        !isHiding && Presence() && position == old(exitPosition)
      ensures !(old(currentCloset).Some? && Closest(hits).None? && old(isHiding)) ==>
        isHiding == old(isHiding) && position == old(position) &&
        spriteEnabled == old(spriteEnabled) && collidersEnabled == old(collidersEnabled) &&
        controller.canMove == old(controller.canMove)
      ensures exitPosition == old(exitPosition)
    {
      var closest := Closest(hits);
      if currentCloset != closest {
        if currentCloset.Some? {
          if closest.None? && isHiding {
            ForceExitCloset();
          }
        }
        currentCloset := closest;
      }
    }

    /** The interaction key: enter when not hiding next to a closet, leave when hiding. */
    method HandleHidingInput(keyDown: bool)
      modifies this, controller
      ensures keyDown && !old(isHiding) && old(currentCloset).Some? ==>
        isHiding && Presence() && exitPosition == old(position) && position == old(currentCloset).value.position
      ensures keyDown && old(isHiding) ==>
        !isHiding && Presence() && position == old(exitPosition) && exitPosition == old(exitPosition)
      ensures !keyDown || (!old(isHiding) && old(currentCloset).None?) ==>
        isHiding == old(isHiding) && position == old(position) && exitPosition == old(exitPosition) &&
        spriteEnabled == old(spriteEnabled) && collidersEnabled == old(collidersEnabled) &&
        controller.canMove == old(controller.canMove)
      ensures currentCloset == old(currentCloset)
    {
      if keyDown {
        if !isHiding && currentCloset.Some? {
          EnterCloset();
        } else if isHiding {
          ExitCloset();
        }
      }
    }

    /**
     * One frame: closet selection, then the key. The key enters the newly selected closet when
     * the player was not hiding, and leaves the closet when hiding; a player pushed out because
     * the last closet went out of range stays out, key or no key.
     */
    method Update(hits: seq<Overlap>, keyDown: bool)
      modifies this, controller
      ensures currentCloset == Closest(hits)
      ensures keyDown && !old(isHiding) && Closest(hits).Some? ==>
        isHiding && Presence() && exitPosition == old(position) && position == Closest(hits).value.position
      ensures keyDown && old(isHiding) ==>
        !isHiding && Presence() && position == old(exitPosition) && exitPosition == old(exitPosition)
      ensures old(isHiding) && old(currentCloset).Some? && Closest(hits).None? ==>
        !isHiding && Presence() && position == old(exitPosition) && exitPosition == old(exitPosition)
      ensures (keyDown && !old(isHiding) && Closest(hits).None?) ||
              (!keyDown && !(old(isHiding) && old(currentCloset).Some? && Closest(hits).None?)) ==>
        isHiding == old(isHiding) && position == old(position) && exitPosition == old(exitPosition) &&
        spriteEnabled == old(spriteEnabled) && collidersEnabled == old(collidersEnabled) &&
        controller.canMove == old(controller.canMove)
    {
      CheckNearbyClosets(hits);
      HandleHidingInput(keyDown);
    }
  }

  /** Entering a closet and leaving it again puts the player back where they stood, able to move. */
  method EnterThenExit(h: HideController)
    requires h.currentCloset.Some? && !h.isHiding
    modifies h, h.controller
    ensures h.position == old(h.position) && !h.isHiding && h.Presence()
    ensures h.currentCloset == old(h.currentCloset)
  {
    h.EnterCloset();
    h.ExitCloset();
  }
}
