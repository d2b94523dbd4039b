/** The guide ghost that leads the player to a target point. */
module Ghost {
  import opened Common

  /** Where UpdateMovement sends the ghost. */
  datatype Goal = TargetPoint | ToPlayer | StayPut

  /** Too close to the player: lead on to the target; too far: come back for the player; otherwise wait. */
  function GoalFor(distanceToPlayer: real, minDistance: real, maxDistance: real): (g: Goal)
    ensures g == TargetPoint <==> distanceToPlayer < minDistance
    ensures g == ToPlayer <==> !(distanceToPlayer < minDistance) && distanceToPlayer > maxDistance
    ensures g == StayPut <==> minDistance <= distanceToPlayer <= maxDistance
  {
    if distanceToPlayer < minDistance then TargetPoint
    else if distanceToPlayer > maxDistance then ToPlayer
    else StayPut
  }

  /** The destination position for a goal. */
  function Destination(g: Goal, position: Vec, player: Vec, target: Vec): Vec {
    match g
    case TargetPoint => target
    case ToPlayer => player
    case StayPut => position
  }

  class GhostAI {
    const minDistance: real
    const maxDistance: real
    const arrivalThreshold: real
    var hasReachedTarget: bool
    var agentStopped: bool
    /** How many times OnGuideCompleted fired. */
    var completions: nat
    /** The last destination given to the agent. */
    var destination: Option<Vec>

    constructor (minDistance: real, maxDistance: real, arrivalThreshold: real)
      ensures this.minDistance == minDistance && this.maxDistance == maxDistance
      ensures this.arrivalThreshold == arrivalThreshold
      ensures !hasReachedTarget && !agentStopped && completions == 0 && destination.None?
    {
      this.minDistance := minDistance;
      this.maxDistance := maxDistance;
      this.arrivalThreshold := arrivalThreshold;
      hasReachedTarget := false;
      agentStopped := false;
      completions := 0;
      destination := None;
    }

    /** The guide fired its completion event exactly when it reached the target. */
    predicate Valid()
      reads this
    {
      completions == (if hasReachedTarget then 1 else 0) && (hasReachedTarget ==> agentStopped)
    }

    /**
     * One frame: the arrival check first, then movement. Distances and positions are this
     * frame's readings.
     */
    method Update(position: Vec, player: Vec, target: Vec, distanceToTarget: real, distanceToPlayer: real)
      requires Valid()
      modifies this
      ensures Valid()
      ensures old(hasReachedTarget) ==>
        hasReachedTarget && completions == old(completions) && destination == old(destination)
      ensures !old(hasReachedTarget) && distanceToTarget <= arrivalThreshold ==>
        hasReachedTarget && agentStopped && completions == 1 && destination == old(destination)
      ensures !old(hasReachedTarget) && distanceToTarget > arrivalThreshold ==>
        !hasReachedTarget && completions == 0 && agentStopped == old(agentStopped) &&
        destination == Some(Destination(GoalFor(distanceToPlayer, minDistance, maxDistance), position, player, target))
    {
      if hasReachedTarget {
        return;
      }
      if distanceToTarget <= arrivalThreshold {
        CompleteGuide();
        return;
      }
      UpdateMovement(position, player, target, distanceToPlayer);
    }

    method UpdateMovement(position: Vec, player: Vec, target: Vec, distanceToPlayer: real)
      modifies this
      ensures destination == Some(Destination(GoalFor(distanceToPlayer, minDistance, maxDistance), position, player, target))
      ensures hasReachedTarget == old(hasReachedTarget) && agentStopped == old(agentStopped)
      ensures completions == old(completions)
    {
      var targetPosition := position;
      if distanceToPlayer < minDistance {
        targetPosition := target;
      } else if distanceToPlayer > maxDistance {
        targetPosition := player;
      }
      destination := Some(targetPosition);
    }

    method CompleteGuide()
      modifies this
      ensures hasReachedTarget && agentStopped && completions == old(completions) + 1
      ensures destination == old(destination)
    {
      hasReachedTarget := true;
      agentStopped := true;
      completions := completions + 1;
    }
  }
}
