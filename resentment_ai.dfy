/**
 * Resentment, the puddle guardian: chases at once, attacks in range, and is leashed to its home
 * puddle, into which it disappears when it gets back.
 */
module Resentment {
  import opened Common

  datatype AIState = Idle | Chasing | Attacking | Returning | Searching

  datatype Config = Config(detectionRange: real, attackRange: real, returnToPuddleDistance: real,
                           chaseSpeed: real, attackCooldown: real)

  /**
   * One frame's readings: the frame time, the distances to the player and to the home puddle
   * position, whether the player is hiding, whether the ray towards the player hits the player
   * first, the player's position, and whether the player carries a PlayerHealth.
   */
  datatype Sense = Sense(dt: real, distanceToPlayer: real, distanceToPuddle: real, playerHiding: bool,
                         rayHitsPlayer: bool, playerPosition: Vec, playerHasHealth: bool)

  /** The fields of ResentmentAI with the agent settings it writes. */
  datatype Memory = Memory(state: AIState, stateTimer: real, attackTimer: real, lastKnownPlayerPosition: Vec,
                           puddlePosition: Vec, destination: Option<Vec>, isStopped: bool)

  /** The result of one frame: the new memory, whether the player took damage, and whether the monster sinks into its puddle. */
  datatype Step = Step(m: Memory, damaged: bool, disappears: bool)

  /** How long a search lasts. */
  const SearchTime: real := 2.0
  /** How close to the puddle counts as home. */
  const HomeRadius: real := 1.5
  /** The fraction of the leash within which a returning monster turns back on the player. */
  const ReengageFactor: real := 0.7

  predicate CanSee(c: Config, s: Sense) {
    !(s.distanceToPlayer > c.detectionRange || s.playerHiding) && s.rayHitsPlayer
  }

  predicate Leashed(c: Config, s: Sense) {
    s.distanceToPuddle > c.returnToPuddleDistance
  }

  function Timers(m: Memory, dt: real): Memory {
    m.(stateTimer := m.stateTimer - dt, attackTimer := m.attackTimer - dt)
  }

  function ToChasing(m: Memory): Memory {
    m.(state := Chasing, isStopped := false)
  }

  function ToAttacking(m: Memory): Memory {
    m.(state := Attacking, isStopped := true, attackTimer := 0.0)
  }

  function ToSearching(m: Memory): Memory {
    m.(state := Searching, destination := Some(m.lastKnownPlayerPosition), stateTimer := SearchTime, isStopped := false)
  }

  function ToReturning(m: Memory): Memory {
    m.(state := Returning, isStopped := false, destination := Some(m.puddlePosition))
  }

  function OnChasing(c: Config, m: Memory, s: Sense): Memory {
    if !CanSee(c, s) then ToSearching(m)
    else if s.distanceToPlayer <= c.attackRange then ToAttacking(m)
    else if Leashed(c, s) then ToReturning(m)
    else m.(destination := Some(s.playerPosition), lastKnownPlayerPosition := s.playerPosition)
  }

  function OnAttacking(c: Config, m: Memory, s: Sense): Step {
    if s.distanceToPlayer > c.attackRange then Step(ToChasing(m), false, false)
    else if Leashed(c, s) then Step(ToReturning(m), false, false)
    else if m.attackTimer <= 0.0 then Step(m.(attackTimer := c.attackCooldown), s.playerHasHealth, false)
    else Step(m, false, false)
  }

  function OnSearching(c: Config, m: Memory, s: Sense): Memory {
    if CanSee(c, s) then ToChasing(m)
    else if Leashed(c, s) then ToReturning(m)
    else if m.stateTimer > 0.0 then m
    else ToReturning(m)
  }

  function OnReturning(c: Config, m: Memory, s: Sense): Step {
    if s.distanceToPuddle <= HomeRadius then Step(m, false, true)
    else if CanSee(c, s) && s.distanceToPlayer <= c.returnToPuddleDistance * ReengageFactor then Step(ToChasing(m), false, false)
    else Step(m, false, false)
  }

  /** Update: the timers count down, then the handler runs; Idle turns into Chasing straight away. */
  function Tick(c: Config, m: Memory, s: Sense): Step {
    var t := Timers(m, s.dt);
    match t.state
    case Idle => Step(ToChasing(t), false, false)
    case Chasing => Step(OnChasing(c, t, s), false, false)
    case Attacking => OnAttacking(c, t, s)
    case Returning => OnReturning(c, t, s)
    case Searching => Step(OnSearching(c, t, s), false, false)
  }

  /** A freshly spawned guardian chases on its very first frame. */
  lemma IdleChasesAtOnce(c: Config, m: Memory, s: Sense)
    requires m.state == Idle
    ensures Tick(c, m, s).m.state == Chasing && !Tick(c, m, s).m.isStopped
  {
  }

  /** In Chasing, lost sight comes first, then the attack range, then the leash; only then does it follow the player. */
  lemma ChasingPriority(c: Config, m: Memory, s: Sense)
    requires m.state == Chasing
    ensures var r := Tick(c, m, s).m;
      r.state == (if !CanSee(c, s) then Searching
                  else if s.distanceToPlayer <= c.attackRange then Attacking
                  else if Leashed(c, s) then Returning else Chasing) &&
      (r.state == Chasing ==> r.destination == Some(s.playerPosition) && r.lastKnownPlayerPosition == s.playerPosition)
  {
  }

  /** Attacking and Searching obey the leash, after the range or the sight check respectively. */
  lemma LeashChecks(c: Config, m: Memory, s: Sense)
    ensures m.state == Attacking ==> (Tick(c, m, s).m.state ==
      (if s.distanceToPlayer > c.attackRange then Chasing else if Leashed(c, s) then Returning else Attacking))
    ensures m.state == Searching ==> (Tick(c, m, s).m.state ==
      (if CanSee(c, s) then Chasing
       else if Leashed(c, s) || m.stateTimer - s.dt <= 0.0 then Returning else Searching))
    ensures m.state != Returning && Tick(c, m, s).m.state == Returning ==>
      Tick(c, m, s).m.destination == Some(m.puddlePosition)
  {
  }

  /** A search lasts SearchTime and is entered only from Chasing once sight is lost. */
  lemma SearchEntry(c: Config, m: Memory, s: Sense)
    requires m.state != Searching && Tick(c, m, s).m.state == Searching
    ensures m.state == Chasing && !CanSee(c, s)
    ensures Tick(c, m, s).m.stateTimer == SearchTime
  {
  }

  /** Returning sinks into the puddle within HomeRadius, and otherwise turns back only on a seen, close player. */
  lemma ReturningRules(c: Config, m: Memory, s: Sense)
    requires m.state == Returning
    ensures var r := Tick(c, m, s);
      (r.disappears <==> s.distanceToPuddle <= HomeRadius) &&
      (r.m.state == Chasing <==>
        s.distanceToPuddle > HomeRadius && CanSee(c, s) && s.distanceToPlayer <= c.returnToPuddleDistance * ReengageFactor) &&
      (r.m.state != Chasing ==> r.m.state == Returning)
  {
  }

  /** Entering Attacking zeroes the countdown; an attack damages a player with health and restarts the countdown. */
  lemma AttackTiming(c: Config, m: Memory, s: Sense)
    ensures Tick(c, m, s).m.state == Attacking && m.state != Attacking ==> Tick(c, m, s).m.attackTimer == 0.0
    ensures Tick(c, m, s).damaged ==>
      m.state == Attacking && s.playerHasHealth && Tick(c, m, s).m.attackTimer == c.attackCooldown
    ensures m.state == Attacking && s.distanceToPlayer <= c.attackRange && !Leashed(c, s) && m.attackTimer - s.dt <= 0.0 ==>
      Tick(c, m, s).damaged == s.playerHasHealth
    ensures Tick(c, m, s).disappears ==> m.state == Returning
  {
  }

  /** Frames run until the monster sinks into its puddle; returns the memory then and whether it sank. */
  function Run(c: Config, m: Memory, ss: seq<Sense>): (r: (Memory, bool))
    decreases |ss|
  {
    if |ss| == 0 then (m, false)
    else
      var st := Tick(c, m, ss[0]);
      if st.disappears then (st.m, true) else Run(c, st.m, ss[1..])
  }

  /** Once spawned the monster never goes idle again, and it sinks only from Returning. */
  lemma {:induction false} NeverIdleAgain(c: Config, m: Memory, ss: seq<Sense>)
    requires m.state != Idle || |ss| > 0
    ensures Run(c, m, ss).0.state != Idle
    ensures Run(c, m, ss).1 ==> Run(c, m, ss).0.state == Returning
    decreases |ss|
  {
    if |ss| > 0 {
      var st := Tick(c, m, ss[0]);
      assert st.m.state != Idle;
      if !st.disappears {
        NeverIdleAgain(c, st.m, ss[1..]);
      }
    }
  }
}
