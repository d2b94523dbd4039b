/**
 * Fear: wanders between fixed points, waits darkened at each, dashes at a player it spots while
 * waiting, chases and attacks like the basic monster, and can be killed.
 */
module Fear {
  import opened Common

  datatype AIState = Wandering | Waiting | Chasing | Attacking | Searching | Dashing | Dying

  /** The inspector settings; `wanderPoints` are the positions of the wander point transforms (none when unset). */
  datatype Config = Config(detectionRange: real, attackRange: real, waitTimeAtPoint: real, sightWaitTime: real,
                           wanderSpeed: real, chaseSpeed: real, wanderPoints: seq<Vec>, hidingTime: real,
                           dashDuration: real, attackCooldown: real)

  /**
   * One frame's readings: the frame time; the distance to the player where the handler measures it
   * (after this frame's dash step while Dashing); whether the player is hiding; whether the ray
   * towards the player hits the player first; the player's position; whether the agent has
   * arrived; the successive `Random.Range(0, n)` draws of the wander pick; the NavMesh sample at
   * the picked point; the unsampled dash target and the NavMesh sample near it.
   */
  datatype Sense = Sense(dt: real, distanceToPlayer: real, playerHiding: bool, rayHitsPlayer: bool,
                         playerPosition: Vec, arrived: bool, rolls: seq<int>, wanderSample: Option<Vec>,
                         dashAim: Vec, dashSample: Option<Vec>)

  /** The fields of FearAI with the NavMeshAgent settings it writes; `darkened` is the sprite tint. */
  datatype Memory = Memory(state: AIState, stateTimer: real, attackTimer: real, dashTimer: real,
                           lastKnownPlayerPosition: Vec, dashTarget: Vec, wanderIndex: int,
                           destination: Option<Vec>, speed: real, isStopped: bool, stoppingDistance: real,
                           darkened: bool)

  datatype Step = Step(m: Memory, attacked: bool)

  /** Sight: in range, not hiding, and an unobstructed ray. */
  predicate CanSee(c: Config, s: Sense) {
    !(s.distanceToPlayer > c.detectionRange || s.playerHiding) && s.rayHitsPlayer
  }

  lemma SightRule(c: Config, s: Sense)
    ensures s.distanceToPlayer > c.detectionRange ==> !CanSee(c, s)
    ensures s.playerHiding ==> !CanSee(c, s)
    ensures s.distanceToPlayer <= c.detectionRange && !s.playerHiding ==> (CanSee(c, s) <==> s.rayHitsPlayer)
  {
  }

  /**
   * The random draws the do-while consumes end: every draw lies in [0, n) and some draw is
   * accepted (differs from the current index, or there is at most one point).
   */
  predicate Draws(rolls: seq<int>, current: int, n: nat) {
    n == 0 ||
    ((forall k :: 0 <= k < |rolls| ==> 0 <= rolls[k] < n) &&
     exists k :: 0 <= k < |rolls| && (rolls[k] != current || n <= 1))
  }

  /** The draw on which the do-while stops. */
  function Pick(rolls: seq<int>, current: int, n: nat): int
    requires |rolls| > 0
    decreases |rolls|
  {
    if rolls[0] != current || n <= 1 || |rolls| == 1 then rolls[0] else Pick(rolls[1..], current, n)
  }

  /** The new wander index is a valid point and, with two or more points, a different one. */
  lemma {:induction false} PickAcceptable(rolls: seq<int>, current: int, n: nat)
    requires n > 0 && Draws(rolls, current, n)
    ensures |rolls| > 0
    ensures 0 <= Pick(rolls, current, n) < n
    ensures n > 1 ==> Pick(rolls, current, n) != current
    decreases |rolls|
  {
    var k :| 0 <= k < |rolls| && (rolls[k] != current || n <= 1);
    if rolls[0] != current || n <= 1 || |rolls| == 1 {
    } else {
      assert k > 0;
      assert (rolls[1..])[k - 1] == rolls[k];
      assert Draws(rolls[1..], current, n);
      PickAcceptable(rolls[1..], current, n);
    }
  }

  function Timers(m: Memory, dt: real): Memory {
    m.(stateTimer := m.stateTimer - dt, attackTimer := m.attackTimer - dt, dashTimer := m.dashTimer - dt)
  }

  /**
   * SetWanderDestination: nothing without points; otherwise a new index is drawn, and a
   * successful sample at that point sends the monster wandering there with a fresh wait.
   */
  function SetWander(c: Config, m: Memory, rolls: seq<int>, sample: Option<Vec>): Memory
    requires Draws(rolls, m.wanderIndex, |c.wanderPoints|)
  {
    if |c.wanderPoints| == 0 then m
    else
      PickAcceptable(rolls, m.wanderIndex, |c.wanderPoints|);
      var p := m.(wanderIndex := Pick(rolls, m.wanderIndex, |c.wanderPoints|));
      if sample.Some? then
        p.(destination := sample, stateTimer := c.waitTimeAtPoint, state := Wandering,
           speed := c.wanderSpeed, isStopped := false, darkened := false)
      else p
  }

  function ToWaiting(c: Config, m: Memory): Memory {
    m.(state := Waiting, isStopped := true, stateTimer := c.hidingTime, darkened := true)
  }

  function ToWandering(c: Config, m: Memory, rolls: seq<int>, sample: Option<Vec>): Memory
    requires Draws(rolls, m.wanderIndex, |c.wanderPoints|)
  {
    SetWander(c, m.(state := Wandering, speed := c.wanderSpeed, isStopped := false, darkened := false), rolls, sample)
  }

  function ToChasing(c: Config, m: Memory): Memory {
    m.(state := Chasing, stoppingDistance := c.attackRange * 0.8, speed := c.chaseSpeed, isStopped := false, darkened := false)
  }

  function ToAttacking(m: Memory): Memory {
    m.(state := Attacking, isStopped := true, attackTimer := 0.0, darkened := false)
  }

  function ToSearching(c: Config, m: Memory): Memory {
    m.(state := Searching, destination := Some(m.lastKnownPlayerPosition), stateTimer := c.sightWaitTime,
       isStopped := false, darkened := false)
  }

  /** The dash heads for the NavMesh sample near the aimed point, or the aimed point itself. */
  function ToDashing(c: Config, m: Memory, aim: Vec, sample: Option<Vec>): Memory {
    m.(state := Dashing, isStopped := true,
       dashTarget := if sample.Some? then sample.value else aim,
       dashTimer := c.dashDuration, darkened := false)
  }

  function ToDying(m: Memory): Memory {
    m.(state := Dying, isStopped := true)
  }

  function OnWandering(c: Config, m: Memory, s: Sense): Memory {
    if CanSee(c, s) then ToChasing(c, m)
    else if s.arrived && m.stateTimer <= 0.0 then ToWaiting(c, m)
    else m
  }

  function OnWaiting(c: Config, m: Memory, s: Sense): Memory
    requires Draws(s.rolls, m.wanderIndex, |c.wanderPoints|)
  {
    if CanSee(c, s) then ToDashing(c, m, s.dashAim, s.dashSample)
    else if m.stateTimer <= 0.0 then SetWander(c, m, s.rolls, s.wanderSample)
    else m
  }

  function OnChasing(c: Config, m: Memory, s: Sense): Memory {
    if !CanSee(c, s) then ToSearching(c, m)
    else if s.distanceToPlayer <= c.attackRange then ToAttacking(m)
    else m.(destination := Some(s.playerPosition), lastKnownPlayerPosition := s.playerPosition)
  }

  function OnAttacking(c: Config, m: Memory, s: Sense): Step {
    if s.distanceToPlayer > c.attackRange then Step(ToChasing(c, m), false)
    else if m.attackTimer <= 0.0 then Step(m.(attackTimer := c.attackCooldown), true)
    else Step(m, false)
  }

  function OnSearching(c: Config, m: Memory, s: Sense): Memory
    requires Draws(s.rolls, m.wanderIndex, |c.wanderPoints|)
  {
    if CanSee(c, s) then ToChasing(c, m)
    else if m.stateTimer > 0.0 then m
    else ToWandering(c, m, s.rolls, s.wanderSample)
  }

  function OnDashing(c: Config, m: Memory, s: Sense): Memory {
    if m.dashTimer <= 0.0 then ToChasing(c, m)
    else if s.distanceToPlayer <= c.attackRange then ToAttacking(m)
    else m
  }

  /** Update: all three timers count down, then the current state's handler runs; Dying has none. */
  function Tick(c: Config, m: Memory, s: Sense): Step
    requires Draws(s.rolls, m.wanderIndex, |c.wanderPoints|)
  {
    var t := Timers(m, s.dt);
    match t.state
    case Wandering => Step(OnWandering(c, t, s), false)
    case Waiting => Step(OnWaiting(c, t, s), false)
    case Chasing => Step(OnChasing(c, t, s), false)
    case Attacking => OnAttacking(c, t, s)
    case Searching => Step(OnSearching(c, t, s), false)
    case Dashing => Step(OnDashing(c, t, s), false)
    case Dying => Step(t, false)
  }

  /** With no wander points a wander pick changes nothing. */
  lemma NoPointsNoChange(c: Config, m: Memory, rolls: seq<int>, sample: Option<Vec>)
    requires |c.wanderPoints| == 0
    ensures SetWander(c, m, rolls, sample) == m
  {
  }

  /** A successful wander pick lands on a valid, and (with two or more points) new, index and restarts wandering. */
  lemma WanderPick(c: Config, m: Memory, rolls: seq<int>, sample: Option<Vec>)
    requires |c.wanderPoints| > 0 && Draws(rolls, m.wanderIndex, |c.wanderPoints|)
    ensures var r := SetWander(c, m, rolls, sample);
      0 <= r.wanderIndex < |c.wanderPoints| &&
      (|c.wanderPoints| > 1 ==> r.wanderIndex != m.wanderIndex) &&
      (sample.Some? ==> r.state == Wandering && r.stateTimer == c.waitTimeAtPoint && r.destination == sample) &&
      (sample.None? ==> r == m.(wanderIndex := r.wanderIndex))
  {
    PickAcceptable(rolls, m.wanderIndex, |c.wanderPoints|);
  }

  /** Every timer is counted down by the frame time or reset to one of its configured values. */
  lemma TimerDiscipline(c: Config, m: Memory, s: Sense)
    requires Draws(s.rolls, m.wanderIndex, |c.wanderPoints|)
    ensures var r := Tick(c, m, s).m;
      (r.stateTimer == m.stateTimer - s.dt || r.stateTimer == c.waitTimeAtPoint ||
       r.stateTimer == c.sightWaitTime || r.stateTimer == c.hidingTime) &&
      (r.attackTimer == m.attackTimer - s.dt || r.attackTimer == 0.0 || r.attackTimer == c.attackCooldown) &&
      (r.dashTimer == m.dashTimer - s.dt || r.dashTimer == c.dashDuration)
  {
  }

  /** Sight sends Wandering and Searching to Chasing, but Waiting to Dashing. */
  lemma SightResponses(c: Config, m: Memory, s: Sense)
    requires Draws(s.rolls, m.wanderIndex, |c.wanderPoints|) && CanSee(c, s)
    ensures m.state in {Wandering, Searching} ==> Tick(c, m, s).m.state == Chasing
    ensures m.state == Waiting ==>
      Tick(c, m, s).m.state == Dashing && Tick(c, m, s).m.dashTimer == c.dashDuration
  {
  }

  /** Wandering waits only on arrival with an expired timer; the wait lasts hidingTime. */
  lemma WaitEntry(c: Config, m: Memory, s: Sense)
    requires m.state == Wandering && !CanSee(c, s) && Draws(s.rolls, m.wanderIndex, |c.wanderPoints|)
    ensures var r := Tick(c, m, s).m;
      (r.state == Waiting <==> s.arrived && m.stateTimer - s.dt <= 0.0) &&
      (r.state == Waiting ==> r.stateTimer == c.hidingTime && r.isStopped && r.darkened) &&
      (r.state != Waiting ==> r.state == Wandering)
  {
  }

  /** An unseen wait that expires with a successful pick goes back to wandering with stateTimer = waitTimeAtPoint. */
  lemma WaitExpiry(c: Config, m: Memory, s: Sense)
    requires m.state == Waiting && !CanSee(c, s) && m.stateTimer - s.dt <= 0.0
    requires |c.wanderPoints| > 0 && s.wanderSample.Some? && Draws(s.rolls, m.wanderIndex, |c.wanderPoints|)
    ensures var r := Tick(c, m, s).m;
      r.state == Wandering && r.stateTimer == c.waitTimeAtPoint && !r.isStopped && !r.darkened
  {
  }

  /** Chase, attack and search follow the basic monster's rules. */
  lemma ChaseAttackSearch(c: Config, m: Memory, s: Sense)
    requires Draws(s.rolls, m.wanderIndex, |c.wanderPoints|)
    ensures var r := Tick(c, m, s);
      (m.state == Chasing && !CanSee(c, s) ==> r.m.state == Searching && r.m.stateTimer == c.sightWaitTime) &&
      (m.state == Chasing && CanSee(c, s) ==>
        r.m.state == (if s.distanceToPlayer <= c.attackRange then Attacking else Chasing)) &&
      (m.state == Attacking ==>
        r.m.state == (if s.distanceToPlayer > c.attackRange then Chasing else Attacking)) &&
      (r.attacked <==> m.state == Attacking && s.distanceToPlayer <= c.attackRange && m.attackTimer - s.dt <= 0.0) &&
      (r.attacked ==> r.m.attackTimer == c.attackCooldown) &&
      (m.state == Searching && !CanSee(c, s) && m.stateTimer - s.dt > 0.0 ==> r.m.state == Searching)
  {
  }

  /** Entering Attacking zeroes the countdown, so the next frame in range attacks. */
  lemma FirstAttackImmediate(c: Config, m: Memory, s1: Sense, s2: Sense)
    requires m.state == Chasing && CanSee(c, s1) && s1.distanceToPlayer <= c.attackRange
    requires Draws(s1.rolls, m.wanderIndex, |c.wanderPoints|) && Draws(s2.rolls, m.wanderIndex, |c.wanderPoints|)
    requires s2.dt >= 0.0 && s2.distanceToPlayer <= c.attackRange
    ensures var r1 := Tick(c, m, s1).m;
      r1.state == Attacking && r1.attackTimer == 0.0 && Tick(c, r1, s2).attacked
  {
  }

  /** A dash ends in Chasing when its timer expires, and in Attacking when it reaches the player first. */
  lemma DashOutcome(c: Config, m: Memory, s: Sense)
    requires m.state == Dashing && Draws(s.rolls, m.wanderIndex, |c.wanderPoints|)
    ensures var r := Tick(c, m, s).m;
      r.state == (if m.dashTimer - s.dt <= 0.0 then Chasing
                  else if s.distanceToPlayer <= c.attackRange then Attacking else Dashing)
  {
  }

  /**
   * Draws that end the do-while whatever the current index: all in range, at least one, and with
   * two or more points at least two different values.
   */
  predicate Fair(rolls: seq<int>, n: nat) {
    (forall k :: 0 <= k < |rolls| ==> 0 <= rolls[k] < n) && |rolls| > 0 &&
    (n > 1 ==> exists i, j :: 0 <= i < |rolls| && 0 <= j < |rolls| && rolls[i] != rolls[j])
  }

  lemma FairDraws(rolls: seq<int>, current: int, n: nat)
    requires Fair(rolls, n)
    ensures Draws(rolls, current, n)
  {
    if n > 1 {
      var i, j :| 0 <= i < |rolls| && 0 <= j < |rolls| && rolls[i] != rolls[j];
      assert rolls[i] != current || rolls[j] != current;
    } else if n == 1 {
      assert rolls[0] != current || n <= 1;
    }
  }

  /** Frames one after another, each with its own readings. */
  function Run(c: Config, m: Memory, ss: seq<Sense>): Step
    requires forall k :: 0 <= k < |ss| ==> Fair(ss[k].rolls, |c.wanderPoints|)
    decreases |ss|
  {
    if |ss| == 0 then Step(m, false)
    else
      FairDraws(ss[0].rolls, m.wanderIndex, |c.wanderPoints|);
      var r := Tick(c, m, ss[0]);
      assert forall k :: 0 <= k < |ss[1..]| ==> ss[1..][k] == ss[k + 1];
      var rest := Run(c, r.m, ss[1..]);
      Step(rest.m, r.attacked || rest.attacked)
  }

  /** Dying is absorbing: no handler runs, so the monster never leaves it and never attacks again. */
  lemma {:induction false} DyingIsFinal(c: Config, m: Memory, ss: seq<Sense>)
    requires m.state == Dying
    requires forall k :: 0 <= k < |ss| ==> Fair(ss[k].rolls, |c.wanderPoints|)
    ensures Run(c, m, ss).m.state == Dying && !Run(c, m, ss).attacked
    decreases |ss|
  {
    if |ss| > 0 {
      FairDraws(ss[0].rolls, m.wanderIndex, |c.wanderPoints|);
      var r := Tick(c, m, ss[0]);
      assert forall k :: 0 <= k < |ss[1..]| ==> ss[1..][k] == ss[k + 1];
      DyingIsFinal(c, r.m, ss[1..]);
    }
  }

  class FearAI {
    const config: Config
    var currentState: AIState
    var stateTimer: real
    var attackTimer: real
    var dashTimer: real
    var lastKnownPlayerPosition: Vec
    var dashTarget: Vec
    var currentWanderPointIndex: int
    var destination: Option<Vec>
    var speed: real
    var isStopped: bool
    var stoppingDistance: real
    var darkened: bool

    function Now(): Memory
      reads this
    {
      Memory(currentState, stateTimer, attackTimer, dashTimer, lastKnownPlayerPosition, dashTarget,
             currentWanderPointIndex, destination, speed, isStopped, stoppingDistance, darkened)
    }

    constructor (config: Config, position: Vec)
      ensures this.config == config && currentState == Wandering && currentWanderPointIndex == -1 && !darkened
    {
      this.config := config;
      currentState := Wandering;
      stateTimer := 0.0;
      attackTimer := 0.0;
      dashTimer := 0.0;
      lastKnownPlayerPosition := position;
      dashTarget := position;
      currentWanderPointIndex := -1;
      destination := None;
      speed := 0.0;
      isStopped := false;
      stoppingDistance := 0.0;
      darkened := false;
    }

    method Start(rolls: seq<int>, wanderSample: Option<Vec>)
      requires Draws(rolls, currentWanderPointIndex, |config.wanderPoints|)
      modifies this
      ensures Now() == SetWander(config, old(Now()).(speed := config.wanderSpeed), rolls, wanderSample)
    {
      speed := config.wanderSpeed;
      SetWanderDestination(rolls, wanderSample);
    }

    /** Returns whether PerformAttack ran (the caller delivers TakeDamage to the player). */
    method Update(s: Sense) returns (attacked: bool)
      requires Draws(s.rolls, currentWanderPointIndex, |config.wanderPoints|)
      modifies this
      ensures Step(Now(), attacked) == Tick(config, old(Now()), s)
    {
      UpdateTimers(s.dt);
      attacked := false;
      match currentState
      case Wandering => UpdateWandering(s);
      case Waiting => UpdateWaiting(s);
      case Chasing => UpdateChasing(s);
      case Attacking => attacked := UpdateAttacking(s);
      case Searching => UpdateSearching(s);
      case Dashing => UpdateDashing(s);
      case Dying =>
    }

    method UpdateTimers(dt: real)
      modifies this
      ensures Now() == Timers(old(Now()), dt)
    {
      stateTimer := stateTimer - dt;
      attackTimer := attackTimer - dt;
      dashTimer := dashTimer - dt;
    }

    method UpdateWandering(s: Sense)
      modifies this
      ensures Now() == OnWandering(config, old(Now()), s)
    {
      if CanSeePlayer(s) {
        StartChasing();
        return;
      }
      if s.arrived && stateTimer <= 0.0 {
        StartWaiting();
      }
    }

    method UpdateWaiting(s: Sense)
      requires Draws(s.rolls, currentWanderPointIndex, |config.wanderPoints|)
      modifies this
      ensures Now() == OnWaiting(config, old(Now()), s)
    {
      if CanSeePlayer(s) {
        StartDashing(s.dashAim, s.dashSample);
        return;
      }
      if stateTimer <= 0.0 {
        SetWanderDestination(s.rolls, s.wanderSample);
      }
    }

    method UpdateChasing(s: Sense)
      modifies this
      ensures Now() == OnChasing(config, old(Now()), s)
    {
      if !CanSeePlayer(s) {
        StartSearching();
        return;
      }
      if s.distanceToPlayer <= config.attackRange {
        StartAttacking();
        return;
      }
      destination := Some(s.playerPosition);
      lastKnownPlayerPosition := s.playerPosition;
    }

    method UpdateAttacking(s: Sense) returns (attacked: bool)
      modifies this
      ensures Step(Now(), attacked) == OnAttacking(config, old(Now()), s)
    {
      attacked := false;
      if s.distanceToPlayer > config.attackRange {
        StartChasing();
        return;
      }
      if attackTimer <= 0.0 {
        attacked := true;
        attackTimer := config.attackCooldown;
      }
    }

    method UpdateSearching(s: Sense)
      requires Draws(s.rolls, currentWanderPointIndex, |config.wanderPoints|)
      modifies this
      ensures Now() == OnSearching(config, old(Now()), s)
    {
      if CanSeePlayer(s) {
        StartChasing();
        return;
      }
      if stateTimer > 0.0 {
        return;
      }
      StartWandering(s.rolls, s.wanderSample);
    }

    method UpdateDashing(s: Sense)
      modifies this
      ensures Now() == OnDashing(config, old(Now()), s)
    {
      if dashTimer <= 0.0 {
        StartChasing();
        return;
      }
      if s.distanceToPlayer <= config.attackRange {
        StartAttacking();
      }
    }

    /** No sight beyond the detection range or while the player hides; otherwise sight is the ray reaching the player. */
    function CanSeePlayer(s: Sense): (r: bool)
      ensures r ==> s.distanceToPlayer <= config.detectionRange && !s.playerHiding
      ensures s.distanceToPlayer <= config.detectionRange && !s.playerHiding ==> (r <==> s.rayHitsPlayer)
    {
      CanSee(config, s)
    }

    /** The do-while of the wander pick: draw until the draw is accepted. */
    method PickWanderIndex(rolls: seq<int>) returns (newIndex: int)
      requires |config.wanderPoints| > 0 && Draws(rolls, currentWanderPointIndex, |config.wanderPoints|)
      ensures |rolls| > 0 && newIndex == Pick(rolls, currentWanderPointIndex, |config.wanderPoints|)
    {
      var n := |config.wanderPoints|;
      var current := currentWanderPointIndex;
      ghost var w :| 0 <= w < |rolls| && (rolls[w] != current || n <= 1);
      var k := 1;
      newIndex := rolls[0];
      while newIndex == current && n > 1
        invariant 1 <= k <= |rolls| && k - 1 <= w
        invariant newIndex == rolls[k - 1]
        invariant Pick(rolls, current, n) == Pick(rolls[k - 1..], current, n)
        decreases |rolls| - k
      {
        assert rolls[k - 1..][1..] == rolls[k..];
        newIndex := rolls[k];
        k := k + 1;
      }
    }

    method SetWanderDestination(rolls: seq<int>, sample: Option<Vec>)
      requires Draws(rolls, currentWanderPointIndex, |config.wanderPoints|)
      modifies this
      ensures Now() == SetWander(config, old(Now()), rolls, sample)
    {
      if |config.wanderPoints| == 0 {
        return;
      }
      var newIndex := PickWanderIndex(rolls);
      currentWanderPointIndex := newIndex;
      if sample.Some? {
        destination := sample;
        stateTimer := config.waitTimeAtPoint;
        currentState := Wandering;
        speed := config.wanderSpeed;
        isStopped := false;
        darkened := false;
      }
    }

    method StartWaiting()
      modifies this
      ensures Now() == ToWaiting(config, old(Now()))
    {
      currentState := Waiting;
      isStopped := true;
      stateTimer := config.hidingTime;
      darkened := true;
    }

    method StartWandering(rolls: seq<int>, sample: Option<Vec>)
      requires Draws(rolls, currentWanderPointIndex, |config.wanderPoints|)
      modifies this
      ensures Now() == ToWandering(config, old(Now()), rolls, sample)
    {
      currentState := Wandering;
      speed := config.wanderSpeed;
      isStopped := false;
      darkened := false;
      SetWanderDestination(rolls, sample);
    }

    method StartChasing()
      modifies this
      ensures Now() == ToChasing(config, old(Now()))
    {
      currentState := Chasing;
      stoppingDistance := config.attackRange * 0.8;
      speed := config.chaseSpeed;
      isStopped := false;
      darkened := false;
    }

    method StartAttacking()
      modifies this
      ensures Now() == ToAttacking(old(Now()))
    {
      currentState := Attacking;
      isStopped := true;
      attackTimer := 0.0;
      darkened := false;
    }

    method StartSearching()
      modifies this
      ensures Now() == ToSearching(config, old(Now()))
    {
      currentState := Searching;
      destination := Some(lastKnownPlayerPosition);
      stateTimer := config.sightWaitTime;
      isStopped := false;
      darkened := false;
    }

    method StartDashing(dashAim: Vec, dashSample: Option<Vec>)
      modifies this
      ensures Now() == ToDashing(config, old(Now()), dashAim, dashSample)
    {
      currentState := Dashing;
      isStopped := true;
      dashTarget := dashAim;
      if dashSample.Some? {
        dashTarget := dashSample.value;
      }
      dashTimer := config.dashDuration;
      darkened := false;
    }

    /** StartDying: the monster stops for good (the death animation and item drop are left out). */
    method StartDying()
      modifies this
      ensures Now() == ToDying(old(Now()))
    {
      currentState := Dying;
      isStopped := true;
    }
  }
}
