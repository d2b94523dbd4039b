/** The basic monster: wander, chase on sight, attack in range, search where the player was last seen. */
module Monster {
  import opened Common

  datatype AIState = Wandering | Chasing | Attacking | Searching

  /** The inspector settings. */
  datatype Config = Config(detectionRange: real, attackRange: real, waitTimeAtPoint: real,
                           sightWaitTime: real, wanderSpeed: real, chaseSpeed: real, attackCooldown: real)

  /**
   * One frame's readings from the engine: the frame time, the distance to the player, whether
   * the ray towards the player hits the player first, the player's position, whether the agent
   * has arrived (remaining distance within the stopping distance), and the NavMesh sample near
   * a random point of the wander area (None when there is no area or no sample).
   */
  datatype Sense = Sense(dt: real, distanceToPlayer: real, rayHitsPlayer: bool, playerPosition: Vec,
                         arrived: bool, wanderSample: Option<Vec>)

  /** The monster's fields together with the NavMeshAgent settings it writes. */
  datatype Memory = Memory(state: AIState, stateTimer: real, attackTimer: real, lastKnownPlayerPosition: Vec,
                           destination: Option<Vec>, speed: real, isStopped: bool, stoppingDistance: real)

  /** The result of one frame: the new memory and whether the player was attacked. */
  datatype Step = Step(m: Memory, attacked: bool)

  /** CanSeePlayer: within detection range and an unobstructed ray; hiding plays no part. */
  predicate CanSee(c: Config, s: Sense) {
    s.distanceToPlayer <= c.detectionRange && s.rayHitsPlayer
  }

  function Timers(m: Memory, dt: real): Memory {
    m.(stateTimer := m.stateTimer - dt, attackTimer := m.attackTimer - dt)
  }

  /** SetWanderDestination: a successful sample becomes the destination and restarts the wait. */
  function SetWander(c: Config, m: Memory, sample: Option<Vec>): Memory {
    if sample.Some? then m.(destination := sample, stateTimer := c.waitTimeAtPoint) else m
  }

  function ToWandering(c: Config, m: Memory, sample: Option<Vec>): Memory {
    SetWander(c, m.(state := Wandering, speed := c.wanderSpeed, isStopped := false), sample)
  }

  function ToChasing(c: Config, m: Memory): Memory {
    m.(state := Chasing, stoppingDistance := c.attackRange * 0.8, speed := c.chaseSpeed, isStopped := false)
  }

  function ToAttacking(m: Memory): Memory {
    m.(state := Attacking, isStopped := true, attackTimer := 0.0)
  }

  function ToSearching(c: Config, m: Memory): Memory {
    m.(state := Searching, destination := Some(m.lastKnownPlayerPosition), stateTimer := c.sightWaitTime, isStopped := false)
  }

  function OnWandering(c: Config, m: Memory, s: Sense): Memory {
    if CanSee(c, s) then ToChasing(c, m)
    else if s.arrived && m.stateTimer <= 0.0 then SetWander(c, m, s.wanderSample)
    else m
  }

  function OnChasing(c: Config, m: Memory, s: Sense): Memory {
    if !CanSee(c, s) then ToSearching(c, m)
    else if s.distanceToPlayer <= c.attackRange then ToAttacking(m)
    else m.(destination := Some(s.playerPosition), lastKnownPlayerPosition := s.playerPosition)
  }

  function OnAttacking(c: Config, m: Memory, s: Sense): Step {
    if s.distanceToPlayer > c.attackRange then Step(ToChasing(c, m), false)
    else if m.attackTimer <= 0.0 then Step(m.(attackTimer := c.attackCooldown), true)
    else Step(m, false)
  }

  function OnSearching(c: Config, m: Memory, s: Sense): Memory {
    if CanSee(c, s) then ToChasing(c, m)
    else if m.stateTimer > 0.0 then m
    else ToWandering(c, m, s.wanderSample)
  }

  /** Update: the timers count down first, then the current state's handler runs. */
  function Tick(c: Config, m: Memory, s: Sense): Step {
    var t := Timers(m, s.dt);
    match t.state
    case Wandering => Step(OnWandering(c, t, s), false)
    case Chasing => Step(OnChasing(c, t, s), false)
    case Attacking => OnAttacking(c, t, s)
    case Searching => Step(OnSearching(c, t, s), false)
  }

  /** Whether the state changes this frame, and to what. */
  lemma Transitions(c: Config, m: Memory, s: Sense)
    ensures var r := Tick(c, m, s).m;
      (m.state == Wandering ==> r.state == (if CanSee(c, s) then Chasing else Wandering)) &&
      (m.state == Chasing ==>
        r.state == (if !CanSee(c, s) then Searching else if s.distanceToPlayer <= c.attackRange then Attacking else Chasing)) &&
      (m.state == Attacking ==> r.state == (if s.distanceToPlayer > c.attackRange then Chasing else Attacking)) &&
      (m.state == Searching ==>
        r.state == (if CanSee(c, s) then Chasing else if m.stateTimer - s.dt > 0.0 then Searching else Wandering))
  {
  }

  /** Losing sight while chasing starts a search of length sightWaitTime towards the last known position. */
  lemma LostSightSearches(c: Config, m: Memory, s: Sense)
    requires m.state == Chasing && !CanSee(c, s)
    ensures var r := Tick(c, m, s).m;
      r.state == Searching && r.stateTimer == c.sightWaitTime && r.destination == Some(m.lastKnownPlayerPosition)
  {
  }

  /** Each timer is either counted down by exactly the frame time or reset to one of its configured values. */
  lemma TimerDiscipline(c: Config, m: Memory, s: Sense)
    ensures var r := Tick(c, m, s).m;
      (r.stateTimer == m.stateTimer - s.dt || r.stateTimer == c.waitTimeAtPoint || r.stateTimer == c.sightWaitTime) &&
      (r.attackTimer == m.attackTimer - s.dt || r.attackTimer == 0.0 || r.attackTimer == c.attackCooldown)
  {
  }

  /** An attack happens only in Attacking, in range, once the countdown has run out; it restarts the countdown. */
  lemma AttackGate(c: Config, m: Memory, s: Sense)
    ensures Tick(c, m, s).attacked <==>
      m.state == Attacking && s.distanceToPlayer <= c.attackRange && m.attackTimer - s.dt <= 0.0
    ensures Tick(c, m, s).attacked ==> Tick(c, m, s).m.attackTimer == c.attackCooldown
  {
  }

  /** Entering Attacking zeroes the countdown, so the next frame in range attacks at once. */
  lemma FirstAttackImmediate(c: Config, m: Memory, s1: Sense, s2: Sense)
    requires m.state == Chasing && CanSee(c, s1) && s1.distanceToPlayer <= c.attackRange
    requires s2.dt >= 0.0 && s2.distanceToPlayer <= c.attackRange
    ensures var r1 := Tick(c, m, s1).m;
      r1.state == Attacking && r1.attackTimer == 0.0 && Tick(c, r1, s2).attacked
  {
  }

  /** Frames run one after another. */
  function Run(c: Config, m: Memory, ss: seq<Sense>): Memory
    decreases |ss|
  {
    if |ss| == 0 then m else Run(c, Tick(c, m, ss[0]).m, ss[1..])
  }

  predicate Unseen(c: Config, ss: seq<Sense>) {
    forall k :: 0 <= k < |ss| ==> !CanSee(c, ss[k])
  }

  /** A wandering monster that never sees the player keeps wandering. */
  lemma {:induction false} UnseenKeepsWandering(c: Config, m: Memory, ss: seq<Sense>)
    requires m.state == Wandering && Unseen(c, ss)
    ensures Run(c, m, ss).state == Wandering
    decreases |ss|
  {
    if |ss| > 0 {
      assert !CanSee(c, ss[0]);
      UnseenKeepsWandering(c, Tick(c, m, ss[0]).m, ss[1..]);
    }
  }

  class MonsterAI {
    const config: Config
    var currentState: AIState
    var stateTimer: real
    var attackTimer: real
    var lastKnownPlayerPosition: Vec
    var destination: Option<Vec>
    var speed: real
    var isStopped: bool
    var stoppingDistance: real

    function Now(): Memory
      reads this
    {
      Memory(currentState, stateTimer, attackTimer, lastKnownPlayerPosition, destination, speed, isStopped, stoppingDistance)
    }

    constructor (config: Config, position: Vec)
      ensures this.config == config && currentState == Wandering && destination.None?
    {
      this.config := config;
      currentState := Wandering;
      stateTimer := 0.0;
      attackTimer := 0.0;
      lastKnownPlayerPosition := position;
      destination := None;
      speed := 0.0;
      isStopped := false;
      stoppingDistance := 0.0;
    }

    /** Start: wander speed and a first wander destination. */
    method Start(wanderSample: Option<Vec>)
      modifies this
      ensures Now() == SetWander(config, old(Now()).(speed := config.wanderSpeed), wanderSample)
    {
      speed := config.wanderSpeed;
      SetWanderDestination(wanderSample);
    }

    /** Returns whether PerformAttack ran (the caller delivers TakeDamage to the player). */
    method Update(s: Sense) returns (attacked: bool)
      modifies this
      ensures Step(Now(), attacked) == Tick(config, old(Now()), s)
    {
      UpdateTimers(s.dt);
      attacked := false;
      match currentState
      case Wandering => UpdateWandering(s);
      case Chasing => UpdateChasing(s);
      case Attacking => attacked := UpdateAttacking(s);
      case Searching => UpdateSearching(s);
    }

    method UpdateTimers(dt: real)
      modifies this
      ensures Now() == Timers(old(Now()), dt)
    {
      stateTimer := stateTimer - dt;
      attackTimer := attackTimer - dt;
    }

    method UpdateWandering(s: Sense)
      modifies this
      ensures Now() == OnWandering(config, old(Now()), s)
    {
      if CanSeePlayer(s) {
        StartChasing();
        return;
      }
      if s.arrived && stateTimer <= 0.0 {
        SetWanderDestination(s.wanderSample);
      }
    }

    method UpdateChasing(s: Sense)
      modifies this
      ensures Now() == OnChasing(config, old(Now()), s)
    {
      if !CanSeePlayer(s) {
        StartSearching();
        return;
      }
      if s.distanceToPlayer <= config.attackRange {
        StartAttacking();
        return;
      }
      destination := Some(s.playerPosition);
      lastKnownPlayerPosition := s.playerPosition;
    }

    method UpdateAttacking(s: Sense) returns (attacked: bool)
      modifies this
      ensures Step(Now(), attacked) == OnAttacking(config, old(Now()), s)
    {
      attacked := false;
      if s.distanceToPlayer > config.attackRange {
        StartChasing();
        return;
      }
      if attackTimer <= 0.0 {
        attacked := true;
        attackTimer := config.attackCooldown;
      }
    }

    method UpdateSearching(s: Sense)
      modifies this
      ensures Now() == OnSearching(config, old(Now()), s)
    {
      if CanSeePlayer(s) {
        StartChasing();
        return;
      }
      if stateTimer > 0.0 {
        return;
      }
      StartWandering(s.wanderSample);
    }

    /** No sight beyond the detection range; within it, sight is the ray reaching the player. */
    function CanSeePlayer(s: Sense): (r: bool)
      ensures r ==> s.distanceToPlayer <= config.detectionRange
      ensures s.distanceToPlayer <= config.detectionRange ==> (r <==> s.rayHitsPlayer)
    {
      CanSee(config, s)
    }

    method SetWanderDestination(sample: Option<Vec>)
      modifies this
      ensures Now() == SetWander(config, old(Now()), sample)
    {
      if sample.Some? {
        destination := sample;
        stateTimer := config.waitTimeAtPoint;
      }
    }

    method StartWandering(sample: Option<Vec>)
      modifies this
      ensures Now() == ToWandering(config, old(Now()), sample)
    {
      currentState := Wandering;
      speed := config.wanderSpeed;
      isStopped := false;
      SetWanderDestination(sample);
    }

    method StartChasing()
      modifies this
      ensures Now() == ToChasing(config, old(Now()))
    {
      currentState := Chasing;
      stoppingDistance := config.attackRange * 0.8;
      speed := config.chaseSpeed;
      isStopped := false;
    }

    method StartAttacking()
      modifies this
      ensures Now() == ToAttacking(old(Now()))
    {
      currentState := Attacking;
      isStopped := true;
      attackTimer := 0.0;
    }

    method StartSearching()
      modifies this
      ensures Now() == ToSearching(config, old(Now()))
    {
      currentState := Searching;
      destination := Some(lastKnownPlayerPosition);
      stateTimer := config.sightWaitTime;
      isStopped := false;
    }
  }
}
