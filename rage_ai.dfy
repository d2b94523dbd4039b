/**
 * Rage: hunts by hearing (a shorter range while the player crouches), winds up and charges in a
 * straight line, breaks destructible objects mid-charge, and cues the mood music as it goes.
 */
module Rage {
  import opened Common

  datatype AIState = Wandering | Chasing | PreparingCharge | Charging | Searching

  /** The inspector settings; `hasChaseClips` says whether the chase vocal set is non-empty. */
  datatype Config = Config(normalHearingRange: real, crouchHearingRange: real, wanderSpeed: real, chaseSpeed: real,
                           waitTimeAtPoint: real, attackCooldown: real, chargeReadyTime: real,
                           chargeDistance: real, chargeDuration: real, hasChaseClips: bool)

  /**
   * One frame's readings: the frame time; whether a PlayerController exists and whether the
   * player crouches; whether the player is hiding; the distance to the player before and after
   * this frame's charge step; the player's position; whether the agent has arrived; the NavMesh
   * sample near a random point of the wander area (None when there is no area or no sample);
   * whether the player carries a PlayerHealth and a Rigidbody2D.
   */
  datatype Sense = Sense(dt: real, hasController: bool, crouching: bool, playerHiding: bool,
                         distanceToPlayer: real, distanceAfterCharge: real, playerPosition: Vec, arrived: bool,
                         wanderSample: Option<Vec>, playerHasHealth: bool, playerHasRigidbody: bool)

  /**
   * The fields of RageAI with the agent settings it writes. `chaseSounds` is whether the chase
   * vocal coroutine handle is held (not whether vocals are playing) and `cues` lists the playlists requested so far.
   */
  datatype Memory = Memory(state: AIState, stateTimer: real, attackTimer: real, chargeTimer: real,
                           hearingRange: real, lastHeardPosition: Vec, destination: Option<Vec>, speed: real,
                           isStopped: bool, agentEnabled: bool, chaseSounds: bool, cues: seq<string>)

  /** The result of one frame: the new memory and whether the player took damage. */
  datatype Step = Step(m: Memory, damaged: bool)

  /** CanHearPlayer: within the current hearing range and not hiding. */
  predicate Hears(range: real, distance: real, hiding: bool) {
    distance <= range && !hiding
  }

  /** UpdateHearingRange: the range follows the crouch flag when there is a controller to read. */
  function HearingRange(c: Config, m: Memory, hasController: bool, crouching: bool): Memory {
    if hasController then m.(hearingRange := if crouching then c.crouchHearingRange else c.normalHearingRange)
    else m
  }

  function SetWander(c: Config, m: Memory, sample: Option<Vec>): Memory {
    if sample.Some? then m.(destination := sample, stateTimer := c.waitTimeAtPoint) else m
  }

  function ToWandering(c: Config, m: Memory, sample: Option<Vec>): Memory {
    SetWander(c, m.(state := Wandering, speed := c.wanderSpeed, isStopped := false), sample)
      .(cues := m.cues + ["RageCalm"], chaseSounds := false)
  }

  function ToChasing(c: Config, m: Memory, playerPosition: Vec): Memory {
    m.(state := Chasing, speed := c.chaseSpeed, isStopped := false, lastHeardPosition := playerPosition,
       cues := m.cues + ["RageChasing"], chaseSounds := c.hasChaseClips)
  }

  function ToSearching(c: Config, m: Memory): Memory {
    m.(state := Searching, destination := Some(m.lastHeardPosition), stateTimer := c.waitTimeAtPoint,
       cues := m.cues + ["RageSearching"], chaseSounds := false)
  }

  function ToPreparingCharge(c: Config, m: Memory): Memory {
    m.(state := PreparingCharge, isStopped := true, stateTimer := c.chargeReadyTime)
  }

  function ToCharging(c: Config, m: Memory): Memory {
    m.(state := Charging, chargeTimer := c.chargeDuration, agentEnabled := false)
  }

  /** EndCharge: the cooldown restarts, the agent comes back, and the monster chases or searches by ear. */
  function ChargeEnded(c: Config, m: Memory, hears: bool, playerPosition: Vec): Memory {
    var e := m.(attackTimer := c.attackCooldown, agentEnabled := true);
    if hears then ToChasing(c, e, playerPosition) else ToSearching(c, e)
  }

  /** UpdateTimers: the charge timer runs only while charging, and its expiry ends the charge. */
  function Timers(c: Config, m: Memory, s: Sense): Memory {
    var t := m.(stateTimer := m.stateTimer - s.dt, attackTimer := m.attackTimer - s.dt);
    if t.state == Charging then
      var u := t.(chargeTimer := t.chargeTimer - s.dt);
      if u.chargeTimer <= 0.0 then ChargeEnded(c, u, Hears(u.hearingRange, s.distanceToPlayer, s.playerHiding), s.playerPosition)
      else u
    else t
  }

  function OnWandering(c: Config, m: Memory, s: Sense): Memory {
    if Hears(m.hearingRange, s.distanceToPlayer, s.playerHiding) then ToChasing(c, m, s.playerPosition)
    else if s.arrived && m.stateTimer <= 0.0 then SetWander(c, m, s.wanderSample)
    else m
  }

  function OnChasing(c: Config, m: Memory, s: Sense): Memory {
    if !Hears(m.hearingRange, s.distanceToPlayer, s.playerHiding) then ToSearching(c, m)
    else
      var f := m.(lastHeardPosition := s.playerPosition, destination := Some(s.playerPosition));
      if s.distanceToPlayer <= c.chargeDistance && f.attackTimer <= 0.0 then ToPreparingCharge(c, f) else f
  }

  function OnPreparingCharge(c: Config, m: Memory): Memory {
    var p := m.(isStopped := true);
    if p.stateTimer <= 0.0 then ToCharging(c, p) else p
  }

  /** Contact within one unit damages a player who has health, and ends the charge only against a rigidbody. */
  function OnCharging(c: Config, m: Memory, s: Sense): Step {
    if s.distanceAfterCharge <= 1.0 then
      var r := if s.playerHasRigidbody
        then ChargeEnded(c, m, Hears(m.hearingRange, s.distanceAfterCharge, s.playerHiding), s.playerPosition)
        else m;
      Step(r, s.playerHasHealth)
    else Step(m, false)
  }

  function OnSearching(c: Config, m: Memory, s: Sense): Memory {
    if m.stateTimer > 0.0 then m
    else if Hears(m.hearingRange, s.distanceToPlayer, s.playerHiding) then ToChasing(c, m, s.playerPosition)
    else ToWandering(c, m, s.wanderSample)
  }

  /** Update: timers (possibly ending a charge), then the hearing range, then the handler of the state now current. */
  function Tick(c: Config, m: Memory, s: Sense): Step {
    var t := HearingRange(c, Timers(c, m, s), s.hasController, s.crouching);
    match t.state
    case Wandering => Step(OnWandering(c, t, s), false)
    case Chasing => Step(OnChasing(c, t, s), false)
    case PreparingCharge => Step(OnPreparingCharge(c, t), false)
    case Charging => OnCharging(c, t, s)
    case Searching => Step(OnSearching(c, t, s), false)
  }

  /** The playlist each state keeps playing. */
  function Mood(st: AIState): string {
    match st
    case Wandering => "RageCalm"
    case Searching => "RageSearching"
    case _ => "RageChasing"
  }

  /**
   * The chase-sound coroutine handle is held exactly while the monster is in its chase (chasing,
   * winding up or charging) and has clips to play, and the last playlist requested is the current
   * state's. The coroutine itself stops playing once the state leaves Chasing; only StopChaseSounds
   * clears the handle.
   */
  predicate Valid(c: Config, m: Memory) {
    m.chaseSounds == (c.hasChaseClips && m.state in {Chasing, PreparingCharge, Charging}) &&
    (m.state != Wandering ==> |m.cues| > 0) &&
    (|m.cues| > 0 ==> m.cues[|m.cues| - 1] == Mood(m.state))
  }

  /** Every transition that requests a playlist leaves the model consistent, whatever came before. */
  lemma EntriesValid(c: Config, m: Memory, p: Vec, sample: Option<Vec>)
    ensures Valid(c, ToChasing(c, m, p)) && Valid(c, ToSearching(c, m)) && Valid(c, ToWandering(c, m, sample))
    ensures Valid(c, ChargeEnded(c, m, true, p)) && Valid(c, ChargeEnded(c, m, false, p))
  {
  }

  lemma TimersValid(c: Config, m: Memory, s: Sense)
    requires Valid(c, m)
    ensures Valid(c, HearingRange(c, Timers(c, m, s), s.hasController, s.crouching))
  {
    var t := m.(stateTimer := m.stateTimer - s.dt, attackTimer := m.attackTimer - s.dt);
    if t.state == Charging {
      var u := t.(chargeTimer := t.chargeTimer - s.dt);
      EntriesValid(c, u, s.playerPosition, None);
    }
  }

  lemma HandlersValid(c: Config, t: Memory, s: Sense)
    requires Valid(c, t)
    ensures t.state == Wandering ==> Valid(c, OnWandering(c, t, s))
    ensures t.state == Chasing ==> Valid(c, OnChasing(c, t, s))
    ensures t.state == PreparingCharge ==> Valid(c, OnPreparingCharge(c, t))
    ensures t.state == Charging ==> Valid(c, OnCharging(c, t, s).m)
    ensures t.state == Searching ==> Valid(c, OnSearching(c, t, s))
  {
    EntriesValid(c, t, s.playerPosition, s.wanderSample);
    var f := t.(lastHeardPosition := s.playerPosition, destination := Some(s.playerPosition));
    assert t.state == Chasing ==> Valid(c, f) && Valid(c, ToPreparingCharge(c, f));
  }

  /** Every frame keeps the model consistent. */
  lemma TickKeepsValid(c: Config, m: Memory, s: Sense)
    requires Valid(c, m)
    ensures Valid(c, Tick(c, m, s).m)
  {
    TimersValid(c, m, s);
    HandlersValid(c, HearingRange(c, Timers(c, m, s), s.hasController, s.crouching), s);
  }

  /** `b` is `a` with possibly more cues appended. */
  predicate Extends(a: Memory, b: Memory) {
    |a.cues| <= |b.cues| && b.cues[..|a.cues|] == a.cues
  }

  lemma ExtendsTrans(a: Memory, b: Memory, d: Memory)
    requires Extends(a, b) && Extends(b, d)
    ensures Extends(a, d)
  {
    assert d.cues[..|a.cues|] == d.cues[..|b.cues|][..|a.cues|];
  }

  lemma EntriesExtend(c: Config, m: Memory, p: Vec, sample: Option<Vec>, hears: bool)
    ensures Extends(m, ToChasing(c, m, p)) && Extends(m, ToSearching(c, m)) && Extends(m, ToWandering(c, m, sample))
    ensures Extends(m, ChargeEnded(c, m, hears, p))
  {
    assert (m.cues + ["RageChasing"])[..|m.cues|] == m.cues;
    assert (m.cues + ["RageSearching"])[..|m.cues|] == m.cues;
    assert (m.cues + ["RageCalm"])[..|m.cues|] == m.cues;
    var e := m.(attackTimer := c.attackCooldown, agentEnabled := true);
    assert (e.cues + ["RageChasing"])[..|m.cues|] == m.cues;
    assert (e.cues + ["RageSearching"])[..|m.cues|] == m.cues;
  }

  lemma TimersExtend(c: Config, m: Memory, s: Sense)
    ensures Extends(m, HearingRange(c, Timers(c, m, s), s.hasController, s.crouching))
  {
    var t0 := m.(stateTimer := m.stateTimer - s.dt, attackTimer := m.attackTimer - s.dt);
    var u := t0.(chargeTimer := t0.chargeTimer - s.dt);
    EntriesExtend(c, u, s.playerPosition, None, Hears(u.hearingRange, s.distanceToPlayer, s.playerHiding));
  }

  lemma HandlersExtend(c: Config, t: Memory, s: Sense)
    ensures Extends(t, OnWandering(c, t, s)) && Extends(t, OnChasing(c, t, s)) && Extends(t, OnPreparingCharge(c, t))
    ensures Extends(t, OnCharging(c, t, s).m) && Extends(t, OnSearching(c, t, s))
  {
    EntriesExtend(c, t, s.playerPosition, s.wanderSample, Hears(t.hearingRange, s.distanceAfterCharge, s.playerHiding));
    var f := t.(lastHeardPosition := s.playerPosition, destination := Some(s.playerPosition));
    EntriesExtend(c, f, s.playerPosition, s.wanderSample, false);
  }

  /** Cues are only ever appended. */
  lemma CuesGrow(c: Config, m: Memory, s: Sense)
    ensures var r := Tick(c, m, s).m; |m.cues| <= |r.cues| && r.cues[..|m.cues|] == m.cues
  {
    var t := HearingRange(c, Timers(c, m, s), s.hasController, s.crouching);
    TimersExtend(c, m, s);
    HandlersExtend(c, t, s);
    ExtendsTrans(m, t, Tick(c, m, s).m);
  }

  /**
   * After a frame the hearing range is the crouch range exactly when a crouching player is read,
   * so a crouching player outside the crouch range slips past a wandering monster unheard.
   */
  lemma HearingFollowsCrouch(c: Config, m: Memory, s: Sense)
    requires s.hasController
    ensures var r := Tick(c, m, s).m;
      r.hearingRange == (if s.crouching then c.crouchHearingRange else c.normalHearingRange)
    ensures m.state == Wandering && s.crouching && s.distanceToPlayer > c.crouchHearingRange ==>
      Tick(c, m, s).m.state != Chasing
  {
    if m.state == Wandering {
      var t := HearingRange(c, Timers(c, m, s), s.hasController, s.crouching);
      assert t.state == Wandering;
      assert Tick(c, m, s).m == OnWandering(c, t, s);
    }
  }

  /**
   * A charge is always wound up first: a frame that ends charging started in PreparingCharge or
   * was already charging, and a wind-up turns into a charge exactly when its timer runs out.
   */
  lemma ChargeFollowsWindUp(c: Config, m: Memory, s: Sense)
    ensures Tick(c, m, s).m.state == Charging ==> m.state == PreparingCharge || m.state == Charging
    ensures m.state == PreparingCharge ==> (Tick(c, m, s).m.state == Charging <==> m.stateTimer - s.dt <= 0.0)
  {
  }

  /** Chasing winds up a charge exactly when the player is heard, close enough, and the cooldown is over. */
  lemma ChargeGate(c: Config, m: Memory, s: Sense)
    requires m.state == Chasing
    ensures var r := Tick(c, m, s).m;
      var range := HearingRange(c, m, s.hasController, s.crouching).hearingRange;
      (r.state == PreparingCharge <==>
        Hears(range, s.distanceToPlayer, s.playerHiding) && s.distanceToPlayer <= c.chargeDistance &&
        m.attackTimer - s.dt <= 0.0) &&
      (r.state == PreparingCharge ==> r.stateTimer == c.chargeReadyTime && r.isStopped)
  {
  }

  /** The wind-up turns into a charge once its timer runs out; the charge disables the agent. */
  lemma WindUp(c: Config, m: Memory, s: Sense)
    requires m.state == PreparingCharge
    ensures var r := Tick(c, m, s).m;
      r.state == (if m.stateTimer - s.dt <= 0.0 then Charging else PreparingCharge) &&
      (r.state == Charging ==> r.chargeTimer == c.chargeDuration && !r.agentEnabled)
  {
  }

  /** The charge timer changes only while charging, or when a charge begins. */
  lemma ChargeTimerOnlyWhileCharging(c: Config, m: Memory, s: Sense)
    requires m.state != Charging
    ensures var r := Tick(c, m, s).m;
      r.chargeTimer == m.chargeTimer || (r.state == Charging && r.chargeTimer == c.chargeDuration)
  {
  }

  /** An expiring charge restarts the cooldown, re-enables the agent, and leaves the monster chasing or searching. */
  lemma ChargeExpiry(c: Config, m: Memory, s: Sense)
    requires m.state == Charging && m.chargeTimer - s.dt <= 0.0
    requires c.attackCooldown > 0.0 && c.waitTimeAtPoint > 0.0
    ensures var e := Timers(c, m, s);
      e.attackTimer == c.attackCooldown && e.agentEnabled &&
      e.state == (if Hears(m.hearingRange, s.distanceToPlayer, s.playerHiding) then Chasing else Searching)
    ensures var r := Tick(c, m, s);
      r.m.attackTimer == c.attackCooldown && r.m.agentEnabled && r.m.state in {Chasing, Searching} && !r.damaged
  {
  }

  /** Contact during a charge: damage when the player has health; the charge ends only against a rigidbody. */
  lemma ContactDuringCharge(c: Config, m: Memory, s: Sense)
    requires m.state == Charging && m.chargeTimer - s.dt > 0.0
    ensures var r := Tick(c, m, s);
      (r.damaged <==> s.distanceAfterCharge <= 1.0 && s.playerHasHealth) &&
      (r.m.state == Charging <==> !(s.distanceAfterCharge <= 1.0 && s.playerHasRigidbody))
  {
  }

  /** Only a charge deals damage. */
  lemma DamageOnlyWhileCharging(c: Config, m: Memory, s: Sense)
    requires m.state != Charging
    ensures !Tick(c, m, s).damaged
  {
  }

  /** Searching sits out its timer, then chases by ear or goes back to wandering. */
  lemma SearchOutcome(c: Config, m: Memory, s: Sense)
    requires m.state == Searching
    ensures var r := Tick(c, m, s).m;
      var range := HearingRange(c, m, s.hasController, s.crouching).hearingRange;
      r.state == (if m.stateTimer - s.dt > 0.0 then Searching
                  else if Hears(range, s.distanceToPlayer, s.playerHiding) then Chasing else Wandering)
  {
  }

  class RageAI {
    const config: Config
    var currentState: AIState
    var stateTimer: real
    var attackTimer: real
    var chargeTimer: real
    var currentHearingRange: real
    var lastHeardPosition: Vec
    var destination: Option<Vec>
    var speed: real
    var isStopped: bool
    var agentEnabled: bool
    var chaseSoundRoutine: bool
    var cues: seq<string>

    function Now(): Memory
      reads this
    {
      Memory(currentState, stateTimer, attackTimer, chargeTimer, currentHearingRange, lastHeardPosition,
             destination, speed, isStopped, agentEnabled, chaseSoundRoutine, cues)
    }

    constructor (config: Config, position: Vec)
      ensures this.config == config && currentState == Wandering && !chaseSoundRoutine && cues == []
      ensures Valid(config, Now())
    {
      this.config := config;
      currentState := Wandering;
      stateTimer := 0.0;
      attackTimer := 0.0;
      chargeTimer := 0.0;
      currentHearingRange := 0.0;
      lastHeardPosition := position;
      destination := None;
      speed := 0.0;
      isStopped := false;
      agentEnabled := true;
      chaseSoundRoutine := false;
      cues := [];
    }

    method Start(wanderSample: Option<Vec>)
      modifies this
      ensures Now() == SetWander(config, old(Now()).(hearingRange := config.normalHearingRange), wanderSample)
    {
      currentHearingRange := config.normalHearingRange;
      SetWanderDestination(wanderSample);
    }

    /** Returns whether the player took damage this frame. */
    method Update(s: Sense) returns (damaged: bool)
      modifies this
      ensures Step(Now(), damaged) == Tick(config, old(Now()), s)
    {
      UpdateTimers(s);
      UpdateHearingRange(s.hasController, s.crouching);
      damaged := false;
      match currentState
      case Wandering => UpdateWandering(s);
      case Chasing => UpdateChasing(s);
      case PreparingCharge => UpdatePreparingCharge();
      case Charging => damaged := UpdateCharging(s);
      case Searching => UpdateSearching(s);
    }

    method UpdateTimers(s: Sense)
      modifies this
      ensures Now() == Timers(config, old(Now()), s)
    {
      stateTimer := stateTimer - s.dt;
      attackTimer := attackTimer - s.dt;
      if currentState == Charging {
        chargeTimer := chargeTimer - s.dt;
        if chargeTimer <= 0.0 {
          EndCharge(s.distanceToPlayer, s.playerHiding, s.playerPosition);
        }
      }
    }

    method UpdateHearingRange(hasController: bool, crouching: bool)
      modifies this
      ensures Now() == HearingRange(config, old(Now()), hasController, crouching)
    {
      if hasController {
        currentHearingRange := if crouching then config.crouchHearingRange else config.normalHearingRange;
      }
    }

    method UpdateWandering(s: Sense)
      modifies this
      ensures Now() == OnWandering(config, old(Now()), s)
    {
      if CanHearPlayer(s.distanceToPlayer, s.playerHiding) {
        StartChasing(s.playerPosition);
        return;
      }
      if s.arrived && stateTimer <= 0.0 {
        SetWanderDestination(s.wanderSample);
      }
    }

    method UpdateChasing(s: Sense)
      modifies this
      ensures Now() == OnChasing(config, old(Now()), s)
    {
      if !CanHearPlayer(s.distanceToPlayer, s.playerHiding) {
        StartSearching();
        return;
      }
      lastHeardPosition := s.playerPosition;
      destination := Some(s.playerPosition);
      if s.distanceToPlayer <= config.chargeDistance && attackTimer <= 0.0 {
        StartPreparingCharge();
      }
    }

    method UpdatePreparingCharge()
      modifies this
      ensures Now() == OnPreparingCharge(config, old(Now()))
    {
      isStopped := true;
      if stateTimer <= 0.0 {
        StartCharging();
      }
    }

    method UpdateCharging(s: Sense) returns (damaged: bool)
      modifies this
      ensures Step(Now(), damaged) == OnCharging(config, old(Now()), s)
    {
      damaged := false;
      if s.distanceAfterCharge <= 1.0 {
        damaged := s.playerHasHealth;
        if s.playerHasRigidbody {
          EndCharge(s.distanceAfterCharge, s.playerHiding, s.playerPosition);
        }
      }
    }

    method UpdateSearching(s: Sense)
      modifies this
      ensures Now() == OnSearching(config, old(Now()), s)
    {
      if stateTimer > 0.0 {
        return;
      }
      if CanHearPlayer(s.distanceToPlayer, s.playerHiding) {
        StartChasing(s.playerPosition);
        return;
      }
      StartWandering(s.wanderSample);
    }

    /** A hiding player is never heard; otherwise the player is heard exactly within the current hearing range. */
    function CanHearPlayer(distance: real, hiding: bool): (r: bool)
      reads this
      ensures r ==> !hiding
      ensures !hiding ==> (r <==> distance <= currentHearingRange)
    {
      Hears(currentHearingRange, distance, hiding)
    }

    method StartPreparingCharge()
      modifies this
      ensures Now() == ToPreparingCharge(config, old(Now()))
    {
      currentState := PreparingCharge;
      isStopped := true;
      stateTimer := config.chargeReadyTime;
    }

    method StartCharging()
      modifies this
      ensures Now() == ToCharging(config, old(Now()))
    {
      currentState := Charging;
      chargeTimer := config.chargeDuration;
      agentEnabled := false;
    }

    method EndCharge(distance: real, hiding: bool, playerPosition: Vec)
      modifies this
      ensures Now() == ChargeEnded(config, old(Now()), Hears(old(currentHearingRange), distance, hiding), playerPosition)
    {
      attackTimer := config.attackCooldown;
      agentEnabled := true;
      if CanHearPlayer(distance, hiding) {
        StartChasing(playerPosition);
      } else {
        StartSearching();
      }
    }

    /** Returns whether the touched object is destroyed (the effect prefab is left out). */
    method OnCollisionEnter2D(isDestructible: bool) returns (destroyed: bool)
      ensures destroyed <==> currentState == Charging && isDestructible
    {
      destroyed := false;
      if currentState != Charging {
        return;
      }
      if isDestructible {
        destroyed := true;
      }
    }

    method SetWanderDestination(sample: Option<Vec>)
      modifies this
      ensures Now() == SetWander(config, old(Now()), sample)
    {
      if sample.Some? {
        destination := sample;
        stateTimer := config.waitTimeAtPoint;
      }
    }

    method StartWandering(sample: Option<Vec>)
      modifies this
      ensures Now() == ToWandering(config, old(Now()), sample)
    {
      currentState := Wandering;
      speed := config.wanderSpeed;
      isStopped := false;
      SetWanderDestination(sample);
      cues := cues + ["RageCalm"];
      StopChaseSounds();
    }

    method StartChasing(playerPosition: Vec)
      modifies this
      ensures Now() == ToChasing(config, old(Now()), playerPosition)
    {
      currentState := Chasing;
      speed := config.chaseSpeed;
      isStopped := false;
      lastHeardPosition := playerPosition;
      cues := cues + ["RageChasing"];
      StartChaseSounds();
    }

    method StartSearching()
      modifies this
      ensures Now() == ToSearching(config, old(Now()))
    {
      currentState := Searching;
      destination := Some(lastHeardPosition);
      stateTimer := config.waitTimeAtPoint;
      cues := cues + ["RageSearching"];
      StopChaseSounds();
    }

    /** Stops any held chase vocal coroutine and starts a new one, holding its handle, when there are clips. */
    method StartChaseSounds()
      modifies this
      ensures Now() == old(Now()).(chaseSounds := config.hasChaseClips)
    {
      StopChaseSounds();
      if config.hasChaseClips {
        chaseSoundRoutine := true;
      }
    }

    method StopChaseSounds()
      modifies this
      ensures Now() == old(Now()).(chaseSounds := false)
    {
      if chaseSoundRoutine {
        chaseSoundRoutine := false;
      }
    }
  }
}
