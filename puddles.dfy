/**
 * The puddle hazard: a spawner keeps up to `maxPuddles` puddles, each puddle grows, lives for a
 * while and can raise one Resentment guardian, and a single "monster spawned" flag on the spawner
 * keeps the guardians to one at a time. The three classes refer to one another, so they share
 * this module; the guardian's decisions are the pure state machine of module Resentment.
 */
module Puddles {
  import opened Common
  import R = Resentment

  /** The size a puddle starts from. */
  const StartSize: real := 0.1
  /** How much longer a puddle lives each time it would disappear while its guardian is alive. */
  const LifeExtension: real := 1.0

  function Clamp01(x: real): (r: real)
    ensures 0.0 <= r <= 1.0
    ensures 0.0 <= x <= 1.0 ==> r == x
  {
    if x < 0.0 then 0.0 else if x > 1.0 then 1.0 else x
  }

  /** The default growth curve, an ease-in-out from (0, 0) to (1, 1) with flat ends: 3t² − 2t³. */
  function Ease(t: real): real {
    3.0 * t * t - 2.0 * t * t * t
  }

  lemma MulNonneg(x: real, y: real)
    requires x >= 0.0 && y >= 0.0
    ensures x * y >= 0.0
  {
  }

  lemma EaseBounds(t: real)
    requires 0.0 <= t <= 1.0
    ensures 0.0 <= Ease(t) <= 1.0
    ensures Ease(0.0) == 0.0 && Ease(1.0) == 1.0
  {
    MulNonneg(t, t);
    MulNonneg(t * t, 3.0 - 2.0 * t);
    MulNonneg(1.0 - t, 1.0 - t);
    MulNonneg((1.0 - t) * (1.0 - t), 1.0 + 2.0 * t);
    assert Ease(t) == t * t * (3.0 - 2.0 * t);
    assert 1.0 - Ease(t) == (1.0 - t) * (1.0 - t) * (1.0 + 2.0 * t);
  }

  lemma EaseMonotone(a: real, b: real)
    requires 0.0 <= a <= b <= 1.0
    ensures Ease(a) <= Ease(b)
  {
    MulNonneg(a, 3.0 - 2.0 * a - b);
    MulNonneg(b, 3.0 - 2.0 * b - a);
    MulNonneg(b - a, a * (3.0 - 2.0 * a - b) + b * (3.0 - 2.0 * b - a));
    assert Ease(b) - Ease(a) == (b - a) * (a * (3.0 - 2.0 * a - b) + b * (3.0 - 2.0 * b - a));
  }

  lemma DivMonotone(a: real, b: real, d: real)
    requires d > 0.0 && a <= b
    ensures a / d <= b / d
  {
    var qa, qb := a / d, b / d;
    assert qa * d == a && qb * d == b;
    if qa > qb {
      MulNonneg(qa - qb, d);
    }
  }

  /** How long the growth coroutine runs. */
  function GrowthDuration(maxSize: real, growthSpeed: real): real
    requires growthSpeed > 0.0
  {
    (maxSize - StartSize) / growthSpeed
  }

  /** The size after `elapsed` seconds of growth: StartSize to maxSize along the curve. */
  function SizeAt(maxSize: real, growthSpeed: real, elapsed: real): real
    requires growthSpeed > 0.0 && GrowthDuration(maxSize, growthSpeed) > 0.0
  {
    var t := Ease(Clamp01(elapsed / GrowthDuration(maxSize, growthSpeed)));
    StartSize + (maxSize - StartSize) * Clamp01(t)
  }

  /** Growth starts at StartSize, never leaves [StartSize, maxSize], never shrinks, and ends at exactly maxSize. */
  lemma GrowthSchedule(maxSize: real, growthSpeed: real, e1: real, e2: real)
    requires growthSpeed > 0.0 && maxSize > StartSize
    requires 0.0 <= e1 <= e2
    ensures SizeAt(maxSize, growthSpeed, 0.0) == StartSize
    ensures StartSize <= SizeAt(maxSize, growthSpeed, e1) <= maxSize
    ensures SizeAt(maxSize, growthSpeed, e1) <= SizeAt(maxSize, growthSpeed, e2)
    ensures e1 >= GrowthDuration(maxSize, growthSpeed) ==> SizeAt(maxSize, growthSpeed, e1) == maxSize
  {
    var d := GrowthDuration(maxSize, growthSpeed);
    assert d > 0.0;
    var t1, t2 := Clamp01(e1 / d), Clamp01(e2 / d);
    DivMonotone(0.0, e1, d);
    DivMonotone(e1, e2, d);
    EaseBounds(t1);
    EaseBounds(t2);
    EaseMonotone(t1, t2);
    MulNonneg(maxSize - StartSize, Ease(t1));
    MulNonneg(maxSize - StartSize, 1.0 - Ease(t1));
    MulNonneg(maxSize - StartSize, Ease(t2) - Ease(t1));
    if e1 >= d {
      DivMonotone(d, e1, d);
    }
  }

  /** List.Remove: drops the first occurrence, if any. */
  function RemoveFirst<T(==)>(s: seq<T>, x: T): (r: seq<T>)
    ensures x !in s ==> r == s
    ensures x in s ==> |r| == |s| - 1
    ensures multiset(r) == multiset(s) - multiset{x}
  {
    if |s| == 0 then []
    else if s[0] == x then
      assert s == [s[0]] + s[1..];
      s[1..]
    else
      assert s == [s[0]] + s[1..];
      [s[0]] + RemoveFirst(s[1..], x)
  }

  /** How long the disappear animation counts down before the puddle's object is destroyed. */
  const DisappearTime: real := 20.0

  /** One pass of the disappear loop: with time left it counts down by the frame's `dt`; otherwise Destroy runs (None). */
  function AnimationStep(timer: real, dt: real): Option<real> {
    if timer > 0.0 then Some(timer - dt) else None
  }

  /** The disappear timer after one pass per frame time in `dts`, or None once the object was destroyed. */
  function AnimationAfter(timer: real, dts: seq<real>): Option<real>
    decreases |dts|
  {
    if |dts| == 0 then Some(timer)
    else
      match AnimationStep(timer, dts[0])
      case None => None
      case Some(t) => AnimationAfter(t, dts[1..])
  }

  function Total(dts: seq<real>): real
    decreases |dts|
  {
    if |dts| == 0 then 0.0 else dts[0] + Total(dts[1..])
  }

  predicate NonNegative(dts: seq<real>) {
    forall k :: 0 <= k < |dts| ==> dts[k] >= 0.0
  }

  lemma {:induction false} TotalNonNegative(dts: seq<real>)
    requires NonNegative(dts)
    ensures Total(dts) >= 0.0
    decreases |dts|
  {
    if |dts| > 0 {
      TotalNonNegative(dts[1..]);
    }
  }

  /** Frames `a` then frames `b` are the frames `a + b`. */
  lemma {:induction false} AnimationSplit(timer: real, a: seq<real>, b: seq<real>)
    ensures AnimationAfter(timer, a + b) ==
      if AnimationAfter(timer, a).None? then None else AnimationAfter(AnimationAfter(timer, a).value, b)
    decreases |a|
  {
    if |a| > 0 {
      assert (a + b)[0] == a[0] && (a + b)[1..] == a[1..] + b;
      if timer > 0.0 {
        AnimationSplit(timer - a[0], a[1..], b);
      }
    } else {
      assert a + b == b;
    }
  }

  /**
   * The disappear animation: while it runs its timer is the start value minus the frame time so far;
   * the object is destroyed only once at least the start value of frame time has passed, and it is
   * destroyed on the first frame after that.
   */
  lemma {:induction false} AnimationCountsDown(timer: real, dts: seq<real>)
    ensures AnimationAfter(timer, dts).Some? ==> AnimationAfter(timer, dts).value == timer - Total(dts)
    ensures NonNegative(dts) && AnimationAfter(timer, dts).None? ==> Total(dts) >= timer
    ensures AnimationAfter(timer, dts).Some? && Total(dts) >= timer ==>
      forall d :: AnimationAfter(timer, dts + [d]).None?
    decreases |dts|
  {
    if |dts| > 0 {
      if timer > 0.0 {
        AnimationCountsDown(timer - dts[0], dts[1..]);
      } else if NonNegative(dts) {
        TotalNonNegative(dts);
      }
    }
    forall d | AnimationAfter(timer, dts).Some? && Total(dts) >= timer
      ensures AnimationAfter(timer, dts + [d]).None?
    {
      AnimationSplit(timer, dts, [d]);
    }
  }

  /** The puddle prefab's settings. */
  datatype PuddlePrefab = PuddlePrefab(maxSize: real, growthSpeed: real, lifeDuration: real, monster: R.Config)

  class PuddleSpawner {
    const puddlePrefab: Option<PuddlePrefab>
    const hasSpawnArea: bool
    const spawnInterval: real
    var maxPuddles: int
    var spawnTimer: real
    var currentPuddleCount: int
    var monsterSpawned: bool
    var activePuddles: seq<PuddleController>
    /** Every puddle this spawner has created. */
    ghost var puddles: set<PuddleController>

    /** The count stays within [0, maxPuddles]. */
    predicate Counted()
      reads this
    {
      0 <= currentPuddleCount <= maxPuddles
    }

    ghost function Guardians(): set<ResentmentAI>
      reads this, puddles
    {
      set p | p in puddles && p.spawnedMonster != null :: p.spawnedMonster
    }

    /** At most one of this spawner's puddles has a live guardian, and while one does the flag is set. */
    ghost predicate OneGuardian()
      reads this, puddles, Guardians()
    {
      (forall p :: p in puddles && p.Live() ==> monsterSpawned) &&
      (forall p, q :: p in puddles && q in puddles && p.Live() && q.Live() ==> p == q)
    }

    constructor (puddlePrefab: Option<PuddlePrefab>, hasSpawnArea: bool, spawnInterval: real, maxPuddles: int)
      requires maxPuddles >= 0
      requires puddlePrefab.Some? ==> puddlePrefab.value.growthSpeed > 0.0
      ensures this.puddlePrefab == puddlePrefab && this.maxPuddles == maxPuddles && this.spawnInterval == spawnInterval
      ensures currentPuddleCount == 0 && !monsterSpawned && activePuddles == [] && puddles == {}
      ensures Counted() && OneGuardian()
    {
      this.puddlePrefab := puddlePrefab;
      this.hasSpawnArea := hasSpawnArea;
      this.spawnInterval := spawnInterval;
      this.maxPuddles := maxPuddles;
      spawnTimer := 0.0;
      currentPuddleCount := 0;
      monsterSpawned := false;
      activePuddles := [];
      puddles := {};
    }

    /** The spawn timer runs only below the cap; when it runs out a spawn is attempted and the timer restarts. */
    method Update(dt: real, spawnPosition: Vec) returns (spawned: PuddleController?)
      requires puddlePrefab.Some? ==> puddlePrefab.value.growthSpeed > 0.0
      modifies this
      ensures old(currentPuddleCount) >= old(maxPuddles) ==> spawned == null && unchanged(this)
      ensures old(currentPuddleCount) < old(maxPuddles) && old(spawnTimer) - dt > 0.0 ==>
        spawned == null && spawnTimer == old(spawnTimer) - dt && currentPuddleCount == old(currentPuddleCount) &&
        activePuddles == old(activePuddles) && puddles == old(puddles)
      ensures old(currentPuddleCount) < old(maxPuddles) && old(spawnTimer) - dt <= 0.0 ==>
        spawnTimer == spawnInterval &&
        (if puddlePrefab.None? || !hasSpawnArea then
           (spawned == null && currentPuddleCount == old(currentPuddleCount) &&
            activePuddles == old(activePuddles) && puddles == old(puddles))
         else
           (spawned != null && fresh(spawned) && currentPuddleCount == old(currentPuddleCount) + 1 &&
            activePuddles == old(activePuddles) + [spawned] && puddles == old(puddles) + {spawned}))
      ensures maxPuddles == old(maxPuddles) && monsterSpawned == old(monsterSpawned)
      ensures old(Counted()) ==> Counted()
      ensures spawned != null ==> spawned.spawner == this && spawned.isActive && spawned.spawnedMonster == null
      ensures old(OneGuardian()) ==> OneGuardian()
    {
      spawned := null;
      if currentPuddleCount < maxPuddles {
        spawnTimer := spawnTimer - dt;
        if spawnTimer <= 0.0 {
          spawned := SpawnPuddle(spawnPosition);
          spawnTimer := spawnInterval;
        }
      }
    }

    /** Creates a puddle at the sampled position, unless the prefab or the spawn area is missing. */
    method SpawnPuddle(spawnPosition: Vec) returns (puddle: PuddleController?)
      requires puddlePrefab.Some? ==> puddlePrefab.value.growthSpeed > 0.0
      modifies this
      ensures puddlePrefab.None? || !hasSpawnArea ==> puddle == null && unchanged(this)
      ensures puddlePrefab.Some? && hasSpawnArea ==>
        puddle != null && fresh(puddle) && puddle.spawner == this && puddle.isActive && puddle.spawnedMonster == null &&
        puddle.position == spawnPosition &&
        activePuddles == old(activePuddles) + [puddle] && currentPuddleCount == old(currentPuddleCount) + 1 &&
        puddles == old(puddles) + {puddle} &&
        spawnTimer == old(spawnTimer) && maxPuddles == old(maxPuddles) && monsterSpawned == old(monsterSpawned)
      ensures old(OneGuardian()) ==> OneGuardian()
    {
      puddle := null;
      if puddlePrefab.None? || !hasSpawnArea {
        return;
      }
      var pf := puddlePrefab.value;
      puddle := new PuddleController(pf.maxSize, pf.growthSpeed, pf.lifeDuration, pf.monster, spawnPosition);
      puddle.Initialize(this);
      activePuddles := activePuddles + [puddle];
      currentPuddleCount := currentPuddleCount + 1;
      puddles := puddles + {puddle};
    }

    /** A new guardian may rise exactly while none is recorded as spawned. */
    function CanSpawnMonster(): (r: bool)
      reads this
      ensures r <==> !monsterSpawned
    {
      !monsterSpawned
    }

    method OnMonsterSpawned()
      modifies this
      ensures monsterSpawned && unchanged(this`activePuddles, this`currentPuddleCount, this`maxPuddles, this`spawnTimer, this`puddles)
    {
      monsterSpawned := true;
    }

    method OnMonsterReturned()
      modifies this
      ensures !monsterSpawned && unchanged(this`activePuddles, this`currentPuddleCount, this`maxPuddles, this`spawnTimer, this`puddles)
    {
      monsterSpawned := false;
    }

    /** Forgets one puddle; the count goes down by one but never below zero. */
    method OnPuddleDestroyed(puddle: PuddleController)
      modifies this
      ensures activePuddles == RemoveFirst(old(activePuddles), puddle)
      ensures currentPuddleCount == if old(currentPuddleCount) - 1 < 0 then 0 else old(currentPuddleCount) - 1
      ensures unchanged(this`monsterSpawned, this`maxPuddles, this`spawnTimer, this`puddles)
      ensures old(Counted()) ==> Counted()
    {
      activePuddles := RemoveFirst(activePuddles, puddle);
      currentPuddleCount := if currentPuddleCount - 1 < 0 then 0 else currentPuddleCount - 1;
    }

    /**
     * Destroys every tracked puddle; each pass of the loop also zeroes the count and the cap, so an
     * empty list changes neither. The list itself is kept.
     */
    method DeleteAll()
      modifies this, activePuddles
      ensures activePuddles == old(activePuddles) && puddles == old(puddles) && monsterSpawned == old(monsterSpawned)
      ensures forall k :: 0 <= k < |activePuddles| ==> activePuddles[k].destroyed
      ensures |activePuddles| == 0 ==> currentPuddleCount == old(currentPuddleCount) && maxPuddles == old(maxPuddles)
      ensures |activePuddles| > 0 ==> currentPuddleCount == 0 && maxPuddles == 0
      ensures Counted() <== old(Counted())
      ensures forall p :: p in old(activePuddles) ==> p.spawnedMonster == old(p.spawnedMonster)
      ensures old(OneGuardian()) ==> OneGuardian()
    {
      var i := 0;
      while i < |activePuddles|
        invariant 0 <= i <= |activePuddles|
        invariant activePuddles == old(activePuddles) && puddles == old(puddles) && monsterSpawned == old(monsterSpawned)
        invariant forall k :: 0 <= k < i ==> activePuddles[k].destroyed
        invariant i == 0 ==> currentPuddleCount == old(currentPuddleCount) && maxPuddles == old(maxPuddles)
        invariant i > 0 ==> currentPuddleCount == 0 && maxPuddles == 0
        invariant forall p :: p in old(activePuddles) ==> p.spawnedMonster == old(p.spawnedMonster)
      {
        var pc := activePuddles[i];
        pc.destroyed := true;
        currentPuddleCount := 0;
        maxPuddles := 0;
        i := i + 1;
      }
    }
  }

  class PuddleController {
    const maxSize: real
    const growthSpeed: real
    const lifeDuration: real
    const monsterConfig: R.Config
    const position: Vec
    var currentSize: real
    var lifeTimer: real
    var isActive: bool
    var spawnedMonster: ResentmentAI?
    var spawner: PuddleSpawner?
    /** Destroy was called on the puddle's object. */
    var destroyed: bool
    /** The growth coroutine is running, and how long it has run. */
    var growing: bool
    var elapsedTime: real
    /** The disappear coroutine is running, and the time it still counts down. */
    var disappearing: bool
    var disappearTimer: real

    /**
     * A recorded guardian that has not been destroyed: a destroyed object compares equal to
     * null, so this is what `spawnedMonster != null` tests.
     */
    predicate Live()
      reads this, spawnedMonster
    {
      spawnedMonster != null && !spawnedMonster.destroyed
    }

    constructor (maxSize: real, growthSpeed: real, lifeDuration: real, monsterConfig: R.Config, position: Vec)
      requires growthSpeed > 0.0
      ensures this.maxSize == maxSize && this.growthSpeed == growthSpeed && this.lifeDuration == lifeDuration
      ensures this.monsterConfig == monsterConfig && this.position == position
      ensures isActive && spawnedMonster == null && spawner == null && !destroyed && !growing && elapsedTime == 0.0
      ensures !disappearing
    {
      this.maxSize := maxSize;
      this.growthSpeed := growthSpeed;
      this.lifeDuration := lifeDuration;
      this.monsterConfig := monsterConfig;
      this.position := position;
      currentSize := 0.0;
      lifeTimer := 0.0;
      isActive := true;
      spawnedMonster := null;
      spawner := null;
      destroyed := false;
      growing := false;
      elapsedTime := 0.0;
      disappearing := false;
      disappearTimer := 0.0;
    }

    method Initialize(puddleSpawner: PuddleSpawner)
      modifies this
      ensures spawner == puddleSpawner
      ensures unchanged(this`isActive, this`spawnedMonster, this`destroyed, this`growing, this`elapsedTime, this`lifeTimer)
      ensures unchanged(this`disappearing, this`disappearTimer)
    {
      spawner := puddleSpawner;
    }

    /** Start: the smallest size, a full lifetime, and the growth coroutine running its first frame. */
    method Start(dt: real)
      requires dt >= 0.0 && growthSpeed > 0.0
      modifies this
      ensures lifeTimer == lifeDuration && elapsedTime >= 0.0
      ensures isActive && StartSize < maxSize ==>
        growing && elapsedTime == dt && currentSize == SizeAt(maxSize, growthSpeed, dt)
      ensures !(isActive && StartSize < maxSize) ==> !growing && currentSize == maxSize
      ensures unchanged(this`isActive, this`spawnedMonster, this`spawner, this`destroyed, this`disappearing, this`disappearTimer)
    {
      currentSize := StartSize;
      lifeTimer := lifeDuration;
      growing := true;
      elapsedTime := 0.0;
      GrowStep(dt);
    }

    /** One resumption of the growth coroutine: grow along the curve while due and active, else settle at maxSize. */
    method GrowStep(dt: real)
      requires dt >= 0.0 && growthSpeed > 0.0 && elapsedTime >= 0.0
      modifies this
      ensures elapsedTime >= 0.0
      ensures !old(growing) ==> unchanged(this)
      ensures old(growing) && old(elapsedTime) < GrowthDuration(maxSize, growthSpeed) && isActive ==>
        growing && elapsedTime == old(elapsedTime) + dt &&
        currentSize == SizeAt(maxSize, growthSpeed, elapsedTime)
      ensures old(growing) && !(old(elapsedTime) < GrowthDuration(maxSize, growthSpeed) && isActive) ==>
        !growing && currentSize == maxSize && elapsedTime == old(elapsedTime)
      ensures unchanged(this`lifeTimer, this`isActive, this`spawnedMonster, this`spawner, this`destroyed, this`disappearing, this`disappearTimer)
    {
      if !growing {
        return;
      }
      if elapsedTime < GrowthDuration(maxSize, growthSpeed) && isActive {
        elapsedTime := elapsedTime + dt;
        currentSize := SizeAt(maxSize, growthSpeed, elapsedTime);
      } else {
        currentSize := maxSize;
        growing := false;
      }
    }

    /** The lifetime runs down only while active; when it runs out the puddle tries to disappear. */
    method Update(dt: real) returns (notified: bool)
      requires spawner != null
      modifies this, spawner
      ensures spawnedMonster == old(spawnedMonster) && spawner == old(spawner)
      ensures !old(isActive) ==> !notified && unchanged(this) && unchanged(spawner)
      ensures old(isActive) && old(lifeTimer) - dt > 0.0 ==>
        !notified && lifeTimer == old(lifeTimer) - dt && isActive && unchanged(spawner)
      ensures old(isActive) && old(lifeTimer) - dt <= 0.0 && old(Live()) ==>
        !notified && lifeTimer == old(lifeTimer) - dt + LifeExtension && isActive && unchanged(spawner)
      ensures old(isActive) && old(lifeTimer) - dt <= 0.0 && !old(Live()) ==>
        notified && !isActive && spawner.activePuddles == RemoveFirst(old(spawner.activePuddles), this)
      ensures notified ==> old(isActive) && !isActive
      ensures notified && !old(destroyed) ==> disappearing && disappearTimer == DisappearTime - dt && !destroyed
      ensures !notified ==> disappearing == old(disappearing) && destroyed == old(destroyed)
      ensures spawner.puddles == old(spawner.puddles) && spawner.monsterSpawned == old(spawner.monsterSpawned)
      ensures old(spawner.Counted()) ==> spawner.Counted()
    {
      notified := false;
      if !isActive {
        return;
      }
      lifeTimer := lifeTimer - dt;
      if lifeTimer <= 0.0 {
        notified := Disappear(dt);
      }
    }

    /** Player contact on an active puddle schedules a spawn attempt (0.4 s later) and slows a player with a controller. */
    method OnTriggerEnter2D(isPlayer: bool, hasController: bool) returns (scheduleSpawn: bool, slow: bool)
      ensures scheduleSpawn == (isActive && isPlayer)
      ensures slow == (isActive && isPlayer && hasController)
    {
      scheduleSpawn, slow := false, false;
      if !isActive {
        return;
      }
      if isPlayer {
        scheduleSpawn := true;
        if hasController {
          slow := true;
        }
      }
    }

    /** Raises a guardian unless one is alive or the spawner refuses; otherwise records it and tells the spawner. */
    method TrySpawnMonster() returns (monster: ResentmentAI?)
      requires spawner != null
      modifies this, spawner
      ensures spawner == old(spawner)
      ensures old(Live()) || !old(spawner.CanSpawnMonster()) ==> monster == null && unchanged(this) && unchanged(spawner)
      ensures !old(Live()) && old(spawner.CanSpawnMonster()) ==>
        monster != null && fresh(monster) && spawnedMonster == monster && Live() &&
        monster.homePuddle == this && monster.puddlePosition == position && monster.currentState == R.Idle &&
        spawner.monsterSpawned && unchanged(spawner`activePuddles, spawner`currentPuddleCount, spawner`puddles)
      ensures unchanged(this`isActive, this`lifeTimer, this`destroyed)
      ensures this in spawner.puddles && old(spawner.OneGuardian()) ==> spawner.OneGuardian()
    {
      monster := null;
      if Live() || !spawner.CanSpawnMonster() {
        return;
      }
      monster := new ResentmentAI(monsterConfig, position);
      monster.SetHomePuddle(this);
      spawnedMonster := monster;
      spawner.OnMonsterSpawned();
    }

    /** The guardian is back: tell the spawner and forget it; without a live guardian nothing happens. */
    method ReturnMonster()
      requires spawner != null
      modifies this, spawner
      ensures spawner == old(spawner)
      ensures old(Live()) ==> spawnedMonster == null && !spawner.monsterSpawned
      ensures !old(Live()) ==> unchanged(this) && unchanged(spawner)
      ensures unchanged(this`isActive, this`lifeTimer, this`destroyed)
      ensures unchanged(spawner`activePuddles, spawner`currentPuddleCount, spawner`puddles, spawner`maxPuddles)
      ensures this in spawner.puddles && old(spawner.OneGuardian()) ==> spawner.OneGuardian()
    {
      if Live() {
        spawner.OnMonsterReturned();
        spawnedMonster := null;
      }
    }

    /**
     * With a live guardian the puddle only lives one second longer; otherwise it leaves the spawner,
     * goes inactive and starts the disappear animation, whose first pass runs in this frame (`dt`).
     */
    method Disappear(dt: real) returns (notified: bool)
      requires spawner != null
      modifies this, spawner
      ensures spawnedMonster == old(spawnedMonster) && spawner == old(spawner)
      ensures old(Live()) ==>
        !notified && lifeTimer == old(lifeTimer) + LifeExtension && isActive == old(isActive) && unchanged(spawner)
      ensures old(Live()) ==> disappearing == old(disappearing) && disappearTimer == old(disappearTimer)
      ensures !old(Live()) ==>
        notified && !isActive && lifeTimer == old(lifeTimer) &&
        spawner.activePuddles == RemoveFirst(old(spawner.activePuddles), this) &&
        spawner.currentPuddleCount == (if old(spawner.currentPuddleCount) - 1 < 0 then 0 else old(spawner.currentPuddleCount) - 1)
      ensures !old(Live()) && !old(destroyed) ==>
        disappearing && disappearTimer == DisappearTime - dt
      ensures destroyed == old(destroyed)
      ensures spawner.puddles == old(spawner.puddles) && spawner.monsterSpawned == old(spawner.monsterSpawned)
      ensures old(spawner.Counted()) ==> spawner.Counted()
    {
      if Live() {
        lifeTimer := lifeTimer + LifeExtension;
        notified := false;
        return;
      }
      spawner.OnPuddleDestroyed(this);
      isActive := false;
      notified := true;
      disappearing := true;
      disappearTimer := DisappearTime;
      DisappearStep(dt);
    }

    /**
     * One frame of the disappear coroutine: while time is left the timer counts down by `dt`;
     * otherwise the puddle's object is destroyed. A destroyed object runs no coroutine.
     */
    method DisappearStep(dt: real)
      modifies this
      ensures !old(disappearing) || old(destroyed) ==> unchanged(this)
      ensures old(disappearing) && !old(destroyed) && AnimationStep(old(disappearTimer), dt).Some? ==>
        disappearing && !destroyed && Some(disappearTimer) == AnimationStep(old(disappearTimer), dt)
      ensures old(disappearing) && !old(destroyed) && AnimationStep(old(disappearTimer), dt).None? ==>
        !disappearing && destroyed
      ensures unchanged(this`isActive, this`lifeTimer, this`spawnedMonster, this`spawner, this`growing, this`elapsedTime)
    {
      if !disappearing || destroyed {
        return;
      }
      if disappearTimer > 0.0 {
        disappearTimer := disappearTimer - dt;
      } else {
        disappearing := false;
        destroyed := true;
      }
    }
  }

  class ResentmentAI {
    const config: R.Config
    var currentState: R.AIState
    var stateTimer: real
    var attackTimer: real
    var lastKnownPlayerPosition: Vec
    var puddlePosition: Vec
    var destination: Option<Vec>
    var isStopped: bool
    var speed: real
    var homePuddle: PuddleController?
    /** Destroy was called on the monster's object. */
    var destroyed: bool

    function Now(): R.Memory
      reads this
    {
      R.Memory(currentState, stateTimer, attackTimer, lastKnownPlayerPosition, puddlePosition, destination, isStopped)
    }

    constructor (config: R.Config, position: Vec)
      ensures this.config == config && currentState == R.Idle && homePuddle == null && !destroyed
    {
      this.config := config;
      currentState := R.Idle;
      stateTimer := 0.0;
      attackTimer := 0.0;
      lastKnownPlayerPosition := position;
      puddlePosition := position;
      destination := None;
      isStopped := false;
      speed := 0.0;
      homePuddle := null;
      destroyed := false;
    }

    method Start()
      modifies this
      ensures speed == config.chaseSpeed && Now() == old(Now()) && unchanged(this`homePuddle, this`destroyed)
    {
      speed := config.chaseSpeed;
    }

    method SetHomePuddle(puddle: PuddleController)
      modifies this
      ensures homePuddle == puddle && puddlePosition == puddle.position
      ensures Now() == old(Now()).(puddlePosition := puddle.position) && unchanged(this`destroyed, this`currentState)
    {
      homePuddle := puddle;
      puddlePosition := puddle.position;
    }

    /** Returns whether the player took damage; a monster that reaches its puddle sinks into it. */
    method Update(s: R.Sense) returns (damaged: bool)
      requires !destroyed
      requires homePuddle != null && !homePuddle.destroyed ==> homePuddle.spawner != null
      modifies this, homePuddle, if homePuddle != null then {homePuddle.spawner} else {}
      ensures homePuddle == old(homePuddle)
      ensures homePuddle != null ==> homePuddle.spawner == old(homePuddle.spawner) && homePuddle.destroyed == old(homePuddle.destroyed)
      ensures Now() == R.Tick(config, old(Now()), s).m && damaged == R.Tick(config, old(Now()), s).damaged
      ensures destroyed == R.Tick(config, old(Now()), s).disappears
      ensures !destroyed && homePuddle != null ==> unchanged(homePuddle) && (homePuddle.spawner != null ==> unchanged(homePuddle.spawner))
      ensures (old(homePuddle) != null && !old(homePuddle.destroyed) && old(homePuddle.spawner.OneGuardian()) &&
               homePuddle in homePuddle.spawner.puddles) ==> homePuddle.spawner.OneGuardian()
    {
      var st := R.Tick(config, Now(), s);
      currentState, stateTimer, attackTimer := st.m.state, st.m.stateTimer, st.m.attackTimer;
      lastKnownPlayerPosition, destination, isStopped := st.m.lastKnownPlayerPosition, st.m.destination, st.m.isStopped;
      damaged := st.damaged;
      if st.disappears {
        DisappearIntoPuddle();
      }
    }

    /** Hands the guardian back to a puddle that still exists, then destroys the monster. */
    method DisappearIntoPuddle()
      requires homePuddle != null && !homePuddle.destroyed ==> homePuddle.spawner != null
      modifies this, homePuddle, if homePuddle != null then {homePuddle.spawner} else {}
      ensures homePuddle == old(homePuddle)
      ensures homePuddle != null ==> homePuddle.spawner == old(homePuddle.spawner) && homePuddle.destroyed == old(homePuddle.destroyed)
      ensures destroyed && Now() == old(Now())
      ensures homePuddle != null && !homePuddle.destroyed && old(homePuddle.Live()) ==>
        homePuddle.spawnedMonster == null && !homePuddle.spawner.monsterSpawned
      ensures homePuddle != null && homePuddle.destroyed ==>
        unchanged(homePuddle) && (homePuddle.spawner != null ==> unchanged(homePuddle.spawner))
      ensures (old(homePuddle) != null && !old(homePuddle.destroyed) && old(homePuddle.spawner.OneGuardian()) &&
               homePuddle in homePuddle.spawner.puddles) ==> homePuddle.spawner.OneGuardian()
    {
      if homePuddle != null && !homePuddle.destroyed {
        homePuddle.ReturnMonster();
      }
      destroyed := true;
    }
  }
}
