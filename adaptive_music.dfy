/** Three looping music layers whose volumes follow the monsters' mood. */
module AdaptiveMusic {

  datatype MonsterState = Calm | Chase | Search

  function Abs(x: real): real {
    if x < 0.0 then -x else x
  }

  /**
   * Mathf.MoveTowards: `target` when within `maxDelta`, otherwise `current + Sign(target - current) * maxDelta`,
   * where Sign(0) is 1; so a negative `maxDelta` moves away, upwards when already at the target.
   */
  function MoveTowards(current: real, target: real, maxDelta: real): (r: real)
    ensures maxDelta >= 0.0 ==> Abs(r - current) <= maxDelta
    ensures maxDelta >= 0.0 ==> Abs(target - r) <= Abs(target - current)
    ensures maxDelta >= 0.0 ==> (current <= r <= target || target <= r <= current)
    ensures Abs(target - current) <= maxDelta ==> r == target
    ensures maxDelta < 0.0 ==> Abs(target - r) == Abs(target - current) - maxDelta
    ensures maxDelta < 0.0 && target == current ==> r == current + maxDelta
  {
    if Abs(target - current) <= maxDelta then target
    else if target >= current then current + maxDelta
    else current - maxDelta
  }

  /** Volume `v` after `k` moves of at most `step` towards `target`. */
  function MoveN(v: real, target: real, step: real, k: nat): real
    decreases k
  {
    if k == 0 then v else MoveN(MoveTowards(v, target, step), target, step, k - 1)
  }

  /** A fade reaches its target once the steps taken add up to the distance, and then stays there. */
  lemma {:induction false} FadeArrives(v: real, target: real, step: real, k: nat)
    requires step > 0.0 && Abs(target - v) <= (k as real) * step
    ensures MoveN(v, target, step, k) == target
    decreases k
  {
    if k > 0 {
      var v1 := MoveTowards(v, target, step);
      assert Abs(target - v1) <= ((k - 1) as real) * step;
      FadeArrives(v1, target, step, k - 1);
    } else {
      assert v == target;
    }
  }

  /** The volume a layer heads for: the full target volume for the current mood, silence otherwise. */
  function Target(layer: MonsterState, current: MonsterState, targetVolume: real): real {
    if layer == current then targetVolume else 0.0
  }

  datatype Volumes = Volumes(calm: real, chase: real, search: real)

  /** UpdateVolumes: in Chase the chase layer jumps to full volume; otherwise it fades at twice the speed. */
  function Step(v: Volumes, state: MonsterState, targetVolume: real, step: real): (r: Volumes)
    ensures state == Chase ==> r.chase == targetVolume
  {
    if state == Chase then
      Volumes(MoveTowards(v.calm, 0.0, step), targetVolume, MoveTowards(v.search, 0.0, step))
    else
      Volumes(MoveTowards(v.calm, Target(Calm, state, targetVolume), step),
              MoveTowards(v.chase, Target(Chase, state, targetVolume), step * 2.0),
              MoveTowards(v.search, Target(Search, state, targetVolume), step))
  }

  predicate InRange(x: real, hi: real) {
    0.0 <= x <= hi
  }

  /** Volumes that start between silence and the target volume stay there. */
  lemma StepStaysInRange(v: Volumes, state: MonsterState, targetVolume: real, step: real)
    requires step >= 0.0 && targetVolume >= 0.0
    requires InRange(v.calm, targetVolume) && InRange(v.chase, targetVolume) && InRange(v.search, targetVolume)
    ensures var r := Step(v, state, targetVolume, step);
      InRange(r.calm, targetVolume) && InRange(r.chase, targetVolume) && InRange(r.search, targetVolume)
  {
  }

  /** Each layer moves towards its target by at most the step; chase outside Chase by at most twice the step. */
  lemma StepIsBounded(v: Volumes, state: MonsterState, targetVolume: real, step: real)
    requires step >= 0.0
    ensures var r := Step(v, state, targetVolume, step);
      Abs(r.calm - v.calm) <= step && Abs(r.search - v.search) <= step &&
      (state != Chase ==> Abs(r.chase - v.chase) <= 2.0 * step)
  {
  }

  class AdaptiveMusicManager {
    const targetVolume: real
    const fadeSpeed: real
    var calmVolume: real
    var chaseVolume: real
    var searchVolume: real
    var currentState: MonsterState

    function Model(): Volumes
      reads this
    {
      Volumes(calmVolume, chaseVolume, searchVolume)
    }

    constructor (targetVolume: real, fadeSpeed: real)
      ensures this.targetVolume == targetVolume && this.fadeSpeed == fadeSpeed && currentState == Calm
    {
      this.targetVolume := targetVolume;
      this.fadeSpeed := fadeSpeed;
      calmVolume := 0.0;
      chaseVolume := 0.0;
      searchVolume := 0.0;
      currentState := Calm;
    }

    /** Start: calm at the target volume, the other layers silent. */
    method Start()
      modifies this
      ensures Model() == Volumes(targetVolume, 0.0, 0.0) && currentState == old(currentState)
    {
      calmVolume := targetVolume;
      chaseVolume := 0.0;
      searchVolume := 0.0;
    }

    /** One frame of `dt` seconds. */
    method UpdateVolumes(dt: real)
      modifies this
      ensures Model() == Step(old(Model()), currentState, targetVolume, fadeSpeed * dt)
      ensures currentState == old(currentState)
    {
      var step := fadeSpeed * dt;
      var calmTarget := if currentState == Calm then targetVolume else 0.0;
      var chaseTarget := if currentState == Chase then targetVolume else 0.0;
      var searchTarget := if currentState == Search then targetVolume else 0.0;
      if currentState == Chase {
        chaseVolume := targetVolume;
        calmVolume := MoveTowards(calmVolume, 0.0, step);
        searchVolume := MoveTowards(searchVolume, 0.0, step);
      } else {
        calmVolume := MoveTowards(calmVolume, calmTarget, step);
        chaseVolume := MoveTowards(chaseVolume, chaseTarget, step * 2.0);
        searchVolume := MoveTowards(searchVolume, searchTarget, step);
      }
    }

    method SetState(newState: MonsterState)
      modifies this
      ensures currentState == newState && Model() == old(Model())
    {
      if currentState == newState {
        return;
      }
      currentState := newState;
    }
  }
}
