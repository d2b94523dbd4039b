/** Gapless playback of a playlist of clips, with a playlist change deferred to the next clip boundary. */
module SequentialAudio {
  import opened Common

  /** An audio clip; `id` stands for the asset's identity, `length` is in seconds. */
  datatype Clip = Clip(id: nat, length: real)

  /** A clip array; a null entry is None. A null array and an empty one behave the same. */
  type Clips = seq<Option<Clip>>

  /** One PlayScheduled call: the clip and its start on the audio clock. */
  datatype Scheduled = Scheduled(clip: Clip, startTime: real)

  datatype PlayerModel = PlayerModel(
    clips: Clips,
    currentIndex: int,
    isActive: bool,
    pendingClips: Option<Clips>,
    nextStartTime: real,
    /** Every PlayScheduled call so far, in order. */
    scheduled: seq<Scheduled>)

  /** The index is a position in the playlist (0 while there is none), and a pending playlist is never empty. */
  predicate Valid(m: PlayerModel) {
    (if |m.clips| == 0 then m.currentIndex == 0 else 0 <= m.currentIndex < |m.clips|) &&
    (m.pendingClips.Some? ==> |m.pendingClips.value| > 0)
  }

  /** The start time ScheduleNextClip uses: the planned boundary if there is one, otherwise now. */
  function StartTime(nextStartTime: real, dspTime: real): real {
    if nextStartTime > 0.0 then nextStartTime else dspTime
  }

  /** The index after the one just played, wrapping to 0 past the end. */
  function Following(i: int, n: int): (r: int)
    requires 0 <= i < n
    ensures 0 <= r < n && r == Wrap(i + 1, n)
  {
    if i + 1 >= n then 0 else i + 1
  }

  /**
   * ScheduleNextClip: switch to a pending playlist at index 0, then schedule the current clip
   * at StartTime and advance the index; a null clip stops the step before anything is scheduled.
   */
  function Schedule(m: PlayerModel, dspTime: real): (r: PlayerModel)
    requires Valid(m)
    ensures Valid(r) && r.isActive == m.isActive && r.pendingClips == (if |m.clips| == 0 then m.pendingClips else None)
  {
    if |m.clips| == 0 then m
    else
      var m1 := if m.pendingClips.Some? then m.(clips := m.pendingClips.value, pendingClips := None, currentIndex := 0) else m;
      var clip := m1.clips[m1.currentIndex];
      if clip.None? then m1
      else
        var start := StartTime(m1.nextStartTime, dspTime);
        m1.(scheduled := m1.scheduled + [Scheduled(clip.value, start)],
            nextStartTime := start + clip.value.length,
            currentIndex := Following(m1.currentIndex, |m1.clips|))
  }

  /** PlayPlaylist: an empty request is ignored; while playing without `force` it only becomes pending. */
  function Play(m: PlayerModel, newClips: Clips, force: bool, dspTime: real): (r: PlayerModel)
    requires Valid(m)
    ensures Valid(r)
  {
    if |newClips| == 0 then m
    else if m.isActive && !force then m.(pendingClips := Some(newClips))
    else Schedule(m.(clips := newClips, currentIndex := 0, isActive := true, nextStartTime := 0.0), dspTime)
  }

  /** StopPlaylist: inactive with nothing pending. */
  function Stopped(m: PlayerModel): PlayerModel {
    m.(isActive := false, pendingClips := None)
  }

  /** Update: schedules when active with clips and within 0.1 s of the planned boundary. */
  function Tick(m: PlayerModel, dspTime: real): PlayerModel
    requires Valid(m)
  {
    if !m.isActive || |m.clips| == 0 then m
    else if dspTime + 0.1 >= m.nextStartTime then Schedule(m, dspTime)
    else m
  }

  /** A playlist with no null entries. */
  predicate AllPresent(clips: Clips) {
    forall j :: 0 <= j < |clips| ==> clips[j].Some?
  }

  /** `k` schedulings in a row (the audio clock only matters for the first start when idle). */
  function ScheduleN(m: PlayerModel, dspTime: real, k: nat): (r: PlayerModel)
    requires Valid(m)
    ensures Valid(r)
    decreases k
  {
    if k == 0 then m else ScheduleN(Schedule(m, dspTime), dspTime, k - 1)
  }

  /**
   * Round robin: with no pending playlist and no null clip, `k` schedulings play the clips from
   * the current index onward, wrapping around, and the index ends `k` places further on.
   */
  lemma {:induction false} RoundRobin(m: PlayerModel, dspTime: real, k: nat)
    requires Valid(m) && |m.clips| > 0 && m.pendingClips.None? && AllPresent(m.clips)
    ensures var r := ScheduleN(m, dspTime, k);
      r.clips == m.clips && r.pendingClips.None? &&
      r.currentIndex == Wrap(m.currentIndex + k, |m.clips|) &&
      |r.scheduled| == |m.scheduled| + k && r.scheduled[..|m.scheduled|] == m.scheduled &&
      var added := r.scheduled[|m.scheduled|..];
      forall j :: 0 <= j < k ==> Some(added[j].clip) == m.clips[Wrap(m.currentIndex + j, |m.clips|)]
    decreases k
  {
    var n := |m.clips|;
    if k == 0 {
      assert m.currentIndex == Wrap(m.currentIndex, n);
    } else {
      var m1 := Schedule(m, dspTime);
      RoundRobin(m1, dspTime, k - 1);
      var r := ScheduleN(m1, dspTime, k - 1);
      assert m1.currentIndex == Wrap(m.currentIndex + 1, n);
      WrapShift(m.currentIndex, k - 1, n);
      var added := r.scheduled[|m.scheduled|..];
      var added1 := r.scheduled[|m1.scheduled|..];
      forall j | 0 <= j < k
        ensures Some(added[j].clip) == m.clips[Wrap(m.currentIndex + j, n)]
      {
        if j == 0 {
          assert added[0] == r.scheduled[..|m1.scheduled|][|m.scheduled|] == m1.scheduled[|m.scheduled|];
          assert Wrap(m.currentIndex, n) == m.currentIndex;
        } else {
          WrapShift(m.currentIndex, j - 1, n);
          assert added[j] == added1[j - 1];
        }
      }
      assert r.scheduled[..|m.scheduled|] == r.scheduled[..|m1.scheduled|][..|m.scheduled|];
    }
  }

  /** Starting one slot further on and going `j` more steps ends where `j + 1` steps end. */
  lemma {:induction false} WrapShift(i: nat, j: nat, n: nat)
    requires i < n
    ensures Wrap(Wrap(i + 1, n) + j, n) == Wrap(i + j + 1, n)
    decreases j
  {
    if j == 0 {
      assert Wrap(Wrap(i + 1, n), n) == Wrap(i + 1, n) by { WrapBelow(Wrap(i + 1, n), n); }
    } else {
      WrapShift(i, j - 1, n);
      WrapNext(Wrap(i + 1, n) + j - 1, n);
      WrapNext(i + j, n);
    }
  }

  lemma WrapBelow(k: nat, n: nat)
    requires k < n
    ensures Wrap(k, n) == k
  {
  }

  /** A pending playlist takes over at the next scheduling and starts from its first clip. */
  lemma PendingTakesOver(m: PlayerModel, dspTime: real)
    requires Valid(m) && |m.clips| > 0 && m.pendingClips.Some? && m.pendingClips.value[0].Some?
    ensures var r := Schedule(m, dspTime);
      r.clips == m.pendingClips.value && r.pendingClips.None? &&
      r.scheduled == m.scheduled + [Scheduled(m.pendingClips.value[0].value, StartTime(m.nextStartTime, dspTime))] &&
      r.currentIndex == Following(0, |r.clips|)
  {
  }

  /** Clips are laid end to end: each start is the previous start plus the previous clip's length. */
  lemma Gapless(m: PlayerModel, dspTime: real)
    requires Valid(m) && |m.clips| > 0 && m.pendingClips.None? && m.clips[m.currentIndex].Some?
    requires m.nextStartTime > 0.0
    ensures var r := Schedule(m, dspTime);
      r.scheduled == m.scheduled + [Scheduled(m.clips[m.currentIndex].value, m.nextStartTime)] &&
      r.nextStartTime == m.nextStartTime + m.clips[m.currentIndex].value.length
  {
  }

  /** A null clip blocks the player: nothing is scheduled and the index and boundary stay put. */
  lemma NullClipStalls(m: PlayerModel, dspTime: real)
    requires Valid(m) && |m.clips| > 0 && m.pendingClips.None? && m.clips[m.currentIndex].None?
    ensures Schedule(m, dspTime) == m
  {
  }

  /** While playing, a non-forced request changes nothing but the pending playlist. */
  lemma UnforcedRequestWaits(m: PlayerModel, newClips: Clips, dspTime: real)
    requires Valid(m) && m.isActive && |newClips| > 0
    ensures Play(m, newClips, false, dspTime) == m.(pendingClips := Some(newClips))
  {
  }

  class SequentialAudioPlayer {
    var clips: Clips
    var currentIndex: int
    var isActive: bool
    var pendingClips: Option<Clips>
    var nextStartTime: real
    var scheduled: seq<Scheduled>

    function Model(): PlayerModel
      reads this
    {
      PlayerModel(clips, currentIndex, isActive, pendingClips, nextStartTime, scheduled)
    }

    constructor ()
      ensures Model() == PlayerModel([], 0, false, None, 0.0, []) && Valid(Model())
    {
      clips := [];
      currentIndex := 0;
      isActive := false;
      pendingClips := None;
      nextStartTime := 0.0;
      scheduled := [];
    }

    /** `dspTime` is the audio clock at the call. */
    method Update(dspTime: real)
      requires Valid(Model())
      modifies this
      ensures Model() == Tick(old(Model()), dspTime)
    {
      if !isActive || |clips| == 0 {
        return;
      }
      if dspTime + 0.1 >= nextStartTime {
        ScheduleNextClip(dspTime);
      }
    }

    method PlayPlaylist(newClips: Clips, force: bool, dspTime: real)
      requires Valid(Model())
      modifies this
      ensures Model() == Play(old(Model()), newClips, force, dspTime)
    {
      if |newClips| == 0 {
        return;
      }
      if isActive && !force {
        pendingClips := Some(newClips);
      } else {
        clips := newClips;
        currentIndex := 0;
        isActive := true;
        nextStartTime := 0.0;
        ScheduleNextClip(dspTime);
      }
    }

    method StopPlaylist()
      modifies this
      ensures Model() == Stopped(old(Model()))
    {
      isActive := false;
      pendingClips := None;
    }

    method ScheduleNextClip(dspTime: real)
      requires Valid(Model())
      modifies this
      ensures Model() == Schedule(old(Model()), dspTime)
    {
      if |clips| == 0 {
        return;
      }
      if pendingClips.Some? {
        clips := pendingClips.value;
        pendingClips := None;
        currentIndex := 0;
      }
      var clip := clips[currentIndex];
      if clip.None? {
        return;
      }
      var startTime := if nextStartTime > 0.0 then nextStartTime else dspTime;
      scheduled := scheduled + [Scheduled(clip.value, startTime)];
      nextStartTime := startTime + clip.value.length;
      currentIndex := currentIndex + 1;
      if currentIndex >= |clips| {
        currentIndex := 0;
      }
    }
  }
}
