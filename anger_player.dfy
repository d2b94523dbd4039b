/** Rage's own music: its clips played one after another in a loop. */
module AngerAudio {
  import opened Common
  import opened SequentialAudio

  class AngerSequentialAudioPlayer {
    const clips: Clips
    var currentIndex: int
    /** Every clip handed to the audio source, in order (a null entry plays nothing). */
    var played: seq<Option<Clip>>

    /** The clips play in order from the first one, wrapping around, and the index names the next one. */
    predicate RoundRobin()
      reads this
    {
      |clips| > 0 ==>
        currentIndex == Wrap(|played|, |clips|) &&
        forall k :: 0 <= k < |played| ==> played[k] == clips[Wrap(k, |clips|)]
    }

    constructor (clips: Clips)
      ensures this.clips == clips && currentIndex == 0 && played == [] && RoundRobin()
    {
      this.clips := clips;
      currentIndex := 0;
      played := [];
    }

    /** Start: the first clip plays at once when there is one. */
    method Start()
      requires played == [] && currentIndex == 0
      modifies this
      ensures RoundRobin()
      ensures played == if |clips| > 0 then [clips[0]] else []
    {
      if |clips| > 0 {
        PlayNextClip();
      }
    }

    /** `isPlaying` is whether the audio source is still playing. */
    method Update(isPlaying: bool)
      requires RoundRobin()
      modifies this
      ensures RoundRobin()
      ensures played == if !isPlaying && |clips| > 0 then old(played) + [clips[old(currentIndex)]] else old(played)
    {
      if !isPlaying && |clips| > 0 {
        PlayNextClip();
      }
    }

    /** Plays the clip at the index, then advances it, wrapping past the end. */
    method PlayNextClip()
      requires |clips| > 0 && RoundRobin()
      modifies this
      ensures played == old(played) + [clips[old(currentIndex)]]
      ensures currentIndex == if old(currentIndex) + 1 >= |clips| then 0 else old(currentIndex) + 1
      ensures RoundRobin()
    {
      WrapNext(|played|, |clips|);
      played := played + [clips[currentIndex]];
      currentIndex := currentIndex + 1;
      if currentIndex >= |clips| {
        currentIndex := 0;
      }
    }
  }
}
