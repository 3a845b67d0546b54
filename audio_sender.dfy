/**
 * AudioSender.cs: a component that forwards one configured request (change
 * the music, or play a sound effect) to the `AudioManager` singleton.
 */
module AudioSending {
  import opened Wrappers
  import opened AudioManagement

  /** What `SendAudio` asks of the manager. */
  datatype Request = ChangeMusicRequest(index: int) | PlaySoundRequest(soundType: SoundType, index: int)

  /** What happened once the request reached the manager. */
  datatype Dispatch = NoManager | MusicChangedTo(fault: Option<Fault>) | SoundPlayed(outcome: PlayOutcome)

  /** The request the sender's settings describe; without `useIndex` the manager chooses the clip. */
  function RequestFor(changeMusic: bool, soundType: SoundType, useIndex: bool, index: int): (r: Request)
    ensures r.ChangeMusicRequest? <==> changeMusic
    ensures r.ChangeMusicRequest? ==> r.index == index
    ensures r.PlaySoundRequest? ==> r.soundType == soundType && (r.index == -1 <==> !useIndex || index == -1)
    ensures r.PlaySoundRequest? && useIndex ==> r.index == index
  {
    if changeMusic then ChangeMusicRequest(index)
    else PlaySoundRequest(soundType, if useIndex then index else -1)
  }

  /**
   * A request that leaves the choice to the manager never reaches an index
   * outside the clips: with a library, it plays one of its clips through its
   * source, or fails only for a missing source, or finds no clips.
   */
  lemma DefaultSelectionInRange(library: Option<AudioLibrary>, outcome: PlayOutcome)
    requires library.Some? && PlaySoundOutcome(library, -1, outcome)
    ensures outcome != Failed(IndexOutOfRange) && !outcome.NoSoundAtIndex?
    ensures outcome == NoClips <==> |library.value.clips| == 0
    ensures |library.value.clips| > 0 ==> (outcome.Played? <==> library.value.source.Some?)
    ensures outcome.Played? ==> outcome.clip in library.value.clips && outcome.source == library.value.source.value
  {
    var lib := library.value;
    if |lib.clips| > 1 {
      var k :| 0 <= k < |lib.clips| && outcome == Resolve(lib, k);
    }
  }

  class AudioSender {
    const changeMusic: bool
    const soundType: SoundType
    const useIndex: bool
    const index: int

    constructor (changeMusic: bool, soundType: SoundType, useIndex: bool, index: int)
      ensures this.changeMusic == changeMusic && this.soundType == soundType
      ensures this.useIndex == useIndex && this.index == index
    {
      this.changeMusic, this.soundType, this.useIndex, this.index := changeMusic, soundType, useIndex, index;
    }

    /** Forwards the configured request to the manager, if there is one. */
    method SendAudio(registry: AudioRegistry) returns (sent: Dispatch)
      modifies registry.instance
      ensures registry.instance == old(registry.instance)
      ensures registry.instance == null <==> sent == NoManager
      ensures sent.MusicChangedTo? <==> registry.instance != null && changeMusic
      ensures sent.MusicChangedTo? ==>
        (sent.fault, registry.instance.music) == MusicChanged(old(registry.instance.music), index)
      ensures sent.MusicChangedTo? ==>
        registry.instance.soundEffects == old(registry.instance.soundEffects) &&
        registry.instance.extras == old(registry.instance.extras)
      ensures sent.SoundPlayed? <==> registry.instance != null && !changeMusic
      ensures sent.SoundPlayed? ==> unchanged(registry.instance)
      ensures sent.SoundPlayed? ==>
        PlaySoundOutcome(registry.instance.Library(soundType), RequestFor(changeMusic, soundType, useIndex, index).index,
                         sent.outcome)
      ensures sent.SoundPlayed? && !useIndex && registry.instance.Library(soundType).Some? ==>
        sent.outcome != Failed(IndexOutOfRange)
    {
      var manager := registry.instance;
      if manager == null {
        return NoManager;
      }
      var request := RequestFor(changeMusic, soundType, useIndex, index);
      match request {
        case ChangeMusicRequest(i) =>
          var fault := manager.ChangeMusic(i);
          sent := MusicChangedTo(fault);
        case PlaySoundRequest(t, i) =>
          var outcome := manager.PlaySound(t, i);
          if !useIndex && manager.Library(t).Some? {
            DefaultSelectionInRange(manager.Library(t), outcome);
          }
          sent := SoundPlayed(outcome);
      }
    }
  }
}
