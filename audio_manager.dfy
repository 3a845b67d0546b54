/**
 * AudioManager.cs: one library of clips per sound type, a music library and
 * an extras library, each with its own audio source; clip selection for a
 * request; and the singleton latch.  Audio output itself (PlayOneShot, Play,
 * Stop) is reduced to the source's `clip` and `playing` state, and C#
 * exceptions are modelled as `Fault` outcomes.
 */
module AudioManagement {
  import opened Wrappers

  datatype SoundType =
    | SwordSwing | GunFire | BulletImpact | PlayerLand | PlayerJump | PlayerFootsteps
    | PlayerHurt | EnemyHurt | DoorOpen | Music | Extras

  /** The enum's names in declaration order, as `Enum.GetNames` returns them. */
  const SoundTypeNames: seq<string> :=
    ["SwordSwing", "GunFire", "BulletImpact", "PlayerLand", "PlayerJump", "PlayerFootsteps",
     "PlayerHurt", "EnemyHurt", "DoorOpen", "Music", "Extras"]

  /** The number of sound-effect libraries: every sound type but Music and Extras. */
  const SoundEffectCount: nat := |SoundTypeNames| - 2

  /** The integer value of an enum member, `(int)soundType`. */
  function Ordinal(t: SoundType): (n: nat)
    ensures n < |SoundTypeNames|
    ensures n < SoundEffectCount <==> !t.Music? && !t.Extras?
  {
    match t
    case SwordSwing => 0
    case GunFire => 1
    case BulletImpact => 2
    case PlayerLand => 3
    case PlayerJump => 4
    case PlayerFootsteps => 5
    case PlayerHurt => 6
    case EnemyHurt => 7
    case DoorOpen => 8
    case Music => 9
    case Extras => 10
  }

  /** The enum member's name, `soundType.ToString()`. */
  function NameOf(t: SoundType): string
  {
    match t
    case SwordSwing => "SwordSwing"
    case GunFire => "GunFire"
    case BulletImpact => "BulletImpact"
    case PlayerLand => "PlayerLand"
    case PlayerJump => "PlayerJump"
    case PlayerFootsteps => "PlayerFootsteps"
    case PlayerHurt => "PlayerHurt"
    case EnemyHurt => "EnemyHurt"
    case DoorOpen => "DoorOpen"
    case Music => "Music"
    case Extras => "Extras"
  }

  /** Distinct sound types have distinct integer values, and the name list is indexed by them. */
  lemma OrdinalNamesType(t: SoundType, u: SoundType)
    ensures SoundTypeNames[Ordinal(t)] == NameOf(t)
    ensures Ordinal(t) == Ordinal(u) ==> t == u
  {
  }

  datatype Clip = Clip(id: nat)
  datatype MixerGroup = MixerGroup(id: nat)

  /** The part of an audio source the manager sets or plays through. */
  datatype AudioSource = AudioSource(output: Option<MixerGroup>, loop: bool, clip: Option<Clip>, playing: bool)

  /** A freshly added audio source component. */
  const NewAudioSource: AudioSource := AudioSource(None, false, None, false)

  /** The `AudioLibrary` struct: a name, a (nullable) audio source and the clips. */
  datatype AudioLibrary = AudioLibrary(name: string, source: Option<AudioSource>, clips: seq<Clip>)

  /**
   * A new slot of the array: no name and no source.  The empty clip sequence
   * stands for the empty array Unity's serializer gives a new slot (the C#
   * default of the struct would hold a null clip array).
   */
  const EmptyLibrary: AudioLibrary := AudioLibrary("", None, [])

  /** The exceptions the C# code can raise. */
  datatype Fault = IndexOutOfRange | NullReference

  /** What one `PlaySound` request ends in. */
  datatype PlayOutcome =
    | NoClips
    | NoSoundAtIndex(index: int)
    | Played(source: AudioSource, clip: Clip)
    | Failed(fault: Fault)

  /** The library at position `i` after `Array.Resize`: kept when it existed, default otherwise. */
  function Kept(libs: seq<AudioLibrary>, i: nat): AudioLibrary
  {
    if i < |libs| then libs[i] else EmptyLibrary
  }

  /**
   * The sound-effect array after `OnEnable`: resized to one entry per sound type
   * other than Music and Extras, entry `i` named after the `i`-th sound type.
   */
  function Realigned(libs: seq<AudioLibrary>): (r: seq<AudioLibrary>)
    ensures |r| == SoundEffectCount
    ensures forall i :: 0 <= i < |r| ==> r[i].name == SoundTypeNames[i]
    ensures forall i :: 0 <= i < |r| ==> r[i].source == Kept(libs, i).source && r[i].clips == Kept(libs, i).clips
  {
    seq(SoundEffectCount, i requires 0 <= i < SoundEffectCount => Kept(libs, i).(name := SoundTypeNames[i]))
  }

  /** After `OnEnable`, every sound-effect type finds the library named after it. */
  lemma RealignedFindsEveryType(libs: seq<AudioLibrary>, t: SoundType)
    requires !t.Music? && !t.Extras?
    ensures Ordinal(t) < |Realigned(libs)| && Realigned(libs)[Ordinal(t)].name == NameOf(t)
  {
    OrdinalNamesType(t, t);
  }

  /** Running `OnEnable` a second time changes nothing. */
  lemma RealignedIdempotent(libs: seq<AudioLibrary>)
    ensures Realigned(Realigned(libs)) == Realigned(libs)
  {
    var once := Realigned(libs);
    var twice := Realigned(once);
    forall i | 0 <= i < SoundEffectCount
      ensures twice[i] == once[i]
    {
      assert twice[i].name == once[i].name;
    }
  }

  /** A library after `InitializeAudioSources`: a source exists and feeds `mixer` when one is set. */
  function WithSource(lib: AudioLibrary, mixer: Option<MixerGroup>): (r: AudioLibrary)
    ensures r.source.Some? && r.name == lib.name && r.clips == lib.clips
    ensures mixer.Some? ==> r.source.value.output == mixer
    ensures mixer.None? ==> r.source.value.output == (if lib.source.Some? then lib.source.value.output else None)
    ensures lib.source.Some? ==> r.source.value.(output := None) == lib.source.value.(output := None)
    ensures lib.source.None? ==> r.source.value.(output := None) == NewAudioSource
  {
    var src := if lib.source.None? then NewAudioSource else lib.source.value;
    var src := if (src.output.None? || src.output != mixer) && mixer.Some? then src.(output := mixer) else src;
    lib.(source := Some(src))
  }

  /** `WithSource` is idempotent: initializing twice is initializing once. */
  lemma WithSourceIdempotent(lib: AudioLibrary, mixer: Option<MixerGroup>)
    ensures WithSource(WithSource(lib, mixer), mixer) == WithSource(lib, mixer)
  {
  }

  /**
   * The end of `PlaySound` once `indexToPlay` is chosen, as written: only an
   * index above the clip count is refused, so the count itself and negative
   * indices other than -1 reach the array access and raise.
   */
  function Resolve(lib: AudioLibrary, indexToPlay: int): (r: PlayOutcome)
    requires |lib.clips| > 0
    ensures r.NoSoundAtIndex? <==> indexToPlay > |lib.clips|
    ensures r.Played? <==> 0 <= indexToPlay < |lib.clips| && lib.source.Some?
    ensures r.Played? ==> r.clip == lib.clips[indexToPlay] && r.source == lib.source.value
  {
    if indexToPlay > |lib.clips| then NoSoundAtIndex(indexToPlay)
    else if indexToPlay < 0 || indexToPlay == |lib.clips| then Failed(IndexOutOfRange)
    else if lib.source.None? then Failed(NullReference)
    else Played(lib.source.value, lib.clips[indexToPlay])
  }

  /** The guard lets the index equal to the clip count, and -2, through to a failing access. */
  lemma GuardAdmitsOutOfRange(lib: AudioLibrary)
    requires |lib.clips| > 0
    ensures Resolve(lib, |lib.clips|) == Failed(IndexOutOfRange)
    ensures Resolve(lib, -2) == Failed(IndexOutOfRange)
  {
  }

  /** The evidently intended check: refuse every index outside the clip array. */
  function ResolveChecked(lib: AudioLibrary, indexToPlay: int): (r: PlayOutcome)
    requires |lib.clips| > 0
    ensures r != Failed(IndexOutOfRange)
    ensures r.NoSoundAtIndex? <==> !(0 <= indexToPlay < |lib.clips|)
    ensures r.Played? <==> 0 <= indexToPlay < |lib.clips| && lib.source.Some?
    ensures r.Played? ==> r.clip == lib.clips[indexToPlay] && r.source == lib.source.value
  {
    if indexToPlay < 0 || indexToPlay >= |lib.clips| then NoSoundAtIndex(indexToPlay)
    else if lib.source.None? then Failed(NullReference)
    else Played(lib.source.value, lib.clips[indexToPlay])
  }

  /** The two guards disagree exactly on the indices the finding names. */
  lemma ResolveAgreesInRange(lib: AudioLibrary, indexToPlay: int)
    requires |lib.clips| > 0
    ensures Resolve(lib, indexToPlay) != ResolveChecked(lib, indexToPlay) <==>
      indexToPlay == |lib.clips| || indexToPlay < 0
  {
  }

  /**
   * The outcomes `PlaySound` can end in, given the library the sound type
   * maps to (`None` when the array has no entry for it) and the requested
   * index; -1 leaves the choice to the manager: the only clip, or any clip.
   */
  ghost predicate PlaySoundOutcome(library: Option<AudioLibrary>, index: int, outcome: PlayOutcome)
  {
    if library.None? then outcome == Failed(IndexOutOfRange)
    else if |library.value.clips| == 0 then outcome == NoClips
    else if index != -1 then outcome == Resolve(library.value, index)
    else if |library.value.clips| == 1 then outcome == Resolve(library.value, 0)
    else exists k :: 0 <= k < |library.value.clips| && outcome == Resolve(library.value, k)
  }

  /** `ChangeMusic`: stop, switch to clip `index` and play, with no bounds check. */
  function MusicChanged(music: AudioLibrary, index: int): (r: (Option<Fault>, AudioLibrary))
    ensures r.0.None? <==> music.source.Some? && 0 <= index < |music.clips|
    ensures r.1.name == music.name && r.1.clips == music.clips
    ensures music.source.None? ==> r == (Some(NullReference), music)
    ensures r.0.None? ==>
      r.1.source == Some(music.source.value.(clip := Some(music.clips[index]), playing := true))
    ensures r.0 == Some(IndexOutOfRange) ==> r.1.source == Some(music.source.value.(playing := false))
  {
    if music.source.None? then (Some(NullReference), music)
    else
      var stopped := music.source.value.(playing := false);
      if 0 <= index < |music.clips| then
        (None, music.(source := Some(stopped.(clip := Some(music.clips[index]), playing := true))))
      else (Some(IndexOutOfRange), music.(source := Some(stopped)))
  }

  /** The static `AudioManager.Instance`, and the managers that destroyed themselves. */
  class AudioRegistry {
    var instance: AudioManager?
    var destroyed: set<AudioManager>

    constructor ()
      ensures instance == null && destroyed == {}
    {
      instance := null;
      destroyed := {};
    }
  }

  class AudioManager {
    // The inspector settings the script only reads.
    const mixerSoundEffects: Option<MixerGroup>
    const mixerMusic: Option<MixerGroup>
    const playMusicAtStart: bool
    const musicLoop: bool
    const mixerExtras: Option<MixerGroup>
    // The libraries it resizes, names, equips and plays through.
    var soundEffects: array<AudioLibrary>
    var music: AudioLibrary
    var extras: AudioLibrary

    /** A manager with the inspector's settings. */
    constructor (soundEffects: seq<AudioLibrary>, mixerSoundEffects: Option<MixerGroup>,
                 mixerMusic: Option<MixerGroup>, mixerExtras: Option<MixerGroup>,
                 playMusicAtStart: bool, musicLoop: bool, music: AudioLibrary, extras: AudioLibrary)
      ensures this.soundEffects[..] == soundEffects && fresh(this.soundEffects)
      ensures this.mixerSoundEffects == mixerSoundEffects && this.mixerMusic == mixerMusic
      ensures this.mixerExtras == mixerExtras && this.playMusicAtStart == playMusicAtStart
      ensures this.musicLoop == musicLoop && this.music == music && this.extras == extras
    {
      this.soundEffects := new AudioLibrary[|soundEffects|](i requires 0 <= i < |soundEffects| => soundEffects[i]);
      this.mixerSoundEffects, this.mixerMusic, this.mixerExtras := mixerSoundEffects, mixerMusic, mixerExtras;
      this.playMusicAtStart, this.musicLoop := playMusicAtStart, musicLoop;
      this.music, this.extras := music, extras;
    }

    /** Resizes the sound-effect array to the sound types and names each entry. */
    method OnEnable()
      modifies this, soundEffects
      ensures soundEffects[..] == Realigned(old(soundEffects[..]))
      ensures soundEffects == old(soundEffects) || fresh(soundEffects)
      ensures music == old(music) && extras == old(extras)
    {
      var names := SoundTypeNames;
      ghost var before := soundEffects[..];
      var libraries := Resize(soundEffects, |names| - 2);
      for i := 0 to libraries.Length
        invariant libraries.Length == SoundEffectCount
        invariant forall j :: 0 <= j < i ==> libraries[j] == Kept(before, j).(name := names[j])
        invariant forall j :: i <= j < libraries.Length ==> libraries[j] == Kept(before, j)
        modifies libraries
      {
        libraries[i] := libraries[i].(name := names[i]);
      }
      soundEffects := libraries;
      assert soundEffects[..] == Realigned(before) by {
        forall j | 0 <= j < SoundEffectCount
          ensures soundEffects[..][j] == Realigned(before)[j]
        {
        }
      }
    }

    /**
     * `Array.Resize`: the same array when the length already fits; otherwise a
     * new one holding the common prefix and default values after it.
     */
    static method Resize(a: array<AudioLibrary>, n: nat) returns (b: array<AudioLibrary>)
      ensures b.Length == n
      ensures a.Length == n ==> b == a
      ensures a.Length != n ==> fresh(b)
      ensures forall j :: 0 <= j < n ==> b[j] == Kept(a[..], j)
    {
      if a.Length == n {
        return a;
      }
      b := new AudioLibrary[n];
      var k := 0;
      while k < n
        invariant 0 <= k <= n
        invariant forall j :: 0 <= j < k ==> b[j] == Kept(a[..], j)
        modifies b
      {
        b[k] := if k < a.Length then a[k] else EmptyLibrary;
        k := k + 1;
      }
    }

    /** Gives every library an audio source and routes it to the sound-effect mixer group. */
    method InitializeAudioSources()
      modifies this, soundEffects
      ensures soundEffects == old(soundEffects)
      ensures forall i :: 0 <= i < soundEffects.Length ==>
        soundEffects[i] == WithSource(old(soundEffects[i]), mixerSoundEffects)
      ensures music == var m := WithSource(old(music), mixerSoundEffects);
        m.(source := Some(m.source.value.(loop := musicLoop)))
      ensures extras == WithSource(old(extras), mixerSoundEffects)
    {
      var libraries := soundEffects;
      for i := 0 to libraries.Length
        invariant forall j :: 0 <= j < i ==> libraries[j] == WithSource(old(libraries[j]), mixerSoundEffects)
        invariant forall j :: i <= j < libraries.Length ==> libraries[j] == old(libraries[j])
        modifies libraries
      {
        libraries[i] := AttachSource(libraries[i], mixerSoundEffects);
      }

      music := AttachSource(music, mixerSoundEffects);
      music := music.(source := Some(music.source.value.(loop := musicLoop)));

      extras := AttachSource(extras, mixerSoundEffects);
    }

    /**
     * The block `InitializeAudioSources` repeats for every library: add a
     * source when there is none, then route it to `mixer` when one is set and
     * the source does not already output to it.
     */
    static method AttachSource(library: AudioLibrary, mixer: Option<MixerGroup>) returns (r: AudioLibrary)
      ensures r == WithSource(library, mixer)
    {
      var source := library.source;
      if source.None? {
        source := Some(NewAudioSource);
      }
      if (source.value.output.None? || source.value.output != mixer) && mixer.Some? {
        source := Some(source.value.(output := mixer));
      }
      r := library.(source := source);
    }

    /** `Start`: initialize the sources, then start the music if asked to. */
    method Start()
      modifies this, soundEffects
      ensures soundEffects == old(soundEffects)
      ensures forall i :: 0 <= i < soundEffects.Length ==>
        soundEffects[i] == WithSource(old(soundEffects[i]), mixerSoundEffects)
      ensures extras == WithSource(old(extras), mixerSoundEffects)
      ensures var m := WithSource(old(music), mixerSoundEffects);
        music == m.(source := Some(m.source.value.(loop := musicLoop,
                                                   playing := m.source.value.playing || playMusicAtStart)))
    {
      InitializeAudioSources();
      if playMusicAtStart {
        music := music.(source := Some(music.source.value.(playing := true)));
      }
    }

    /**
     * The library a sound type plays from: the music or extras library, or
     * the array entry at the type's position; `None` only for a sound-effect
     * type beyond the end of the array.
     */
    function Library(t: SoundType): (r: Option<AudioLibrary>)
      reads this, soundEffects
      ensures r.None? <==> soundEffects.Length <= Ordinal(t) < SoundEffectCount
      ensures r.Some? && Ordinal(t) < SoundEffectCount ==> r.value == soundEffects[Ordinal(t)]
      ensures t.Music? ==> r == Some(music)
      ensures t.Extras? ==> r == Some(extras)
    {
      match t
      case Music => Some(music)
      case Extras => Some(extras)
      case _ => if Ordinal(t) < soundEffects.Length then Some(soundEffects[Ordinal(t)]) else None
    }

    /**
     * Plays a clip of the library for `soundType`: clip `index` when one is
     * given, otherwise the only clip or a random one.
     */
    method PlaySound(soundType: SoundType, index: int) returns (outcome: PlayOutcome)
      ensures PlaySoundOutcome(Library(soundType), index, outcome)
    {
      ghost var lib: AudioLibrary;
      var clips: seq<Clip>;
      var audioSource: Option<AudioSource>;
      var indexToPlay := 0;
      match soundType {
        case Music =>
          clips, audioSource := music.clips, music.source;
          lib := music;
        case Extras =>
          clips, audioSource := extras.clips, extras.source;
          lib := extras;
        case _ =>
          if Ordinal(soundType) >= soundEffects.Length {
            return Failed(IndexOutOfRange);
          }
          clips, audioSource := soundEffects[Ordinal(soundType)].clips, soundEffects[Ordinal(soundType)].source;
          lib := soundEffects[Ordinal(soundType)];
      }
      assert Library(soundType) == Some(lib);
      if |clips| == 0 {
        return NoClips;
      }
      if index != -1 {
        indexToPlay := index;
      } else if |clips| > 1 {
        // Random.Range(0, clips.Length)
        indexToPlay :| 0 <= indexToPlay < |clips|;
      }
      if indexToPlay > |clips| {
        outcome := NoSoundAtIndex(indexToPlay);
      } else if !(0 <= indexToPlay < |clips|) {
        outcome := Failed(IndexOutOfRange);
      } else if audioSource.None? {
        outcome := Failed(NullReference);
      } else {
        outcome := Played(audioSource.value, clips[indexToPlay]);
      }
      assert outcome == Resolve(lib, indexToPlay);
    }

    /** Switches the music source to clip `index` of the music library and plays it. */
    method ChangeMusic(index: int) returns (fault: Option<Fault>)
      modifies this
      ensures (fault, music) == MusicChanged(old(music), index)
      ensures soundEffects == old(soundEffects) && extras == old(extras)
    {
      var clips := music.clips;
      if music.source.None? {
        return Some(NullReference);
      }
      music := music.(source := Some(music.source.value.(playing := false)));
      if !(0 <= index < |clips|) {
        return Some(IndexOutOfRange);
      }
      music := music.(source := Some(music.source.value.(clip := Some(clips[index]))));
      music := music.(source := Some(music.source.value.(playing := true)));
      fault := None;
    }

    /** The first manager becomes the instance; any later one destroys itself. */
    method SingletonCheck(registry: AudioRegistry)
      modifies registry
      ensures old(registry.instance) != null ==>
        registry.instance == old(registry.instance) && registry.destroyed == old(registry.destroyed) + {this}
      ensures old(registry.instance) == null ==>
        registry.instance == this && registry.destroyed == old(registry.destroyed)
    {
      if registry.instance != null {
        registry.destroyed := registry.destroyed + {this};
        return;
      }
      registry.instance := this;
    }

    /** `Awake` runs the singleton check. */
    method Awake(registry: AudioRegistry)
      modifies registry
      ensures registry.instance == if old(registry.instance) == null then this else old(registry.instance)
      ensures this in registry.destroyed <==> this in old(registry.destroyed) || old(registry.instance) != null
    {
      SingletonCheck(registry);
    }
  }
}
