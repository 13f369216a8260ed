/** When a scene adds the narration's audio to the video, and how the tracker a
    cache policy yields feeds that decision and the scene's waits. */
module NarrationSound {
  import opened JavaText
  import opened TtsStore
  import opened SceneTiming

  /** Python truthiness of `tracker.audio_path`: None and "" are false. */
  predicate HasPath(t: Tracker)
  {
    t.audioPath.Some? && t.audioPath.value != []
  }

  /** `if tracker.audio_path and tracker.duration > 0:` of 15.py, sled.py and
      fx_xx.py. Throws is the TypeError of comparing a None duration with 0,
      which `and` reaches only behind a path. */
  function CheckedSound(t: Tracker): (r: Completion<bool>)
    ensures r == Returns(true) <==> HasPath(t) && t.duration.Some? && t.duration.value > 0.0
    ensures r == Throws <==> HasPath(t) && t.duration.None?
  {
    if !HasPath(t) then Returns(false)
    else if t.duration.None? then Throws
    else Returns(t.duration.value > 0.0)
  }

  /** 12.py's `audio_duration = tracker.duration if tracker.audio_path else 0`. */
  function CubesAudioDuration(t: Tracker): Option<real>
  {
    if HasPath(t) then t.duration else Some(0.0)
  }

  /** 12.py's `if tracker.audio_path and audio_duration > 0:` */
  function CubesSound(t: Tracker): Completion<bool>
  {
    if !HasPath(t) then Returns(false)
    else match CubesAudioDuration(t)
      case None => Throws
      case Some(d) => Returns(d > 0.0)
  }

  /** Going through `audio_duration` decides exactly as the direct check does,
      and the duration it then waits on is positive exactly when sound plays. */
  lemma CubesSoundIsChecked(t: Tracker)
    ensures CubesSound(t) == CheckedSound(t)
    ensures CubesSound(t) == Returns(true) <==> CubesAudioDuration(t).Some? && CubesAudioDuration(t).value > 0.0
  {
  }

  /** avoid_flood.py's `if tracker.audio_path:`; the other scripts call
      `add_sound` unconditionally. */
  predicate PathSound(t: Tracker)
  {
    HasPath(t)
  }

  /** The tracker of a failed fetch adds no sound under either check. */
  lemma SilentIsSilent()
    ensures CheckedSound(Silent) == Returns(false) && CubesSound(Silent) == Returns(false)
    ensures !PathSound(Silent)
  {
  }

  /** 15.py: whenever the scene adds sound, the path it adds is a file of the
      cache after the call. */
  lemma NeverRaiseSoundIsCached(files: map<string, Bytes>, text: string, token: string, baseUrl: string, tts: Tts)
    ensures var c := NeverRaiseCall(files, text, token, baseUrl, tts);
      c.outcome.Yielded? && CheckedSound(c.outcome.tracker) == Returns(true) ==>
        c.outcome.tracker.audioPath == Some(CacheFilename(CacheDir, text, tts))
        && CacheFilename(CacheDir, text, tts) in c.files
  {
  }

  /** 12.py and fx_xx.py: the same for the policy that catches request errors
      only; and its sound check never fails on a None duration. */
  lemma RequestOnlySoundIsCached(files: map<string, Bytes>, text: string, token: string, baseUrl: string, tts: Tts)
    ensures var c := RequestOnlyCall(files, text, token, baseUrl, tts);
      c.outcome.Yielded? ==> !CubesSound(c.outcome.tracker).Throws? && !CheckedSound(c.outcome.tracker).Throws?
    ensures var c := RequestOnlyCall(files, text, token, baseUrl, tts);
      c.outcome.Yielded? && CubesSound(c.outcome.tracker) == Returns(true) ==>
        c.outcome.tracker.audioPath == Some(CacheFilename(CacheDir, text, tts))
        && CacheFilename(CacheDir, text, tts) in c.files
  {
  }

  /** sled.py: the sound is added only from a non-empty cached file; a file left
      empty by a failed request gives a zero duration, so the scene takes its
      fixed 2-second wait instead (a block of 15.1 s in scene 1). */
  lemma SledSoundNeedsAudio(files: map<string, Bytes>, text: string, token: string, baseUrl: string, tts: Tts)
    ensures var c := PoisoningCall(files, text, token, baseUrl, tts);
      var path := CacheFilename(CacheDir, text, tts);
      c.outcome.Yielded? && CheckedSound(c.outcome.tracker) == Returns(true) ==>
        path in c.files && |c.files[path]| > 0
    ensures var c := PoisoningCall(files, text, token, baseUrl, tts);
      var path := CacheFilename(CacheDir, text, tts);
      path in files && files[path] == [] ==>
        c.outcome == Yielded(Tracker(Some(path), Some(0.0)))
        && CheckedSound(c.outcome.tracker) == Returns(false)
        && GuardedBlock(c.outcome.tracker.duration.value, SledScene1Planned, SledScene1Planned, 1.0, 2.0) == 15.1
  {
    SledScene1(0.0);
  }

  /** avoid_flood.py: every yielded tracker that carries a path carries a
      duration from a file of the cache, and a failed fetch yields zero waits. */
  lemma DefaultFiveSoundIsCached(files: map<string, Bytes>, text: string, token: string, baseUrl: string, tts: Tts)
    ensures var c := DefaultFiveCall(files, text, token, baseUrl, tts);
      c.outcome.Yielded? && PathSound(c.outcome.tracker) ==>
        c.outcome.tracker.audioPath == Some(CacheFilename(CacheDir, text, tts))
        && CacheFilename(CacheDir, text, tts) in c.files
  {
  }
}
