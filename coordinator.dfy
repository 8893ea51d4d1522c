/** The playback gate of script.js: the coordinator's mutable state (sound
    preference, the unlock flag read at start-up, the sync timer handle, the
    drift-correction switch, the status line, the two stored preference keys)
    and the transitions its event handlers make on it.

    The browser is replaced by fields the handlers read and write: the two media
    elements as `Media` records, `localStorage` as a map, the set of live
    intervals as a set of handles. Whether a `play()` promise resolves or rejects
    is a parameter of the transition that awaits it. */
module MediaCoordinator {
  import opened Js
  import opened DriftCorrector
  import opened SourceSelector

  /** The two `localStorage` keys. */
  const SoundKey: string := "runway_sound"
  const UnlockKey: string := "runway_sound_unlocked"

  /** The status line's messages (besides the empty, healthy one). */
  const TapToStart: string := "Tap to start the runway film."
  const SoundBlocked: string := "Sound is blocked until a direct user gesture."
  const VideoMissing: string := "Runway video file is missing. Add files to /assets as documented."
  const AudioMissing: string := "Runway audio file is missing. Add files to /assets as documented."

  /** The status line only ever shows one of the script's messages. */
  predicate StatusMessage(s: string) {
    s in {"", TapToStart, SoundBlocked, VideoMissing, AudioMissing}
  }

  /** `localStorage.getItem(SOUND_KEY) === "on"` */
  predicate StoredSoundOn(storage: map<string, string>) {
    SoundKey in storage && storage[SoundKey] == "on"
  }

  /** `localStorage.getItem(UNLOCK_KEY) === "1"`: a direct user gesture turned sound on once. */
  predicate StoredUnlocked(storage: map<string, string>) {
    UnlockKey in storage && storage[UnlockKey] == "1"
  }

  /** The live intervals a timer handle accounts for. */
  function HandleSet(h: Option<nat>): set<nat> {
    if h.Some? then {h.value} else {}
  }

  /** The audio element after `startAudio` with sound on: the initial
      `syncAudioToVideo`, then playing if `audio.play()` resolved. */
  function AudioAfterStart(videoSyncEnabled: bool, video: Media, audio: Media, audioPlays: bool): (a: Media)
    ensures a.currentTime == CorrectedAudio(true, videoSyncEnabled, video, audio).currentTime
    ensures a.paused == (audio.paused && !audioPlays)
    ensures a == audio.(currentTime := a.currentTime, paused := a.paused)
  {
    var synced := CorrectedAudio(true, videoSyncEnabled, video, audio);
    if audioPlays then synced.(paused := false) else synced
  }

  /** The toggle's writes: "on", the unlock key, and possibly "off" again,
      leave the same storage as the unlock key followed by the final value. */
  lemma TwoKeyWrites(m: map<string, string>)
    ensures m[SoundKey := "on"][UnlockKey := "1"] == m[UnlockKey := "1"][SoundKey := "on"]
    ensures m[SoundKey := "on"][UnlockKey := "1"][SoundKey := "off"] == m[UnlockKey := "1"][SoundKey := "off"]
  {
  }

  /** What the script finds on the page when it starts. */
  datatype Page = Page(
    prefersMobile: bool,              // matchMedia("(max-width: 768px)").matches
    supportsWebm: bool,               // video.canPlayType("video/webm") !== ""
    candidates: VideoCandidates,      // video.dataset
    videoCurrentSrc: string,          // video.currentSrc
    video: Media,
    audioFallbackSrc: Option<string>, // audio.dataset.fallbackSrc
    canPlayMp4: bool,                 // audio.canPlayType("audio/mp4") !== ""
    audio: Media,
    soundButtonPressed: bool,         // the toggle's aria-pressed before the script runs
    status: string)                   // the status line before the script runs

  class Coordinator {
    var soundEnabled: bool
    /** Read once at start-up and never updated: the toggle stores the unlock
        key but does not change this flag. */
    const userUnlockedAudio: bool
    var syncHandle: Option<nat>
    var videoSyncEnabled: bool

    var storage: map<string, string>
    var status: string
    var buttonPressed: bool
    var video: Media
    var audio: Media
    /** The intervals the browser will keep firing, and the next handle it hands out. */
    var liveTimers: set<nat>
    var nextTimerId: nat
    /** For each `audio.play()` issued so far: whether sound was enabled and
        unlocked at that moment. */
    ghost var audioPlayGates: seq<bool>

    /** The structure every handler keeps: the only live interval is the one
        `syncHandle` holds, handles are fresh, and the unlock flag read at
        start-up stays in storage. */
    ghost predicate Valid()
      reads this
    {
      && liveTimers == HandleSet(syncHandle)
      && 0 < nextTimerId
      && (forall t :: t in liveTimers ==> 0 < t < nextTimerId)
      && (userUnlockedAudio ==> StoredUnlocked(storage))
    }

    /** No `audio.play()` has ever been issued without sound enabled and unlocked. */
    ghost predicate GatesKept()
      reads this
    {
      false !in audioPlayGates
    }

    /** The state between two events, once start-up has run. */
    ghost predicate Settled()
      reads this
    {
      && Valid()
      && GatesKept()
      && (soundEnabled ==> StoredUnlocked(storage))
      && buttonPressed == soundEnabled
      && StatusMessage(status)
    }

    /** Start-up up to the first handler: source selection, the audio fallback,
        and the state read from storage. */
    constructor (page: Page, stored: map<string, string>)
      ensures Valid() && GatesKept() && audioPlayGates == []
      ensures storage == stored && status == page.status && buttonPressed == page.soundButtonPressed
      ensures soundEnabled == StoredSoundOn(stored)
      ensures userUnlockedAudio == StoredUnlocked(stored)
      ensures syncHandle == None && liveTimers == {} && videoSyncEnabled
      ensures var desired := DesiredVideoSrc(page.prefersMobile, page.supportsWebm, page.candidates);
        var current := CurrentSource(page.videoCurrentSrc, page.video.src);
        video == page.video.(src := if VideoSrcAssignment(desired, current).Some? then desired else page.video.src)
      ensures audio == page.audio.(src := AudioSrcAfterFallback(page.audioFallbackSrc, page.canPlayMp4, page.audio.src))
    {
      var desired := DesiredVideoSrc(page.prefersMobile, page.supportsWebm, page.candidates);
      var v := page.video;
      if desired != "" {
        var current := CurrentSource(page.videoCurrentSrc, page.video.src);
        if !EndsWith(current, desired) {
          v := v.(src := desired);
        }
      }
      video := v;
      var a := page.audio;
      if StringTruthy(page.audioFallbackSrc) && !page.canPlayMp4 {
        a := a.(src := page.audioFallbackSrc.value);
      }
      audio := a;
      soundEnabled := StoredSoundOn(stored);
      userUnlockedAudio := StoredUnlocked(stored);
      syncHandle := None;
      videoSyncEnabled := true;
      storage := stored;
      status := page.status;
      buttonPressed := page.soundButtonPressed;
      liveTimers := {};
      nextTimerId := 1;
      audioPlayGates := [];
    }

    /** `setSoundButtonState`: the toggle shows whether sound is on. */
    method SetSoundButtonState()
      modifies this`buttonPressed
      ensures buttonPressed == soundEnabled
    {
      buttonPressed := soundEnabled;
    }

    /** `syncAudioToVideo`, run by the sync interval and on the video's
        `seeked`, `playing` and `ended` events. Its one possible effect is a
        seek of the audio; once a video error has switched drift correction
        off, it never seeks again. */
    method SyncAudioToVideo()
      modifies this`audio
      ensures audio == CorrectedAudio(soundEnabled, videoSyncEnabled, video, old(audio))
      ensures !videoSyncEnabled ==> audio == old(audio)
    {
      if !soundEnabled || audio.paused || !videoSyncEnabled {
        return;
      }
      if video.paused || video.readyState < HaveCurrentData || !IsFinite(video.duration)
         || video.duration.val <= 0.0 || !IsFinite(video.currentTime) {
        return;
      }
      var desiredTime := if NumberTruthy(audio.duration) then SafeModulo(video.currentTime.val, audio.duration)
                         else video.currentTime.val;
      if GapExceeds(audio.currentTime, desiredTime) {
        audio := audio.(currentTime := Finite(desiredTime));
      }
    }

    /** `startSyncLoop`: the previous interval is cleared before a new one is
        registered, so exactly one runs afterwards. */
    method StartSyncLoop()
      requires Valid()
      modifies this`syncHandle, this`liveTimers, this`nextTimerId
      ensures Valid()
      ensures syncHandle == Some(old(nextTimerId)) && liveTimers == {old(nextTimerId)}
      ensures nextTimerId == old(nextTimerId) + 1
    {
      if syncHandle.Some? {
        liveTimers := liveTimers - {syncHandle.value};
      }
      var handle := nextTimerId;
      nextTimerId := nextTimerId + 1;
      liveTimers := liveTimers + {handle};
      syncHandle := Some(handle);
    }

    /** `stopSyncLoop`: afterwards no interval runs. */
    method StopSyncLoop()
      requires Valid()
      modifies this`syncHandle, this`liveTimers
      ensures Valid()
      ensures syncHandle == None && liveTimers == {}
    {
      if syncHandle.Some? {
        liveTimers := liveTimers - {syncHandle.value};
        syncHandle := None;
      }
    }

    /** `attemptVideoAutoplay`, with `videoPlays` saying whether `video.play()` resolves. */
    method AttemptVideoAutoplay(videoPlays: bool)
      modifies this`video, this`status
      ensures video == if videoPlays then old(video).(paused := false) else old(video)
      ensures status == if videoPlays then "" else TapToStart
    {
      if videoPlays {
        video := video.(paused := false);
        status := "";
      } else {
        status := TapToStart;
      }
    }

    /** `startAudio`, with `audioPlays` saying whether `audio.play()` resolves.
        A resolved start clears the status and leaves exactly one sync interval;
        a rejected one turns sound off, stores "off", reports the block and
        leaves no interval. */
    method StartAudio(audioPlays: bool) returns (started: bool)
      requires Valid()
      modifies this`audio, this`status, this`syncHandle, this`liveTimers, this`nextTimerId,
               this`soundEnabled, this`buttonPressed, this`storage, this`audioPlayGates
      ensures Valid() && started == audioPlays
      ensures audioPlayGates == old(audioPlayGates) + [old(soundEnabled && StoredUnlocked(storage))]
      ensures var synced := old(CorrectedAudio(soundEnabled, videoSyncEnabled, video, audio));
        audio == if audioPlays then synced.(paused := false) else synced
      ensures audioPlays ==>
        && status == "" && syncHandle == Some(old(nextTimerId)) && liveTimers == {old(nextTimerId)}
        && nextTimerId == old(nextTimerId) + 1
        && soundEnabled == old(soundEnabled) && storage == old(storage) && buttonPressed == old(buttonPressed)
      ensures !audioPlays ==>
        && !soundEnabled && !buttonPressed && storage == old(storage)[SoundKey := "off"]
        && status == SoundBlocked && syncHandle == None && liveTimers == {}
        && nextTimerId == old(nextTimerId)
    {
      SyncAudioToVideo();
      audioPlayGates := audioPlayGates + [soundEnabled && StoredUnlocked(storage)];
      if audioPlays {
        audio := audio.(paused := false);
        status := "";
        StartSyncLoop();
        started := true;
      } else {
        soundEnabled := false;
        SetSoundButtonState();
        storage := storage[SoundKey := "off"];
        status := SoundBlocked;
        StopSyncLoop();
        started := false;
      }
    }

    /** `stopAudio`: the audio is paused and no sync interval is left. */
    method StopAudio()
      requires Valid()
      modifies this`audio, this`syncHandle, this`liveTimers
      ensures Valid()
      ensures audio == old(audio).(paused := true)
      ensures syncHandle == None && liveTimers == {}
    {
      audio := audio.(paused := true);
      StopSyncLoop();
    }

    /** `applySoundPreference`, run once at start-up. It reaches `audio.play()`
        only when sound is enabled and was unlocked in an earlier visit; enabled
        but never unlocked, sound is turned off and "off" is stored. */
    method ApplySoundPreference(audioPlays: bool)
      requires Valid() && GatesKept() && StatusMessage(status)
      modifies this`audio, this`status, this`syncHandle, this`liveTimers, this`nextTimerId,
               this`soundEnabled, this`buttonPressed, this`storage, this`audioPlayGates
      ensures Settled()
      ensures StoredUnlocked(old(storage)) ==> StoredUnlocked(storage)
      ensures audioPlayGates == old(audioPlayGates) + if old(soundEnabled) && userUnlockedAudio then [true] else []
      ensures !old(soundEnabled) ==>
        && !soundEnabled && storage == old(storage) && status == old(status)
        && audio == old(audio).(paused := true) && syncHandle == None && nextTimerId == old(nextTimerId)
      ensures old(soundEnabled) && !userUnlockedAudio ==>
        && !soundEnabled && storage == old(storage)[SoundKey := "off"] && status == old(status)
        && audio == old(audio) && syncHandle == old(syncHandle) && nextTimerId == old(nextTimerId)
      ensures old(soundEnabled) && userUnlockedAudio ==>
        && audio == AudioAfterStart(videoSyncEnabled, video, old(audio), audioPlays)
        && (audioPlays ==>
              && soundEnabled && storage == old(storage) && status == ""
              && syncHandle == Some(old(nextTimerId)) && nextTimerId == old(nextTimerId) + 1)
        && (!audioPlays ==>
              && !soundEnabled && storage == old(storage)[SoundKey := "off"] && status == SoundBlocked
              && syncHandle == None && nextTimerId == old(nextTimerId))
    {
      SetSoundButtonState();
      if !soundEnabled {
        StopAudio();
        return;
      }
      if !userUnlockedAudio {
        soundEnabled := false;
        SetSoundButtonState();
        storage := storage[SoundKey := "off"];
        return;
      }
      var _ := StartAudio(audioPlays);
    }

    /** `startAudio` as the sound toggle runs it: sound is on and the unlock
        key is stored, so the `audio.play()` it reaches is always allowed. */
    method StartAudioUnlocked(audioPlays: bool)
      requires Valid() && GatesKept() && soundEnabled && StoredUnlocked(storage)
      modifies this`audio, this`status, this`syncHandle, this`liveTimers, this`nextTimerId,
               this`soundEnabled, this`buttonPressed, this`storage, this`audioPlayGates
      ensures Valid() && GatesKept()
      ensures StoredUnlocked(storage) && audioPlayGates == old(audioPlayGates) + [true]
      ensures audio == AudioAfterStart(videoSyncEnabled, video, old(audio), audioPlays)
      ensures audioPlays ==>
        && soundEnabled && buttonPressed == old(buttonPressed) && status == "" && storage == old(storage)
        && syncHandle == Some(old(nextTimerId)) && nextTimerId == old(nextTimerId) + 1
      ensures !audioPlays ==>
        && !soundEnabled && !buttonPressed && status == SoundBlocked && storage == old(storage)[SoundKey := "off"]
        && syncHandle == None && nextTimerId == old(nextTimerId)
    {
      ghost var before := audio;
      var _ := StartAudio(audioPlays);
      assert audio == AudioAfterStart(videoSyncEnabled, video, before, audioPlays);
    }

    /** The sound toggle's click handler. Turning sound on stores "on" and the
        unlock key, then starts the audio; turning it off stores "off", pauses
        the audio, stops the sync interval and clears the status. */
    method ClickSoundToggle(audioPlays: bool)
      requires Settled()
      modifies this`audio, this`status, this`syncHandle, this`liveTimers, this`nextTimerId,
               this`soundEnabled, this`buttonPressed, this`storage, this`audioPlayGates
      ensures Settled()
      ensures StoredUnlocked(old(storage)) ==> StoredUnlocked(storage)
      ensures !old(soundEnabled) ==>
        && StoredUnlocked(storage) && audioPlayGates == old(audioPlayGates) + [true]
        && storage == old(storage)[UnlockKey := "1"][SoundKey := if audioPlays then "on" else "off"]
        && audio == AudioAfterStart(videoSyncEnabled, video, old(audio), audioPlays)
        && (audioPlays ==>
              && soundEnabled && status == ""
              && syncHandle == Some(old(nextTimerId)) && nextTimerId == old(nextTimerId) + 1)
        && (!audioPlays ==>
              && !soundEnabled && status == SoundBlocked
              && syncHandle == None && nextTimerId == old(nextTimerId))
      ensures old(soundEnabled) ==>
        && !soundEnabled && storage == old(storage)[SoundKey := "off"] && status == ""
        && audio == old(audio).(paused := true) && syncHandle == None && nextTimerId == old(nextTimerId)
        && audioPlayGates == old(audioPlayGates)
    {
      ghost var stored := storage;
      soundEnabled := !soundEnabled;
      storage := storage[SoundKey := if soundEnabled then "on" else "off"];
      if soundEnabled {
        storage := storage[UnlockKey := "1"];
        StartAudioUnlocked(audioPlays);
        TwoKeyWrites(stored);
      } else {
        StopAudio();
        status := "";
        SetSoundButtonState();
      }
      SetSoundButtonState();
    }

    /** The play button's click handler: retry the video, then the audio if
        sound is on. */
    method ClickPlayButton(videoPlays: bool, audioPlays: bool)
      requires Settled()
      modifies this`video, this`audio, this`status, this`syncHandle, this`liveTimers, this`nextTimerId,
               this`soundEnabled, this`buttonPressed, this`storage, this`audioPlayGates
      ensures Settled()
      ensures StoredUnlocked(old(storage)) ==> StoredUnlocked(storage)
      ensures video == if videoPlays then old(video).(paused := false) else old(video)
      ensures audioPlayGates == old(audioPlayGates) + if old(soundEnabled) then [true] else []
      ensures !old(soundEnabled) ==>
        && !soundEnabled && storage == old(storage) && audio == old(audio)
        && syncHandle == old(syncHandle) && nextTimerId == old(nextTimerId)
        && status == if videoPlays then "" else TapToStart
      ensures old(soundEnabled) ==>
        && audio == AudioAfterStart(videoSyncEnabled, video, old(audio), audioPlays)
        && (audioPlays ==>
              && soundEnabled && storage == old(storage) && status == ""
              && syncHandle == Some(old(nextTimerId)) && nextTimerId == old(nextTimerId) + 1)
        && (!audioPlays ==>
              && !soundEnabled && storage == old(storage)[SoundKey := "off"] && status == SoundBlocked
              && syncHandle == None && nextTimerId == old(nextTimerId))
    {
      AttemptVideoAutoplay(videoPlays);
      if soundEnabled {
        var _ := StartAudio(audioPlays);
        SetSoundButtonState();
      }
    }

    /** The `visibilitychange` handler. Hiding the tab pauses the audio and
        leaves the sync interval as it is; showing it restarts the audio when
        sound is on. */
    method VisibilityChange(hidden: bool, audioPlays: bool)
      requires Settled()
      modifies this`audio, this`status, this`syncHandle, this`liveTimers, this`nextTimerId,
               this`soundEnabled, this`buttonPressed, this`storage, this`audioPlayGates
      ensures Settled()
      ensures StoredUnlocked(old(storage)) ==> StoredUnlocked(storage)
      ensures hidden || !old(soundEnabled) ==>
        && soundEnabled == old(soundEnabled) && storage == old(storage) && status == old(status)
        && syncHandle == old(syncHandle) && nextTimerId == old(nextTimerId)
        && audioPlayGates == old(audioPlayGates)
        && audio == if hidden then old(audio).(paused := true) else old(audio)
      ensures !hidden && old(soundEnabled) ==>
        && audioPlayGates == old(audioPlayGates) + [true]
        && audio == AudioAfterStart(videoSyncEnabled, video, old(audio), audioPlays)
        && (audioPlays ==>
              && soundEnabled && storage == old(storage) && status == ""
              && syncHandle == Some(old(nextTimerId)) && nextTimerId == old(nextTimerId) + 1)
        && (!audioPlays ==>
              && !soundEnabled && storage == old(storage)[SoundKey := "off"] && status == SoundBlocked
              && syncHandle == None && nextTimerId == old(nextTimerId))
    {
      if hidden {
        if !audio.paused {
          audio := audio.(paused := true);
        }
        return;
      }
      if soundEnabled {
        var _ := StartAudio(audioPlays);
      }
    }

    /** The video's `error` handler: drift correction is switched off for the
        rest of the session and the missing file is reported. */
    method OnVideoError()
      requires Settled()
      modifies this`videoSyncEnabled, this`status
      ensures Settled()
      ensures !videoSyncEnabled && status == VideoMissing
    {
      videoSyncEnabled := false;
      status := VideoMissing;
    }

    /** The audio's `error` handler: the missing file is reported only while sound is on. */
    method OnAudioError()
      requires Settled()
      modifies this`status
      ensures Settled()
      ensures status == if soundEnabled then AudioMissing else old(status)
    {
      if soundEnabled {
        status := AudioMissing;
      }
    }

    /** The last three statements of the script: show the toggle state, try to
        autoplay the video, apply the stored sound preference. The video's
        promise is taken to settle before the audio's. */
    method Boot(videoPlays: bool, audioPlays: bool)
      requires Valid() && GatesKept()
      modifies this`video, this`audio, this`status, this`syncHandle, this`liveTimers, this`nextTimerId,
               this`soundEnabled, this`buttonPressed, this`storage, this`audioPlayGates
      ensures Settled()
      ensures video == if videoPlays then old(video).(paused := false) else old(video)
      ensures audioPlayGates == old(audioPlayGates) + if old(soundEnabled) && userUnlockedAudio then [true] else []
      ensures soundEnabled <==> old(soundEnabled) && userUnlockedAudio && audioPlays
      ensures !soundEnabled ==> syncHandle == None || syncHandle == old(syncHandle)
      ensures soundEnabled ==> status == "" && syncHandle == Some(old(nextTimerId))
      ensures !old(soundEnabled) ==> storage == old(storage) && status == (if videoPlays then "" else TapToStart)
      ensures old(soundEnabled) && !(userUnlockedAudio && audioPlays) ==> storage == old(storage)[SoundKey := "off"]
      ensures soundEnabled ==> storage == old(storage)
      ensures audio == if !old(soundEnabled) then old(audio).(paused := true)
                       else if !userUnlockedAudio then old(audio)
                       else AudioAfterStart(videoSyncEnabled, video, old(audio), audioPlays)
      ensures status == if soundEnabled then ""
                        else if old(soundEnabled) && userUnlockedAudio then SoundBlocked
                        else if videoPlays then "" else TapToStart
    {
      SetSoundButtonState();
      AttemptVideoAutoplay(videoPlays);
      ApplySoundPreference(audioPlays);
    }
  }
}
