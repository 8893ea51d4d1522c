/** The drift corrector of script.js: the audio element is kept at a position
    derived from the video element's position, wrapped modulo the audio track's
    length, and is only moved when it has drifted by more than a fixed tolerance. */
module DriftCorrector {
  import opened Js

  /** What the coordinator reads of a media element (and, for audio, the one
      thing it writes: the playback position). */
  datatype Media = Media(
    paused: bool,
    currentTime: JsNumber,
    duration: JsNumber,
    readyState: nat,   // HAVE_NOTHING (0) .. HAVE_ENOUGH_DATA (4)
    src: string)

  /** The drift allowed before the audio is re-seeked, in seconds. */
  const Tolerance: real := 0.35

  /** `HAVE_CURRENT_DATA`: below this the video has no frame at its position. */
  const HaveCurrentData: nat := 2

  /** A duration that `safeModulo` accepts: finite and positive. */
  predicate PositiveFinite(d: JsNumber) {
    d.Finite? && d.val > 0.0
  }

  /** `safeModulo(value, duration)`: `((value % duration) + duration) % duration`
      with JavaScript's truncating `%`, or 0 when the duration is falsy,
      non-finite or not positive. It is the floor-based modulo: its result lies
      in `[0, d)` and differs from `value` by a whole number of periods,
      negative `value` included. */
  function SafeModulo(value: real, duration: JsNumber): (r: real)
    ensures !PositiveFinite(duration) ==> r == 0.0
    ensures PositiveFinite(duration) ==> 0.0 <= r < duration.val && r == FloorMod(value, duration.val)
  {
    if !NumberTruthy(duration) || !IsFinite(duration) || duration.val <= 0.0 then 0.0
    else
      DoubleRemainderIsFloorMod(value, duration.val);
      FloorModBounds(value, duration.val);
      JsRem(JsRem(value, duration.val) + duration.val, duration.val)
  }

  /** `((value % d) + d) % d` is the floor-based modulo of `value` by `d`. */
  lemma DoubleRemainderIsFloorMod(value: real, d: real)
    requires d > 0.0
    ensures JsRem(JsRem(value, d) + d, d) == FloorMod(value, d)
  {
    var m := JsRem(value, d);
    assert -d < m < d && SamePhase(value, m, d);
    var y := m + d;
    assert 0.0 < y;
    var r := JsRem(y, d);
    assert SamePhase(y, r, d);
    var i :| value - m == Times(d, i);
    var j :| y - r == Times(d, j);
    TimesShift(d, i, j);
    assert value - r == Times(d, i + j - 1);
    FloorModBounds(value, d);
    PhaseUnique(value, r, FloorMod(value, d), d);
  }

  /** The audio position the video position calls for:
      `audio.duration ? safeModulo(video.currentTime, audio.duration) : video.currentTime`. */
  function DesiredAudioTime(videoTime: real, audioDuration: JsNumber): (r: real)
    ensures PositiveFinite(audioDuration) ==>
      0.0 <= r < audioDuration.val && r == FloorMod(videoTime, audioDuration.val)
    ensures !NumberTruthy(audioDuration) ==> r == videoTime
    ensures NumberTruthy(audioDuration) && !PositiveFinite(audioDuration) ==> r == 0.0
  {
    if NumberTruthy(audioDuration) then SafeModulo(videoTime, audioDuration) else videoTime
  }

  /** `Math.abs(audioTime - desired) > 0.35`: NaN compares false, an infinite
      position is always too far. */
  predicate GapExceeds(audioTime: JsNumber, desired: real) {
    match audioTime
    case Finite(t) => Abs(t - desired) > Tolerance
    case NaN => false
    case _ => true
  }

  /** The guards of `syncAudioToVideo` that make it a no-op before any
      position is computed. */
  predicate SyncApplies(soundEnabled: bool, videoSyncEnabled: bool, video: Media, audio: Media) {
    && soundEnabled && !audio.paused && videoSyncEnabled
    && !video.paused && video.readyState >= HaveCurrentData
    && IsFinite(video.duration) && video.duration.val > 0.0
    && IsFinite(video.currentTime)
  }

  /** The seek `syncAudioToVideo` performs: `Some(t)` when it writes
      `audio.currentTime := t`, `None` when it returns without a write. A seek
      happens only past the guards and past the tolerance, and when the audio
      length is known it lands inside the track, on the video position taken
      modulo that length. The
      source's `Number.isFinite(desiredTime)` test always passes here, since
      both ways of computing the desired time give a finite value. */
  function SyncTarget(soundEnabled: bool, videoSyncEnabled: bool, video: Media, audio: Media): (r: Option<real>)
    ensures r.Some? ==>
      && SyncApplies(soundEnabled, videoSyncEnabled, video, audio)
      && GapExceeds(audio.currentTime, r.value)
      && (PositiveFinite(audio.duration) ==>
            0.0 <= r.value < audio.duration.val && r.value == FloorMod(video.currentTime.val, audio.duration.val))
  {
    if !SyncApplies(soundEnabled, videoSyncEnabled, video, audio) then None
    else
      var desired := DesiredAudioTime(video.currentTime.val, audio.duration);
      if GapExceeds(audio.currentTime, desired) then Some(desired) else None
  }

  /** The audio element after one run of `syncAudioToVideo`. */
  function CorrectedAudio(soundEnabled: bool, videoSyncEnabled: bool, video: Media, audio: Media): (a: Media)
    ensures a == audio.(currentTime := a.currentTime)
  {
    match SyncTarget(soundEnabled, videoSyncEnabled, video, audio)
    case Some(t) => audio.(currentTime := Finite(t))
    case None => audio
  }

  /** Every guard of `syncAudioToVideo` on its own makes it a no-op. */
  lemma SyncQuietWhenGuarded(soundEnabled: bool, videoSyncEnabled: bool, video: Media, audio: Media)
    requires || !soundEnabled || audio.paused || !videoSyncEnabled
             || video.paused || video.readyState < HaveCurrentData
             || !IsFinite(video.duration) || video.duration.val <= 0.0
             || !IsFinite(video.currentTime)
    ensures SyncTarget(soundEnabled, videoSyncEnabled, video, audio) == None
    ensures CorrectedAudio(soundEnabled, videoSyncEnabled, video, audio) == audio
  {
  }

  /** Once the guards pass, the audio is moved exactly when its finite position
      is more than the tolerance away from the desired one (at exactly 0.35 it
      stays), and it is moved to the desired position. */
  lemma SyncSeeksBeyondTolerance(soundEnabled: bool, videoSyncEnabled: bool, video: Media, audio: Media, t: real)
    requires SyncApplies(soundEnabled, videoSyncEnabled, video, audio)
    requires audio.currentTime == Finite(t)
    ensures var desired := DesiredAudioTime(video.currentTime.val, audio.duration);
      && (SyncTarget(soundEnabled, videoSyncEnabled, video, audio).Some? <==> Abs(t - desired) > Tolerance)
      && (Abs(t - desired) > Tolerance ==>
            CorrectedAudio(soundEnabled, videoSyncEnabled, video, audio).currentTime == Finite(desired))
  {
  }

  /** Correction converges in one step: right after a run, a second run with
      the same video state moves nothing. */
  lemma CorrectionIdempotent(soundEnabled: bool, videoSyncEnabled: bool, video: Media, audio: Media)
    ensures var once := CorrectedAudio(soundEnabled, videoSyncEnabled, video, audio);
      && (once != audio ==> SyncTarget(soundEnabled, videoSyncEnabled, video, once) == None)
      && CorrectedAudio(soundEnabled, videoSyncEnabled, video, once) == once
  {
  }
}
