# Runway media coordinator, modelled in Dafny

`script.js` drives the hero film of a portfolio page: a `<video>` element and
a separate `<audio>` element that is kept in phase with it. Under its DOM
wiring sits a small decision layer, which this project models and verifies:

- **Source selection** (`SourceSelector`): which video file to load, by a
  strict priority over the viewport, WebM support and four optional
  candidate URLs. A guard keeps a source that is already in place. The audio
  fallback applies when MP4 audio is unsupported.
- **Drift correction** (`DriftCorrector`): `safeModulo` and
  `syncAudioToVideo`. The audio should sit at the video position taken
  modulo the audio length. It is re-seeked only when it has drifted more
  than 0.35 s, and a list of guards makes the step a no-op.
- **Playback gate** (`MediaCoordinator`): a `Coordinator` class whose fields
  are the script's mutable state. That is `soundEnabled`, the start-up
  `userUnlockedAudio` flag, `syncHandle`, `videoSyncEnabled`, the status
  line, the toggle's pressed state and the two `localStorage` keys
  (`runway_sound`, `runway_sound_unlocked`). Its methods are the script's
  functions and event handlers.

The browser becomes data:
- Media elements are `Media` records.
- `localStorage` is a map.
- Live intervals are a set of handles.
- Each `play()` promise is a boolean parameter of the transition that awaits
  it: resolved or rejected.

JavaScript numbers are `JsNumber` (a real, NaN or an infinity), with
truthiness and `Number.isFinite` written out. The truncating `%` is
modelled as written (`Js.JsRem`).

Every handler keeps the invariant `Settled()`. It says:
- The only live interval is the one `syncHandle` holds, so at most one sync
  timer exists.
- Sound is on only if the unlock key is stored.
- The toggle shows `soundEnabled`.
- The status line holds one of the script's five messages.
- Every `audio.play()` ever issued happened with sound enabled and unlocked.
  A ghost log (`audioPlayGates`) records this at each call.

`scenarios.dfy` drives the class through event sequences: a first visit,
a refused toggle, the unlock ratchet, hiding and showing the tab, and a
video error. It asserts what the contracts guarantee.

Points where the code's behaviour is easy to misread (the model follows the
code):
- `userUnlockedAudio` is a constant read once at start-up. The toggle stores
  the unlock key but never updates the variable. The stored key acts as the
  ratchet here, and only `applySoundPreference` reads the constant.
- Hiding the tab pauses the audio but does not stop the sync interval
  (script.js:182-188). The interval keeps firing and does nothing while the
  audio is paused. Showing the tab with sound on runs `startAudio` again. If
  that `audio.play()` resolves, exactly one fresh interval replaces the old
  one. If it is rejected, `stopSyncLoop` runs (script.js:126) and no interval
  is left.
- When the audio duration is negative or infinite, the desired position is
  0, not the video position. The duration is truthy there, and `safeModulo`
  rejects it. A zero or NaN duration gives the video position.
- An `error` event only disables drift correction (video) or sets a message
  (audio, and only while sound is on). Nothing else is disabled.
- The tolerance is exactly 0.35 s. The interval is 1000 ms.

## Model

| member | source | states |
|---|---|---|
| `DriftCorrector.SafeModulo` | script.js:57-62 | `safeModulo` returns 0 when the duration is falsy, non-finite or not positive. Otherwise its value is the floor-based modulo of the value, negative values included, and lies in `[0, d)`. |
| `DriftCorrector.DoubleRemainderIsFloorMod` | script.js:61 | `((value % d) + d) % d`, with the truncating `%`, equals the floor-based modulo for every finite value. |
| `Js.JsRem` | script.js:61 | JavaScript's truncating `%` by a positive `d` gives a result in `[0, d)` for a non-negative dividend and in `(-d, 0]` for a negative one. The result differs from the dividend by whole periods. |
| `Js.RemainderSign` | script.js:61 | Taking away the truncated quotient's whole periods leaves a value strictly inside `(-d, d)` with the dividend's sign. |
| `Js.PhaseUnique` | script.js:61 | Two values in `[0, d)` that differ from the same value by whole periods are equal. This is what makes the double `%` the floor modulo. |
| `DriftCorrector.DesiredAudioTime` | script.js:79 | With a known positive audio length, the desired audio position is the video position modulo that length, in `[0, length)`. With a falsy length it is the video position. With a truthy length that `safeModulo` rejects it is 0. |
| `DriftCorrector.SyncQuietWhenGuarded` | script.js:64-77 | Any one of the guards leaves the audio untouched. The guards: sound off, audio paused, drift correction off, video paused, `readyState < 2`, a non-finite or non-positive video duration, or a non-finite video position. |
| `DriftCorrector.SyncSeeksBeyondTolerance` | script.js:79-86 | Once the guards pass, the audio moves exactly when `abs(audio.currentTime - desired) > 0.35`. At exactly 0.35 it stays. When it moves, it moves to the desired position. |
| `DriftCorrector.SyncTarget` | script.js:79-86 | A seek happens only past the guards and past the tolerance. With a known audio length, it lands on the video position modulo that length. |
| `DriftCorrector.CorrectedAudio` | script.js:84-86 | One sync step changes nothing but the audio position. |
| `DriftCorrector.CorrectionIdempotent` | script.js:64-87 | A second sync step right after a first one, with the same video state, changes nothing. Correction converges in one step. |
| `MediaCoordinator.Coordinator.SyncAudioToVideo` | script.js:64-87 | The method leaves the audio exactly as `CorrectedAudio` says and touches no other field. After a video error it never seeks. The sync interval and the `seeked`/`playing`/`ended` listeners (script.js:93, 178-180) call it. |
| `SourceSelector.DesiredVideoSrc` | script.js:23-34 | The chosen source is the first non-empty entry of the ranked candidate list: mobile WebM (mobile and WebM), mobile (mobile), desktop WebM (WebM), desktop. If there is none, it is `""`. |
| `SourceSelector.FirstNonEmpty` | script.js:23-34 | The result is `""` exactly when every entry is empty. Otherwise it is an entry preceded only by empty ones. |
| `SourceSelector.DesiredVideoSrcIsFirstEligible` | script.js:23-34 | The chosen source is `""` exactly when no eligible candidate is present. A non-empty result is one of the declared candidate URLs. |
| `SourceSelector.CurrentSource` | script.js:37 | The current source is `currentSrc` when that is non-empty, else the `src` attribute. It is `""` exactly when both are empty. |
| `SourceSelector.VideoSrcAssignment` | script.js:36-41 | `video.src` is assigned exactly when the desired source is non-empty and the current source does not end with it, and then it is assigned the desired source. A source equal to the desired one is never reassigned. |
| `SourceSelector.SourceAfterGuard` | script.js:36-41 | After the guard, the source ends with the desired one whenever that is non-empty. If the source changed, it became the desired one. |
| `SourceSelector.VideoSrcGuardIdempotent` | script.js:36-41 | Running the guard again on the source it left assigns nothing and changes nothing. |
| `SourceSelector.AudioSrcAfterFallback` | script.js:43-45 | The audio source changes only to the declared fallback. It does so when a fallback is declared and MP4 audio is unsupported. |
| `MediaCoordinator.Coordinator.constructor` | script.js:20-50 | Start-up state: the video source follows the selection and the guard, and the audio source follows the fallback. `soundEnabled` is the stored "on" and `userUnlockedAudio` is the stored "1". There is no timer, and drift correction is on. |
| `MediaCoordinator.Coordinator.SetSoundButtonState` | script.js:52-55 | The toggle's pressed state becomes `soundEnabled`. Nothing else changes. |
| `MediaCoordinator.Coordinator.StartSyncLoop` | script.js:89-94 | The previous interval is cleared. Exactly one interval, with a fresh handle, is live afterwards. |
| `MediaCoordinator.Coordinator.StopSyncLoop` | script.js:96-101 | No interval is live and the handle is cleared. |
| `MediaCoordinator.Coordinator.AttemptVideoAutoplay` | script.js:103-112 | A resolved `video.play()` leaves the video playing and clears the status. A rejected one shows the tap-to-start message. |
| `MediaCoordinator.Coordinator.StartAudio` | script.js:114-129 | The gate value is logged, and the initial sync step runs. On resolve: the audio plays, the status is cleared, and exactly one fresh interval runs. On reject: sound is turned off, the toggle is updated, "off" is stored, the blocked message is shown, and no interval runs. |
| `MediaCoordinator.Coordinator.StartAudioUnlocked` | script.js:157-159 | `startAudio` as the toggle runs it, with sound on and the unlock key stored. The `audio.play()` it reaches is logged as allowed. On resolve sound stays on with one fresh interval. On reject sound is off, "off" is stored and the blocked message is shown. |
| `MediaCoordinator.AudioAfterStart` | script.js:114-119 | After `startAudio`, the audio has only been seeked by the sync step and, on resolve, set playing. |
| `MediaCoordinator.Coordinator.StopAudio` | script.js:131-134 | The audio is paused and no interval runs. |
| `MediaCoordinator.Coordinator.ApplySoundPreference` | script.js:136-152 | `audio.play()` is reached exactly when sound is enabled and was unlocked at start-up. Enabled but not unlocked, sound is turned off and "off" is stored, and nothing else changes. Disabled, the audio is stopped. |
| `MediaCoordinator.TwoKeyWrites` | script.js:155-160 | The toggle's three storage writes leave the same map as storing the unlock key and then the final sound value. |
| `MediaCoordinator.Coordinator.ClickSoundToggle` | script.js:154-168 | Turning sound on stores the unlock key (kept for good), makes one gated audio start, and stores "on" or "off" by its outcome. Turning it off stores "off", pauses the audio, stops the interval and clears the status. |
| `MediaCoordinator.Coordinator.ClickPlayButton` | script.js:170-176 | The video play is retried. With sound on, the audio is started and its outcome applied. With sound off, nothing else changes. |
| `MediaCoordinator.Coordinator.VisibilityChange` | script.js:182-193 | Hiding pauses the audio and keeps the interval and all other state. Showing with sound on makes one gated audio start: on resolve one fresh interval replaces the old one, on reject sound is turned off, "off" is stored and no interval is left. Showing with sound off changes nothing. |
| `MediaCoordinator.Coordinator.OnVideoError` | script.js:195-198 | Drift correction is switched off, and no other method switches it back on. The missing-video message is shown. |
| `MediaCoordinator.Coordinator.OnAudioError` | script.js:200-204 | The missing-audio message is shown only while sound is on. Otherwise the status stays. |
| `MediaCoordinator.Coordinator.Boot` | script.js:206-208 | After start-up the invariant holds. Sound stays on only if it was stored on, was unlocked, and the audio started; then a sync interval runs and storage is unchanged. A fresh visitor never reaches `audio.play()`. With sound off at start the audio is paused; stored on but never unlocked, the audio is untouched; otherwise it is as `startAudio` leaves it. The status ends cleared when sound is on, blocked when the audio was refused, and otherwise follows the video's autoplay. |

## Left out

- DOM lookup and the early return when an element is missing (script.js:6-14) are left out. So are listener registration, the play button's `hidden` class and the toggle's label text. The toggle is modelled by its pressed state only.
- `matchMedia`, `canPlayType`, `currentSrc`, the `src` attribute and `dataset` are inputs of the constructor. How the browser computes them is not modelled.
- After `video.src` is assigned, the browser resolves `currentSrc` to an absolute URL. The model keeps the assigned string, so the guard's idempotence is stated on that string.
- Promises and async scheduling are left out. Each handler runs as one atomic step, with the outcome of each `play()` as a parameter. Events that arrive while a `play()` is pending are not modelled. At start-up the video's promise is taken to settle before the audio's.
- Of a media element, the model keeps: a resolved `play()` leaves it playing and a rejected one leaves it as it was. A seek sets the position exactly. All else the browser does with the element is left out.
- Interval timing (`SYNC_INTERVAL_MS = 1000`) is left out. A tick is a call to `SyncAudioToVideo`.
- IEEE floating point is left out. A finite number is a real, so rounding does not occur. `safeModulo` is only called with a finite value (script.js:74), so its first argument is a real. Because of this, the `Number.isFinite(desiredTime)` test (script.js:80-82) always passes in the model.
- `localStorage` is an in-memory map. Exceptions from `setItem`, unavailable storage and writes from other tabs are not modelled.
- The timecode display, keyboard and stage-tap unlock gestures, and the autoplay re-entrancy guard belong to other variants of the site. `script.js` does not contain them, so they are not part of this model.
