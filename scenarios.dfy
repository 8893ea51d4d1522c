/** Client scenarios of the coordinator: each method drives a `Coordinator` through
    a sequence of events and asserts what its contracts then guarantee. */
module Scenarios {
  import opened Js
  import opened DriftCorrector
  import opened MediaCoordinator

  /** A first visit (nothing stored): whatever the browser allows, the page
      never tries to play audio until the toggle is used. */
  method FreshVisitorHearsNothing(page: Page, videoPlays: bool, audioPlays: bool) {
    var c := new Coordinator(page, map[]);
    c.Boot(videoPlays, audioPlays);
    assert c.audioPlayGates == [];
    assert !c.soundEnabled && c.syncHandle == None;
    assert c.status == if videoPlays then "" else TapToStart;
  }

  /** Sound stored "on" but never unlocked: start-up turns it off and stores "off". */
  method StoredOnWithoutUnlock(page: Page, audioPlays: bool) {
    var c := new Coordinator(page, map[SoundKey := "on"]);
    assert c.soundEnabled && !c.userUnlockedAudio;
    c.Boot(true, audioPlays);
    assert c.audioPlayGates == [];
    assert !c.soundEnabled && c.storage[SoundKey] == "off";
  }

  /** The toggle is clicked and the browser still refuses the audio: the
      unlock key is stored anyway, sound falls back to off with the blocked
      message, and no sync interval runs. */
  method ToggleRejected(page: Page, videoPlays: bool) {
    var c := new Coordinator(page, map[]);
    c.Boot(videoPlays, false);
    c.ClickSoundToggle(false);
    assert StoredUnlocked(c.storage) && c.storage[SoundKey] == "off";
    assert !c.soundEnabled && c.status == SoundBlocked;
    assert c.syncHandle == None && c.liveTimers == {};
    assert |c.audioPlayGates| == 1;
  }

  /** The unlock key, once stored by the toggle, survives turning sound off
      and a later rejected start. */
  method UnlockIsARatchet(page: Page) {
    var c := new Coordinator(page, map[]);
    c.Boot(true, true);
    c.ClickSoundToggle(true);
    assert c.soundEnabled && StoredUnlocked(c.storage) && |c.liveTimers| == 1;
    c.ClickSoundToggle(true);
    assert !c.soundEnabled && c.liveTimers == {};
    c.ClickSoundToggle(false);
    assert !c.soundEnabled && StoredUnlocked(c.storage);
  }

  /** A returning visitor with sound on hides and shows the tab: hiding pauses
      the audio while the sync interval stays registered; showing restarts the
      audio with one fresh interval in place of the old one. */
  method HideAndShow(page: Page, stored: map<string, string>)
    requires StoredSoundOn(stored) && StoredUnlocked(stored)
  {
    var c := new Coordinator(page, stored);
    c.Boot(true, true);
    assert c.soundEnabled && c.syncHandle.Some?;
    var before := c.syncHandle;
    c.VisibilityChange(true, true);
    assert c.audio.paused && c.syncHandle == before;
    c.VisibilityChange(false, true);
    assert !c.audio.paused && c.syncHandle.Some? && c.syncHandle != before;
    assert c.liveTimers == {c.syncHandle.value};
  }

  /** After a video error the audio may still start, but it is never seeked again. */
  method VideoErrorStopsCorrection(page: Page, video: Media) {
    var c := new Coordinator(page, map[]);
    c.Boot(true, true);
    c.OnVideoError();
    assert c.status == VideoMissing;
    c.video := video;
    var before := c.audio;
    c.ClickSoundToggle(true);
    SyncQuietWhenGuarded(true, false, c.video, before);
    assert c.audio == before.(paused := false);
    var playing := c.audio;
    c.SyncAudioToVideo();
    assert c.audio == playing;
  }
}
