/** The source selector of script.js: which video file to load, chosen once at
    start-up from the viewport and codec capabilities and the candidate URLs the
    page declares on the elements, and when to actually reassign a source. */
module SourceSelector {
  import opened Js

  /** The candidate URLs declared as `data-*` attributes of the video element;
      an absent attribute is `None`. */
  datatype VideoCandidates = VideoCandidates(
    mobileWebm: Option<string>,
    mobileSrc: Option<string>,
    desktopWebm: Option<string>,
    desktopSrc: Option<string>)

  /** The value of `desiredVideoSrc`: the priority chain of early returns. */
  function DesiredVideoSrc(prefersMobile: bool, supportsWebm: bool, c: VideoCandidates): (r: string)
    ensures r == FirstNonEmpty(Ranked(prefersMobile, supportsWebm, c))
  {
    var s := Ranked(prefersMobile, supportsWebm, c);
    FirstNonEmptyOfFour(s[0], s[1], s[2], s[3]);
    assert s == [s[0], s[1], s[2], s[3]];
    if prefersMobile && supportsWebm && StringTruthy(c.mobileWebm) then c.mobileWebm.value
    else if prefersMobile && StringTruthy(c.mobileSrc) then c.mobileSrc.value
    else if supportsWebm && StringTruthy(c.desktopWebm) then c.desktopWebm.value
    else OrEmpty(c.desktopSrc)
  }

  /** The candidates in priority order, each one blanked out when the
      capability it needs is missing: mobile WebM, mobile, desktop WebM, desktop. */
  function Ranked(prefersMobile: bool, supportsWebm: bool, c: VideoCandidates): (s: seq<string>)
    ensures |s| == 4
  {
    [ if prefersMobile && supportsWebm then OrEmpty(c.mobileWebm) else "",
      if prefersMobile then OrEmpty(c.mobileSrc) else "",
      if supportsWebm then OrEmpty(c.desktopWebm) else "",
      OrEmpty(c.desktopSrc) ]
  }

  /** The first non-empty string of `s`, or "" when there is none. */
  function FirstNonEmpty(s: seq<string>): (r: string)
    ensures r == "" <==> forall i :: 0 <= i < |s| ==> s[i] == ""
    ensures r != "" ==> exists i :: 0 <= i < |s| && s[i] == r && forall j :: 0 <= j < i ==> s[j] == ""
  {
    if |s| == 0 then ""
    else if s[0] != "" then s[0]
    else
      var r := FirstNonEmpty(s[1..]);
      assert forall i :: 1 <= i < |s| ==> s[i] == s[1..][i - 1];
      r
  }

  /** `FirstNonEmpty` on four strings is the first non-empty one of them, else the last. */
  lemma FirstNonEmptyOfFour(a: string, b: string, c: string, d: string)
    ensures FirstNonEmpty([a, b, c, d]) == if a != "" then a else if b != "" then b else if c != "" then c else d
  {
    assert [d][1..] == [];
    assert FirstNonEmpty([d]) == d;
    assert [c, d][1..] == [d];
    assert FirstNonEmpty([c, d]) == if c != "" then c else d;
    assert [b, c, d][1..] == [c, d];
    assert FirstNonEmpty([b, c, d]) == if b != "" then b else if c != "" then c else d;
    assert [a, b, c, d][1..] == [b, c, d];
  }

  /** The chosen source is one of the declared candidates (or "" when none
      applies), and every candidate ranked above it was absent or not eligible. */
  lemma DesiredVideoSrcIsFirstEligible(prefersMobile: bool, supportsWebm: bool, c: VideoCandidates)
    ensures var r := DesiredVideoSrc(prefersMobile, supportsWebm, c);
      && (r == "" <==> forall i :: 0 <= i < 4 ==> Ranked(prefersMobile, supportsWebm, c)[i] == "")
      && (r == "" || Some(r) in {c.mobileWebm, c.mobileSrc, c.desktopWebm, c.desktopSrc})
  {
  }

  /** `video.currentSrc || video.getAttribute("src") || ""`: the resolved
      source when there is one, else the attribute, and "" only when both are. */
  function CurrentSource(currentSrc: string, srcAttribute: string): (r: string)
    ensures currentSrc != "" ==> r == currentSrc
    ensures currentSrc == "" ==> r == srcAttribute
    ensures r == "" <==> currentSrc == "" && srcAttribute == ""
  {
    if currentSrc != "" then currentSrc else srcAttribute
  }

  /** The reassignment guard: `Some(desired)` when `video.src = desired` runs,
      `None` when the source is left alone. An empty choice is never assigned,
      and neither is one the current source already ends with. */
  function VideoSrcAssignment(desired: string, current: string): (r: Option<string>)
    ensures r.Some? ==> r.value == desired && desired != ""
    ensures r.Some? <==> desired != "" && !EndsWith(current, desired)
    ensures current == desired ==> r == None
  {
    if desired != "" && !EndsWith(current, desired) then Some(desired) else None
  }

  /** The source the element ends up with after the guard. */
  function SourceAfterGuard(desired: string, current: string): (r: string)
    ensures desired != "" ==> EndsWith(r, desired)
    ensures r != current ==> r == desired
  {
    match VideoSrcAssignment(desired, current)
    case Some(s) => assert s[|s| - |s|..] == s; s
    case None => current
  }

  /** The guard is idempotent: running it again on the source it left assigns nothing. */
  lemma VideoSrcGuardIdempotent(desired: string, current: string)
    ensures VideoSrcAssignment(desired, SourceAfterGuard(desired, current)) == None
    ensures SourceAfterGuard(desired, SourceAfterGuard(desired, current)) == SourceAfterGuard(desired, current)
  {
  }

  /** The audio fallback: `audio.src = fallbackSrc` when a fallback is declared
      and the browser reports no MP4 audio support. */
  function AudioSrcAfterFallback(fallbackSrc: Option<string>, canPlayMp4: bool, src: string): (r: string)
    ensures r != src ==> StringTruthy(fallbackSrc) && !canPlayMp4 && r == fallbackSrc.value
    ensures StringTruthy(fallbackSrc) && !canPlayMp4 ==> Some(r) == fallbackSrc
  {
    if StringTruthy(fallbackSrc) && !canPlayMp4 then fallbackSrc.value else src
  }
}
