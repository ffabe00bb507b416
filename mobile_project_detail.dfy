/**
 * The split-pane case-study view (components/MobileProjectDetail.tsx, whose
 * component is named `ProjectDetail`): a written pane with a reading-progress
 * bar and a video pane with a thumbnail overlay, custom controls and an
 * `MM:SS` clock.
 *
 * The video element and the written pane's scroll container are reached
 * through refs that are empty before mounting; each handler gets what it
 * reads of them as an `Option`. Playback times are whole seconds.
 */
module MobileProjectDetail {
  import opened Wrappers
  import opened Types
  import opened JsString

  // ---------------------------------------------------------------------
  // The clock

  /** `Math.floor(time / 60)` zero-padded to two digits; wider minute counts are kept whole. */
  function MinutesField(t: nat): string {
    PadStart(NatToString(t / 60), 2, '0')
  }

  /** `Math.floor(time % 60)` zero-padded to two digits. */
  function SecondsField(t: nat): string {
    PadStart(NatToString(t % 60), 2, '0')
  }

  /** `formatTime`: the minutes field, a colon, the seconds field. */
  function FormatTime(t: nat): string {
    MinutesField(t) + ":" + SecondsField(t)
  }

  /** Both fields are decimal numerals of at least two digits, and they denote the minutes and the seconds. */
  lemma FormatTimeFields(t: nat)
    ensures AllDigits(MinutesField(t)) && |MinutesField(t)| >= 2
    ensures ParseDecimal(MinutesField(t)) == t / 60
    ensures AllDigits(SecondsField(t)) && |SecondsField(t)| == 2
    ensures ParseDecimal(SecondsField(t)) == t % 60 && 0 <= t % 60 <= 59
  {
    ParseNatToString(t / 60);
    ParseZeroPadded(NatToString(t / 60), 2);
    ParseNatToString(t % 60);
    ParseZeroPadded(NatToString(t % 60), 2);
    NatToStringLength(t % 60);
  }

  /** Below 100 minutes the clock is exactly `MM:SS`: five characters, the colon at index 2, digits elsewhere. */
  lemma FormatTimeShape(t: nat)
    requires t < 6000
    ensures var c := FormatTime(t);
      |c| == 5 && c[2] == ':' && AllDigits(c[..2]) && AllDigits(c[3..])
      && c[..2] == MinutesField(t) && c[3..] == SecondsField(t)
  {
    FormatTimeFields(t);
    NatToStringLength(t / 60);
    var c := FormatTime(t);
    assert c[..2] == MinutesField(t);
    assert c[3..] == SecondsField(t);
  }

  /** Padding never truncates: from 100 minutes on the minutes field has three or more digits. */
  lemma FormatTimeLongMinutes(t: nat)
    requires t >= 6000
    ensures |MinutesField(t)| >= 3 && |FormatTime(t)| >= 6
    ensures MinutesField(t) == NatToString(t / 60)
  {
    NatToStringLength(t / 60);
  }

  /** The position of the first occurrence of `c` in `s`. */
  function IndexOf(s: string, c: char): (r: Option<nat>)
    ensures r.None? <==> c !in s
    ensures r.Some? ==> r.value < |s| && s[r.value] == c && c !in s[..r.value]
    decreases |s|
  {
    if s == [] then None
    else if s[0] == c then Some(0)
    else match IndexOf(s[1..], c)
      case None => None
      case Some(i) =>
        assert s[..i + 1] == [s[0]] + s[1..][..i];
        Some(i + 1)
  }

  /** Reads an `M…M:SS` clock back as seconds: two non-empty digit fields around the first colon. */
  function ParseClock(s: string): Option<nat> {
    match IndexOf(s, ':')
    case None => None
    case Some(i) =>
      var mm, ss := s[..i], s[i + 1..];
      if mm != [] && ss != [] && AllDigits(mm) && AllDigits(ss)
      then Some(60 * ParseDecimal(mm) + ParseDecimal(ss))
      else None
  }

  /** Round trip: reading the clock back gives the whole seconds it was formatted from, for every time. */
  lemma FormatTimeRoundTrip(t: nat)
    ensures ParseClock(FormatTime(t)) == Some(t)
  {
    FormatTimeFields(t);
    var mm, ss := MinutesField(t), SecondsField(t);
    var c := FormatTime(t);
    assert ':' !in mm;
    assert c[..|mm|] == mm && c[|mm|] == ':';
    assert IndexOf(c, ':') == Some(|mm|);
    assert c[|mm| + 1..] == ss;
  }

  // ---------------------------------------------------------------------
  // Reading progress

  /** What `handleScroll` reads of the written pane. */
  datatype ScrollMetrics = ScrollMetrics(scrollTop: int, scrollHeight: int, clientHeight: int)

  /**
   * The reading progress in percent. A pane that does not scroll reads 100,
   * and only a pane that does scroll reaches the division.
   */
  function ReadingProgress(m: ScrollMetrics): (pct: real)
    ensures m.scrollHeight == m.clientHeight ==> pct == 100.0
    ensures m.scrollHeight != m.clientHeight ==>
      pct * ((m.scrollHeight - m.clientHeight) as real) == (m.scrollTop as real) * 100.0
  {
    if m.scrollHeight == m.clientHeight then 100.0
    else var range := (m.scrollHeight - m.clientHeight) as real;
      assert range != 0.0;
      (m.scrollTop as real / range) * 100.0
  }

  /** A scroll position inside the scrollable range reads as a percentage between 0 and 100. */
  lemma ReadingProgressBounds(m: ScrollMetrics)
    requires m.scrollHeight > m.clientHeight
    requires 0 <= m.scrollTop <= m.scrollHeight - m.clientHeight
    ensures 0.0 <= ReadingProgress(m) <= 100.0
    ensures m.scrollTop == 0 ==> ReadingProgress(m) == 0.0
    ensures m.scrollTop == m.scrollHeight - m.clientHeight ==> ReadingProgress(m) == 100.0
  {
    var range := (m.scrollHeight - m.clientHeight) as real;
    var top := m.scrollTop as real;
    assert 0.0 <= top / range <= 1.0;
  }

  // ---------------------------------------------------------------------
  // Player state

  /** What the handlers read of the video element. */
  datatype VideoElement = VideoElement(paused: bool, currentTime: nat)

  datatype PlayerState = PlayerState(
    hasStarted: bool,
    isPlaying: bool,
    currentTimeStr: string,
    readingProgress: real)

  const Initial := PlayerState(false, false, "00:00", 0.0)

  /** The initial clock is the formatted time zero. */
  lemma InitialClockIsZero()
    ensures Initial.currentTimeStr == FormatTime(0)
  {
  }

  /** `startVideo`, its immediate part: the thumbnail is dismissed for good. */
  function OnStartVideo(s: PlayerState): PlayerState {
    s.(hasStarted := true)
  }

  /** The callback `startVideo` schedules for 10 ms later: with the video mounted it starts playing. */
  function OnDelayedPlay(s: PlayerState, video: Option<VideoElement>): PlayerState {
    if video.Some? then s.(isPlaying := true) else s
  }

  /** `togglePlay`: a paused video is played, a playing one paused; without a video nothing happens. */
  function OnTogglePlay(s: PlayerState, video: Option<VideoElement>): (r: PlayerState)
    ensures video.Some? ==> r == s.(isPlaying := video.value.paused)
    ensures video.None? ==> r == s
  {
    match video
    case None => s
    case Some(v) => if v.paused then s.(isPlaying := true) else s.(isPlaying := false)
  }

  /** `handleTimeUpdate`, its clock part: the clock shows the video's current time. */
  function OnTimeUpdate(s: PlayerState, video: Option<VideoElement>): PlayerState {
    if video.Some? then s.(currentTimeStr := FormatTime(video.value.currentTime)) else s
  }

  /** `handleScroll`: with the pane mounted the progress is recomputed. */
  function OnWrittenScroll(s: PlayerState, pane: Option<ScrollMetrics>): PlayerState {
    if pane.Some? then s.(readingProgress := ReadingProgress(pane.value)) else s
  }

  datatype PlayerEvent =
    | StartVideo
    | DelayedPlay(delayedVideo: Option<VideoElement>)
    | TogglePlay(toggledVideo: Option<VideoElement>)
    | Ended
    | Played
    | Paused
    | TimeUpdate(updatedVideo: Option<VideoElement>)
    | WrittenScroll(pane: Option<ScrollMetrics>)

  function Step(s: PlayerState, e: PlayerEvent): PlayerState {
    match e
    case StartVideo => OnStartVideo(s)
    case DelayedPlay(v) => OnDelayedPlay(s, v)
    case TogglePlay(v) => OnTogglePlay(s, v)
    case Ended => s.(isPlaying := false)
    case Played => s.(isPlaying := true)
    case Paused => s.(isPlaying := false)
    case TimeUpdate(v) => OnTimeUpdate(s, v)
    case WrittenScroll(pane) => OnWrittenScroll(s, pane)
  }

  function Run(s: PlayerState, events: seq<PlayerEvent>): PlayerState
    decreases |events|
  {
    if events == [] then s else Run(Step(s, events[0]), events[1..])
  }

  /** Along any events `hasStarted` only ever becomes true, and it is true once the video has been started. */
  lemma {:induction false} RunKeepsStarted(s: PlayerState, events: seq<PlayerEvent>)
    ensures s.hasStarted ==> Run(s, events).hasStarted
    ensures StartVideo in events ==> Run(s, events).hasStarted
    decreases |events|
  {
    if events != [] {
      RunKeepsStarted(Step(s, events[0]), events[1..]);
      if StartVideo in events && events[0] != StartVideo {
        assert StartVideo in events[1..];
      }
    }
  }

  /** The clock shows some formatted whole-second time. */
  ghost predicate ShowsClock(s: PlayerState) {
    exists t: nat :: s.currentTimeStr == FormatTime(t)
  }

  /** Only a time update with the video mounted changes the clock. */
  lemma StepClockUnchanged(s: PlayerState, e: PlayerEvent)
    ensures Step(s, e).currentTimeStr != s.currentTimeStr ==> e.TimeUpdate? && e.updatedVideo.Some?
  {
  }

  /** Every event leaves the clock showing a formatted time: a time update shows the video's, any other event keeps the old one. */
  lemma StepKeepsClock(s: PlayerState, e: PlayerEvent)
    requires ShowsClock(s)
    ensures ShowsClock(Step(s, e))
  {
    var t: nat :| s.currentTimeStr == FormatTime(t);
    if e.TimeUpdate? && e.updatedVideo.Some? {
      assert Step(s, e).currentTimeStr == FormatTime(e.updatedVideo.value.currentTime);
    } else {
      StepClockUnchanged(s, e);
      assert Step(s, e).currentTimeStr == FormatTime(t);
    }
  }

  /** From the initial state, after any events, the clock shows a formatted time. */
  lemma {:induction false} RunKeepsClock(s: PlayerState, events: seq<PlayerEvent>)
    requires ShowsClock(s)
    ensures ShowsClock(Run(s, events))
    decreases |events|
  {
    if events != [] {
      StepKeepsClock(s, events[0]);
      RunKeepsClock(Step(s, events[0]), events[1..]);
    }
  }

  lemma ReachableClock(events: seq<PlayerEvent>)
    ensures ShowsClock(Run(Initial, events))
  {
    InitialClockIsZero();
    RunKeepsClock(Initial, events);
  }

  // ---------------------------------------------------------------------
  // The video pane

  /** What the video frame shows: the hero image alone, the video under its thumbnail, or the video with its controls. */
  datatype VideoPane = HeroImageOnly | ThumbnailOverlay | Controls(showsPauseIcon: bool)

  /** `project.videoUrl ? … : …` with `!hasStarted` and `hasStarted` choosing the overlay. */
  function VideoPaneFor(p: Project, s: PlayerState): (pane: VideoPane)
    ensures pane.HeroImageOnly? <==> p.videoUrl.None? || p.videoUrl.value == ""
    ensures pane.ThumbnailOverlay? <==> p.videoUrl.Some? && p.videoUrl.value != "" && !s.hasStarted
    ensures pane.Controls? <==> p.videoUrl.Some? && p.videoUrl.value != "" && s.hasStarted
    ensures pane.Controls? ==> pane.showsPauseIcon == s.isPlaying
  {
    if p.videoUrl.None? || p.videoUrl.value == "" then HeroImageOnly
    else if !s.hasStarted then ThumbnailOverlay
    else Controls(s.isPlaying)
  }

  // ---------------------------------------------------------------------
  // The component's state, updated in place

  class ProjectDetailPlayer {
    var hasStarted: bool
    var isPlaying: bool
    var currentTimeStr: string
    var readingProgress: real

    function State(): PlayerState
      reads this
    {
      PlayerState(hasStarted, isPlaying, currentTimeStr, readingProgress)
    }

    constructor ()
      ensures State() == Initial
    {
      hasStarted, isPlaying, currentTimeStr, readingProgress := false, false, "00:00", 0.0;
    }

    method StartVideo()
      modifies this
      ensures State() == OnStartVideo(old(State()))
      ensures hasStarted && isPlaying == old(isPlaying)
      ensures currentTimeStr == old(currentTimeStr) && readingProgress == old(readingProgress)
    {
      hasStarted := true;
    }

    method DelayedPlay(video: Option<VideoElement>)
      modifies this
      ensures State() == OnDelayedPlay(old(State()), video)
      ensures isPlaying == (old(isPlaying) || video.Some?) && hasStarted == old(hasStarted)
      ensures currentTimeStr == old(currentTimeStr) && readingProgress == old(readingProgress)
    {
      if video.Some? {
        isPlaying := true;
      }
    }

    method TogglePlay(video: Option<VideoElement>)
      modifies this
      ensures State() == OnTogglePlay(old(State()), video)
      ensures isPlaying == (if video.Some? then video.value.paused else old(isPlaying))
      ensures hasStarted == old(hasStarted)
      ensures currentTimeStr == old(currentTimeStr) && readingProgress == old(readingProgress)
    {
      if video.Some? {
        if video.value.paused {
          isPlaying := true;
        } else {
          isPlaying := false;
        }
      }
    }

    /** The video element's `ended`, `play` and `pause` events. */
    method HandleMediaEvent(e: PlayerEvent)
      requires e == Ended || e == Played || e == Paused
      modifies this
      ensures State() == Step(old(State()), e)
      ensures isPlaying == e.Played? && hasStarted == old(hasStarted)
      ensures currentTimeStr == old(currentTimeStr) && readingProgress == old(readingProgress)
    {
      isPlaying := e.Played?;
    }

    method HandleTimeUpdate(video: Option<VideoElement>)
      modifies this
      ensures State() == OnTimeUpdate(old(State()), video)
      ensures currentTimeStr == if video.Some? then FormatTime(video.value.currentTime) else old(currentTimeStr)
      ensures hasStarted == old(hasStarted) && isPlaying == old(isPlaying)
      ensures readingProgress == old(readingProgress)
    {
      if video.Some? {
        currentTimeStr := FormatTime(video.value.currentTime);
      }
    }

    method HandleScroll(pane: Option<ScrollMetrics>)
      modifies this
      ensures State() == OnWrittenScroll(old(State()), pane)
      ensures readingProgress == if pane.Some? then ReadingProgress(pane.value) else old(readingProgress)
      ensures pane.Some? && pane.value.scrollHeight == pane.value.clientHeight ==> readingProgress == 100.0
      ensures hasStarted == old(hasStarted) && isPlaying == old(isPlaying)
      ensures currentTimeStr == old(currentTimeStr)
    {
      if pane.Some? {
        var m := pane.value;
        if m.scrollHeight == m.clientHeight {
          readingProgress := 100.0;
        } else {
          readingProgress := (m.scrollTop as real / (m.scrollHeight - m.clientHeight) as real) * 100.0;
        }
      }
    }
  }
}
