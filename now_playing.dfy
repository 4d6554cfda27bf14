/*
 * `NowPlayingManager`: the lock-screen record of the current track, built
 * afresh on every update, and the five remote-control commands it forwards
 * to the player as notifications.
 */
module NowPlaying {
  import opened Foundation
  import opened Decimal
  import opened TimeFormatter

  /** A `UIImage`, known by its encoded bytes. */
  datatype Image = Image(data: Bytes)

  /** The `MPMediaItemProperty…` / `MPNowPlayingInfoProperty…` keys the record uses. */
  datatype InfoKey = Title | PlaybackDuration | ElapsedPlaybackTime | PlaybackRate | Artist | Artwork

  datatype InfoValue = Text(text: string) | Number(number: real) | Picture(image: Image)

  type Info = map<InfoKey, InfoValue>

  const MoonPrefix: string := "\U{1F319} "

  /** Whether the sleep-timer overlay is shown: a remaining time that is present and positive. */
  predicate ShowsSleepTimer(sleepTimerRemaining: Option<real>)
  {
    sleepTimerRemaining.Some? && sleepTimerRemaining.value > 0.0
  }

  /** `String(format: "🌙 %02d:%02d", minutes, seconds)` for `Int(remaining)`. */
  function SleepTimerText(remaining: real): (text: string)
    ensures |text| > |MoonPrefix| && text[..|MoonPrefix|] == MoonPrefix
  {
    var n := Trunc(remaining);
    MoonPrefix + Format02D(Quot(n, 60)) + ":" + Format02D(Rem(n, 60))
  }

  /** `updateNowPlayingInfo(title:duration:currentTime:isPlaying:artwork:sleepTimerRemaining:)`'s record. */
  function NowPlayingInfo(
    title: string, duration: real, currentTime: real, isPlaying: bool,
    artwork: Option<Image>, sleepTimerRemaining: Option<real>): (info: Info)
    ensures Title in info && info[Title] == Text(title)
    ensures PlaybackDuration in info && info[PlaybackDuration] == Number(duration)
    ensures ElapsedPlaybackTime in info && info[ElapsedPlaybackTime] == Number(currentTime)
    ensures PlaybackRate in info && info[PlaybackRate] == Number(if isPlaying then 1.0 else 0.0)
    ensures Artist in info <==> ShowsSleepTimer(sleepTimerRemaining)
    ensures Artist in info ==> info[Artist] == Text(SleepTimerText(sleepTimerRemaining.value))
    ensures Artwork in info <==> artwork.Some?
    ensures Artwork in info ==> info[Artwork] == Picture(artwork.value)
    ensures |info.Keys| == 4 + (if ShowsSleepTimer(sleepTimerRemaining) then 1 else 0) + (if artwork.Some? then 1 else 0)
  {
    var base := map[
      Title := Text(title),
      PlaybackDuration := Number(duration),
      ElapsedPlaybackTime := Number(currentTime),
      PlaybackRate := Number(if isPlaying then 1.0 else 0.0)];
    var withArtist :=
      if ShowsSleepTimer(sleepTimerRemaining)
      then base[Artist := Text(SleepTimerText(sleepTimerRemaining.value))]
      else base;
    if artwork.Some? then withArtist[Artwork := Picture(artwork.value)] else withArtist
  }

  /**
   * The overlay is the moon, a space and a clock that reads back as the whole
   * seconds left: minutes and seconds, both at least two digits, and the
   * minutes padded to no more than two (no leading zero beyond `%02d`).
   */
  lemma {:induction false} SleepTimerTextReadsBack(remaining: real)
    requires remaining > 0.0
    ensures SleepTimerText(remaining)[..|MoonPrefix|] == MoonPrefix
    ensures ParseClock(SleepTimerText(remaining)[|MoonPrefix|..]) == Some(Trunc(remaining))
    ensures var parts := SplitColons(SleepTimerText(remaining)[|MoonPrefix|..]);
            && |parts| == 2 && |parts[0]| >= 2 && |parts[1]| == 2
            && (|parts[0]| > 2 ==> parts[0][0] != '0')
  {
    var n := Trunc(remaining);
    var m, s := Format02D(Quot(n, 60)), Format02D(Rem(n, 60));
    PaddedField(Quot(n, 60));
    TwoDigitField(Rem(n, 60));
    assert SleepTimerText(remaining) == MoonPrefix + (m + ":" + s);
    assert SleepTimerText(remaining)[|MoonPrefix|..] == m + ":" + s;
    ReadTwoFields(m, s);
  }

  /** Two positive remaining times show the same overlay exactly when their whole seconds agree. */
  lemma {:induction false} SleepTimerTextDistinguishesSeconds(r1: real, r2: real)
    requires r1 > 0.0 && r2 > 0.0
    ensures SleepTimerText(r1) == SleepTimerText(r2) <==> Trunc(r1) == Trunc(r2)
  {
    SleepTimerTextReadsBack(r1);
    SleepTimerTextReadsBack(r2);
  }

  /** The overlays the manager's tests expect, and a fraction of a second left. */
  lemma SleepTimerTextExamples()
    ensures SleepTimerText(300.0) == MoonPrefix + "05:00"
    ensures SleepTimerText(630.0) == MoonPrefix + "10:30"
    ensures SleepTimerText(1.0) == MoonPrefix + "00:01"
    ensures SleepTimerText(59.0) == MoonPrefix + "00:59"
    ensures SleepTimerText(0.5) == MoonPrefix + "00:00"
  {
    assert Trunc(300.0) == 300 && Quot(300, 60) == 5 && Rem(300, 60) == 0;
    assert Trunc(630.0) == 630 && Quot(630, 60) == 10 && Rem(630, 60) == 30;
    assert Trunc(1.0) == 1 && Quot(1, 60) == 0 && Rem(1, 60) == 1;
    assert Trunc(59.0) == 59 && Quot(59, 60) == 0 && Rem(59, 60) == 59;
    assert Trunc(0.5) == 0 && Quot(0, 60) == 0 && Rem(0, 60) == 0;
    assert NatToString(10) == "10" && NatToString(30) == "30" && NatToString(59) == "59";
  }

  /**
   * An absent and a zero remaining time both leave the artist key out (it is
   * not set to blank text), so the two records are equal.
   */
  lemma NoOverlayWithoutTimeLeft(
    title: string, duration: real, currentTime: real, isPlaying: bool, artwork: Option<Image>)
    ensures Artist !in NowPlayingInfo(title, duration, currentTime, isPlaying, artwork, None)
    ensures Artist !in NowPlayingInfo(title, duration, currentTime, isPlaying, artwork, Some(0.0))
    ensures NowPlayingInfo(title, duration, currentTime, isPlaying, artwork, None)
         == NowPlayingInfo(title, duration, currentTime, isPlaying, artwork, Some(0.0))
  {
  }

  /** The record `MPNowPlayingInfoCenter.default()` holds, as this manager sets it. */
  class NowPlayingManager {
    var nowPlayingInfo: Option<Info>

    constructor()
      ensures nowPlayingInfo.None?
    {
      nowPlayingInfo := None;
    }

    /** `updateNowPlayingInfo(...)`: the published record is replaced, never merged. */
    method UpdateNowPlayingInfo(
      title: string, duration: real, currentTime: real, isPlaying: bool,
      artwork: Option<Image>, sleepTimerRemaining: Option<real>)
      modifies this
      ensures nowPlayingInfo == Some(NowPlayingInfo(title, duration, currentTime, isPlaying, artwork, sleepTimerRemaining))
    {
      nowPlayingInfo := Some(NowPlayingInfo(title, duration, currentTime, isPlaying, artwork, sleepTimerRemaining));
    }

    /** `clearNowPlayingInfo()`. */
    method ClearNowPlayingInfo()
      modifies this
      ensures nowPlayingInfo.None?
    {
      nowPlayingInfo := None;
    }
  }

  /**
   * A previously published overlay or artwork does not survive an update
   * that omits it.
   */
  method UpdateDropsStaleKeys(m: NowPlayingManager, image: Image)
    modifies m
    ensures m.nowPlayingInfo.Some?
    ensures Artist !in m.nowPlayingInfo.value && Artwork !in m.nowPlayingInfo.value
  {
    m.UpdateNowPlayingInfo("A", 100.0, 10.0, true, Some(image), Some(120.0));
    assert Artist in m.nowPlayingInfo.value && Artwork in m.nowPlayingInfo.value;
    m.UpdateNowPlayingInfo("A", 100.0, 11.0, true, None, None);
  }

  // ---------------------------------------------------------------------
  // Remote commands

  /** The five `MPRemoteCommandCenter` commands the manager registers. */
  datatype RemoteCommand = PlayCommand | PauseCommand | TogglePlayPauseCommand | SkipForwardCommand | SkipBackwardCommand

  /** The notification each command's handler posts (and then answers `.success`). */
  function NotificationName(c: RemoteCommand): string
  {
    match c
    case PlayCommand => "remotePlay"
    case PauseCommand => "remotePause"
    case TogglePlayPauseCommand => "remoteTogglePlayPause"
    case SkipForwardCommand => "remoteSkipForward"
    case SkipBackwardCommand => "remoteSkipBackward"
  }

  /** The `preferredIntervals` set on a command; empty where the manager sets none. */
  function PreferredIntervals(c: RemoteCommand): (intervals: seq<real>)
    ensures intervals != [] <==> c.SkipForwardCommand? || c.SkipBackwardCommand?
  {
    if c.SkipForwardCommand? || c.SkipBackwardCommand? then [30.0] else []
  }

  /** The command whose handler posts the notification `name`, if any. */
  function CommandPosting(name: string): (r: Option<RemoteCommand>)
  {
    if name == "remotePlay" then Some(PlayCommand)
    else if name == "remotePause" then Some(PauseCommand)
    else if name == "remoteTogglePlayPause" then Some(TogglePlayPauseCommand)
    else if name == "remoteSkipForward" then Some(SkipForwardCommand)
    else if name == "remoteSkipBackward" then Some(SkipBackwardCommand)
    else None
  }

  /**
   * Each notification name identifies one command: the names are pairwise
   * distinct and a name is recognised exactly when some command posts it.
   */
  lemma {:induction false} NotificationNamesIdentifyCommands(c: RemoteCommand, name: string)
    ensures CommandPosting(NotificationName(c)) == Some(c)
    ensures CommandPosting(name) == Some(c) <==> name == NotificationName(c)
  {
  }

  /** Both skip commands advertise the thirty-second interval the player skips by. */
  lemma SkipIntervals()
    ensures PreferredIntervals(SkipForwardCommand) == [30.0]
    ensures PreferredIntervals(SkipBackwardCommand) == [30.0]
  {
  }
}
