/*
 * `AudioPlayerManager`: the transport. It owns the `AVAudioPlayer` of the
 * loaded track, mirrors its time once a second while playing, remembers the
 * position of each track in the position store and publishes the
 * lock-screen record.
 *
 * The audio engine is reduced to what the manager reads from it: whether the
 * file exists, the duration the decoder reports (none when the file does not
 * decode), the player's time at each tick, and the decoded artwork image.
 */
module AudioPlayer {
  import opened Foundation
  import opened AudioFiles
  import opened PlaybackState
  import opened NowPlaying

  /** The `AVAudioPlayer` as the manager sees it. */
  datatype Engine = Engine(duration: real, position: real, playing: bool)

  /** Where `skipForward(seconds:)` goes: `min(currentTime + seconds, duration)`. */
  function SkipForwardTarget(currentTime: real, duration: real, seconds: real): (t: real)
    ensures t <= duration && t <= currentTime + seconds
    ensures t == duration || t == currentTime + seconds
  {
    if currentTime + seconds < duration then currentTime + seconds else duration
  }

  /** Where `skipBackward(seconds:)` goes: `max(currentTime - seconds, 0)`. */
  function SkipBackwardTarget(currentTime: real, seconds: real): (t: real)
    ensures t >= 0.0 && t >= currentTime - seconds
    ensures t == 0.0 || t == currentTime - seconds
  {
    if currentTime - seconds > 0.0 then currentTime - seconds else 0.0
  }

  /**
   * Each skip clamps on one side only; from a time inside the track, either
   * skip lands inside it again.
   */
  lemma SkipsStayInTrack(currentTime: real, duration: real, seconds: real)
    requires 0.0 <= currentTime <= duration && seconds >= 0.0
    ensures currentTime <= SkipForwardTarget(currentTime, duration, seconds) <= duration
    ensures 0.0 <= SkipBackwardTarget(currentTime, seconds) <= currentTime
  {
  }

  /** The skips the player's tests make with thirty seconds over a 120-second track. */
  lemma SkipExamples()
    ensures SkipForwardTarget(30.0, 120.0, 30.0) == 60.0
    ensures SkipForwardTarget(100.0, 120.0, 30.0) == 120.0
    ensures SkipBackwardTarget(60.0, 30.0) == 30.0
    ensures SkipBackwardTarget(15.0, 30.0) == 0.0
  {
  }

  /** The time `loadAudio` resumes at: the saved position only when it lies strictly inside the track. */
  function RestoredTime(saved: real, duration: real): (t: real)
    ensures t == saved <==> 0.0 < saved < duration || saved == 0.0
    ensures t != saved ==> t == 0.0
    ensures 0.0 <= t && (duration > 0.0 ==> t < duration)
  {
    if saved > 0.0 && saved < duration then saved else 0.0
  }

  class AudioPlayerManager {
    var isPlaying: bool
    var currentTime: real
    var duration: real
    var currentAudioFile: Option<AudioFile>
    var audioPlayer: Option<Engine>
    var cachedArtworkImage: Option<Image>
    /** Whether `timer` holds a scheduled tick. */
    var timerHeld: bool
    /**
     * Ticks still scheduled although `timer` no longer refers to them:
     * `startTimer` overwrites `timer` without invalidating what it held.
     */
    var orphanedTicks: nat
    const positions: PlaybackStateManager
    const nowPlaying: NowPlayingManager

    /** A player exists exactly while a track is loaded, and only then can it be playing. */
    ghost predicate Valid()
      reads this
    {
      && (audioPlayer.Some? <==> currentAudioFile.Some?)
      && (audioPlayer.None? ==> !isPlaying && duration == 0.0 && cachedArtworkImage.None?)
      && (audioPlayer.Some? ==> duration == audioPlayer.value.duration)
    }

    /** The number of repeating ticks that are running. */
    function LiveTicks(): nat
      reads this
    {
      (if timerHeld then 1 else 0) + orphanedTicks
    }

    /** The record `updateNowPlaying()` publishes for the loaded track. */
    function CurrentRecord(): Info
      requires currentAudioFile.Some?
      reads this
    {
      NowPlayingInfo(currentAudioFile.value.title, duration, currentTime, isPlaying, cachedArtworkImage, None)
    }

    /** The position store after `saveCurrentPosition()` from the state `before`. */
    ghost function SavedFrom(before: map<string, real>): map<string, real>
      reads this
    {
      if currentAudioFile.Some? then before[PositionKey(currentAudioFile.value.id) := currentTime] else before
    }

    /** The published record after `updateNowPlaying()` from the record `before`. */
    ghost function PublishedFrom(before: Option<Info>): Option<Info>
      reads this
    {
      if currentAudioFile.Some? then Some(CurrentRecord()) else before
    }

    /**
     * The state `play()` leaves, against the state before it. Without a
     * player only the published record is cleared; with one the engine
     * runs, a new tick is scheduled on top of those already running, and
     * the current record is published.
     */
    twostate predicate Played()
      reads this, positions, nowPlaying
    {
      && positions.defaults == old(positions.defaults)
      && currentTime == old(currentTime) && duration == old(duration)
      && currentAudioFile == old(currentAudioFile) && cachedArtworkImage == old(cachedArtworkImage)
      && (old(audioPlayer).None? ==>
            && !isPlaying && audioPlayer.None? && nowPlaying.nowPlayingInfo.None?
            && timerHeld == old(timerHeld) && orphanedTicks == old(orphanedTicks))
      && (old(audioPlayer).Some? ==>
            && isPlaying && audioPlayer == Some(old(audioPlayer).value.(playing := true))
            && timerHeld && LiveTicks() == old(LiveTicks()) + 1
            && currentAudioFile.Some? && nowPlaying.nowPlayingInfo == Some(CurrentRecord()))
    }

    /**
     * The state `pause()` leaves, against the state before it: the engine
     * and the held tick are stopped, the position is saved and the record
     * republished; the time and the track stay.
     */
    twostate predicate Paused()
      reads this, positions, nowPlaying
    {
      && !isPlaying && !timerHeld && orphanedTicks == old(orphanedTicks)
      && audioPlayer == (if old(audioPlayer).Some? then Some(old(audioPlayer).value.(playing := false)) else None)
      && currentTime == old(currentTime) && duration == old(duration)
      && currentAudioFile == old(currentAudioFile) && cachedArtworkImage == old(cachedArtworkImage)
      && positions.defaults == SavedFrom(old(positions.defaults))
      && nowPlaying.nowPlayingInfo == PublishedFrom(old(nowPlaying.nowPlayingInfo))
    }

    /**
     * The state `seek(to: time)` leaves, against the state before it: the
     * time and the engine move to `time` and the position is saved; nothing
     * else changes, the published record included.
     */
    twostate predicate MovedTo(time: real)
      reads this, positions, nowPlaying
    {
      && currentTime == time
      && audioPlayer == (if old(audioPlayer).Some? then Some(old(audioPlayer).value.(position := time)) else None)
      && positions.defaults == SavedFrom(old(positions.defaults))
      && isPlaying == old(isPlaying) && duration == old(duration) && currentAudioFile == old(currentAudioFile)
      && cachedArtworkImage == old(cachedArtworkImage)
      && timerHeld == old(timerHeld) && orphanedTicks == old(orphanedTicks)
      && nowPlaying.nowPlayingInfo == old(nowPlaying.nowPlayingInfo)
    }

    constructor(positions: PlaybackStateManager, nowPlaying: NowPlayingManager)
      ensures Valid() && this.positions == positions && this.nowPlaying == nowPlaying
      ensures !isPlaying && currentTime == 0.0 && duration == 0.0 && currentAudioFile.None?
      ensures LiveTicks() == 0
    {
      isPlaying := false;
      currentTime := 0.0;
      duration := 0.0;
      currentAudioFile := None;
      audioPlayer := None;
      cachedArtworkImage := None;
      timerHeld := false;
      orphanedTicks := 0;
      this.positions := positions;
      this.nowPlaying := nowPlaying;
    }

    /** `saveCurrentPosition()`: nothing without a loaded track. */
    method SaveCurrentPosition()
      modifies positions
      ensures positions.defaults == SavedFrom(old(positions.defaults))
    {
      if currentAudioFile.Some? {
        positions.SavePlaybackPosition(currentAudioFile.value.id, currentTime);
      }
    }

    /** `updateNowPlaying()`: nothing without a loaded track; never a sleep-timer overlay. */
    method UpdateNowPlaying()
      modifies nowPlaying
      ensures nowPlaying.nowPlayingInfo == PublishedFrom(old(nowPlaying.nowPlayingInfo))
    {
      if currentAudioFile.Some? {
        nowPlaying.UpdateNowPlayingInfo(
          currentAudioFile.value.title, duration, currentTime, isPlaying, cachedArtworkImage, None);
      }
    }

    /** `startTimer()`. */
    method StartTimer()
      modifies this
      ensures timerHeld && orphanedTicks == old(LiveTicks())
      ensures isPlaying == old(isPlaying) && currentTime == old(currentTime) && duration == old(duration)
      ensures currentAudioFile == old(currentAudioFile) && audioPlayer == old(audioPlayer)
      ensures cachedArtworkImage == old(cachedArtworkImage)
    {
      orphanedTicks := LiveTicks();
      timerHeld := true;
    }

    /** `stopTimer()`: invalidates the tick `timer` holds, and only that one. */
    method StopTimer()
      modifies this
      ensures !timerHeld && orphanedTicks == old(orphanedTicks)
      ensures isPlaying == old(isPlaying) && currentTime == old(currentTime) && duration == old(duration)
      ensures currentAudioFile == old(currentAudioFile) && audioPlayer == old(audioPlayer)
      ensures cachedArtworkImage == old(cachedArtworkImage)
    {
      timerHeld := false;
    }

    /** The error branch of `loadAudio`, shared by a missing and an undecodable file. */
    method ClearSession()
      modifies this, nowPlaying
      ensures Valid()
      ensures audioPlayer.None? && currentAudioFile.None? && cachedArtworkImage.None?
      ensures duration == 0.0 && currentTime == 0.0 && !isPlaying
      ensures timerHeld == old(timerHeld) && orphanedTicks == old(orphanedTicks)
      ensures nowPlaying.nowPlayingInfo.None?
    {
      audioPlayer := None;
      currentAudioFile := None;
      cachedArtworkImage := None;
      duration := 0.0;
      currentTime := 0.0;
      isPlaying := false;
      nowPlaying.ClearNowPlayingInfo();
    }

    /**
     * `loadAudio(_:)`. `fileExists` is what the file manager answers for the
     * track's location, `decodedDuration` the duration of the new player (none
     * when creating it throws), and `artwork` the image decoded from the
     * track's stored artwork. A load that succeeds leaves `isPlaying` and the
     * ticks as they were; the new player itself starts out stopped.
     */
    method LoadAudio(audioFile: AudioFile, fileExists: bool, decodedDuration: Option<real>, artwork: Option<Image>)
      requires Valid()
      requires decodedDuration.Some? ==> decodedDuration.value >= 0.0
      modifies this, nowPlaying
      ensures Valid()
      ensures timerHeld == old(timerHeld) && orphanedTicks == old(orphanedTicks)
      ensures positions.defaults == old(positions.defaults)
      ensures !fileExists || decodedDuration.None? ==>
                && audioPlayer.None? && currentAudioFile.None? && cachedArtworkImage.None?
                && duration == 0.0 && currentTime == 0.0 && !isPlaying
                && nowPlaying.nowPlayingInfo.None?
      ensures fileExists && decodedDuration.Some? ==>
                && currentAudioFile == Some(audioFile)
                && duration == decodedDuration.value
                && cachedArtworkImage == artwork
                && currentTime == RestoredTime(PositionIn(positions.defaults, audioFile.id), duration)
                && audioPlayer == Some(Engine(duration, currentTime, false))
                && isPlaying == old(isPlaying)
                && nowPlaying.nowPlayingInfo == old(nowPlaying.nowPlayingInfo)
    {
      if !fileExists {
        ClearSession();
        return;
      }
      if decodedDuration.None? {
        ClearSession();
        return;
      }
      audioPlayer := Some(Engine(decodedDuration.value, 0.0, false));
      currentAudioFile := Some(audioFile);
      duration := decodedDuration.value;
      cachedArtworkImage := artwork;
      var savedPosition := positions.LoadPlaybackPosition(audioFile.id);
      if savedPosition > 0.0 && savedPosition < duration {
        audioPlayer := Some(audioPlayer.value.(position := savedPosition));
        currentTime := savedPosition;
      } else {
        currentTime := 0.0;
      }
    }

    /**
     * `play()`. Without a player it only clears the published record; with
     * one it starts playback, schedules a tick and republishes.
     */
    method Play()
      requires Valid()
      modifies this, nowPlaying
      ensures Valid() && Played()
    {
      if audioPlayer.None? {
        isPlaying := false;
        nowPlaying.ClearNowPlayingInfo();
        return;
      }
      audioPlayer := Some(audioPlayer.value.(playing := true));
      isPlaying := true;
      StartTimer();
      UpdateNowPlaying();
    }

    /** `pause()`: stops playback and the held tick, then saves and republishes. */
    method Pause()
      requires Valid()
      modifies this, positions, nowPlaying
      ensures Valid() && Paused()
    {
      if audioPlayer.Some? {
        audioPlayer := Some(audioPlayer.value.(playing := false));
      }
      isPlaying := false;
      StopTimer();
      SaveCurrentPosition();
      UpdateNowPlaying();
    }

    /** `togglePlayPause()`: exactly `pause()` while playing and `play()` otherwise. */
    method TogglePlayPause()
      requires Valid()
      modifies this, positions, nowPlaying
      ensures Valid()
      ensures old(isPlaying) ==> Paused()
      ensures !old(isPlaying) ==> Played()
    {
      if isPlaying {
        Pause();
      } else {
        Play();
      }
    }

    /** `seek(to:)`: no clamping and no republishing; the time is stored even without a player. */
    method Seek(time: real)
      requires Valid()
      modifies this, positions
      ensures Valid() && MovedTo(time)
    {
      if audioPlayer.Some? {
        audioPlayer := Some(audioPlayer.value.(position := time));
      }
      currentTime := time;
      SaveCurrentPosition();
    }

    /** `skipForward(seconds:)`. */
    method SkipForward(seconds: real)
      requires Valid()
      modifies this, positions
      ensures Valid() && MovedTo(SkipForwardTarget(old(currentTime), old(duration), seconds))
    {
      Seek(SkipForwardTarget(currentTime, duration, seconds));
    }

    /** `skipBackward(seconds:)`. */
    method SkipBackward(seconds: real)
      requires Valid()
      modifies this, positions
      ensures Valid() && MovedTo(SkipBackwardTarget(old(currentTime), seconds))
    {
      Seek(SkipBackwardTarget(currentTime, seconds));
    }

    /**
     * One firing of a scheduled tick, with `reported` the player's time then:
     * read the time, save it, republish, in that order. Nothing happens
     * without a player.
     */
    method Tick(reported: real)
      requires Valid() && LiveTicks() > 0
      modifies this, positions, nowPlaying
      ensures Valid()
      ensures old(audioPlayer).None? ==>
                && currentTime == old(currentTime) && positions.defaults == old(positions.defaults)
                && nowPlaying.nowPlayingInfo == old(nowPlaying.nowPlayingInfo)
      ensures old(audioPlayer).Some? ==>
                && currentTime == reported
                && audioPlayer == Some(old(audioPlayer).value.(position := reported))
                && positions.defaults == old(positions.defaults)[PositionKey(currentAudioFile.value.id) := reported]
                && nowPlaying.nowPlayingInfo == Some(CurrentRecord())
      ensures isPlaying == old(isPlaying) && duration == old(duration) && currentAudioFile == old(currentAudioFile)
      ensures timerHeld == old(timerHeld) && orphanedTicks == old(orphanedTicks)
      ensures cachedArtworkImage == old(cachedArtworkImage)
    {
      if audioPlayer.None? {
        return;
      }
      audioPlayer := Some(audioPlayer.value.(position := reported));
      currentTime := reported;
      SaveCurrentPosition();
      UpdateNowPlaying();
    }

    /** `audioPlayerDidFinishPlaying(_:successfully:)`: back to the start, and remember the start. */
    method DidFinishPlaying()
      requires Valid() && audioPlayer.Some?
      modifies this, positions, nowPlaying
      ensures Valid()
      ensures !isPlaying && !timerHeld && currentTime == 0.0
      ensures audioPlayer == Some(old(audioPlayer).value.(playing := false))
      ensures positions.defaults == old(positions.defaults)[PositionKey(currentAudioFile.value.id) := 0.0]
      ensures PositionIn(positions.defaults, currentAudioFile.value.id) == 0.0
      ensures nowPlaying.nowPlayingInfo == Some(CurrentRecord())
      ensures currentAudioFile == old(currentAudioFile) && duration == old(duration)
      ensures orphanedTicks == old(orphanedTicks) && cachedArtworkImage == old(cachedArtworkImage)
    {
      // The engine stops by itself at the end of the file.
      audioPlayer := Some(audioPlayer.value.(playing := false));
      isPlaying := false;
      StopTimer();
      currentTime := 0.0;
      SaveCurrentPosition();
      UpdateNowPlaying();
    }

    /** The observers `setupRemoteCommandObservers()` installs: one transport action per notification. */
    method HandleRemoteNotification(name: string)
      requires Valid()
      modifies this, positions, nowPlaying
      ensures Valid()
      ensures CommandPosting(name).None? ==> unchanged(this, positions, nowPlaying)
      ensures CommandPosting(name) == Some(PlayCommand) ==> Played()
      ensures CommandPosting(name) == Some(PauseCommand) ==> Paused()
      ensures CommandPosting(name) == Some(TogglePlayPauseCommand) ==> if old(isPlaying) then Paused() else Played()
      ensures CommandPosting(name) == Some(SkipForwardCommand) ==>
                MovedTo(SkipForwardTarget(old(currentTime), old(duration), 30.0))
      ensures CommandPosting(name) == Some(SkipBackwardCommand) ==>
                MovedTo(SkipBackwardTarget(old(currentTime), 30.0))
    {
      match CommandPosting(name)
      case None =>
      case Some(PlayCommand) => Play();
      case Some(PauseCommand) => Pause();
      case Some(TogglePlayPauseCommand) => TogglePlayPause();
      case Some(SkipForwardCommand) => SkipForward(30.0);
      case Some(SkipBackwardCommand) => SkipBackward(30.0);
    }
  }

  /**
   * Pausing twice ends where pausing once does: the second pause saves the
   * same position and publishes the same record again.
   */
  method PauseTwice(m: AudioPlayerManager)
    requires m.Valid()
    modifies m, m.positions, m.nowPlaying
    ensures m.Valid() && !m.isPlaying && !m.timerHeld
    ensures m.currentTime == old(m.currentTime) && m.currentAudioFile == old(m.currentAudioFile)
    ensures m.positions.defaults == m.SavedFrom(old(m.positions.defaults))
    ensures m.nowPlaying.nowPlayingInfo == m.PublishedFrom(old(m.nowPlaying.nowPlayingInfo))
  {
    m.Pause();
    m.Pause();
  }

  /**
   * At the end of a track its saved position is back at zero, so loading it
   * again starts from the beginning.
   */
  method FinishedTrackRestartsFromZero(m: AudioPlayerManager, duration: real)
    requires m.Valid() && m.audioPlayer.Some? && duration >= 0.0
    modifies m, m.nowPlaying
    modifies m.positions
    ensures m.currentTime == 0.0
  {
    var track := m.currentAudioFile.value;
    m.DidFinishPlaying();
    m.LoadAudio(track, true, Some(duration), None);
  }
}
