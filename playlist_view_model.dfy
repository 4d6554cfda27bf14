/*
 * `PlaylistViewModel`: the playlist screen. It reads the playlist through,
 * forwards deletions and moves to it, opens the two pickers, and starts a
 * track by loading it into the player and playing it.
 */
module PlaylistScreen {
  import opened Foundation
  import opened SwiftArray
  import opened TimeFormatter
  import opened AudioFiles
  import opened PlaybackState
  import opened NowPlaying
  import opened AudioPlayer
  import opened Playlists

  class PlaylistViewModel {
    var showingDocumentPicker: bool
    var showingMusicPicker: bool
    const playlist: Playlist
    const audioPlayerManager: AudioPlayerManager

    constructor(playlist: Playlist, audioPlayerManager: AudioPlayerManager)
      ensures this.playlist == playlist && this.audioPlayerManager == audioPlayerManager
      ensures !showingDocumentPicker && !showingMusicPicker
    {
      this.playlist := playlist;
      this.audioPlayerManager := audioPlayerManager;
      showingDocumentPicker := false;
      showingMusicPicker := false;
    }

    /** `items`. */
    function Items(): seq<AudioFile>
      reads this, playlist
    {
      playlist.items
    }

    /** `isEmpty`: no track in the playlist. */
    function IsEmpty(): (r: bool)
      reads this, playlist
      ensures r <==> |Items()| == 0
    {
      playlist.items == []
    }

    /** `showDocumentPicker()`: raises its own flag only. */
    method ShowDocumentPicker()
      modifies this
      ensures showingDocumentPicker && showingMusicPicker == old(showingMusicPicker)
    {
      showingDocumentPicker := true;
    }

    /** `showMusicPicker()`: raises its own flag only. */
    method ShowMusicPicker()
      modifies this
      ensures showingMusicPicker && showingDocumentPicker == old(showingDocumentPicker)
    {
      showingMusicPicker := true;
    }

    /** `deleteItems(at:)`: exactly `Playlist.removeItems(at:)`. */
    method DeleteItems(offsets: set<int>)
      requires ValidOffsets(offsets, |playlist.items|)
      modifies playlist
      ensures playlist.items == RemovingOffsets(old(playlist.items), offsets)
      ensures |Items()| == |old(Items())| - |offsets|
      ensures playlist.Saved()
    {
      playlist.RemoveItems(offsets);
    }

    /** `moveItems(from:to:)`: exactly `Playlist.moveItems(from:to:)`. */
    method MoveItems(source: set<int>, destination: int)
      requires ValidOffsets(source, |playlist.items|) && 0 <= destination <= |playlist.items|
      modifies playlist
      ensures playlist.items == MovingOffsets(old(playlist.items), source, destination)
      ensures multiset(Items()) == multiset(old(Items()))
      ensures playlist.Saved()
    {
      playlist.MoveItems(source, destination);
    }

    /**
     * `playAudioFile(_:)`: load, then play. A track that cannot be loaded
     * ends stopped with nothing published; one that loads plays from its
     * restored position and is published as playing.
     */
    method PlayAudioFile(audioFile: AudioFile, fileExists: bool, decodedDuration: Option<real>, artwork: Option<Image>)
      requires audioPlayerManager.Valid()
      requires decodedDuration.Some? ==> decodedDuration.value >= 0.0
      modifies audioPlayerManager, audioPlayerManager.nowPlaying
      ensures audioPlayerManager.Valid()
      ensures !fileExists || decodedDuration.None? ==>
                && !audioPlayerManager.isPlaying && audioPlayerManager.currentAudioFile.None?
                && audioPlayerManager.nowPlaying.nowPlayingInfo.None?
      ensures fileExists && decodedDuration.Some? ==>
                && audioPlayerManager.isPlaying
                && audioPlayerManager.currentAudioFile == Some(audioFile)
                && audioPlayerManager.currentTime
                   == RestoredTime(PositionIn(audioPlayerManager.positions.defaults, audioFile.id), decodedDuration.value)
                && audioPlayerManager.audioPlayer.Some? && audioPlayerManager.audioPlayer.value.playing
                && audioPlayerManager.nowPlaying.nowPlayingInfo == Some(audioPlayerManager.CurrentRecord())
    {
      audioPlayerManager.LoadAudio(audioFile, fileExists, decodedDuration, artwork);
      audioPlayerManager.Play();
    }

    /** `formatTime(_:)`: the shared formatter, which reads back as the whole seconds. */
    function FormatTime(time: real): (text: string)
      ensures text == TimeFormatter.FormatTime(time)
      ensures time >= 0.0 ==> ParseClock(text) == Some(Trunc(time))
    {
      if time >= 0.0 then FormatTimeReadsBack(time); TimeFormatter.FormatTime(time)
      else TimeFormatter.FormatTime(time)
    }
  }
}
