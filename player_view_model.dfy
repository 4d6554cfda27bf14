/*
 * `PlayerViewModel`: the player screen's slider and time labels over an
 * `AudioPlayerManager`. The slider follows the manager's `currentTime`
 * except while the user drags it; letting go seeks to where it was left.
 *
 * The Combine subscription to `$currentTime` is the method
 * `CurrentTimeDidChange`, called with each value the manager assigns
 * (including the value it holds when the subscription is made).
 */
module PlayerScreen {
  import opened Foundation
  import opened TimeFormatter
  import opened NowPlaying
  import opened AudioPlayer

  /** The seconds the skip buttons move by. */
  const SkipInterval: real := 30.0

  /** The time shown beside the slider: the slider's own value while dragging, the player's time otherwise. */
  function ShownTime(isDraggingSlider: bool, sliderValue: real, currentTime: real): (t: real)
    ensures isDraggingSlider ==> t == sliderValue
    ensures !isDraggingSlider ==> t == currentTime
  {
    if isDraggingSlider then sliderValue else currentTime
  }

  /**
   * `currentTimeFormatted` from the values it reads: the shared formatter's
   * text for the shown time, which for a non-negative shown time reads back
   * as its whole seconds.
   */
  function CurrentTimeLabel(isDraggingSlider: bool, sliderValue: real, currentTime: real): (text: string)
    ensures text == FormatTime(ShownTime(isDraggingSlider, sliderValue, currentTime))
    ensures ShownTime(isDraggingSlider, sliderValue, currentTime) >= 0.0 ==>
              ParseClock(text) == Some(Trunc(ShownTime(isDraggingSlider, sliderValue, currentTime)))
  {
    var shown := ShownTime(isDraggingSlider, sliderValue, currentTime);
    if shown >= 0.0 then FormatTimeReadsBack(shown); FormatTime(shown) else FormatTime(shown)
  }

  class PlayerViewModel {
    var isDraggingSlider: bool
    var sliderValue: real
    var artworkImage: Option<Image>
    const audioPlayerManager: AudioPlayerManager

    /** Subscribing delivers the manager's present time and artwork at once. */
    constructor(audioPlayerManager: AudioPlayerManager, artworkImage: Option<Image>)
      ensures this.audioPlayerManager == audioPlayerManager
      ensures !isDraggingSlider && sliderValue == audioPlayerManager.currentTime
      ensures this.artworkImage == artworkImage
    {
      this.audioPlayerManager := audioPlayerManager;
      isDraggingSlider := false;
      sliderValue := audioPlayerManager.currentTime;
      this.artworkImage := artworkImage;
    }

    /** The `$currentTime` sink: the slider follows unless it is being dragged. */
    method CurrentTimeDidChange(newTime: real)
      modifies this
      ensures sliderValue == (if old(isDraggingSlider) then old(sliderValue) else newTime)
      ensures isDraggingSlider == old(isDraggingSlider) && artworkImage == old(artworkImage)
    {
      if !isDraggingSlider {
        sliderValue := newTime;
      }
    }

    /**
     * The `$currentAudioFile` sink; `image` is the image decoded from the new
     * track's stored artwork, none without a track or artwork.
     */
    method CurrentAudioFileDidChange(image: Option<Image>)
      modifies this
      ensures artworkImage == image
      ensures isDraggingSlider == old(isDraggingSlider) && sliderValue == old(sliderValue)
    {
      artworkImage := image;
    }

    /** `currentTimeFormatted`. */
    function CurrentTimeFormatted(): (text: string)
      reads this, audioPlayerManager
      ensures text == FormatTime(ShownTime(isDraggingSlider, sliderValue, audioPlayerManager.currentTime))
      ensures isDraggingSlider && sliderValue >= 0.0 ==> ParseClock(text) == Some(Trunc(sliderValue))
      ensures !isDraggingSlider && audioPlayerManager.currentTime >= 0.0 ==>
                ParseClock(text) == Some(Trunc(audioPlayerManager.currentTime))
    {
      CurrentTimeLabel(isDraggingSlider, sliderValue, audioPlayerManager.currentTime)
    }

    /** `durationFormatted`. */
    function DurationFormatted(): (text: string)
      reads this, audioPlayerManager
      ensures text == FormatTime(audioPlayerManager.duration)
      ensures audioPlayerManager.duration >= 0.0 ==> ParseClock(text) == Some(Trunc(audioPlayerManager.duration))
    {
      CurrentTimeLabel(false, sliderValue, audioPlayerManager.duration)
    }

    /** `isPlaying`, read through to the manager; only a loaded track can be playing. */
    function IsPlaying(): (r: bool)
      reads this, audioPlayerManager
      ensures audioPlayerManager.Valid() && r ==> audioPlayerManager.currentAudioFile.Some?
    {
      audioPlayerManager.isPlaying
    }

    /**
     * `sliderEditingChanged(_:)`. Starting a drag only marks it; ending one
     * seeks the manager to the slider's value, and the sink then hands that
     * same value back.
     */
    method SliderEditingChanged(editing: bool)
      requires audioPlayerManager.Valid()
      modifies this, audioPlayerManager, audioPlayerManager.positions
      ensures audioPlayerManager.Valid()
      ensures isDraggingSlider == editing && sliderValue == old(sliderValue)
      ensures artworkImage == old(artworkImage)
      ensures editing ==> unchanged(audioPlayerManager, audioPlayerManager.positions)
      ensures !editing ==> audioPlayerManager.MovedTo(sliderValue)
    {
      isDraggingSlider := editing;
      if !editing {
        audioPlayerManager.Seek(sliderValue);
        CurrentTimeDidChange(audioPlayerManager.currentTime);
      }
    }

    /** `seek(to:)`: forwarded; the sink sees the new time. */
    method Seek(time: real)
      requires audioPlayerManager.Valid()
      modifies this, audioPlayerManager, audioPlayerManager.positions
      ensures audioPlayerManager.Valid() && audioPlayerManager.MovedTo(time)
      ensures sliderValue == (if isDraggingSlider then old(sliderValue) else time)
      ensures artworkImage == old(artworkImage)
      ensures isDraggingSlider == old(isDraggingSlider)
    {
      audioPlayerManager.Seek(time);
      CurrentTimeDidChange(audioPlayerManager.currentTime);
    }

    /** `skipForward()`: thirty seconds on, at most to the end. */
    method SkipForward()
      requires audioPlayerManager.Valid()
      modifies this, audioPlayerManager, audioPlayerManager.positions
      ensures audioPlayerManager.Valid()
      ensures audioPlayerManager.MovedTo(
                SkipForwardTarget(old(audioPlayerManager.currentTime), old(audioPlayerManager.duration), SkipInterval))
      ensures sliderValue == (if isDraggingSlider then old(sliderValue) else audioPlayerManager.currentTime)
      ensures artworkImage == old(artworkImage)
      ensures isDraggingSlider == old(isDraggingSlider)
    {
      audioPlayerManager.SkipForward(SkipInterval);
      CurrentTimeDidChange(audioPlayerManager.currentTime);
    }

    /** `skipBackward()`: thirty seconds back, at least to the start. */
    method SkipBackward()
      requires audioPlayerManager.Valid()
      modifies this, audioPlayerManager, audioPlayerManager.positions
      ensures audioPlayerManager.Valid()
      ensures audioPlayerManager.MovedTo(SkipBackwardTarget(old(audioPlayerManager.currentTime), SkipInterval))
      ensures sliderValue == (if isDraggingSlider then old(sliderValue) else audioPlayerManager.currentTime)
      ensures artworkImage == old(artworkImage)
      ensures isDraggingSlider == old(isDraggingSlider)
    {
      audioPlayerManager.SkipBackward(SkipInterval);
      CurrentTimeDidChange(audioPlayerManager.currentTime);
    }

    /** `togglePlayPause()`, forwarded; the time does not change, so neither does the slider. */
    method TogglePlayPause()
      requires audioPlayerManager.Valid()
      modifies audioPlayerManager, audioPlayerManager.positions, audioPlayerManager.nowPlaying
      ensures audioPlayerManager.Valid()
      ensures old(audioPlayerManager.isPlaying) ==> audioPlayerManager.Paused()
      ensures !old(audioPlayerManager.isPlaying) ==> audioPlayerManager.Played()
    {
      audioPlayerManager.TogglePlayPause();
    }
  }

  /**
   * A drag is not disturbed by the player's ticks: the slider keeps the
   * dragged value, and letting go puts the player there.
   */
  method DragThenRelease(vm: PlayerViewModel, dragged: real, reported: real)
    requires vm.audioPlayerManager.Valid()
    modifies vm, vm.audioPlayerManager, vm.audioPlayerManager.positions
    ensures vm.sliderValue == dragged && !vm.isDraggingSlider
    ensures vm.audioPlayerManager.currentTime == dragged
  {
    vm.SliderEditingChanged(true);
    vm.sliderValue := dragged;
    vm.CurrentTimeDidChange(reported);
    assert vm.sliderValue == dragged;
    vm.SliderEditingChanged(false);
  }
}
