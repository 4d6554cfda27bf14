# PickupPlayer in Dafny

PickupPlayer is a small iOS audio player. It keeps a playlist of audio files
in the app's documents directory. It plays one track at a time and remembers
where each track was left. It shows the current track on the lock screen and
lets the user set a sleep timer. It can also export songs from the music
library into the playlist.

This project models the parts of the app that are plain state and plain
computation. Those are the playback transport, the sleep timer, the
lock-screen ("now playing") record, the time formatter, the per-track
position store, the playlist and its persistence, the track record's
encoding with its legacy migration, the export job list, and the two screen
view models. Each part has its own module:

- `Foundation`: the Swift and Foundation behaviour the rest relies on.
  - `Int(x)` truncation and Swift's truncating `/` and `%`.
  - URL path components.
  - `Option`/`Result`, and UUIDs and URLs as opaque values.
- `Decimal`: decimal rendering of integers (`"\(n)"`, `%02d`) and its read-back.
- `TimeFormatter`: `formatTime`. Its partner is a parser, `ParseClock`, that reads the text back.
- `SwiftArray`: the array operations the app uses.
  - `firstIndex(where:)`, `contains(where:)` and `removeAll(where:)`.
  - `remove(atOffsets:)` and `move(fromOffsets:toOffset:)`.
- `AudioFiles`: the `AudioFile` record.
  - Its initialiser.
  - Its keyed encoding, modelled as a typed container.
  - Its decoding, including the migration from the old `url` key.
- `PlaybackState`: `PlaybackStateManager` over the defaults map, with keys `"playback_" + id`.
- `NowPlaying`: the now-playing record builder and `NowPlayingManager`; the remote commands and their notification names.
- `SleepTimer`: `SleepTimerManager`. The clock is a `now` argument, and each call of the end callback is logged in `fired`.
- `AudioPlayer`: `AudioPlayerManager`. The audio engine is a value `Engine(duration, position, playing)`.
- `Playlists`: `Playlist` with its saved snapshot.
- `ExportTasks`: `ExportTask`, its `Status`, and in-place updates by first matching id.
- `MusicPicker`: `MusicPickerViewModel`. It covers task creation, the safe output file name, export begin/progress/end, success, failure and pruning.
- `PlayerScreen`: `PlayerViewModel` (slider, labels, forwarding).
- `PlaylistScreen`: `PlaylistViewModel`.

Some outcomes come from frameworks and are given to the methods as
arguments:

- whether the file exists, its decoded duration, and the time the player reports;
- the decoded artwork image;
- whether the export session could be created, whether the export succeeded, and the progress values it reports;
- fresh UUIDs;
- the character class `CharacterSet.alphanumerics`.

Timers are modelled as explicit calls:

- the player's one-second tick (`AudioPlayerManager.Tick`);
- the sleep timer's one-second update (`SleepTimerManager.UpdateRemainingTime(now)`);
- the export's 100 ms progress poll (`MusicPickerViewModel.PollProgress`).

Where the code and the design description differ, the model follows the
code:

- `formatTime` is modelled for every input, negative ones included. Swift's
  truncating `Int(_:)`, `/` and `%` are written out, so a negative time gives
  what the code gives (for example `-45` gives `"0:-45"`).
- `seek(to:)` with no player loaded still sets `currentTime`. So the
  manager's invariant does not pin `currentTime` when nothing is loaded.
- `startTimer()` in `AudioPlayerManager` overwrites its `timer` without
  invalidating the previous one. A `play()` while already playing therefore
  leaves a repeating tick running that nothing can stop. The model counts
  these ticks (`orphanedTicks`), and `Tick` may be called while any tick is
  live.

## Model

| member | source | states |
|---|---|---|
| Foundation.Trunc | PickupPlayer/Utilities/TimeFormatter.swift:12-14 | `Int(time)` truncates toward zero: the floor for non-negative times, and within one second of the value on the correct side for negative ones |
| Foundation.Quot | PickupPlayer/Utilities/TimeFormatter.swift:12-13 | Swift integer `/` by a positive divisor truncates toward zero, bounded on both sides for either sign of the dividend |
| Foundation.Rem | PickupPlayer/Utilities/TimeFormatter.swift:13-14 | Swift `%` by a positive divisor completes the division identity and takes the sign of the dividend |
| Foundation.LastPathComponentOfJoined | PickupPlayer/ViewModels/MusicPickerViewModel.swift:122 | appending a plain file name to a directory path and taking the last path component gives the name back |
| Foundation.LastPathComponent | PickupPlayer/Models/AudioFile.swift:37 | `lastPathComponent` is "/" or holds no slash, and is empty exactly when the path is |
| Foundation.AppendingPathComponent | PickupPlayer/ViewModels/MusicPickerViewModel.swift:122 | the result extends the directory path by a slash and more, and its last component is the appended file name |
| Decimal.NatToStringValue | PickupPlayer/Utilities/TimeFormatter.swift:16-20 | the decimal rendering of a natural number reads back as that number |
| Decimal.NatToString | PickupPlayer/Utilities/TimeFormatter.swift:16-20 | `%d` of a natural number is non-empty digits, one digit exactly below 10, and starts with 0 only for 0 itself |
| Decimal.PaddedField | PickupPlayer/Managers/NowPlayingManager.swift:35-37 | `%02d` of a non-negative number has at least two digits, and they read back as the number |
| Decimal.TwoDigitField | PickupPlayer/Utilities/TimeFormatter.swift:16-20 | `%02d` of a number below 100 has exactly two digits, and they read back as the number |
| TimeFormatter.ClockDecomposition | PickupPlayer/Utilities/TimeFormatter.swift:12-14 | hours, minutes and seconds recompose to the whole seconds; minutes and seconds lie in 0..59 for non-negative input; there are hours exactly from 3600 s on |
| TimeFormatter.FormatTimeReadsBack | PickupPlayer/Utilities/TimeFormatter.swift:11-21 | for a non-negative time the text parses back to its whole seconds, with three fields from an hour on and two below, and the leading field (hours, or minutes under an hour) is unpadded: it starts with 0 only when it is 0 |
| TimeFormatter.FormatTimeDistinguishesSeconds | PickupPlayer/Utilities/TimeFormatter.swift:11-21 | two non-negative times format the same exactly when their whole seconds agree |
| TimeFormatter.FormatTimeOfWholeSeconds | PickupPlayer/Utilities/TimeFormatter.swift:12-14 | the text depends only on the truncated seconds |
| TimeFormatter.FormatTimeExamplesUnderAnHour | PickupPlayerTests/TimeFormatterTests.swift:13-41 | 0 → "0:00", 45 → "0:45", 60 → "1:00", 125 → "2:05" |
| TimeFormatter.FormatTimeExamplesFromAnHour | PickupPlayerTests/TimeFormatterTests.swift:25-53 | 3600 → "1:00:00", 3665 → "1:01:05", 7384 → "2:03:04" |
| TimeFormatter.FormatTimeNegativeExample | PickupPlayer/Utilities/TimeFormatter.swift:12-20 | a negative time keeps truncation's signs: -45 gives "0:-45" |
| SwiftArray.FirstIndex | PickupPlayer/Models/Playlist.swift:35 | `firstIndex(where:)` finds the first matching position, and it is absent exactly when nothing matches |
| SwiftArray.Contains | PickupPlayer/ViewModels/MusicPickerViewModel.swift:23 | `contains(where:)` holds exactly when some element matches |
| SwiftArray.RemoveAll | PickupPlayer/ViewModels/MusicPickerViewModel.swift:97 | `removeAll(where:)` leaves no matching element and never grows the array |
| SwiftArray.RemoveAllCounts | PickupPlayer/ViewModels/MusicPickerViewModel.swift:97 | `removeAll(where:)` drops every copy of each matching element and keeps every copy of the others |
| SwiftArray.RemoveAllConcat | PickupPlayer/ViewModels/MusicPickerViewModel.swift:97 | removal distributes over concatenation, so the survivors keep their order |
| SwiftArray.RemoveAllEmpty | PickupPlayer/ViewModels/MusicPickerViewModel.swift:113-114 | nothing survives `removeAll(where:)` exactly when every element matches |
| SwiftArray.RemovingOffsets | PickupPlayer/Models/Playlist.swift:24-27 | `remove(atOffsets:)` keeps exactly the elements at the other offsets, in their order, and the length drops by the number of offsets |
| SwiftArray.MovingOffsets | PickupPlayer/Models/Playlist.swift:29-32 | `move(fromOffsets:toOffset:)` gives the unmoved elements before the destination, then the moved elements, then the unmoved rest, each in original order; the result is a permutation |
| SwiftArray.MoveFirstToEnd | PickupPlayerTests/PlaylistTests.swift:77-93 | moving offset 0 to position 3 of [a, b, c] gives [b, c, a] |
| AudioFiles.NewAudioFile | PickupPlayer/Models/AudioFile.swift:35-48 | the record keeps the id, title, duration and position it was given, and only the URL's last path component as its file name; its artwork path is exactly what the store returned for the given data, and absent without data |
| AudioFiles.AudioFile.Location | PickupPlayer/Models/AudioFile.swift:20-25 | the computed `url` lies inside the documents directory, and its last path component is the stored file name |
| AudioFiles.NewAudioFileLocation | PickupPlayer/Models/AudioFile.swift:20-25 | a track created from a file in the documents directory is located at that file again, with the default position 0 |
| AudioFiles.Decode | PickupPlayer/Models/AudioFile.swift:62-89 | decoding succeeds exactly when the container is decodable; the file name comes from `fileName`, else from the last path component of `url`, else decoding fails; title, duration and position are required and the artwork path is optional |
| AudioFiles.Encode | PickupPlayer/Models/AudioFile.swift:91-99 | encoding never writes `url`, and writes `artworkPath` exactly when the track has one |
| AudioFiles.EncodeDecodeRoundTrip | PickupPlayer/Models/AudioFile.swift:62-99 | decoding an encoded track gives back the same track |
| AudioFiles.LegacyEncode | PickupPlayer/Models/AudioFile.swift:51-60 | an old record carries `url` and no `fileName` |
| AudioFiles.LegacyRecordMigrates | PickupPlayer/Models/AudioFile.swift:67-83 | an old record that stored a full URL decodes to the track with only its file name |
| PlaybackState.PositionKeyInjective | PickupPlayer/Managers/PlaybackStateManager.swift:16 | two tracks share a position key exactly when they have the same id |
| PlaybackState.PositionKey | PickupPlayer/Managers/PlaybackStateManager.swift:16 | the key is "playback_" followed by the UUID string |
| PlaybackState.LoadAfterSave | PickupPlayer/Managers/PlaybackStateManager.swift:15-21 | loading after saving gives the saved position, and the last of two saves wins |
| PlaybackState.OtherTracksUnaffected | PickupPlayer/Managers/PlaybackStateManager.swift:15-25 | saving or clearing one track's position leaves every other track's position as it was |
| PlaybackState.LoadAfterClear | PickupPlayer/Managers/PlaybackStateManager.swift:19-25 | loading after clearing gives 0 |
| PlaybackState.PlaybackStateManager.constructor | PickupPlayer/Managers/PlaybackStateManager.swift:13 | the manager starts over the given defaults |
| PlaybackState.PlaybackStateManager.SavePlaybackPosition | PickupPlayer/Managers/PlaybackStateManager.swift:15-17 | only the track's key changes, to the position, which then loads back |
| PlaybackState.PlaybackStateManager.LoadPlaybackPosition | PickupPlayer/Managers/PlaybackStateManager.swift:19-21 | returns the stored position, or 0 when nothing is stored for the track |
| PlaybackState.PlaybackStateManager.ClearPlaybackPosition | PickupPlayer/Managers/PlaybackStateManager.swift:23-25 | only the track's key is removed, and the track then loads as 0 |
| NowPlaying.NowPlayingInfo | PickupPlayer/Managers/NowPlayingManager.swift:19-48 | title, duration and elapsed time are the arguments; the rate is 1 when playing, else 0; the moon overlay is present exactly when the remaining sleep time is positive; artwork is present exactly when given; nothing else is in the record |
| NowPlaying.SleepTimerText | PickupPlayer/Managers/NowPlayingManager.swift:34-38 | the overlay is the moon prefix followed by at least one more character |
| NowPlaying.SleepTimerTextReadsBack | PickupPlayer/Managers/NowPlayingManager.swift:34-38 | the overlay is the moon prefix followed by two fields, minutes of at least two digits (no leading zero beyond the padding) and seconds of exactly two, that read back as the whole seconds left |
| NowPlaying.SleepTimerTextDistinguishesSeconds | PickupPlayer/Managers/NowPlayingManager.swift:35-37 | two positive remaining times give the same overlay exactly when their whole seconds agree |
| NowPlaying.SleepTimerTextExamples | PickupPlayerTests/NowPlayingManagerTests.swift:180-240 | 300 → "🌙 05:00", 630 → "🌙 10:30", 1 → "🌙 00:01", 59 → "🌙 00:59" |
| NowPlaying.NoOverlayWithoutTimeLeft | PickupPlayerTests/NowPlayingManagerTests.swift:242-278 | with no remaining time, or 0, the artist key is absent rather than blank |
| NowPlaying.NowPlayingManager.constructor | PickupPlayer/Managers/NowPlayingManager.swift:15-17 | nothing is published at first |
| NowPlaying.NowPlayingManager.UpdateNowPlayingInfo | PickupPlayer/Managers/NowPlayingManager.swift:19-48 | the published record becomes the freshly built record, so no key survives from before |
| NowPlaying.NowPlayingManager.ClearNowPlayingInfo | PickupPlayer/Managers/NowPlayingManager.swift:50-52 | nothing is published afterwards |
| NowPlaying.UpdateDropsStaleKeys | PickupPlayer/Managers/NowPlayingManager.swift:27-47 | an update without artwork or sleep time, after one with both, publishes neither key |
| NowPlaying.PreferredIntervals | PickupPlayer/Managers/NowPlayingManager.swift:73-81 | exactly the two skip commands carry preferred intervals |
| NowPlaying.SkipIntervals | PickupPlayer/Managers/NowPlayingManager.swift:74-80 | both skip commands use a single 30-second interval |
| NowPlaying.NotificationNamesIdentifyCommands | PickupPlayer/Managers/NowPlayingManager.swift:54-95 | each of the five commands posts its own notification name, and a name maps back to exactly that command |
| SleepTimer.SleepTimerManager.constructor | PickupPlayer/Managers/SleepTimerManager.swift:14-21 | the timer starts inactive with no time left and no callback |
| SleepTimer.SleepTimerManager.StartTimer | PickupPlayer/Managers/SleepTimerManager.swift:24-31 | the timer is active with the duration left, ends at `now + duration`, holds the new callback, and has fired nothing |
| SleepTimer.SleepTimerManager.CancelTimer | PickupPlayer/Managers/SleepTimerManager.swift:39-46 | everything is cleared and nothing fires |
| SleepTimer.SleepTimerManager.UpdateRemainingTime | PickupPlayer/Managers/SleepTimerManager.swift:48-64 | with no end time the update behaves as a cancel; at or past the end time the state is cleared and then the captured callback fires once, seeing the cleared state; before it the remaining time is `end − now` |
| SleepTimer.CountdownRunsOut | PickupPlayerTests/SleepTimerManagerTests.swift:104-143 | a countdown that runs out fires its callback exactly once and leaves the timer idle, and later ticks fire nothing more |
| SleepTimer.RestartReplaces | PickupPlayerTests/SleepTimerManagerTests.swift:147-159 | after a restart only the second callback ever fires |
| SleepTimer.CancelTwice | PickupPlayerTests/SleepTimerManagerTests.swift:77-100 | cancelling is idempotent and fires nothing |
| AudioPlayer.SkipForwardTarget | PickupPlayer/Managers/AudioPlayerManager.swift:137-140 | the target is the smaller of `current + seconds` and the duration |
| AudioPlayer.SkipBackwardTarget | PickupPlayer/Managers/AudioPlayerManager.swift:142-145 | the target is the larger of `current − seconds` and 0 |
| AudioPlayer.SkipsStayInTrack | PickupPlayer/Managers/AudioPlayerManager.swift:137-145 | from a time inside the track, both skips land inside the track, on the correct side of the start point |
| AudioPlayer.SkipExamples | PickupPlayerTests/PlayerViewModelTests.swift:131-165 | 30 → 60 and 100 → 120 forward in a 120 s track; 60 → 30 and 15 → 0 backward |
| AudioPlayer.RestoredTime | PickupPlayer/Managers/AudioPlayerManager.swift:78-85 | the saved position is used exactly when it lies strictly inside the track (or is 0), otherwise playback starts at 0 |
| AudioPlayer.AudioPlayerManager.constructor | PickupPlayer/Managers/AudioPlayerManager.swift:14-29 | nothing is loaded or playing, times are 0 and no tick runs |
| AudioPlayer.AudioPlayerManager.SaveCurrentPosition | PickupPlayer/Managers/AudioPlayerManager.swift:161-164 | the current time is saved under the loaded track's id, and nothing is saved when no track is loaded |
| AudioPlayer.AudioPlayerManager.UpdateNowPlaying | PickupPlayer/Managers/AudioPlayerManager.swift:166-175 | the loaded track's record is published, never with a sleep-timer time, and nothing changes when no track is loaded |
| AudioPlayer.AudioPlayerManager.StartTimer | PickupPlayer/Managers/AudioPlayerManager.swift:147-154 | a new tick is held, and any tick already running is left running |
| AudioPlayer.AudioPlayerManager.StopTimer | PickupPlayer/Managers/AudioPlayerManager.swift:156-159 | the held tick is stopped |
| AudioPlayer.AudioPlayerManager.ClearSession | PickupPlayer/Managers/AudioPlayerManager.swift:47-59 | no player, track or artwork remains; times are 0; playback stops; now playing is cleared |
| AudioPlayer.AudioPlayerManager.LoadAudio | PickupPlayer/Managers/AudioPlayerManager.swift:41-98 | a missing or undecodable file clears the session; otherwise the track, duration and artwork are taken and the restored position is set, while playing state, ticks and now playing are left untouched |
| AudioPlayer.AudioPlayerManager.Play | PickupPlayer/Managers/AudioPlayerManager.swift:100-113 | with no player, playback is off, now playing is cleared and the ticks are as before; otherwise the engine and manager play, exactly one more tick runs and is held, and the current record is published; time, duration, track, artwork and the saved positions never change |
| AudioPlayer.AudioPlayerManager.Pause | PickupPlayer/Managers/AudioPlayerManager.swift:115-121 | the engine and manager stop, the held tick is stopped, the current time is saved for the track, the record is republished from the paused state, and time, duration, track and artwork do not change |
| AudioPlayer.AudioPlayerManager.TogglePlayPause | PickupPlayer/Managers/AudioPlayerManager.swift:123-129 | when playing, has exactly the effect of `Pause`; otherwise exactly the effect of `Play` |
| AudioPlayer.AudioPlayerManager.Seek | PickupPlayer/Managers/AudioPlayerManager.swift:131-135 | the time becomes the argument unclamped, the engine moves there, the position is saved, and playing state, ticks, track and now playing are unchanged |
| AudioPlayer.AudioPlayerManager.SkipForward | PickupPlayer/Managers/AudioPlayerManager.swift:137-140 | has exactly the effect of seeking to the forward target |
| AudioPlayer.AudioPlayerManager.SkipBackward | PickupPlayer/Managers/AudioPlayerManager.swift:142-145 | has exactly the effect of seeking to the backward target |
| AudioPlayer.AudioPlayerManager.Tick | PickupPlayer/Managers/AudioPlayerManager.swift:148-153 | with a player, reads the reported time, then saves it, then republishes; with none, does nothing; playing state, track, artwork and ticks never change |
| AudioPlayer.AudioPlayerManager.DidFinishPlaying | PickupPlayer/Managers/AudioPlayerManager.swift:226-232 | playback and the held tick stop, orphaned ticks keep running, the time goes back to 0, 0 is saved for the track, and the record is republished with the same artwork |
| AudioPlayer.AudioPlayerManager.HandleRemoteNotification | PickupPlayer/Managers/AudioPlayerManager.swift:177-217 | play has the effect of `Play`, pause of `Pause`, toggle of `Pause` when playing and `Play` otherwise, the skips of a seek to the 30-second targets; any other name changes nothing |
| AudioPlayer.PauseTwice | PickupPlayer/Managers/AudioPlayerManager.swift:115-121 | a second pause changes nothing the first did not |
| AudioPlayer.FinishedTrackRestartsFromZero | PickupPlayer/Managers/AudioPlayerManager.swift:78-85 | after a track finishes, reloading it starts from 0 |
| Playlists.EncodeAll | PickupPlayer/Models/Playlist.swift:41-45 | the snapshot is one encoded record per track, in order |
| Playlists.DecodeAll | PickupPlayer/Models/Playlist.swift:47-52 | the snapshot decodes exactly when every record does, element by element |
| Playlists.DecodeAllEncodeAll | PickupPlayer/Models/Playlist.swift:41-52 | a saved list decodes back to the same tracks |
| Playlists.LoadedItems | PickupPlayer/Models/Playlist.swift:47-52 | with nothing stored, or a stored list that fails to decode, the playlist stays empty |
| Playlists.LoadedItemsOfSaved | PickupPlayer/Models/Playlist.swift:15-17 | with nothing stored the list starts empty, and a saved list loads back as itself |
| Playlists.WithPlaybackPosition | PickupPlayer/Models/Playlist.swift:34-39 | the length is kept; every track keeps every field except its position; a track that changes is the first one with the id; and that first track ends at the new position |
| Playlists.Playlist.constructor | PickupPlayer/Models/Playlist.swift:15-17 | the list is what the store holds, or empty |
| Playlists.Playlist.SavePlaylist | PickupPlayer/Models/Playlist.swift:41-45 | the stored snapshot becomes the current list |
| Playlists.Playlist.AddItem | PickupPlayer/Models/Playlist.swift:19-22 | appends the track and saves |
| Playlists.Playlist.RemoveItems | PickupPlayer/Models/Playlist.swift:24-27 | removes exactly the given offsets and saves |
| Playlists.Playlist.MoveItems | PickupPlayer/Models/Playlist.swift:29-32 | moves the offsets to the destination, as a permutation, and saves |
| Playlists.Playlist.UpdatePlaybackPosition | PickupPlayer/Models/Playlist.swift:34-39 | updates the first matching track and saves only when there was one |
| Playlists.ReopenedPlaylistKeepsItems | PickupPlayer/Models/Playlist.swift:15-22 | a playlist opened from the store after an add holds the same tracks |
| Playlists.MoveFirstTrackToEnd | PickupPlayerTests/PlaylistTests.swift:77-93 | moving the first of three tracks to the end gives the other two, then it |
| ExportTasks.AnyExportingAfterStatus | PickupPlayer/ViewModels/MusicPickerViewModel.swift:22-24 | after a status update some task is exporting exactly when the updated task was found and set to exporting, or another task already was |
| ExportTasks.NewExportTaskDefaults | PickupPlayer/Models/ExportTask.swift:23-28 | a new task starts at progress 0 and waiting |
| ExportTasks.TaskIndex | PickupPlayer/ViewModels/MusicPickerViewModel.swift:183-193 | finds the first task with the id, and is absent exactly when no task has it |
| ExportTasks.WithStatus | PickupPlayer/ViewModels/MusicPickerViewModel.swift:189-193 | only the first task with the id changes, and only its status |
| ExportTasks.WithProgress | PickupPlayer/ViewModels/MusicPickerViewModel.swift:183-187 | only the first task with the id changes, only its progress, and it ends at the reported progress |
| ExportTasks.WithoutTask | PickupPlayer/ViewModels/MusicPickerViewModel.swift:97 | no task with the id remains, and the list never grows |
| ExportTasks.UpdatesChangeOnlyTheTask | PickupPlayer/Models/ExportTask.swift:11-14 | ids, file names and order never change, and no other task changes |
| ExportTasks.OnlyTaskChangedTransitive | PickupPlayer/ViewModels/MusicPickerViewModel.swift:72-101 | a sequence of updates to one task changes only that task |
| ExportTasks.AnyExporting | PickupPlayer/ViewModels/MusicPickerViewModel.swift:22-24 | holds exactly when some task is exporting |
| ExportTasks.WithoutTaskRemovesOnlyThatId | PickupPlayer/ViewModels/MusicPickerViewModel.swift:97 | pruning removes every task with the id and keeps every other task |
| MusicPicker.SafeFileName | PickupPlayer/ViewModels/MusicPickerViewModel.swift:113-114 | when the title has an alphanumeric character, the name is the title with every other character removed (order kept) plus ".m4a"; otherwise it is "audio_file.m4a"; either way it is a plain file name |
| MusicPicker.SafeFileNameKeepsAlphanumerics | PickupPlayer/ViewModels/MusicPickerViewModel.swift:113 | when the title has an alphanumeric character, the base holds exactly the title's alphanumerics |
| MusicPicker.FailureMessage | PickupPlayer/ViewModels/MusicPickerViewModel.swift:75 | the message is the fixed prefix followed by the title |
| MusicPicker.NewTasks | PickupPlayer/ViewModels/MusicPickerViewModel.swift:38-50 | one waiting task at progress 0 per item with an asset, named by its title or "不明な曲" |
| MusicPicker.NewTasksConcat | PickupPlayer/ViewModels/MusicPickerViewModel.swift:38-50 | the tasks of a concatenated selection are those of the first part followed by those of the second, so tasks follow selection order |
| MusicPicker.NewTasksOfOne | PickupPlayer/ViewModels/MusicPickerViewModel.swift:39-49 | one item gives exactly one waiting task with its id and title when it has an asset, and none otherwise |
| MusicPicker.NewTasksCount | PickupPlayer/ViewModels/MusicPickerViewModel.swift:38-39 | one task per item with an asset, and none for an empty selection |
| MusicPicker.AfterPollsChangesOnlyTheTask | PickupPlayer/ViewModels/MusicPickerViewModel.swift:164-176 | a run of progress polls changes only that task's progress, to the last value reported |
| MusicPicker.MusicPickerViewModel.constructor | PickupPlayer/ViewModels/MusicPickerViewModel.swift:15-28 | no tasks, no error, no sessions and no monitors |
| MusicPicker.MusicPickerViewModel.IsExporting | PickupPlayer/ViewModels/MusicPickerViewModel.swift:22-24 | holds exactly when some task is exporting |
| MusicPicker.MusicPickerViewModel.UpdateTaskStatus | PickupPlayer/ViewModels/MusicPickerViewModel.swift:189-193 | the list becomes the status update of the first task with the id; nothing else changes |
| MusicPicker.MusicPickerViewModel.UpdateTaskProgress | PickupPlayer/ViewModels/MusicPickerViewModel.swift:183-187 | the list becomes the progress update of the first task with the id; nothing else changes |
| MusicPicker.MusicPickerViewModel.HandleSelectedMediaItems | PickupPlayer/ViewModels/MusicPickerViewModel.swift:37-58 | the new tasks are appended after the existing ones, in selection order |
| MusicPicker.MusicPickerViewModel.BeginExport | PickupPlayer/ViewModels/MusicPickerViewModel.swift:130-136 | the session and a monitor are registered under the task's id, and the task becomes exporting |
| MusicPicker.MusicPickerViewModel.PollProgress | PickupPlayer/ViewModels/MusicPickerViewModel.swift:166-172 | a poll copies progress into the task only while its session is registered |
| MusicPicker.MusicPickerViewModel.MonitorProgress | PickupPlayer/ViewModels/MusicPickerViewModel.swift:164-176 | a run of polls applies every report in turn while the session is registered; only that task changes, and no status changes |
| MusicPicker.MusicPickerViewModel.EndExport | PickupPlayer/ViewModels/MusicPickerViewModel.swift:143-155 | only that id's session and monitor are removed |
| MusicPicker.MusicPickerViewModel.ExportFailed | PickupPlayer/ViewModels/MusicPickerViewModel.swift:73-80 | the error message names the title, and the task fails with the fixed reason |
| MusicPicker.MusicPickerViewModel.ExportSucceeded | PickupPlayer/ViewModels/MusicPickerViewModel.swift:82-91 | exactly one track at position 0 is appended and saved, and the task completes |
| MusicPicker.MusicPickerViewModel.PruneTask | PickupPlayer/ViewModels/MusicPickerViewModel.swift:94-99 | every task with the id is removed and nothing else |
| MusicPicker.SessionKeepsExporting | PickupPlayer/ViewModels/MusicPickerViewModel.swift:130-176 | marking a task exporting and then changing only its progress changes no other task and leaves it exporting |
| MusicPicker.MusicPickerViewModel.RunSession | PickupPlayer/ViewModels/MusicPickerViewModel.swift:130-155 | over a whole session only the task changes and it ends exporting; the error is untouched; that id's session and monitor are gone afterwards and no other entry changes |
| MusicPicker.MusicPickerViewModel.ExportMusicFile | PickupPlayer/ViewModels/MusicPickerViewModel.swift:103-160 | gives the output URL exactly when the session exists and the export succeeds; a session's entries are always removed again; only the task changes |
| MusicPicker.MusicPickerViewModel.ExportAndAddToPlaylist | PickupPlayer/ViewModels/MusicPickerViewModel.swift:72-101 | failure sets the error and fails the task, leaving the playlist and its saved entry untouched; success appends one track, saves the playlist and completes the task; other tasks never change |
| MusicPicker.ExportedTrackLocation | PickupPlayer/ViewModels/MusicPickerViewModel.swift:122 | the exported track's file name is the safe file name, so the track is found again in the documents directory |
| PlayerScreen.ShownTime | PickupPlayer/ViewModels/PlayerViewModel.swift:64-67 | the slider's value while dragging, the player's time otherwise |
| PlayerScreen.CurrentTimeLabel | PickupPlayer/ViewModels/PlayerViewModel.swift:64-67 | the label is the shared formatter's text for the shown time, and reads back as its whole seconds |
| PlayerScreen.PlayerViewModel.constructor | PickupPlayer/ViewModels/PlayerViewModel.swift:20-44 | not dragging, and the slider starts at the manager's time |
| PlayerScreen.PlayerViewModel.CurrentTimeDidChange | PickupPlayer/ViewModels/PlayerViewModel.swift:24-31 | the slider follows a new time exactly when not dragging |
| PlayerScreen.PlayerViewModel.CurrentAudioFileDidChange | PickupPlayer/ViewModels/PlayerViewModel.swift:33-43 | the artwork becomes the new track's image, and the slider is untouched |
| PlayerScreen.PlayerViewModel.CurrentTimeFormatted | PickupPlayer/ViewModels/PlayerViewModel.swift:64-67 | the shared formatter's text for the slider's value while dragging, else for the player's time; it reads back as those whole seconds |
| PlayerScreen.PlayerViewModel.DurationFormatted | PickupPlayer/ViewModels/PlayerViewModel.swift:69-71 | the shared formatter's text for the duration, reading back as its whole seconds |
| PlayerScreen.PlayerViewModel.IsPlaying | PickupPlayer/ViewModels/PlayerViewModel.swift:52-54 | read through to the manager, so it can only hold while a track is loaded |
| PlayerScreen.PlayerViewModel.SliderEditingChanged | PickupPlayer/ViewModels/PlayerViewModel.swift:91-96 | starting a drag only marks it and leaves the player untouched; ending one has exactly the effect of the player seeking to the slider's value, and the slider keeps that value; the artwork is untouched |
| PlayerScreen.PlayerViewModel.Seek | PickupPlayer/ViewModels/PlayerViewModel.swift:87-89 | the player has exactly the effect of seeking to the time, and the slider follows unless dragging, when it keeps the dragged value; the artwork is untouched |
| PlayerScreen.PlayerViewModel.SkipForward | PickupPlayer/ViewModels/PlayerViewModel.swift:79-81 | the player has exactly the effect of seeking to the 30-second forward target; the slider follows unless dragging, when it keeps the dragged value; the artwork is untouched |
| PlayerScreen.PlayerViewModel.SkipBackward | PickupPlayer/ViewModels/PlayerViewModel.swift:83-85 | the player has exactly the effect of seeking to the 30-second backward target; the slider follows unless dragging, when it keeps the dragged value; the artwork is untouched |
| PlayerScreen.PlayerViewModel.TogglePlayPause | PickupPlayer/ViewModels/PlayerViewModel.swift:75-77 | forwarded: the player pauses when it was playing and plays otherwise, with exactly those effects |
| PlayerScreen.DragThenRelease | PickupPlayerTests/PlayerViewModelTests.swift:61-113 | ticks do not move a dragged slider, and letting go puts the player at the dragged value |
| PlaylistScreen.PlaylistViewModel.constructor | PickupPlayer/ViewModels/PlaylistViewModel.swift:12-23 | both picker flags start false |
| PlaylistScreen.PlaylistViewModel.IsEmpty | PickupPlayer/ViewModels/PlaylistViewModel.swift:25-31 | holds exactly when the playlist has no tracks |
| PlaylistScreen.PlaylistViewModel.ShowDocumentPicker | PickupPlayer/ViewModels/PlaylistViewModel.swift:35-37 | raises only its own flag |
| PlaylistScreen.PlaylistViewModel.ShowMusicPicker | PickupPlayer/ViewModels/PlaylistViewModel.swift:39-41 | raises only its own flag |
| PlaylistScreen.PlaylistViewModel.DeleteItems | PickupPlayer/ViewModels/PlaylistViewModel.swift:43-45 | the same effect as removing the offsets from the playlist |
| PlaylistScreen.PlaylistViewModel.MoveItems | PickupPlayer/ViewModels/PlaylistViewModel.swift:47-49 | the same effect as moving them in the playlist |
| PlaylistScreen.PlaylistViewModel.PlayAudioFile | PickupPlayer/ViewModels/PlaylistViewModel.swift:51-54 | load then play: a missing file ends stopped with nothing published; a loaded one plays from its restored position |
| PlaylistScreen.PlaylistViewModel.FormatTime | PickupPlayer/ViewModels/PlaylistViewModel.swift:56-58 | the shared formatter's text, reading back as whole seconds |

## Left out

- File I/O is not modelled. This covers the copying and deleting of exported and picked files, ArtworkManager's reads, writes and cache, and the documents-directory lookup (and its `fatalError`). Saving artwork is a function parameter `saveArtwork(data, id)`. The documents directory is a `Url` argument.
- `AVAudioPlayer`, `AVAudioSession`, `AVAssetExportSession`, `MPNowPlayingInfoCenter`, `MPRemoteCommandCenter` and `NotificationCenter` are foreign frameworks. Their outcomes are method arguments, and the command centre's registrations are the closed `RemoteCommand` type with its notification names.
- `setupAudioSession` and `deinit` only configure or release framework objects. They are not modelled.
- Concurrency is not modelled. `Task`, `async` and `MainActor` hops run their bodies as one sequential call each. In particular:
  - the 2-second delay before pruning is the separate `PruneTask` call;
  - the asynchronous insertion of a progress monitor is not raced against its removal.
- Timer scheduling is not modelled. The 1-second player tick, the 1-second sleep-timer update and the 100 ms export poll are explicit method calls, with the clock as a `now` argument.
- Times and progress are exact `real`s. IEEE rounding is not modelled.
- `Trunc`: does not model the trap of Swift's `Int(_:)` on NaN, infinities and values outside the 64-bit range.
- JSON and `UserDefaults` byte formats are not modelled. An encoded record is a typed keyed container, the playlist entry is a stored sequence of containers, and the defaults are a map from key to position.
- `UIImage` decoding, image sizes and `MPMediaItemArtwork` are not modelled. An image is opaque data that is given or absent.
- `print` logging is not modelled.
- `DocumentPickerView`, `ArtworkExtractor` and the SwiftUI views are interface and I/O code. They are not modelled.
- `PlayerViewModel`'s artwork sink decodes stored artwork into an image. The decoded image is an argument to `CurrentAudioFileDidChange`.
- `Playlists.Playlist.RemoveItems`: requires valid offsets, because Swift traps on an offset outside the list.
- `Playlists.Playlist.MoveItems`: requires valid offsets and a destination inside the list, because Swift traps otherwise.
- `AudioPlayer.AudioPlayerManager.Tick`: requires that some tick timer is running, because a tick cannot arrive without one.
- `AudioPlayer.AudioPlayerManager.DidFinishPlaying`: requires a player, because the framework only calls it for a loaded player.
- `AudioPlayer.AudioPlayerManager.LoadAudio`: requires a non-negative decoded duration, because the framework never reports a negative one.
- No fade-out of the volume exists in the code, so none is modelled.
