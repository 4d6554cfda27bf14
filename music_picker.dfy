/*
 * `MusicPickerViewModel`: imports tracks picked from the music library.
 * Each picked item with an asset URL gets an `ExportTask`; its export runs
 * through an `AVAssetExportSession`, reports progress every 100 ms, and ends
 * either with a new playlist track and a completed task or with an error
 * message and a failed task. A completed task is pruned from the list later.
 *
 * Each step that runs on the main actor is one method here; the outcomes of
 * the foreign calls (whether a session could be made, the progress values it
 * reports, whether the export succeeded) are arguments.
 */
module MusicPicker {
  import opened Foundation
  import opened SwiftArray
  import opened AudioFiles
  import opened Playlists
  import opened ExportTasks

  const UnknownTitle: string := "不明な曲"
  const FallbackFileName: string := "audio_file"
  const ExportExtension: string := ".m4a"
  const FailedReason: string := "エクスポートに失敗しました"
  const FailureMessagePrefix: string := "ファイルのエクスポートに失敗しました: "

  /** An `MPMediaItem`, reduced to what the import reads from it. */
  datatype MediaItem = MediaItem(assetURL: Option<Url>, title: Option<string>, playbackDuration: real, artworkData: Option<Bytes>)

  /** The title a task and a track get: the item's, or "不明な曲" without one. */
  function ItemTitle(item: MediaItem): string
  {
    if item.title.Some? then item.title.value else UnknownTitle
  }

  /** An `AVAssetExportSession` in flight, known by its source and destination. */
  datatype ExportSession = ExportSession(source: Url, output: Url)

  /**
   * The file name an export writes: the title's alphanumeric characters in
   * order, or "audio_file" when it has none, then ".m4a". `alphanumeric` is
   * membership in `CharacterSet.alphanumerics`.
   */
  function SafeFileName(title: string, alphanumeric: char -> bool): (name: string)
    ensures |name| > |ExportExtension| && name[|name| - |ExportExtension|..] == ExportExtension
    ensures var base := name[..|name| - |ExportExtension|];
            base == FallbackFileName || forall i :: 0 <= i < |base| ==> alphanumeric(base[i])
    ensures Contains(title, alphanumeric) ==> name == RemoveAll(title, (c: char) => !alphanumeric(c)) + ExportExtension
    ensures !Contains(title, alphanumeric) ==> name == FallbackFileName + ExportExtension
    ensures !alphanumeric('/') ==> IsFileName(name)
  {
    var reject := (c: char) => !alphanumeric(c);
    var kept := RemoveAll(title, reject);
    RemoveAllEmpty(title, reject);
    var base := if kept == [] then FallbackFileName else kept;
    assert (base + ExportExtension)[..|base|] == base;
    base + ExportExtension
  }

  /**
   * The name keeps every alphanumeric character of the title as often as it
   * occurs there, and drops every other character, unless none is left.
   */
  lemma {:induction false} SafeFileNameKeepsAlphanumerics(title: string, alphanumeric: char -> bool, c: char)
    requires exists i :: 0 <= i < |title| && alphanumeric(title[i])
    ensures var name := SafeFileName(title, alphanumeric);
            multiset(name[..|name| - |ExportExtension|])[c] == if alphanumeric(c) then multiset(title)[c] else 0
  {
    var p := (ch: char) => !alphanumeric(ch);
    var i :| 0 <= i < |title| && alphanumeric(title[i]);
    RemoveAllCounts(title, p, title[i]);
    assert title[i] in multiset(title);
    assert RemoveAll(title, p) != [];
    RemoveAllCounts(title, p, c);
    var name := SafeFileName(title, alphanumeric);
    assert name[..|name| - |ExportExtension|] == RemoveAll(title, p);
  }

  /** `"ファイルのエクスポートに失敗しました: \(title)"`. */
  function FailureMessage(title: string): (message: string)
    ensures |message| >= |FailureMessagePrefix| && message[..|FailureMessagePrefix|] == FailureMessagePrefix && message[|FailureMessagePrefix|..] == title
  {
    FailureMessagePrefix + title
  }

  /**
   * The tasks `handleSelectedMediaItems` appends for `items`, whose tasks get
   * the ids `ids` in turn: one waiting task per item with an asset URL.
   */
  function NewTasks(items: seq<MediaItem>, ids: seq<Uuid>): (tasks: seq<ExportTask>)
    requires |ids| == |items|
    ensures |tasks| <= |items|
    ensures forall k :: 0 <= k < |tasks| ==> tasks[k].status == Waiting && tasks[k].progress == 0.0
    ensures forall k :: 0 <= k < |tasks| ==>
              exists i :: 0 <= i < |items| && items[i].assetURL.Some?
                          && tasks[k] == NewExportTask(ids[i], ItemTitle(items[i]))
  {
    if items == [] then []
    else
      var n := |items| - 1;
      var earlier := NewTasks(items[..n], ids[..n]);
      if items[n].assetURL.Some? then earlier + [NewExportTask(ids[n], ItemTitle(items[n]))] else earlier
  }

  /**
   * The tasks of a selection are the tasks of its first part followed by
   * those of the rest: each item contributes its own task in its own place.
   */
  lemma {:induction false} NewTasksConcat(a: seq<MediaItem>, b: seq<MediaItem>, ia: seq<Uuid>, ib: seq<Uuid>)
    requires |ia| == |a| && |ib| == |b|
    ensures NewTasks(a + b, ia + ib) == NewTasks(a, ia) + NewTasks(b, ib)
    decreases |b|
  {
    if b == [] {
      assert a + b == a && ia + ib == ia;
    } else {
      var n := |b| - 1;
      var c, ic := a + b, ia + ib;
      NewTasksConcat(a, b[..n], ia, ib[..n]);
      assert c[..|a| + n] == a + b[..n] && ic[..|a| + n] == ia + ib[..n];
      assert c[|a| + n] == b[n] && ic[|a| + n] == ib[n];
      var last := if b[n].assetURL.Some? then [NewExportTask(ib[n], ItemTitle(b[n]))] else [];
      assert NewTasks(c, ic) == NewTasks(a + b[..n], ia + ib[..n]) + last;
      assert NewTasks(b, ib) == NewTasks(b[..n], ib[..n]) + last;
    }
  }

  /** One item yields its waiting task with the given id when it has an asset URL, and nothing otherwise. */
  lemma NewTasksOfOne(item: MediaItem, id: Uuid)
    ensures NewTasks([item], [id]) == if item.assetURL.Some? then [NewExportTask(id, ItemTitle(item))] else []
  {
    assert [item][..0] == [] && [id][..0] == [];
  }

  /** How many of `items` have an asset URL. */
  function WithAssetCount(items: seq<MediaItem>): nat
  {
    if items == [] then 0 else WithAssetCount(items[..|items| - 1]) + (if items[|items| - 1].assetURL.Some? then 1 else 0)
  }

  /** Exactly one task per item with an asset URL, so none for an empty selection. */
  lemma {:induction false} NewTasksCount(items: seq<MediaItem>, ids: seq<Uuid>)
    requires |ids| == |items|
    ensures |NewTasks(items, ids)| == WithAssetCount(items)
    ensures items == [] ==> NewTasks(items, ids) == []
    decreases |items|
  {
    if items != [] {
      NewTasksCount(items[..|items| - 1], ids[..|items| - 1]);
    }
  }

  /** The list after the progress timer of task `id` has read each of `reports` in turn. */
  function AfterPolls(tasks: seq<ExportTask>, id: Uuid, reports: seq<real>): seq<ExportTask>
  {
    if reports == [] then tasks
    else WithProgress(AfterPolls(tasks, id, reports[..|reports| - 1]), id, reports[|reports| - 1])
  }

  /** One more poll applies the next report to the list the earlier polls left. */
  lemma AfterPollsStep(tasks: seq<ExportTask>, id: Uuid, reports: seq<real>, k: nat)
    requires k < |reports|
    ensures AfterPolls(tasks, id, reports[..k + 1]) == WithProgress(AfterPolls(tasks, id, reports[..k]), id, reports[k])
  {
    assert reports[..k + 1][..k] == reports[..k];
  }

  /**
   * Progress polls change only the task's progress, which ends at the last
   * value read; its status and every other task stay as they were.
   */
  lemma {:induction false} AfterPollsChangesOnlyTheTask(tasks: seq<ExportTask>, id: Uuid, reports: seq<real>)
    ensures OnlyTaskChanged(tasks, AfterPolls(tasks, id, reports), id)
    ensures forall i :: 0 <= i < |tasks| ==> AfterPolls(tasks, id, reports)[i].status == tasks[i].status
    ensures reports != [] && TaskIndex(tasks, id).Some? ==>
              AfterPolls(tasks, id, reports)[TaskIndex(tasks, id).value].progress == reports[|reports| - 1]
    decreases |reports|
  {
    if reports != [] {
      var earlier := AfterPolls(tasks, id, reports[..|reports| - 1]);
      AfterPollsChangesOnlyTheTask(tasks, id, reports[..|reports| - 1]);
      UpdatesChangeOnlyTheTask(earlier, id, Waiting, reports[|reports| - 1]);
      OnlyTaskChangedTransitive(tasks, earlier, AfterPolls(tasks, id, reports), id);
    }
  }

  /**
   * Marking a task exporting and then changing only its progress leaves the
   * other tasks as they were and that task exporting.
   */
  lemma SessionKeepsExporting(before: seq<ExportTask>, begun: seq<ExportTask>, after: seq<ExportTask>, id: Uuid)
    requires begun == WithStatus(before, id, Exporting)
    requires OnlyTaskChanged(begun, after, id)
    requires forall i :: 0 <= i < |after| ==> after[i].status == begun[i].status
    ensures OnlyTaskChanged(before, after, id)
    ensures TaskIndex(before, id).Some? ==> after[TaskIndex(before, id).value].status == Exporting
  {
    UpdatesChangeOnlyTheTask(before, id, Exporting, 0.0);
    OnlyTaskChangedTransitive(before, begun, after, id);
  }

  class MusicPickerViewModel {
    var exportTasks: seq<ExportTask>
    var errorMessage: Option<string>
    const playlist: Playlist
    var exportSessions: map<Uuid, ExportSession>
    /** The ids that have a progress timer in `progressTimers`. */
    var progressTimers: set<Uuid>

    constructor(playlist: Playlist)
      ensures this.playlist == playlist
      ensures exportTasks == [] && errorMessage.None? && exportSessions == map[] && progressTimers == {}
    {
      this.playlist := playlist;
      exportTasks := [];
      errorMessage := None;
      exportSessions := map[];
      progressTimers := {};
    }

    /** `isExporting`. */
    function IsExporting(): (r: bool)
      reads this
      ensures r <==> exists i :: 0 <= i < |exportTasks| && exportTasks[i].status == Exporting
    {
      AnyExporting(exportTasks)
    }

    /** `updateTaskStatus(taskId:status:)`. */
    method UpdateTaskStatus(taskId: Uuid, status: Status)
      modifies this
      ensures exportTasks == WithStatus(old(exportTasks), taskId, status)
      ensures errorMessage == old(errorMessage) && exportSessions == old(exportSessions)
      ensures progressTimers == old(progressTimers)
    {
      var index := TaskIndex(exportTasks, taskId);
      if index.Some? {
        exportTasks := exportTasks[index.value := exportTasks[index.value].(status := status)];
      }
    }

    /** `updateTaskProgress(taskId:progress:)`. */
    method UpdateTaskProgress(taskId: Uuid, progress: real)
      modifies this
      ensures exportTasks == WithProgress(old(exportTasks), taskId, progress)
      ensures errorMessage == old(errorMessage) && exportSessions == old(exportSessions)
      ensures progressTimers == old(progressTimers)
    {
      var index := TaskIndex(exportTasks, taskId);
      if index.Some? {
        exportTasks := exportTasks[index.value := exportTasks[index.value].(progress := progress)];
      }
    }

    /**
     * `handleSelectedMediaItems(_:)`: a waiting task for each item with an
     * asset URL, in the order of the selection; `ids` are the fresh UUIDs the
     * tasks are made with.
     */
    method HandleSelectedMediaItems(items: seq<MediaItem>, ids: seq<Uuid>)
      requires |ids| == |items|
      modifies this
      ensures exportTasks == old(exportTasks) + NewTasks(items, ids)
      ensures errorMessage == old(errorMessage) && exportSessions == old(exportSessions)
      ensures progressTimers == old(progressTimers)
    {
      var i := 0;
      while i < |items|
        invariant 0 <= i <= |items|
        invariant exportTasks == old(exportTasks) + NewTasks(items[..i], ids[..i])
        invariant errorMessage == old(errorMessage) && exportSessions == old(exportSessions)
        invariant progressTimers == old(progressTimers)
      {
        assert items[..i + 1][..i] == items[..i] && ids[..i + 1][..i] == ids[..i];
        if items[i].assetURL.Some? {
          exportTasks := exportTasks + [NewExportTask(ids[i], ItemTitle(items[i]))];
        }
        i := i + 1;
      }
      assert items[..i] == items && ids[..i] == ids;
    }

    /**
     * The main-actor step of `exportMusicFile` once the session exists: the
     * session is kept under the task's id, the task is marked exporting, and
     * its progress timer is scheduled.
     */
    method BeginExport(taskId: Uuid, session: ExportSession)
      modifies this
      ensures exportSessions == old(exportSessions)[taskId := session]
      ensures progressTimers == old(progressTimers) + {taskId}
      ensures exportTasks == WithStatus(old(exportTasks), taskId, Exporting)
      ensures errorMessage == old(errorMessage)
    {
      exportSessions := exportSessions[taskId := session];
      UpdateTaskStatus(taskId, Exporting);
      progressTimers := progressTimers + {taskId};
    }

    /** One firing of a task's progress timer; nothing once the session is gone. */
    method PollProgress(taskId: Uuid, progress: real)
      modifies this
      ensures exportTasks == (if taskId in exportSessions then WithProgress(old(exportTasks), taskId, progress) else old(exportTasks))
      ensures errorMessage == old(errorMessage) && exportSessions == old(exportSessions)
      ensures progressTimers == old(progressTimers)
    {
      if taskId in exportSessions {
        UpdateTaskProgress(taskId, progress);
      }
    }

    /** The progress timer of a task firing once for each of `reports`, in order. */
    method MonitorProgress(taskId: Uuid, reports: seq<real>)
      modifies this
      ensures exportTasks == (if taskId in exportSessions then AfterPolls(old(exportTasks), taskId, reports) else old(exportTasks))
      ensures OnlyTaskChanged(old(exportTasks), exportTasks, taskId)
      ensures forall i :: 0 <= i < |exportTasks| ==> exportTasks[i].status == old(exportTasks)[i].status
      ensures errorMessage == old(errorMessage) && exportSessions == old(exportSessions)
      ensures progressTimers == old(progressTimers)
    {
      AfterPollsChangesOnlyTheTask(exportTasks, taskId, reports);
      var k := 0;
      while k < |reports|
        invariant 0 <= k <= |reports|
        invariant exportTasks == (if taskId in exportSessions then AfterPolls(old(exportTasks), taskId, reports[..k]) else old(exportTasks))
        invariant errorMessage == old(errorMessage) && exportSessions == old(exportSessions)
        invariant progressTimers == old(progressTimers)
      {
        AfterPollsStep(old(exportTasks), taskId, reports, k);
        PollProgress(taskId, reports[k]);
        k := k + 1;
      }
      assert reports[..k] == reports;
    }

    /**
     * `stopProgressMonitoring(for:)` and dropping the session, which both
     * outcomes of the export do; the entries of other ids stay.
     */
    method EndExport(taskId: Uuid)
      modifies this
      ensures exportSessions == old(exportSessions) - {taskId}
      ensures progressTimers == old(progressTimers) - {taskId}
      ensures exportTasks == old(exportTasks) && errorMessage == old(errorMessage)
    {
      progressTimers := progressTimers - {taskId};
      exportSessions := exportSessions - {taskId};
    }

    /** The failure branch of `exportAndAddToPlaylist`: an error message and a failed task. */
    method ExportFailed(taskId: Uuid, title: string)
      modifies this
      ensures errorMessage == Some(FailureMessage(title))
      ensures exportTasks == WithStatus(old(exportTasks), taskId, Failed(FailedReason))
      ensures exportSessions == old(exportSessions) && progressTimers == old(progressTimers)
    {
      errorMessage := Some(FailureMessage(title));
      UpdateTaskStatus(taskId, Failed(FailedReason));
    }

    /**
     * The success branch of `exportAndAddToPlaylist`: a new track for the
     * exported file, starting at zero, then a completed task.
     */
    method ExportSucceeded(
      taskId: Uuid, trackId: Uuid, exportedURL: Url, title: string, duration: real,
      artworkData: Option<Bytes>, saveArtwork: (Bytes, Uuid) -> Option<string>)
      modifies this, playlist
      ensures playlist.items == old(playlist.items) + [NewAudioFile(trackId, exportedURL, title, duration, 0.0, artworkData, saveArtwork)]
      ensures playlist.Saved()
      ensures exportTasks == WithStatus(old(exportTasks), taskId, Completed)
      ensures errorMessage == old(errorMessage)
      ensures exportSessions == old(exportSessions) && progressTimers == old(progressTimers)
    {
      var audioFile := NewAudioFile(trackId, exportedURL, title, duration, 0.0, artworkData, saveArtwork);
      playlist.AddItem(audioFile);
      UpdateTaskStatus(taskId, Completed);
    }

    /** The delayed clean-up after a success: every task with the id leaves the list. */
    method PruneTask(taskId: Uuid)
      modifies this
      ensures exportTasks == WithoutTask(old(exportTasks), taskId)
      ensures errorMessage == old(errorMessage) && exportSessions == old(exportSessions)
      ensures progressTimers == old(progressTimers)
    {
      exportTasks := RemoveAll(exportTasks, (t: ExportTask) => t.id == taskId);
    }

    /**
     * The life of one export session: registered, polled once for each of
     * `reports`, then dropped. Only the task's progress and status change,
     * and it is exporting while the session runs.
     */
    method RunSession(taskId: Uuid, session: ExportSession, reports: seq<real>)
      modifies this
      ensures OnlyTaskChanged(old(exportTasks), exportTasks, taskId)
      ensures TaskIndex(old(exportTasks), taskId).Some? ==>
                exportTasks[TaskIndex(old(exportTasks), taskId).value].status == Exporting
      ensures errorMessage == old(errorMessage)
      ensures exportSessions == old(exportSessions) - {taskId} && progressTimers == old(progressTimers) - {taskId}
    {
      ghost var before := exportTasks;
      BeginExport(taskId, session);
      ghost var begun := exportTasks;
      MonitorProgress(taskId, reports);
      SessionKeepsExporting(before, begun, exportTasks, taskId);
      EndExport(taskId);
    }

    /**
     * `exportMusicFile(from:title:taskId:)`, run to its end: `sessionCreated`
     * says whether an export session could be made, `reports` are the progress
     * values its timer reads, `succeeded` how the export ended. The result is
     * the written file, or none.
     */
    method ExportMusicFile(
      url: Url, title: string, taskId: Uuid, documents: Url, alphanumeric: char -> bool,
      sessionCreated: bool, reports: seq<real>, succeeded: bool) returns (exportedURL: Option<Url>)
      modifies this
      ensures exportedURL == (if sessionCreated && succeeded
                              then Some(AppendingPathComponent(documents, SafeFileName(title, alphanumeric)))
                              else None)
      ensures OnlyTaskChanged(old(exportTasks), exportTasks, taskId)
      ensures sessionCreated && TaskIndex(old(exportTasks), taskId).Some? ==>
                exportTasks[TaskIndex(old(exportTasks), taskId).value].status == Exporting
      ensures errorMessage == old(errorMessage)
      ensures !sessionCreated ==>
                exportTasks == old(exportTasks)
                && exportSessions == old(exportSessions) && progressTimers == old(progressTimers)
      ensures sessionCreated ==>
                exportSessions == old(exportSessions) - {taskId} && progressTimers == old(progressTimers) - {taskId}
    {
      if !sessionCreated {
        return None;
      }
      var outputURL := AppendingPathComponent(documents, SafeFileName(title, alphanumeric));
      RunSession(taskId, ExportSession(url, outputURL), reports);
      exportedURL := if succeeded then Some(outputURL) else None;
    }

    /**
     * `exportAndAddToPlaylist(url:title:duration:artworkData:taskId:)`, run
     * to its end; `trackId` is the new track's UUID.
     */
    method ExportAndAddToPlaylist(
      url: Url, title: string, duration: real, artworkData: Option<Bytes>, taskId: Uuid,
      documents: Url, alphanumeric: char -> bool,
      sessionCreated: bool, reports: seq<real>, succeeded: bool,
      trackId: Uuid, saveArtwork: (Bytes, Uuid) -> Option<string>)
      modifies this, playlist
      ensures OnlyTaskChanged(old(exportTasks), exportTasks, taskId)
      ensures !(sessionCreated && succeeded) ==>
                && playlist.items == old(playlist.items) && playlist.stored == old(playlist.stored)
                && errorMessage == Some(FailureMessage(title))
                && (TaskIndex(old(exportTasks), taskId).Some? ==>
                      exportTasks[TaskIndex(old(exportTasks), taskId).value].status == Failed(FailedReason))
      ensures sessionCreated && succeeded ==>
                && playlist.Saved()
                && playlist.items == old(playlist.items)
                   + [NewAudioFile(trackId, AppendingPathComponent(documents, SafeFileName(title, alphanumeric)),
                                   title, duration, 0.0, artworkData, saveArtwork)]
                && errorMessage == old(errorMessage)
                && (TaskIndex(old(exportTasks), taskId).Some? ==>
                      exportTasks[TaskIndex(old(exportTasks), taskId).value].status == Completed)
      ensures !sessionCreated ==> exportSessions == old(exportSessions) && progressTimers == old(progressTimers)
      ensures sessionCreated ==>
                exportSessions == old(exportSessions) - {taskId} && progressTimers == old(progressTimers) - {taskId}
    {
      var exportedURL := ExportMusicFile(url, title, taskId, documents, alphanumeric, sessionCreated, reports, succeeded);
      ghost var exported := exportTasks;
      var status := if exportedURL.None? then Failed(FailedReason) else Completed;
      UpdatesChangeOnlyTheTask(exportTasks, taskId, status, 0.0);
      if exportedURL.None? {
        ExportFailed(taskId, title);
      } else {
        ExportSucceeded(taskId, trackId, exportedURL.value, title, duration, artworkData, saveArtwork);
      }
      OnlyTaskChangedTransitive(old(exportTasks), exported, exportTasks, taskId);
    }
  }

  /**
   * An exported track is stored under the safe file name, so its computed
   * location is the file the export wrote.
   */
  lemma ExportedTrackLocation(
    documents: Url, title: string, alphanumeric: char -> bool, trackId: Uuid, duration: real,
    artworkData: Option<Bytes>, saveArtwork: (Bytes, Uuid) -> Option<string>)
    requires !alphanumeric('/')
    ensures var output := AppendingPathComponent(documents, SafeFileName(title, alphanumeric));
            var track := NewAudioFile(trackId, output, title, duration, 0.0, artworkData, saveArtwork);
            track.fileName == SafeFileName(title, alphanumeric) && track.Location(documents) == output
            && track.lastPlaybackPosition == 0.0
  {
    NewAudioFileLocation(documents, SafeFileName(title, alphanumeric), trackId, title, duration, artworkData, saveArtwork);
  }
}
