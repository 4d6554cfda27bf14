/*
 * `PlaybackStateManager`: the last playback position of each track, kept in
 * the user-defaults store under the key "playback_" + the track's UUID.
 */
module PlaybackState {
  import opened Foundation

  const KeyPrefix: string := "playback_"

  /** The defaults key a track's position is stored under: the prefix, then the UUID text. */
  function PositionKey(id: Uuid): (key: string)
    ensures |key| >= |KeyPrefix| && key[..|KeyPrefix|] == KeyPrefix && key[|KeyPrefix|..] == id.uuidString
  {
    KeyPrefix + id.uuidString
  }

  /** Distinct tracks never share a key. */
  lemma {:induction false} PositionKeyInjective(a: Uuid, b: Uuid)
    ensures PositionKey(a) == PositionKey(b) <==> a == b
  {
    if PositionKey(a) == PositionKey(b) {
      assert a.uuidString == PositionKey(a)[|KeyPrefix|..];
      assert b.uuidString == PositionKey(b)[|KeyPrefix|..];
    }
  }

  /**
   * `UserDefaults.double(forKey:)` on a track's key: the stored position, or
   * 0 when nothing is stored.
   */
  function PositionIn(defaults: map<string, real>, id: Uuid): real
  {
    if PositionKey(id) in defaults then defaults[PositionKey(id)] else 0.0
  }

  /** A saved position reads back; the last of two saves wins. */
  lemma LoadAfterSave(defaults: map<string, real>, id: Uuid, first: real, position: real)
    ensures PositionIn(defaults[PositionKey(id) := position], id) == position
    ensures PositionIn(defaults[PositionKey(id) := first][PositionKey(id) := position], id) == position
  {
  }

  /** Saving or clearing one track's position leaves every other track's alone. */
  lemma {:induction false} OtherTracksUnaffected(defaults: map<string, real>, id: Uuid, other: Uuid, position: real)
    requires other != id
    ensures PositionIn(defaults[PositionKey(id) := position], other) == PositionIn(defaults, other)
    ensures PositionIn(defaults - {PositionKey(id)}, other) == PositionIn(defaults, other)
  {
    PositionKeyInjective(id, other);
  }

  /** After a clear the position reads as 0. */
  lemma LoadAfterClear(defaults: map<string, real>, id: Uuid)
    ensures PositionIn(defaults - {PositionKey(id)}, id) == 0.0
  {
  }

  class PlaybackStateManager {
    /** The user-defaults entries this manager writes. */
    var defaults: map<string, real>

    constructor(defaults: map<string, real>)
      ensures this.defaults == defaults
    {
      this.defaults := defaults;
    }

    /** `savePlaybackPosition(for:position:)`. */
    method SavePlaybackPosition(id: Uuid, position: real)
      modifies this
      ensures defaults == old(defaults)[PositionKey(id) := position]
      ensures PositionIn(defaults, id) == position
    {
      defaults := defaults[PositionKey(id) := position];
    }

    /** `loadPlaybackPosition(for:)`. */
    method LoadPlaybackPosition(id: Uuid) returns (position: real)
      ensures position == PositionIn(defaults, id)
      ensures PositionKey(id) !in defaults ==> position == 0.0
    {
      position := if PositionKey(id) in defaults then defaults[PositionKey(id)] else 0.0;
    }

    /** `clearPlaybackPosition(for:)`. */
    method ClearPlaybackPosition(id: Uuid)
      modifies this
      ensures defaults == old(defaults) - {PositionKey(id)}
      ensures PositionIn(defaults, id) == 0.0
    {
      defaults := defaults - {PositionKey(id)};
    }
  }
}
