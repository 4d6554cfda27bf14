/*
 * `Playlist`: the ordered list of tracks. Every change is followed by saving
 * the whole list under the "playlist" defaults key; a new playlist starts
 * from what is saved there.
 */
module Playlists {
  import opened Foundation
  import opened SwiftArray
  import opened AudioFiles

  /** `JSONEncoder().encode(items)`: one keyed container per track, in order. */
  function EncodeAll(items: seq<AudioFile>): (cs: seq<Container>)
    ensures |cs| == |items|
    ensures forall i :: 0 <= i < |items| ==> cs[i] == Encode(items[i])
  {
    if items == [] then [] else [Encode(items[0])] + EncodeAll(items[1..])
  }

  /** `JSONDecoder().decode([AudioFile].self, ...)`: every element decodes, or the whole list fails. */
  function DecodeAll(cs: seq<Container>): (r: Option<seq<AudioFile>>)
    ensures r.Some? <==> forall i :: 0 <= i < |cs| ==> Decodable(cs[i])
    ensures r.Some? ==> |r.value| == |cs| && forall i :: 0 <= i < |cs| ==> Success(r.value[i]) == Decode(cs[i])
  {
    if cs == [] then Some([])
    else match (Decode(cs[0]), DecodeAll(cs[1..]))
      case (Success(f), Some(rest)) => Some([f] + rest)
      case _ => None
  }

  /** A saved list reads back as the same tracks. */
  lemma {:induction false} DecodeAllEncodeAll(items: seq<AudioFile>)
    ensures DecodeAll(EncodeAll(items)) == Some(items)
  {
    if items != [] {
      EncodeDecodeRoundTrip(items[0]);
      DecodeAllEncodeAll(items[1..]);
      assert EncodeAll(items)[1..] == EncodeAll(items[1..]);
      assert [items[0]] + items[1..] == items;
    }
  }

  /** `loadPlaylist()`: the saved tracks when there are any that decode, else an empty list. */
  function LoadedItems(stored: Option<seq<Container>>): (items: seq<AudioFile>)
    ensures stored.None? ==> items == []
    ensures stored.Some? && DecodeAll(stored.value).None? ==> items == []
  {
    if stored.Some? && DecodeAll(stored.value).Some? then DecodeAll(stored.value).value else []
  }

  /**
   * With nothing saved the list is empty, and a list that was saved loads
   * back as itself.
   */
  lemma {:induction false} LoadedItemsOfSaved(items: seq<AudioFile>)
    ensures LoadedItems(None) == []
    ensures LoadedItems(Some(EncodeAll(items))) == items
  {
    DecodeAllEncodeAll(items);
  }

  /**
   * `items` with the first track whose id is `id` moved to `position`: every
   * track keeps its identity, name, title, duration and artwork, only the
   * first track with that id can change, and that track ends at `position`.
   */
  function WithPlaybackPosition(items: seq<AudioFile>, id: Uuid, position: real): (r: seq<AudioFile>)
    ensures |r| == |items|
    ensures forall i :: 0 <= i < |r| ==> r[i] == items[i].(lastPlaybackPosition := r[i].lastPlaybackPosition)
    ensures forall i :: 0 <= i < |r| && r[i] != items[i] ==>
              items[i].id == id && forall j :: 0 <= j < i ==> items[j].id != id
    ensures forall i :: 0 <= i < |r| && items[i].id == id && (forall j :: 0 <= j < i ==> items[j].id != id) ==>
              r[i].lastPlaybackPosition == position
  {
    match FirstIndex(items, (f: AudioFile) => f.id == id)
    case None => items
    case Some(i) => items[i := items[i].(lastPlaybackPosition := position)]
  }

  class Playlist {
    var items: seq<AudioFile>
    /** The "playlist" entry in the defaults store. */
    var stored: Option<seq<Container>>

    /** The saved entry is the current list. */
    ghost predicate Saved()
      reads this
    {
      stored == Some(EncodeAll(items))
    }

    /** `init()`: loads whatever the store holds. */
    constructor(stored: Option<seq<Container>>)
      ensures items == LoadedItems(stored) && this.stored == stored
    {
      items := LoadedItems(stored);
      this.stored := stored;
    }

    /** `savePlaylist()`. */
    method SavePlaylist()
      modifies this
      ensures Saved() && items == old(items)
    {
      stored := Some(EncodeAll(items));
    }

    /** `addItem(_:)`. */
    method AddItem(audioFile: AudioFile)
      modifies this
      ensures items == old(items) + [audioFile]
      ensures Saved()
    {
      items := items + [audioFile];
      SavePlaylist();
    }

    /** `removeItems(at:)`; an offset outside the list traps in Swift. */
    method RemoveItems(offsets: set<int>)
      requires ValidOffsets(offsets, |items|)
      modifies this
      ensures items == RemovingOffsets(old(items), offsets)
      ensures |items| == |old(items)| - |offsets|
      ensures Saved()
    {
      items := RemovingOffsets(items, offsets);
      SavePlaylist();
    }

    /** `moveItems(from:to:)`; offsets and destination outside the list trap in Swift. */
    method MoveItems(source: set<int>, destination: int)
      requires ValidOffsets(source, |items|) && 0 <= destination <= |items|
      modifies this
      ensures items == MovingOffsets(old(items), source, destination)
      ensures multiset(items) == multiset(old(items))
      ensures Saved()
    {
      items := MovingOffsets(items, source, destination);
      SavePlaylist();
    }

    /** `updatePlaybackPosition(for:position:)`: saves only when a track matched. */
    method UpdatePlaybackPosition(audioFile: AudioFile, position: real)
      modifies this
      ensures items == WithPlaybackPosition(old(items), audioFile.id, position)
      ensures FirstIndex(old(items), (f: AudioFile) => f.id == audioFile.id).Some? ==> Saved()
      ensures FirstIndex(old(items), (f: AudioFile) => f.id == audioFile.id).None? ==> stored == old(stored)
    {
      var index := FirstIndex(items, (f: AudioFile) => f.id == audioFile.id);
      if index.Some? {
        items := items[index.value := items[index.value].(lastPlaybackPosition := position)];
        SavePlaylist();
      }
    }
  }

  /** A playlist opened from what another one saved holds the same tracks. */
  method ReopenedPlaylistKeepsItems(p: Playlist, audioFile: AudioFile) returns (q: Playlist)
    modifies p
    ensures q.items == old(p.items) + [audioFile]
  {
    p.AddItem(audioFile);
    LoadedItemsOfSaved(p.items);
    q := new Playlist(p.stored);
  }

  /** Moving the first of three tracks to the end, as the playlist's tests do. */
  method MoveFirstTrackToEnd(p: Playlist)
    requires |p.items| == 3
    modifies p
    ensures p.items == [old(p.items)[1], old(p.items)[2], old(p.items)[0]]
  {
    assert ValidOffsets({0}, |p.items|);
    MoveFirstToEnd(p.items);
    p.MoveItems({0}, 3);
  }
}
