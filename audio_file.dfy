/*
 * `AudioFile`: one playlist track. Its Codable form stores the bare file
 * name; a record written by an older version that stored an absolute `url`
 * instead is migrated on decoding by taking that URL's last path component.
 */
module AudioFiles {
  import opened Foundation

  datatype AudioFile = AudioFile(
    id: Uuid,
    fileName: string,
    title: string,
    duration: real,
    lastPlaybackPosition: real,
    artworkPath: Option<string>)
  {
    /**
     * The computed `url`: the file name inside the documents directory, so
     * its last path component is the file name again.
     */
    function Location(documents: Url): (u: Url)
      ensures |u.path| > |documents.path| && u.path[..|documents.path|] == documents.path
      ensures IsFileName(fileName) ==> LastPathComponent(u.path) == fileName
    {
      AppendingPathComponent(documents, fileName)
    }
  }

  /**
   * `AudioFile.init(id:url:title:duration:lastPlaybackPosition:artworkData:)`.
   * `saveArtwork` stands for `ArtworkManager.saveArtwork(_:for:)`, which
   * writes the bytes and returns their relative path, or nil on failure.
   */
  function NewAudioFile(
    id: Uuid, url: Url, title: string, duration: real, lastPlaybackPosition: real,
    artworkData: Option<Bytes>, saveArtwork: (Bytes, Uuid) -> Option<string>): (f: AudioFile)
    ensures f.id == id && f.title == title && f.duration == duration && f.lastPlaybackPosition == lastPlaybackPosition
    ensures f.fileName == LastPathComponent(url.path)
    ensures f.artworkPath.Some? <==> artworkData.Some? && saveArtwork(artworkData.value, id).Some?
    ensures artworkData.Some? ==> f.artworkPath == saveArtwork(artworkData.value, id)
  {
    AudioFile(id, LastPathComponent(url.path), title, duration, lastPlaybackPosition,
              if artworkData.Some? then saveArtwork(artworkData.value, id) else None)
  }

  /**
   * A track created from the file it lives in keeps that file's name, so its
   * computed `url` points back at the same file.
   */
  lemma NewAudioFileLocation(
    documents: Url, name: string, id: Uuid, title: string, duration: real,
    artworkData: Option<Bytes>, saveArtwork: (Bytes, Uuid) -> Option<string>)
    requires IsFileName(name)
    ensures var f := NewAudioFile(id, AppendingPathComponent(documents, name), title, duration, 0.0, artworkData, saveArtwork);
            f.fileName == name && f.Location(documents) == AppendingPathComponent(documents, name)
            && f.lastPlaybackPosition == 0.0
  {
  }

  // ---------------------------------------------------------------------
  // Codable

  datatype CodingKey = IdKey | FileNameKey | TitleKey | DurationKey | LastPlaybackPositionKey | ArtworkPathKey | UrlKey

  /** A value in a keyed container, tagged with the Swift type it was encoded from. */
  datatype Value = Text(text: string) | Number(number: real) | Identifier(uuid: Uuid) | Link(url: Url) | Null

  type Container = map<CodingKey, Value>

  datatype DecodingError = KeyNotFound(key: CodingKey) | ValueNotFound(key: CodingKey) | TypeMismatch(key: CodingKey) | DataCorrupted(key: CodingKey)

  /** `container.decode(_:forKey:)`: the key's non-null value, or the error Swift throws. */
  function Lookup(c: Container, key: CodingKey): Result<Value, DecodingError>
  {
    if key !in c then Failure(KeyNotFound(key))
    else if c[key].Null? then Failure(ValueNotFound(key))
    else Success(c[key])
  }

  function DecodeText(c: Container, key: CodingKey): Result<string, DecodingError>
  {
    var v :- Lookup(c, key);
    if v.Text? then Success(v.text) else Failure(TypeMismatch(key))
  }

  function DecodeNumber(c: Container, key: CodingKey): Result<real, DecodingError>
  {
    var v :- Lookup(c, key);
    if v.Number? then Success(v.number) else Failure(TypeMismatch(key))
  }

  function DecodeUuid(c: Container, key: CodingKey): Result<Uuid, DecodingError>
  {
    var v :- Lookup(c, key);
    if v.Identifier? then Success(v.uuid) else Failure(TypeMismatch(key))
  }

  function DecodeUrl(c: Container, key: CodingKey): Result<Url, DecodingError>
  {
    var v :- Lookup(c, key);
    if v.Link? then Success(v.url) else Failure(TypeMismatch(key))
  }

  /** `decodeIfPresent(String.self, forKey:)`: nil for a missing key or a null. */
  function DecodeTextIfPresent(c: Container, key: CodingKey): Result<Option<string>, DecodingError>
  {
    if key !in c || c[key].Null? then Success(None)
    else if c[key].Text? then Success(Some(c[key].text))
    else Failure(TypeMismatch(key))
  }

  /**
   * The file name: the `fileName` key when it decodes as a string, else the
   * last path component of a legacy `url`, else the record is corrupt.
   * Each `try?` swallows its own error.
   */
  function DecodeFileName(c: Container): Result<string, DecodingError>
  {
    match DecodeText(c, FileNameKey)
    case Success(name) => Success(name)
    case Failure(_) =>
      match DecodeUrl(c, UrlKey)
      case Success(url) => Success(LastPathComponent(url.path))
      case Failure(_) => Failure(DataCorrupted(FileNameKey))
  }

  /** A container from which every field of a track can be read. */
  predicate Decodable(c: Container)
  {
    && IdKey in c && c[IdKey].Identifier?
    && ((FileNameKey in c && c[FileNameKey].Text?) || (UrlKey in c && c[UrlKey].Link?))
    && TitleKey in c && c[TitleKey].Text?
    && DurationKey in c && c[DurationKey].Number?
    && LastPlaybackPositionKey in c && c[LastPlaybackPositionKey].Number?
    && (ArtworkPathKey in c ==> c[ArtworkPathKey].Text? || c[ArtworkPathKey].Null?)
  }

  /** `AudioFile.init(from:)`. */
  function Decode(c: Container): (r: Result<AudioFile, DecodingError>)
    ensures r.Success? <==> Decodable(c)
    ensures r.Success? ==>
              && r.value.id == c[IdKey].uuid
              && r.value.title == c[TitleKey].text
              && r.value.duration == c[DurationKey].number
              && r.value.lastPlaybackPosition == c[LastPlaybackPositionKey].number
    ensures r.Success? ==>
              r.value.fileName == (if FileNameKey in c && c[FileNameKey].Text? then c[FileNameKey].text
                                   else LastPathComponent(c[UrlKey].url.path))
    ensures r.Success? ==>
              r.value.artworkPath == (if ArtworkPathKey in c && c[ArtworkPathKey].Text?
                                      then Some(c[ArtworkPathKey].text) else None)
    ensures !(FileNameKey in c && c[FileNameKey].Text?) && !(UrlKey in c && c[UrlKey].Link?)
            ==> r.Failure?
  {
    var id :- DecodeUuid(c, IdKey);
    var fileName :- DecodeFileName(c);
    var title :- DecodeText(c, TitleKey);
    var duration :- DecodeNumber(c, DurationKey);
    var position :- DecodeNumber(c, LastPlaybackPositionKey);
    var artworkPath :- DecodeTextIfPresent(c, ArtworkPathKey);
    Success(AudioFile(id, fileName, title, duration, position, artworkPath))
  }

  /** `AudioFile.encode(to:)`. */
  function Encode(f: AudioFile): (c: Container)
    ensures UrlKey !in c
    ensures ArtworkPathKey in c <==> f.artworkPath.Some?
  {
    var required := map[
      IdKey := Identifier(f.id),
      FileNameKey := Text(f.fileName),
      TitleKey := Text(f.title),
      DurationKey := Number(f.duration),
      LastPlaybackPositionKey := Number(f.lastPlaybackPosition)];
    if f.artworkPath.Some? then required[ArtworkPathKey := Text(f.artworkPath.value)] else required
  }

  /** Decoding what was encoded gives the same track back. */
  lemma EncodeDecodeRoundTrip(f: AudioFile)
    ensures Decode(Encode(f)) == Success(f)
  {
  }

  /**
   * The record an older version wrote: the absolute `url` of the file in
   * place of its name.
   */
  function LegacyEncode(f: AudioFile, documents: Url): (c: Container)
    ensures FileNameKey !in c && UrlKey in c
  {
    var required := map[
      IdKey := Identifier(f.id),
      UrlKey := Link(f.Location(documents)),
      TitleKey := Text(f.title),
      DurationKey := Number(f.duration),
      LastPlaybackPositionKey := Number(f.lastPlaybackPosition)];
    if f.artworkPath.Some? then required[ArtworkPathKey := Text(f.artworkPath.value)] else required
  }

  /** A record from before the migration reads its file name out of the old absolute URL. */
  lemma LegacyRecordMigrates(f: AudioFile, documents: Url)
    requires IsFileName(f.fileName)
    ensures Decode(LegacyEncode(f, documents)) == Success(f)
  {
    var legacy := LegacyEncode(f, documents);
    var location := f.Location(documents);
    assert LastPathComponent(location.path) == f.fileName;
    assert legacy[UrlKey] == Link(location);
    assert Decodable(legacy);
    var g := Decode(legacy).value;
    assert g.fileName == f.fileName;
    assert g.artworkPath == f.artworkPath;
  }
}
