/**
 * The on-disk form of a VM document: a directory wrapper whose `metadata`
 * entry holds the serialized `VMContent`, next to the disk and auxiliary
 * storage images. Opening reads and decodes `metadata`; saving replaces it.
 */
module DocumentFile {
  import opened Wrappers
  import opened Content

  /** `FileWrapperIdentifier.metadata`. */
  const MetadataName := "metadata"

  /** The contents of a regular file: a keyed record as the encoder writes it, or bytes that do not parse as one. */
  datatype FileContents = Keyed(record: Container) | Opaque(bytes: seq<bv8>)

  /** An entry of the document directory (`disk.img`, `aux.img`, `metadata`, ...). */
  datatype FileEntry = RegularFile(contents: FileContents) | Folder

  type Entries = map<string, FileEntry>

  /** What opening a document throws. */
  datatype OpenError =
    | FileReadCorruptFile          // no readable `metadata` entry
    | InvalidRecord                // `metadata` is not a keyed record at all
    | DecodingFailed(error: DecodeError)

  /** The `metadata` entry written for a snapshot. */
  function MetadataEntry(snapshot: VMContent): FileEntry
  {
    RegularFile(Keyed(Encode(snapshot)))
  }

  /**
   * `init(configuration:)`: `fileWrappers` is nil when the document is not a
   * directory. The content is the decoded `metadata` record.
   */
  function ReadContent(fileWrappers: Option<Entries>): (r: Result<VMContent, OpenError>)
    ensures fileWrappers.None? || MetadataName !in fileWrappers.value ==> r == Failure(FileReadCorruptFile)
    ensures r.Success? <==>
      && fileWrappers.Some? && MetadataName in fileWrappers.value
      && fileWrappers.value[MetadataName].RegularFile?
      && fileWrappers.value[MetadataName].contents.Keyed?
      && Decodable(fileWrappers.value[MetadataName].contents.record)
    ensures r.Success? ==> Success(r.value) == Decode(fileWrappers.value[MetadataName].contents.record)
  {
    if fileWrappers.None? || MetadataName !in fileWrappers.value
       || !fileWrappers.value[MetadataName].RegularFile? then
      Failure(FileReadCorruptFile)
    else match fileWrappers.value[MetadataName].contents
      case Opaque(_) => Failure(InvalidRecord)
      case Keyed(record) =>
        match Decode(record)
        case Success(content) => Success(content)
        case Failure(e) => Failure(DecodingFailed(e))
  }

  /**
   * The entries `fileWrapper(snapshot:configuration:)` leaves: over an
   * existing directory the old `metadata` entry is removed and the new one
   * added; with no existing file, a directory holding only `metadata`.
   */
  function SavedEntries(snapshot: VMContent, existing: Option<Entries>): (r: Entries)
    ensures MetadataName in r && r[MetadataName] == MetadataEntry(snapshot)
    ensures existing.None? ==> r.Keys == {MetadataName}
    ensures existing.Some? ==> r.Keys == existing.value.Keys + {MetadataName}
    ensures existing.Some? ==>
      forall name :: name in existing.value && name != MetadataName ==> r[name] == existing.value[name]
  {
    match existing
    case None => map[MetadataName := MetadataEntry(snapshot)]
    case Some(entries) => (entries - {MetadataName})[MetadataName := MetadataEntry(snapshot)]
  }

  /** Whatever was there before, opening a saved document gives back the snapshot. */
  lemma SaveThenOpen(snapshot: VMContent, existing: Option<Entries>)
    ensures ReadContent(Some(SavedEntries(snapshot, existing))) == Success(snapshot)
  {
    EncodeDecodeRoundTrip(snapshot);
  }

  /** Saving twice is the same as saving the second snapshot once. */
  lemma {:induction false} SaveOverwrites(first: VMContent, second: VMContent, existing: Option<Entries>)
    ensures SavedEntries(second, Some(SavedEntries(first, existing))) == SavedEntries(second, existing)
  {
    var a := SavedEntries(second, Some(SavedEntries(first, existing)));
    var b := SavedEntries(second, existing);
    assert a.Keys == b.Keys;
    forall name | name in a
      ensures a[name] == b[name]
    {
    }
  }

  /** A directory wrapper that the save edits in place. */
  class DirectoryWrapper {
    var fileWrappers: Entries

    constructor (fileWrappers: Entries)
      ensures this.fileWrappers == fileWrappers
    {
      this.fileWrappers := fileWrappers;
    }
  }

  /**
   * `fileWrapper(snapshot:configuration:)`: an existing directory is edited
   * and returned itself; otherwise a new directory is made.
   */
  method FileWrapperFor(snapshot: VMContent, existingFile: DirectoryWrapper?) returns (w: DirectoryWrapper)
    modifies if existingFile == null then {} else {existingFile}
    ensures existingFile != null ==>
      w == existingFile && w.fileWrappers == SavedEntries(snapshot, Some(old(existingFile.fileWrappers)))
    ensures existingFile == null ==>
      fresh(w) && w.fileWrappers == SavedEntries(snapshot, None)
  {
    var newMetadata := MetadataEntry(snapshot);
    if existingFile != null {
      if MetadataName in existingFile.fileWrappers {
        existingFile.fileWrappers := existingFile.fileWrappers - {MetadataName};
      }
      existingFile.fileWrappers := existingFile.fileWrappers[MetadataName := newMetadata];
      return existingFile;
    }
    w := new DirectoryWrapper(map[MetadataName := newMetadata]);
  }
}
