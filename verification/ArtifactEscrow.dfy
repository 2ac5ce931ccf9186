/**
  Content-addressed escrow of artifact bytes: a backend that stores each blob under its SHA-256,
  verifies every read, never updates or deletes, and copies verified bytes to another backend.

  SHA-256 is the free constructor Sha: two byte strings have the same digest only if they are equal.
 */
module ArtifactEscrow {
  import opened Prelude

  type Byte = b: int | 0 <= b < 256

  type Bytes = seq<Byte>

  datatype Sha = Sha(content: Bytes)

  /** Raw-byte identity: a declared size may disagree with the digest. */
  datatype BlobIdentity = BlobIdentity(digest: Sha, size: nat)

  function ForBytes(data: Bytes): BlobIdentity {
    BlobIdentity(Sha(data), |data|)
  }

  datatype Limits = Limits(
    maxBlobBytes: nat,
    maxArchiveBytes: nat,
    maxArchiveMembers: nat,
    maxMemberBytes: nat,
    maxExpandedBytes: nat,
    maxCompressionRatio: nat,
    ioChunkBytes: nat)
  {
    predicate Valid() {
      && maxBlobBytes > 0
      && maxArchiveBytes > 0
      && maxArchiveMembers > 0
      && maxMemberBytes > 0
      && maxExpandedBytes > 0
      && maxCompressionRatio > 0
      && ioChunkBytes > 0
      && maxArchiveBytes <= maxBlobBytes
    }
  }

  /** A directory entry: whether it is a regular file, the size its metadata reports, and the bytes
      that reading it yields. Something outside may have made these disagree with its name. */
  datatype StoredFile = StoredFile(regular: bool, size: nat, content: Bytes)

  type Files = map<Sha, StoredFile>

  datatype EscrowError =
    | BlobTooLarge
    | DeclaredBlobTooLarge
    | BlobUnavailable
    | NotARegularFile
    | SizeMismatch
    | GrewDuringRead
    | DigestMismatch
    | PathCollision
    | IdentityChanged
    | RestoreMismatch
    | ArchiveRejected
    | DestinationExists
    | ExtractionFailed
    | MemberSizeExceeded
    | MemberSizeMismatch

  // ---------------------------------------------------------------- meaning of the operations

  /** What a verified read answers. */
  function ReadOf(files: Files, identity: BlobIdentity, limits: Limits): Result<Bytes, EscrowError> {
    if identity.size > limits.maxBlobBytes then Err(DeclaredBlobTooLarge)
    else if identity.digest !in files then Err(BlobUnavailable)
    else
      var file := files[identity.digest];
      if !file.regular then Err(NotARegularFile)
      else if file.size != identity.size then Err(SizeMismatch)
      else if |file.content| > identity.size then Err(GrewDuringRead)
      else if ForBytes(file.content) != identity then Err(DigestMismatch)
      else Ok(file.content)
  }

  predicate Readable(files: Files, identity: BlobIdentity, limits: Limits) {
    ReadOf(files, identity, limits).Ok?
  }

  function Fresh(data: Bytes): StoredFile {
    StoredFile(true, |data|, data)
  }

  /** A blob is readable exactly when the store holds, under its digest, just the regular file that publishing
      the blob would put there, and the declared size is true and within the limit. */
  lemma ReadableExactlyWhen(files: Files, identity: BlobIdentity, limits: Limits)
    ensures Readable(files, identity, limits) <==>
              && identity.digest in files && files[identity.digest] == Fresh(identity.digest.content)
              && identity.size == |identity.digest.content| && identity.size <= limits.maxBlobBytes
  {
  }

  /** What publishing answers, and the files it leaves. */
  function PublishOf(files: Files, data: Bytes, limits: Limits): (Result<BlobIdentity, EscrowError>, Files) {
    if |data| > limits.maxBlobBytes then (Err(BlobTooLarge), files)
    else if Sha(data) in files then
      match ReadOf(files, ForBytes(data), limits)
      case Err(error) => (Err(error), files)
      case Ok(_) => (Ok(ForBytes(data)), files)
    else (Ok(ForBytes(data)), files[Sha(data) := Fresh(data)])
  }

  /** Publishing succeeds exactly for data within the limit of which the store has no bad copy. The data can then
      be read, everything else is as before, and publishing it again changes nothing. */
  lemma PublishedIsReadable(files: Files, data: Bytes, limits: Limits)
    ensures var (result, after) := PublishOf(files, data, limits);
            && (result.Ok? <==>
                  |data| <= limits.maxBlobBytes && (Sha(data) in files ==> files[Sha(data)] == Fresh(data)))
            && (result.Ok? ==>
                  && result.value == ForBytes(data) && ReadOf(after, ForBytes(data), limits) == Ok(data)
                  && PublishOf(after, data, limits) == (result, after))
            && (result.Err? ==> after == files)
            && after.Keys == files.Keys + (if result.Ok? then {Sha(data)} else {})
            && (forall d :: d in files ==> after[d] == files[d])
  {
    ReadableExactlyWhen(files, ForBytes(data), limits);
  }

  /** A successful read returns the one byte string with the identity, whichever store it is from. */
  lemma ReadsAreFaithful(files: Files, identity: BlobIdentity, limits: Limits)
    requires Readable(files, identity, limits)
    ensures ForBytes(ReadOf(files, identity, limits).value) == identity
    ensures forall other: Files :: Readable(other, identity, limits) ==>
              ReadOf(other, identity, limits) == ReadOf(files, identity, limits)
  {
    forall other: Files | Readable(other, identity, limits)
      ensures ReadOf(other, identity, limits) == ReadOf(files, identity, limits)
    {
      assert ForBytes(ReadOf(other, identity, limits).value) == identity;
    }
  }

  /** What copying one blob answers, and the files it leaves in the target. */
  function MigrateOf(source: Files, target: Files, identity: BlobIdentity, limits: Limits)
    : (Result<BlobIdentity, EscrowError>, Files)
  {
    match ReadOf(source, identity, limits)
    case Err(error) => (Err(error), target)
    case Ok(data) => PublishOf(target, data, limits)
  }

  /** Copying a blob succeeds exactly when the source has it and the target has no bad copy of it.
      The target then has it too and everything it had before. */
  lemma MigrationMeaning(source: Files, target: Files, identity: BlobIdentity, limits: Limits)
    ensures var (result, after) := MigrateOf(source, target, identity, limits);
            && (result.Ok? <==> Readable(source, identity, limits)
                                && (identity.digest in target ==> Readable(target, identity, limits)))
            && (result.Ok? ==> result.value == identity && Readable(after, identity, limits)
                               && ReadOf(after, identity, limits) == ReadOf(source, identity, limits))
            && (result.Ok? ==> after == if identity.digest in target then target
                                        else target[identity.digest := Fresh(identity.digest.content)])
            && (result.Err? ==> after == target)
  {
    if Readable(source, identity, limits) {
      ReadsAreFaithful(source, identity, limits);
    }
  }

  // ---------------------------------------------------------------- the backend

  /** The whole file as it is read chunk by chunk. */
  function Chunk(content: Bytes, offset: nat, size: nat): (chunk: Bytes)
    requires offset <= |content|
    ensures content[..offset] + chunk <= content
    ensures chunk == [] <==> offset == |content| || size == 0
  {
    var end := if offset + size <= |content| then offset + size else |content|;
    assert content[..offset] + content[offset..end] == content[..end];
    content[offset..end]
  }

  class FileSystemEscrowBackend {
    var files: Files

    constructor ()
      ensures files == map[]
    {
      files := map[];
    }

    method Publish(data: Bytes, limits: Limits) returns (result: Result<BlobIdentity, EscrowError>)
      requires limits.Valid()
      modifies this
      ensures (result, files) == PublishOf(old(files), data, limits)
    {
      if |data| > limits.maxBlobBytes {
        return Err(BlobTooLarge);
      }
      var identity := ForBytes(data);
      if identity.digest in files {
        var existing := Read(identity, limits);
        if existing.Err? {
          return Err(existing.error);
        }
        if existing.value != data {
          return Err(PathCollision);
        }
        return Ok(identity);
      }
      files := files[identity.digest := StoredFile(true, |data|, data)];
      var written := Read(identity, limits);
      match written
      case Err(error) => result := Err(error);
      case Ok(_) => result := Ok(identity);
    }

    method Read(identity: BlobIdentity, limits: Limits) returns (result: Result<Bytes, EscrowError>)
      requires limits.Valid()
      ensures result == ReadOf(files, identity, limits)
    {
      if identity.size > limits.maxBlobBytes {
        return Err(DeclaredBlobTooLarge);
      }
      if identity.digest !in files {
        return Err(BlobUnavailable);
      }
      var file := files[identity.digest];
      if !file.regular {
        return Err(NotARegularFile);
      }
      if file.size != identity.size {
        return Err(SizeMismatch);
      }
      var collected: Bytes := [];
      while true
        invariant collected <= file.content && |collected| <= identity.size
        decreases |file.content| - |collected|
      {
        var chunk := Chunk(file.content, |collected|, limits.ioChunkBytes);
        if chunk == [] {
          break;
        }
        assert collected == file.content[..|collected|];
        collected := collected + chunk;
        if |collected| > identity.size {
          return Err(GrewDuringRead);
        }
      }
      if |collected| != identity.size || Sha(collected) != identity.digest {
        return Err(DigestMismatch);
      }
      result := Ok(collected);
    }
  }

  /** Copies verified bytes to another backend, or to the same one. */
  method MigrateVerifiedBlob(identity: BlobIdentity, source: FileSystemEscrowBackend,
                             target: FileSystemEscrowBackend, limits: Limits)
    returns (result: Result<BlobIdentity, EscrowError>)
    requires limits.Valid()
    modifies target
    ensures (result, target.files) == MigrateOf(old(source.files), old(target.files), identity, limits)
    ensures source == target ==> target.files == old(target.files)
  {
    var data := source.Read(identity, limits);
    if data.Err? {
      return Err(data.error);
    }
    var restored := target.Publish(data.value, limits);
    if restored.Err? {
      return restored;
    }
    if restored.value != identity {
      return Err(IdentityChanged);
    }
    var copy := target.Read(restored.value, limits);
    match copy
    case Err(error) => result := Err(error);
    case Ok(bytes) => result := if bytes != data.value then Err(RestoreMismatch) else restored;
  }
}
