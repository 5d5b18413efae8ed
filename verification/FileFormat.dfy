/**
 The chunked encrypted-file format: its geometry as the server schedules it and
 as the download client checks it, and the additional data that binds a chunk
 to its position.
 */
module FileFormat {
  import opened Bytes

  const FILE_CHUNK_SIZE: nat := 50 * 1024 * 1024
  const FILE_IV_LENGTH: nat := 12
  const FILE_GCM_TAG_LENGTH: nat := 16
  const FILE_ENCRYPTION_OVERHEAD: nat := FILE_IV_LENGTH + FILE_GCM_TAG_LENGTH
  const FILE_STREAM_FORMAT := "aes-gcm-chunked-v1-or-aad-v2"
  const MAX_PLAINTEXT_FILE_SIZE: nat := 50 * 1024 * 1024 * 1024
  const MAX_FILE_CHUNKS: nat := 1024
  const MAX_SAFE_INTEGER: int := 0x1f_ffff_ffff_ffff

  /** The number of chunks a file of `size` bytes is cut into, Math.ceil(size / FILE_CHUNK_SIZE). */
  function ChunkCount(size: nat): nat {
    (size + FILE_CHUNK_SIZE - 1) / FILE_CHUNK_SIZE
  }

  datatype Result<+T, +E> = Success(value: T) | Failure(error: E)

  // ---------------------------------------------------------------- server

  datatype SizeError = InvalidStoredFileSize

  /** FilesService.getExpectedEncryptedSize. */
  function ExpectedEncryptedSize(plaintextSize: int): Result<nat, SizeError> {
    if plaintextSize < 1 || plaintextSize > MAX_PLAINTEXT_FILE_SIZE then
      Failure(InvalidStoredFileSize)
    else
      Success(plaintextSize + ChunkCount(plaintextSize) * FILE_ENCRYPTION_OVERHEAD)
  }

  /** The encrypted size handleChunk demands for one chunk of an upload. */
  function ScheduledChunkSize(fileSize: int, totalChunks: int, chunkIndex: int): int {
    var plaintext := if chunkIndex < totalChunks - 1 then FILE_CHUNK_SIZE
                     else fileSize - (totalChunks - 1) * FILE_CHUNK_SIZE;
    plaintext + FILE_ENCRYPTION_OVERHEAD
  }

  /** The bytes accepted by handleChunk for the first `upTo` chunks. */
  function ScheduledTotal(fileSize: int, totalChunks: int, upTo: nat): int {
    if upTo == 0 then 0
    else ScheduledTotal(fileSize, totalChunks, upTo - 1) + ScheduledChunkSize(fileSize, totalChunks, upTo - 1)
  }

  lemma {:induction false} ScheduledTotalBefore(fileSize: nat, totalChunks: nat, upTo: nat)
    requires upTo < totalChunks
    ensures ScheduledTotal(fileSize, totalChunks, upTo) == upTo * (FILE_CHUNK_SIZE + FILE_ENCRYPTION_OVERHEAD)
  {
    if upTo > 0 {
      ScheduledTotalBefore(fileSize, totalChunks, upTo - 1);
    }
  }

  /** The chunk sizes the server accepts are positive and add up to the size it checks at completion. */
  lemma ScheduleMeetsExpectedSize(fileSize: nat)
    requires 1 <= fileSize <= MAX_PLAINTEXT_FILE_SIZE
    ensures var n := ChunkCount(fileSize);
            && 1 <= n <= MAX_FILE_CHUNKS
            && (forall i :: 0 <= i < n ==>
                  FILE_ENCRYPTION_OVERHEAD < ScheduledChunkSize(fileSize, n, i) <= FILE_CHUNK_SIZE + FILE_ENCRYPTION_OVERHEAD)
            && ExpectedEncryptedSize(fileSize) == Success(ScheduledTotal(fileSize, n, n))
  {
    var n := ChunkCount(fileSize);
    ScheduledTotalBefore(fileSize, n, n - 1);
  }

  // ---------------------------------------------------------------- client

  datatype DownloadMetadata = DownloadMetadata(
    fileName: string,
    mimeType: string,
    plaintextSize: nat,
    encryptedSize: nat,
    chunkSize: nat,
    chunkCount: nat,
    encryptionOverhead: nat,
    format: string,
    passwordProtected: bool
  )

  /** A field of the parsed JSON response; numbers that are no integers are `Other`. */
  datatype JsonValue = Absent | Integer(n: int) | Text(s: string) | Flag(b: bool) | Other

  datatype RawMetadata = RawMetadata(
    fileName: JsonValue,
    mimeType: JsonValue,
    plaintextSize: JsonValue,
    encryptedSize: JsonValue,
    chunkSize: JsonValue,
    chunkCount: JsonValue,
    encryptionOverhead: JsonValue,
    format: JsonValue,
    passwordProtected: JsonValue
  )

  datatype MetadataError =
    | Missing
    | InvalidNumber
    | UnsupportedGeometry
    | InconsistentChunkCount
    | InconsistentSize
    | UnsupportedFormat
    | InvalidPasswordFlag
    | InvalidText

  predicate SafeInteger(v: JsonValue, min: int, max: int) {
    v.Integer? && -MAX_SAFE_INTEGER <= v.n <= MAX_SAFE_INTEGER && min <= v.n <= max
  }

  predicate BoundedText(v: JsonValue, maxLength: nat) {
    v.Text? && 1 <= |v.s| <= maxLength
  }

  /** validateDownloadMetadata; `Missing` when the payload is no object. */
  function ValidateDownloadMetadata(isObject: bool, raw: RawMetadata): Result<DownloadMetadata, MetadataError> {
    if !isObject then Failure(Missing)
    else if !SafeInteger(raw.plaintextSize, 1, MAX_PLAINTEXT_FILE_SIZE) then Failure(InvalidNumber)
    else if !SafeInteger(raw.chunkSize, 1, FILE_CHUNK_SIZE) then Failure(InvalidNumber)
    else if !SafeInteger(raw.chunkCount, 1, MAX_FILE_CHUNKS) then Failure(InvalidNumber)
    else if !SafeInteger(raw.encryptionOverhead, 1, 1024) then Failure(InvalidNumber)
    else if !SafeInteger(raw.encryptedSize, 1, MAX_PLAINTEXT_FILE_SIZE + MAX_FILE_CHUNKS * FILE_ENCRYPTION_OVERHEAD) then
      Failure(InvalidNumber)
    else
      var plaintextSize, chunkSize := raw.plaintextSize.n, raw.chunkSize.n;
      var chunkCount, overhead, encryptedSize := raw.chunkCount.n, raw.encryptionOverhead.n, raw.encryptedSize.n;
      if chunkSize != FILE_CHUNK_SIZE || overhead != FILE_ENCRYPTION_OVERHEAD then Failure(UnsupportedGeometry)
      else if chunkCount != (plaintextSize + chunkSize - 1) / chunkSize then Failure(InconsistentChunkCount)
      else if encryptedSize != plaintextSize + chunkCount * overhead then Failure(InconsistentSize)
      else if raw.format != Text(FILE_STREAM_FORMAT) then Failure(UnsupportedFormat)
      else if !raw.passwordProtected.Flag? then Failure(InvalidPasswordFlag)
      else if !BoundedText(raw.fileName, 100) || !BoundedText(raw.mimeType, 100) then Failure(InvalidText)
      else
        Success(DownloadMetadata(raw.fileName.s, raw.mimeType.s, plaintextSize, encryptedSize, chunkSize,
                                 chunkCount, overhead, raw.format.s, raw.passwordProtected.b))
  }

  /** The geometry the streaming decoder relies on. */
  predicate SoundGeometry(m: DownloadMetadata) {
    && 1 <= m.plaintextSize <= MAX_PLAINTEXT_FILE_SIZE
    && m.chunkSize == FILE_CHUNK_SIZE
    && m.encryptionOverhead == FILE_ENCRYPTION_OVERHEAD
    && m.chunkCount == ChunkCount(m.plaintextSize)
    && m.encryptedSize == m.plaintextSize + m.chunkCount * FILE_ENCRYPTION_OVERHEAD
  }

  /** The payload FilesService.getDownloadMetadata builds from a file row. */
  function ServerPayload(fileName: string, mimeType: string, size: nat, passwordProtected: bool): Result<RawMetadata, SizeError> {
    match ExpectedEncryptedSize(size)
    case Failure(e) => Failure(e)
    case Success(encryptedSize) =>
      Success(RawMetadata(Text(fileName), Text(mimeType), Integer(size), Integer(encryptedSize), Integer(FILE_CHUNK_SIZE),
                          Integer(ChunkCount(size)), Integer(FILE_ENCRYPTION_OVERHEAD), Text(FILE_STREAM_FORMAT),
                          Flag(passwordProtected)))
  }

  /**
   Server and client agree: a stored size is served exactly when it is in range, and a served payload passes
   the client's checks exactly when the two texts have 1 to 100 characters.
   */
  lemma ServedMetadataValidates(fileName: string, mimeType: string, size: nat, passwordProtected: bool)
    ensures ServerPayload(fileName, mimeType, size, passwordProtected).Success? <==> 1 <= size <= MAX_PLAINTEXT_FILE_SIZE
    ensures var served := ServerPayload(fileName, mimeType, size, passwordProtected);
            served.Success? ==>
              var checked := ValidateDownloadMetadata(true, served.value);
              && (checked.Success? <==> 1 <= |fileName| <= 100 && 1 <= |mimeType| <= 100)
              && (checked.Success? ==>
                    && SoundGeometry(checked.value) && checked.value.plaintextSize == size
                    && checked.value.fileName == fileName && checked.value.mimeType == mimeType
                    && checked.value.format == "aes-gcm-chunked-v1-or-aad-v2" && checked.value.passwordProtected == passwordProtected)
  {
    if 1 <= size <= MAX_PLAINTEXT_FILE_SIZE {
      ScheduleMeetsExpectedSize(size);
    }
  }

  /** Whatever the server sends, a payload that validates has sound geometry. */
  lemma ValidationImpliesSoundGeometry(isObject: bool, raw: RawMetadata)
    ensures var checked := ValidateDownloadMetadata(isObject, raw);
            checked.Success? ==> SoundGeometry(checked.value)
  {
  }

  // ---------------------------------------------------------------- frames

  function PlainStart(i: nat): nat {
    i * FILE_CHUNK_SIZE
  }

  function FrameStart(i: nat): nat {
    i * (FILE_CHUNK_SIZE + FILE_ENCRYPTION_OVERHEAD)
  }

  /** The plaintext length of chunk i, as streamDecryptToFile computes it. */
  function PlainLength(m: DownloadMetadata, i: nat): int {
    var left := m.plaintextSize - i * m.chunkSize;
    if m.chunkSize <= left then m.chunkSize else left
  }

  function FrameLength(m: DownloadMetadata, i: nat): int {
    PlainLength(m, i) + m.encryptionOverhead
  }

  /** Frames tile the encrypted file, chunks tile the plaintext, and both agree with the server's schedule. */
  lemma FramesTile(m: DownloadMetadata, i: nat)
    requires SoundGeometry(m) && i < m.chunkCount
    ensures 1 <= PlainLength(m, i) <= FILE_CHUNK_SIZE
    ensures FrameLength(m, i) == PlainLength(m, i) + FILE_ENCRYPTION_OVERHEAD
    ensures FrameLength(m, i) == ScheduledChunkSize(m.plaintextSize, m.chunkCount, i)
    ensures if i == m.chunkCount - 1
            then FrameStart(i) + FrameLength(m, i) == m.encryptedSize && PlainStart(i) + PlainLength(m, i) == m.plaintextSize
            else FrameStart(i) + FrameLength(m, i) == FrameStart(i + 1) && PlainStart(i) + PlainLength(m, i) == PlainStart(i + 1)
                 && FrameStart(i + 1) <= m.encryptedSize && PlainStart(i + 1) <= m.plaintextSize
  {
  }

  // ------------------------------------------------------- additional data

  datatype ChunkPosition = ChunkPosition(
    fileSize: nat,
    chunkSize: nat,
    totalChunks: nat,
    chunkIndex: nat,
    plaintextChunkLength: nat
  )

  /** "redbox-file-v2" in UTF-8. */
  const AAD_MAGIC: seq<Byte> := [0x72, 0x65, 0x64, 0x62, 0x6f, 0x78, 0x2d, 0x66, 0x69, 0x6c, 0x65, 0x2d, 0x76, 0x32]

  const AAD_LENGTH: nat := |AAD_MAGIC| + 8 + 4 * 4

  function ChunkAad(p: ChunkPosition): (aad: seq<Byte>)
    ensures |aad| == AAD_LENGTH
  {
    AAD_MAGIC + BigEndian(p.fileSize, 8) + BigEndian(p.chunkSize, 4) + BigEndian(p.totalChunks, 4)
      + BigEndian(p.chunkIndex, 4) + BigEndian(p.plaintextChunkLength, 4)
  }

  /** DataView.setUint32 and setBigUint64: `width` bytes from `offset`, most significant first, modulo 256^width. */
  method SetBigEndian(buffer: array<Byte>, offset: nat, v: nat, width: nat)
    requires offset + width <= buffer.Length
    modifies buffer
    ensures buffer[..] == old(buffer[..offset]) + BigEndian(v, width) + old(buffer[offset + width..])
  {
    var rest, k := v, width;
    while k > 0
      invariant 0 <= k <= width
      invariant BigEndian(v, width) == BigEndian(rest, k) + buffer[offset + k..offset + width]
      invariant buffer[..offset] == old(buffer[..offset])
      invariant buffer[offset + width..] == old(buffer[offset + width..])
    {
      ghost var done := buffer[offset + k..offset + width];
      k := k - 1;
      buffer[offset + k] := rest % 0x100;
      assert buffer[offset + k..offset + width] == [rest % 0x100] + done;
      rest := rest / 0x100;
    }
    assert buffer[..] == buffer[..offset] + buffer[offset..offset + width] + buffer[offset + width..];
  }

  /** createFileChunkAad: fills a fresh buffer through an advancing offset. */
  method CreateFileChunkAad(p: ChunkPosition) returns (bytes: array<Byte>)
    ensures fresh(bytes)
    ensures bytes[..] == ChunkAad(p)
  {
    bytes := new Byte[AAD_LENGTH](_ => 0);
    forall k | 0 <= k < |AAD_MAGIC| {
      bytes[k] := AAD_MAGIC[k];
    }
    assert bytes[..14] == AAD_MAGIC;
    var offset := |AAD_MAGIC|;
    SetBigEndian(bytes, offset, p.fileSize, 8);
    assert bytes[..22] == AAD_MAGIC + BigEndian(p.fileSize, 8);
    offset := offset + 8;
    SetBigEndian(bytes, offset, p.chunkSize, 4);
    assert bytes[..26] == bytes[..22] + BigEndian(p.chunkSize, 4);
    offset := offset + 4;
    SetBigEndian(bytes, offset, p.totalChunks, 4);
    assert bytes[..30] == bytes[..26] + BigEndian(p.totalChunks, 4);
    offset := offset + 4;
    SetBigEndian(bytes, offset, p.chunkIndex, 4);
    assert bytes[..34] == bytes[..30] + BigEndian(p.chunkIndex, 4);
    offset := offset + 4;
    SetBigEndian(bytes, offset, p.plaintextChunkLength, 4);
    assert bytes[..] == bytes[..34] + BigEndian(p.plaintextChunkLength, 4);
  }

  ghost predicate SamePosition(a: ChunkPosition, b: ChunkPosition) {
    && a.fileSize % Radix(8) == b.fileSize % Radix(8)
    && a.chunkSize % Radix(4) == b.chunkSize % Radix(4)
    && a.totalChunks % Radix(4) == b.totalChunks % Radix(4)
    && a.chunkIndex % Radix(4) == b.chunkIndex % Radix(4)
    && a.plaintextChunkLength % Radix(4) == b.plaintextChunkLength % Radix(4)
  }

  /** Two positions are encoded alike exactly when every field agrees modulo its width. */
  lemma AadCollision(a: ChunkPosition, b: ChunkPosition)
    ensures ChunkAad(a) == ChunkAad(b) <==> SamePosition(a, b)
  {
    BigEndianInjective(a.fileSize, b.fileSize, 8);
    BigEndianInjective(a.chunkSize, b.chunkSize, 4);
    BigEndianInjective(a.totalChunks, b.totalChunks, 4);
    BigEndianInjective(a.chunkIndex, b.chunkIndex, 4);
    BigEndianInjective(a.plaintextChunkLength, b.plaintextChunkLength, 4);
    var x, y := ChunkAad(a), ChunkAad(b);
    AadFields(a);
    AadFields(b);
  }

  lemma AadFields(p: ChunkPosition)
    ensures var aad := ChunkAad(p);
            && aad[14..22] == BigEndian(p.fileSize, 8)
            && aad[22..26] == BigEndian(p.chunkSize, 4)
            && aad[26..30] == BigEndian(p.totalChunks, 4)
            && aad[30..34] == BigEndian(p.chunkIndex, 4)
            && aad[34..38] == BigEndian(p.plaintextChunkLength, 4)
  {
  }

  /** The position of chunk i of a file with the given metadata. */
  function PositionOf(m: DownloadMetadata, i: nat): ChunkPosition
    requires SoundGeometry(m) && i < m.chunkCount
  {
    FramesTile(m, i);
    ChunkPosition(m.plaintextSize, m.chunkSize, m.chunkCount, i, PlainLength(m, i))
  }

  ghost predicate InRange(p: ChunkPosition) {
    && p.fileSize < 0x1_0000_0000_0000_0000
    && p.chunkSize < 0x1_0000_0000
    && p.totalChunks < 0x1_0000_0000
    && p.chunkIndex < 0x1_0000_0000
    && p.plaintextChunkLength < 0x1_0000_0000
  }

  /** On fields that fit their widths the encoding is injective. */
  lemma AadInjective(a: ChunkPosition, b: ChunkPosition)
    requires InRange(a) && InRange(b)
    ensures ChunkAad(a) == ChunkAad(b) <==> a == b
  {
    AadCollision(a, b);
    InRangeReduced(a);
    InRangeReduced(b);
  }

  lemma InRangeReduced(p: ChunkPosition)
    requires InRange(p)
    ensures p.fileSize % Radix(8) == p.fileSize
    ensures p.chunkSize % Radix(4) == p.chunkSize
    ensures p.totalChunks % Radix(4) == p.totalChunks
    ensures p.chunkIndex % Radix(4) == p.chunkIndex
    ensures p.plaintextChunkLength % Radix(4) == p.plaintextChunkLength
  {
    RadixValues();
    Reduced(p.fileSize, Radix(8));
    Reduced(p.chunkSize, Radix(4));
    Reduced(p.totalChunks, Radix(4));
    Reduced(p.chunkIndex, Radix(4));
    Reduced(p.plaintextChunkLength, Radix(4));
  }

  lemma Reduced(v: nat, r: nat)
    requires v < r
    ensures v % r == v
  {
  }

  lemma PositionsInRange(m: DownloadMetadata, i: nat)
    requires SoundGeometry(m) && i < m.chunkCount
    ensures InRange(PositionOf(m, i))
  {
    FramesTile(m, i);
    ScheduleMeetsExpectedSize(m.plaintextSize);
  }

  /** Distinct chunks, and files of distinct sizes, never share additional data. */
  lemma AadBindsPosition(m: DownloadMetadata, i: nat, m': DownloadMetadata, i': nat)
    requires SoundGeometry(m) && i < m.chunkCount
    requires SoundGeometry(m') && i' < m'.chunkCount
    ensures ChunkAad(PositionOf(m, i)) == ChunkAad(PositionOf(m', i')) <==> m.plaintextSize == m'.plaintextSize && i == i'
  {
    PositionsInRange(m, i);
    PositionsInRange(m', i');
    AadInjective(PositionOf(m, i), PositionOf(m', i'));
  }

  lemma RadixValues()
    ensures Radix(4) == 0x1_0000_0000
    ensures Radix(8) == 0x1_0000_0000_0000_0000
  {
    assert Radix(2) == 0x1_0000;
    assert Radix(4) == 0x100 * (0x100 * Radix(2));
    assert Radix(6) == 0x100 * (0x100 * Radix(4));
    assert Radix(8) == 0x100 * (0x100 * Radix(6));
  }
}
