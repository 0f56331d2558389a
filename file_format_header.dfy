/**
 * The header every renderer file format starts with, reduced to what the
 * format headers in this model rely on: a format type (a hashed name) and a
 * format version, each a 32-bit value. A reader accepts a file only when
 * both match what it expects.
 */
module FileFormatHeader {
  import opened Bytes

  const FILE_FORMAT_HEADER_BYTES: nat := 8

  datatype FileFormatHeader = FileFormatHeader(formatType: u32, formatVersion: u32)

  datatype FormatError = Truncated | UnexpectedFormatType | UnexpectedFormatVersion

  /** The result of reading a file: its content, or why it was rejected. */
  datatype Decoded<T> = Ok(value: T) | Err(error: FormatError)

  function EncodeFileFormatHeader(h: FileFormatHeader): (r: seq<u8>)
    ensures |r| == FILE_FORMAT_HEADER_BYTES
  {
    EncodeU32(h.formatType) + EncodeU32(h.formatVersion)
  }

  function DecodeFileFormatHeader(b: seq<u8>, pos: nat): FileFormatHeader
    requires pos + FILE_FORMAT_HEADER_BYTES <= |b|
  {
    FileFormatHeader(DecodeU32(b, pos), DecodeU32(b, pos + 4))
  }

  lemma DecodeEncodeFileFormatHeader(h: FileFormatHeader, prefix: seq<u8>, rest: seq<u8>)
    ensures |prefix| + FILE_FORMAT_HEADER_BYTES <= |prefix + EncodeFileFormatHeader(h) + rest|
    ensures DecodeFileFormatHeader(prefix + EncodeFileFormatHeader(h) + rest, |prefix|) == h
  {
    var b := prefix + EncodeFileFormatHeader(h) + rest;
    assert b == prefix + EncodeU32(h.formatType) + (EncodeU32(h.formatVersion) + rest);
    DecodeEncodeU32(h.formatType, EncodeU32(h.formatVersion) + rest, prefix);
    assert b == (prefix + EncodeU32(h.formatType)) + EncodeU32(h.formatVersion) + rest;
    DecodeEncodeU32(h.formatVersion, rest, prefix + EncodeU32(h.formatType));
  }

  /** Reads the header at the start of a file and accepts it only with the expected type and version. */
  function CheckFileFormatHeader(b: seq<u8>, formatType: u32, formatVersion: u32): (r: Decoded<FileFormatHeader>)
    ensures r.Ok? <==>
      FILE_FORMAT_HEADER_BYTES <= |b| && DecodeFileFormatHeader(b, 0) == FileFormatHeader(formatType, formatVersion)
    ensures r.Ok? ==> r.value == FileFormatHeader(formatType, formatVersion)
    ensures r == Err(Truncated) <==> |b| < FILE_FORMAT_HEADER_BYTES
  {
    if |b| < FILE_FORMAT_HEADER_BYTES then Err(Truncated)
    else if DecodeU32(b, 0) != formatType then Err(UnexpectedFormatType)
    else if DecodeU32(b, 4) != formatVersion then Err(UnexpectedFormatVersion)
    else Ok(FileFormatHeader(formatType, formatVersion))
  }
}
