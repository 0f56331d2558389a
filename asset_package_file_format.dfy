/**
 * Version 1 of the asset package file format (format version 3): after the
 * file format header come the asset package header, which gives the number
 * of assets, and then the assets. Records are packed without padding.
 */
module AssetPackageFileFormat {
  import opened Bytes
  import opened FileFormatHeader

  /** Stands for STRING_ID("AssetPackage"); the hash itself is not modelled. */
  const FORMAT_TYPE: u32 := 0x4150_4B47
  const FORMAT_VERSION: u32 := 3

  const ASSET_PACKAGE_HEADER_BYTES: nat := 4

  datatype AssetPackageHeader = AssetPackageHeader(numberOfAssets: u32)

  function EncodeAssetPackageHeader(h: AssetPackageHeader): (r: seq<u8>)
    ensures |r| == ASSET_PACKAGE_HEADER_BYTES
  {
    EncodeU32(h.numberOfAssets)
  }

  function DecodeAssetPackageHeader(b: seq<u8>, pos: nat): AssetPackageHeader
    requires pos + ASSET_PACKAGE_HEADER_BYTES <= |b|
  {
    AssetPackageHeader(DecodeU32(b, pos))
  }

  lemma DecodeEncodeAssetPackageHeader(h: AssetPackageHeader, prefix: seq<u8>, rest: seq<u8>)
    ensures |prefix| + ASSET_PACKAGE_HEADER_BYTES <= |prefix + EncodeAssetPackageHeader(h) + rest|
    ensures DecodeAssetPackageHeader(prefix + EncodeAssetPackageHeader(h) + rest, |prefix|) == h
  {
    DecodeEncodeU32(h.numberOfAssets, rest, prefix);
  }

  /**
   * A package file: its header and its assets. The layout of one asset is
   * not part of this model, so assets are records of a size the reader is given.
   */
  datatype AssetPackageFile = AssetPackageFile(header: AssetPackageHeader, assets: seq<seq<u8>>)

  /** The header announces exactly the assets that follow, each of the given size. */
  predicate WellFormed(f: AssetPackageFile, assetBytes: nat)
  {
    |f.assets| == f.header.numberOfAssets && AllOfSize(f.assets, assetBytes)
  }

  function EncodeAssetPackageFile(f: AssetPackageFile): seq<u8>
  {
    EncodeFileFormatHeader(FileFormatHeader(FORMAT_TYPE, FORMAT_VERSION))
      + EncodeAssetPackageHeader(f.header) + EncodeRecords(f.assets)
  }

  /** Reads the parts of a package file in their order, rejecting a foreign or short file. */
  function DecodeAssetPackageFile(b: seq<u8>, assetBytes: nat): (r: Decoded<AssetPackageFile>)
    ensures r.Ok? ==> WellFormed(r.value, assetBytes)
    ensures r.Ok? ==> CheckFileFormatHeader(b, FORMAT_TYPE, FORMAT_VERSION).Ok?
  {
    match CheckFileFormatHeader(b, FORMAT_TYPE, FORMAT_VERSION)
    case Err(e) => Err(e)
    case Ok(_) =>
      var headerEnd := FILE_FORMAT_HEADER_BYTES + ASSET_PACKAGE_HEADER_BYTES;
      if |b| < headerEnd then Err(Truncated)
      else
        var h := DecodeAssetPackageHeader(b, FILE_FORMAT_HEADER_BYTES);
        var assetsSize := h.numberOfAssets * assetBytes;
        if |b| - headerEnd < assetsSize then Err(Truncated)
        else Ok(AssetPackageFile(h, DecodeRecords(b, headerEnd, h.numberOfAssets, assetBytes)))
  }

  /** A well-formed package reads back as written, whatever follows it. */
  lemma AssetPackageFileRoundTrip(f: AssetPackageFile, assetBytes: nat, rest: seq<u8>)
    requires WellFormed(f, assetBytes)
    ensures DecodeAssetPackageFile(EncodeAssetPackageFile(f) + rest, assetBytes) == Ok(f)
  {
    var header := EncodeFileFormatHeader(FileFormatHeader(FORMAT_TYPE, FORMAT_VERSION));
    var ph := EncodeAssetPackageHeader(f.header);
    var assets := EncodeRecords(f.assets);
    var b := EncodeAssetPackageFile(f) + rest;
    EncodeRecordsLength(f.assets, assetBytes);
    assert b == [] + header + (ph + assets + rest);
    DecodeEncodeFileFormatHeader(FileFormatHeader(FORMAT_TYPE, FORMAT_VERSION), [], ph + assets + rest);
    assert b == header + ph + (assets + rest);
    DecodeEncodeAssetPackageHeader(f.header, header, assets + rest);
    assert b == (header + ph) + assets + rest;
    DecodeEncodeRecords(f.assets, assetBytes, header + ph, rest);
  }

  /** A file of another format is refused before anything else is read. */
  lemma ForeignFormatRejected(b: seq<u8>, assetBytes: nat)
    requires FILE_FORMAT_HEADER_BYTES <= |b| && DecodeU32(b, 0) != FORMAT_TYPE
    ensures DecodeAssetPackageFile(b, assetBytes) == Err(UnexpectedFormatType)
  {
  }
}
