/**
 * Version 1 of the material file format (format version 3): after the file
 * format header come the material header, one record per technique, and
 * then the material properties. Every record is packed without padding.
 */
module MaterialFileFormat {
  import opened Bytes
  import opened FileFormatHeader

  /** Stands for STRING_ID("Material"); the hash itself is not modelled. */
  const FORMAT_TYPE: u32 := 0x4D41_5452
  const FORMAT_VERSION: u32 := 3

  const MATERIAL_HEADER_BYTES: nat := 8
  const TECHNIQUE_BYTES: nat := 8

  /** How many techniques and properties follow. */
  datatype MaterialHeader = MaterialHeader(numberOfTechniques: u32, numberOfProperties: u32)

  /** A default-constructed header announces nothing. */
  const DEFAULT_MATERIAL_HEADER: MaterialHeader := MaterialHeader(0, 0)

  /** The technique ID (a hashed name) and the asset ID of its material blueprint. */
  datatype Technique = Technique(materialTechniqueId: u32, materialBlueprintAssetId: u32)

  /** A default-constructed technique has no valid technique ID; the blueprint asset ID is left as given. */
  function DefaultTechnique(materialBlueprintAssetId: u32): (t: Technique)
    ensures !IsValid(t.materialTechniqueId) && t.materialBlueprintAssetId == materialBlueprintAssetId
  {
    Technique(INVALID_U32, materialBlueprintAssetId)
  }

  // ---------------------------------------------------------------------
  // Records
  // ---------------------------------------------------------------------

  function EncodeMaterialHeader(h: MaterialHeader): (r: seq<u8>)
    ensures |r| == MATERIAL_HEADER_BYTES
  {
    EncodeU32(h.numberOfTechniques) + EncodeU32(h.numberOfProperties)
  }

  function DecodeMaterialHeader(b: seq<u8>, pos: nat): MaterialHeader
    requires pos + MATERIAL_HEADER_BYTES <= |b|
  {
    MaterialHeader(DecodeU32(b, pos), DecodeU32(b, pos + 4))
  }

  lemma DecodeEncodeMaterialHeader(h: MaterialHeader, prefix: seq<u8>, rest: seq<u8>)
    ensures |prefix| + MATERIAL_HEADER_BYTES <= |prefix + EncodeMaterialHeader(h) + rest|
    ensures DecodeMaterialHeader(prefix + EncodeMaterialHeader(h) + rest, |prefix|) == h
  {
    var b := prefix + EncodeMaterialHeader(h) + rest;
    assert b == prefix + EncodeU32(h.numberOfTechniques) + (EncodeU32(h.numberOfProperties) + rest);
    DecodeEncodeU32(h.numberOfTechniques, EncodeU32(h.numberOfProperties) + rest, prefix);
    assert b == (prefix + EncodeU32(h.numberOfTechniques)) + EncodeU32(h.numberOfProperties) + rest;
    DecodeEncodeU32(h.numberOfProperties, rest, prefix + EncodeU32(h.numberOfTechniques));
  }

  /** Any eight bytes are the encoding of the header read from them. */
  lemma EncodeDecodeMaterialHeader(b: seq<u8>, pos: nat)
    requires pos + MATERIAL_HEADER_BYTES <= |b|
    ensures EncodeMaterialHeader(DecodeMaterialHeader(b, pos)) == b[pos..pos + MATERIAL_HEADER_BYTES]
  {
    EncodeDecodeU32(b, pos);
    EncodeDecodeU32(b, pos + 4);
    assert b[pos..pos + MATERIAL_HEADER_BYTES] == b[pos..pos + 4] + b[pos + 4..pos + 8];
  }

  function EncodeTechnique(t: Technique): (r: seq<u8>)
    ensures |r| == TECHNIQUE_BYTES
  {
    EncodeU32(t.materialTechniqueId) + EncodeU32(t.materialBlueprintAssetId)
  }

  function DecodeTechnique(b: seq<u8>, pos: nat): Technique
    requires pos + TECHNIQUE_BYTES <= |b|
  {
    Technique(DecodeU32(b, pos), DecodeU32(b, pos + 4))
  }

  lemma DecodeEncodeTechnique(t: Technique, prefix: seq<u8>, rest: seq<u8>)
    ensures |prefix| + TECHNIQUE_BYTES <= |prefix + EncodeTechnique(t) + rest|
    ensures DecodeTechnique(prefix + EncodeTechnique(t) + rest, |prefix|) == t
  {
    var b := prefix + EncodeTechnique(t) + rest;
    assert b == prefix + EncodeU32(t.materialTechniqueId) + (EncodeU32(t.materialBlueprintAssetId) + rest);
    DecodeEncodeU32(t.materialTechniqueId, EncodeU32(t.materialBlueprintAssetId) + rest, prefix);
    assert b == (prefix + EncodeU32(t.materialTechniqueId)) + EncodeU32(t.materialBlueprintAssetId) + rest;
    DecodeEncodeU32(t.materialBlueprintAssetId, rest, prefix + EncodeU32(t.materialTechniqueId));
  }

  lemma EncodeDecodeTechnique(b: seq<u8>, pos: nat)
    requires pos + TECHNIQUE_BYTES <= |b|
    ensures EncodeTechnique(DecodeTechnique(b, pos)) == b[pos..pos + TECHNIQUE_BYTES]
  {
    EncodeDecodeU32(b, pos);
    EncodeDecodeU32(b, pos + 4);
    assert b[pos..pos + TECHNIQUE_BYTES] == b[pos..pos + 4] + b[pos + 4..pos + 8];
  }

  function EncodeTechniques(ts: seq<Technique>): (r: seq<u8>)
    ensures |r| == |ts| * TECHNIQUE_BYTES
  {
    if ts == [] then [] else EncodeTechnique(ts[0]) + EncodeTechniques(ts[1..])
  }

  /** `count` technique records, one after another from `pos`. */
  function DecodeTechniques(b: seq<u8>, pos: nat, count: nat): (r: seq<Technique>)
    requires pos + count * TECHNIQUE_BYTES <= |b|
    ensures |r| == count
    decreases count
  {
    if count == 0 then []
    else [DecodeTechnique(b, pos)] + DecodeTechniques(b, pos + TECHNIQUE_BYTES, count - 1)
  }

  lemma {:induction false} DecodeEncodeTechniques(ts: seq<Technique>, prefix: seq<u8>, rest: seq<u8>)
    ensures |prefix| + |ts| * TECHNIQUE_BYTES <= |prefix + EncodeTechniques(ts) + rest|
    ensures DecodeTechniques(prefix + EncodeTechniques(ts) + rest, |prefix|, |ts|) == ts
    decreases |ts|
  {
    if ts != [] {
      var b := prefix + EncodeTechniques(ts) + rest;
      assert b == prefix + EncodeTechnique(ts[0]) + (EncodeTechniques(ts[1..]) + rest);
      DecodeEncodeTechnique(ts[0], prefix, EncodeTechniques(ts[1..]) + rest);
      assert b == (prefix + EncodeTechnique(ts[0])) + EncodeTechniques(ts[1..]) + rest;
      DecodeEncodeTechniques(ts[1..], prefix + EncodeTechnique(ts[0]), rest);
      assert [ts[0]] + ts[1..] == ts;
    }
  }

  // ---------------------------------------------------------------------
  // The whole file
  // ---------------------------------------------------------------------

  /**
   * A material file: its header, its techniques and its properties. The
   * layout of a material property is not part of this model, so properties
   * are records of a size the reader is given.
   */
  datatype MaterialFile = MaterialFile(header: MaterialHeader, techniques: seq<Technique>, properties: seq<seq<u8>>)

  /** The header announces exactly the records that follow, each property of the given size. */
  predicate WellFormed(f: MaterialFile, propertyBytes: nat)
  {
    && |f.techniques| == f.header.numberOfTechniques
    && |f.properties| == f.header.numberOfProperties
    && AllOfSize(f.properties, propertyBytes)
  }

  /** Everything after the file format header: the material header, the techniques, the properties. */
  function EncodeMaterialContent(f: MaterialFile): seq<u8>
  {
    EncodeMaterialHeader(f.header) + EncodeTechniques(f.techniques) + EncodeRecords(f.properties)
  }

  function EncodeMaterialFile(f: MaterialFile): seq<u8>
  {
    EncodeFileFormatHeader(FileFormatHeader(FORMAT_TYPE, FORMAT_VERSION)) + EncodeMaterialContent(f)
  }

  /** Reads what follows the file format header, rejecting a short file. */
  function DecodeMaterialContent(b: seq<u8>, propertyBytes: nat): (r: Decoded<MaterialFile>)
    ensures r.Ok? ==> WellFormed(r.value, propertyBytes)
    ensures r.Err? ==> r.error == Truncated
  {
    var headerEnd := FILE_FORMAT_HEADER_BYTES + MATERIAL_HEADER_BYTES;
    if |b| < headerEnd then Err(Truncated)
    else
      var h := DecodeMaterialHeader(b, FILE_FORMAT_HEADER_BYTES);
      var techniquesEnd := headerEnd + h.numberOfTechniques * TECHNIQUE_BYTES;
      var propertiesSize := h.numberOfProperties * propertyBytes;
      if |b| < techniquesEnd || |b| - techniquesEnd < propertiesSize then Err(Truncated)
      else Ok(MaterialFile(h,
        DecodeTechniques(b, headerEnd, h.numberOfTechniques),
        DecodeRecords(b, techniquesEnd, h.numberOfProperties, propertyBytes)))
  }

  /** Reads the parts of a material file in their order, rejecting a foreign or short file. */
  function DecodeMaterialFile(b: seq<u8>, propertyBytes: nat): (r: Decoded<MaterialFile>)
    ensures r.Ok? ==> WellFormed(r.value, propertyBytes)
    ensures r.Ok? ==> CheckFileFormatHeader(b, FORMAT_TYPE, FORMAT_VERSION).Ok?
  {
    match CheckFileFormatHeader(b, FORMAT_TYPE, FORMAT_VERSION)
    case Err(e) => Err(e)
    case Ok(_) => DecodeMaterialContent(b, propertyBytes)
  }

  /** A file of another format is refused before anything else is read. */
  lemma ForeignFormatRejected(b: seq<u8>, propertyBytes: nat)
    requires FILE_FORMAT_HEADER_BYTES <= |b| && DecodeU32(b, 0) != FORMAT_TYPE
    ensures DecodeMaterialFile(b, propertyBytes) == Err(UnexpectedFormatType)
  {
  }

  /** The material header sits right after the file format header. */
  lemma MaterialHeaderPart(f: MaterialFile, header: seq<u8>, rest: seq<u8>)
    requires |header| == FILE_FORMAT_HEADER_BYTES
    ensures var b := header + EncodeMaterialContent(f) + rest;
      FILE_FORMAT_HEADER_BYTES + MATERIAL_HEADER_BYTES <= |b|
      && DecodeMaterialHeader(b, FILE_FORMAT_HEADER_BYTES) == f.header
  {
    var mh := EncodeMaterialHeader(f.header);
    var tail := EncodeTechniques(f.techniques) + EncodeRecords(f.properties) + rest;
    assert header + EncodeMaterialContent(f) + rest == header + mh + tail;
    DecodeEncodeMaterialHeader(f.header, header, tail);
  }

  /** The techniques follow the material header. */
  lemma TechniquesPart(f: MaterialFile, header: seq<u8>, rest: seq<u8>)
    requires |header| == FILE_FORMAT_HEADER_BYTES
    ensures var b := header + EncodeMaterialContent(f) + rest;
      FILE_FORMAT_HEADER_BYTES + MATERIAL_HEADER_BYTES + |f.techniques| * TECHNIQUE_BYTES <= |b|
      && DecodeTechniques(b, FILE_FORMAT_HEADER_BYTES + MATERIAL_HEADER_BYTES, |f.techniques|) == f.techniques
  {
    var front := header + EncodeMaterialHeader(f.header);
    var tail := EncodeRecords(f.properties) + rest;
    assert header + EncodeMaterialContent(f) + rest == front + EncodeTechniques(f.techniques) + tail;
    DecodeEncodeTechniques(f.techniques, front, tail);
  }

  /** The properties come last, before whatever follows the file. */
  lemma PropertiesPart(f: MaterialFile, propertyBytes: nat, header: seq<u8>, rest: seq<u8>)
    requires AllOfSize(f.properties, propertyBytes) && |header| == FILE_FORMAT_HEADER_BYTES
    ensures var b := header + EncodeMaterialContent(f) + rest;
      var techniquesEnd := FILE_FORMAT_HEADER_BYTES + MATERIAL_HEADER_BYTES + |f.techniques| * TECHNIQUE_BYTES;
      techniquesEnd <= |b| && |f.properties| * propertyBytes <= |b| - techniquesEnd
      && DecodeRecords(b, techniquesEnd, |f.properties|, propertyBytes) == f.properties
  {
    var front := header + EncodeMaterialHeader(f.header) + EncodeTechniques(f.techniques);
    assert header + EncodeMaterialContent(f) + rest == front + EncodeRecords(f.properties) + rest;
    DecodeEncodeRecords(f.properties, propertyBytes, front, rest);
  }

  /** The content of a well-formed file reads back as written, behind any eight-byte header. */
  lemma MaterialContentRoundTrip(f: MaterialFile, propertyBytes: nat, header: seq<u8>, rest: seq<u8>)
    requires WellFormed(f, propertyBytes) && |header| == FILE_FORMAT_HEADER_BYTES
    ensures DecodeMaterialContent(header + EncodeMaterialContent(f) + rest, propertyBytes) == Ok(f)
  {
    MaterialHeaderPart(f, header, rest);
    TechniquesPart(f, header, rest);
    PropertiesPart(f, propertyBytes, header, rest);
  }

  /** A well-formed file reads back as written, whatever follows it. */
  lemma MaterialFileRoundTrip(f: MaterialFile, propertyBytes: nat, rest: seq<u8>)
    requires WellFormed(f, propertyBytes)
    ensures DecodeMaterialFile(EncodeMaterialFile(f) + rest, propertyBytes) == Ok(f)
  {
    var header := EncodeFileFormatHeader(FileFormatHeader(FORMAT_TYPE, FORMAT_VERSION));
    var content := EncodeMaterialContent(f);
    var b := EncodeMaterialFile(f) + rest;
    assert b == [] + header + (content + rest);
    DecodeEncodeFileFormatHeader(FileFormatHeader(FORMAT_TYPE, FORMAT_VERSION), [], content + rest);
    assert b == header + content + rest;
    MaterialContentRoundTrip(f, propertyBytes, header, rest);
  }
}
