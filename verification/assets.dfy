/**
 * The accept/reject decisions of the two asset loaders (assets.c):
 * read_mob, which loads an interleaved vertex/index model, and load_ktx,
 * which loads a single-level KTX 1 texture.
 *
 * The headers arrive already decoded. What the loaders learn from the file
 * system (whether the file opened, its length, the bytes each body read
 * delivered) and from the allocator (whether malloc succeeded) are
 * parameters. The OpenGL calls are not part of this model; the texture
 * name generate_texture would return is a parameter too.
 */
module Assets {

  newtype u8 = x: int | 0 <= x < 0x100
  newtype u16 = x: int | 0 <= x < 0x1_0000
  newtype u32 = x: int | 0 <= x < 0x1_0000_0000

  // ---------------------------------------------------------------- MOB

  /** MOB_Header: eight u16 fields, 16 bytes with no padding. */
  datatype MobHeader = MobHeader(
    version: u16,
    numJoints: u16,
    numAnimations: u16,
    kind: u16,
    vertexSize: u16,
    normalSize: u16,
    coordSize: u16,
    indexSize: u16)

  const MobHeaderBytes: int := 16
  /** The only version read_mob accepts. */
  const DaeVersion: u16 := 141
  /** VBO_INTERLEAVED, the third enumerator of the buffer layouts. */
  const VboInterleaved: u16 := 2

  /** Which of read_mob's exits was taken (each prints its own message). */
  datatype MobStatus =
    | MobLoaded
    | MobNotOpened
    | MobBadVersion
    | MobBadType
    | MobBadLength
    | MobShortVertices
    | MobShortIndices

  /** Bytes of vertex data: vertex_size floats of 4 bytes. */
  function VertexBytes(h: MobHeader): int
  {
    h.vertexSize as int * 4
  }

  /** Bytes of index data: index_size u16 values of 2 bytes. */
  function IndexBytes(h: MobHeader): int
  {
    h.indexSize as int * 2
  }

  /**
   * The exit read_mob takes for a file that opened (or not), whose header
   * is `h`, whose length is `len`, and whose two body reads delivered
   * `vertexRead` and `indexRead` bytes. The checks run in source order, so
   * the first failing one decides.
   */
  function MobVerdict(fileOpened: bool, h: MobHeader, len: int, vertexRead: int, indexRead: int): MobStatus
  {
    if !fileOpened then MobNotOpened
    else if h.version != DaeVersion then MobBadVersion
    else if h.kind != VboInterleaved then MobBadType
    else if len != MobHeaderBytes + IndexBytes(h) + VertexBytes(h) then MobBadLength
    else if vertexRead != VertexBytes(h) then MobShortVertices
    else if indexRead != IndexBytes(h) then MobShortIndices
    else MobLoaded
  }

  /**
   * A model loads exactly when the file fileOpened, has version 141 and the
   * interleaved layout, is exactly as long as its header says, and both
   * reads delivered everything.
   */
  lemma MobVerdictLoaded(fileOpened: bool, h: MobHeader, len: int, vertexRead: int, indexRead: int)
    ensures MobVerdict(fileOpened, h, len, vertexRead, indexRead) == MobLoaded <==>
      fileOpened && h.version == 141 && h.kind == 2 &&
      len == 16 + 4 * h.vertexSize as int + 2 * h.indexSize as int &&
      vertexRead == 4 * h.vertexSize as int && indexRead == 2 * h.indexSize as int
  {
  }

  /** The five out-parameters of read_mob. */
  class MobOutputs {
    var vSize: int
    var vData: seq<u8>
    var iSize: int
    var iData: seq<u8>
    var skinned: int
  }

  /**
   * read_mob. `vertexChunk` and `indexChunk` are the bytes the two body
   * reads deliver. The outputs are written only on the success path, and
   * then the sizes are the header's element counts (the byte counts
   * divided back by the element sizes).
   */
  method ReadMob(fileOpened: bool, h: MobHeader, len: int, vertexChunk: seq<u8>, indexChunk: seq<u8>, out: MobOutputs)
    returns (status: MobStatus)
    modifies out
    ensures status == MobVerdict(fileOpened, h, len, |vertexChunk|, |indexChunk|)
    ensures status != MobLoaded ==> unchanged(out)
    ensures status == MobLoaded ==>
      out.vSize == h.vertexSize as int && out.iSize == h.indexSize as int && out.skinned == h.numJoints as int &&
      out.vData == vertexChunk && out.iData == indexChunk
  {
    if !fileOpened {
      return MobNotOpened;
    }
    if DaeVersion != h.version {
      return MobBadVersion;
    }
    if VboInterleaved != h.kind {
      return MobBadType;
    }
    var tmpV := h.vertexSize as int * 4;
    var tmpI := h.indexSize as int * 2;
    if len != MobHeaderBytes + tmpI + tmpV {
      return MobBadLength;
    }
    var read := |vertexChunk|;
    if read != tmpV {
      return MobShortVertices;
    }
    read := |indexChunk|;
    if read != tmpI {
      return MobShortIndices;
    }
    out.vData := vertexChunk;
    out.iData := indexChunk;
    out.skinned := h.numJoints as int;
    out.vSize := tmpV / 4;
    out.iSize := tmpI / 2;
    return MobLoaded;
  }

  // ---------------------------------------------------------------- KTX

  type Identifier = s: seq<u8> | |s| == 12
    witness [0, 0, 0, 0, 0, 0, 0, 0, 0, 0, 0, 0]

  /**
   * The twelve identifier bytes of a KTX 1 file, "«KTX 11»\r\n\x1A\n"
   * (section 2.1 of the Khronos KTX File Format Specification, version 1).
   */
  const KtxIdentifier: Identifier :=
    [0xAB, 0x4B, 0x54, 0x58, 0x20, 0x31, 0x31, 0xBB, 0x0D, 0x0A, 0x1A, 0x0A]

  /** GL_RGB. */
  const GlRgb: u32 := 0x1907

  /** KTX_Header; load_ktx overwrites some of its fields in place. */
  class KtxHeader {
    var identifier: Identifier
    var endianness: u32
    var kind: u32
    var typeSize: u32
    var format: u32
    var internalFormat: u32
    var baseInternalFormat: u32
    var pixelWidth: u32
    var pixelHeight: u32
    var pixelDepth: u32
    var numArrayElements: u32
    var numFaces: u32
    var numMipmapLevels: u32
    var numBytesKeyValue: u32
  }

  /**
   * The identifier loop of load_ktx: compares the bytes in order and
   * stops at the first difference; it accepts exactly the KTX identifier.
   */
  method CheckIdentifier(id: Identifier) returns (ok: bool)
    ensures ok <==> id == KtxIdentifier
  {
    var i := 0;
    while i < 12
      invariant 0 <= i <= 12
      invariant id[..i] == KtxIdentifier[..i]
    {
      if id[i] != KtxIdentifier[i] {
        return false;
      }
      i := i + 1;
    }
    assert id == id[..12] && KtxIdentifier == KtxIdentifier[..12];
    return true;
  }

  /** A zero field read as 1. */
  function Defaulted(v: u32): (r: u32)
    ensures r != 0
    ensures v != 0 ==> r == v
    ensures v == 0 ==> r == 1
  {
    if v == 0 then 1 else v
  }

  /**
   * The defaulting step of load_ktx: zero width, depth, mip-map level
   * count, array element count and face count become 1. The height is not
   * defaulted, and nothing else changes.
   */
  method ApplyDefaults(h: KtxHeader)
    modifies h
    ensures HeaderDefaulted(h)
  {
    if h.pixelWidth == 0 { h.pixelWidth := 1; }
    if h.pixelDepth == 0 { h.pixelDepth := 1; }
    if h.numMipmapLevels == 0 { h.numMipmapLevels := 1; }
    if h.numArrayElements == 0 { h.numArrayElements := 1; }
    if h.numFaces == 0 { h.numFaces := 1; }
  }

  /**
   * The header after the defaulting step: width, depth, mip-map level
   * count, array element count and face count read as 1 when they were 0,
   * every other field, the height included, as it was.
   */
  twostate predicate HeaderDefaulted(h: KtxHeader)
    reads h
  {
    h.pixelWidth == Defaulted(old(h.pixelWidth)) && h.pixelDepth == Defaulted(old(h.pixelDepth)) &&
    h.numMipmapLevels == Defaulted(old(h.numMipmapLevels)) &&
    h.numArrayElements == Defaulted(old(h.numArrayElements)) && h.numFaces == Defaulted(old(h.numFaces)) &&
    h.pixelHeight == old(h.pixelHeight) && h.identifier == old(h.identifier) && h.format == old(h.format) &&
    h.endianness == old(h.endianness) && h.kind == old(h.kind) && h.typeSize == old(h.typeSize) &&
    h.internalFormat == old(h.internalFormat) && h.baseInternalFormat == old(h.baseInternalFormat) &&
    h.numBytesKeyValue == old(h.numBytesKeyValue)
  }

  /** Unsigned 32-bit multiplication, wrapping modulo 2^32. */
  function MulU32(a: u32, b: u32): (r: u32)
    ensures r as int == (a as int * b as int) % 0x1_0000_0000
    ensures a as int * b as int < 0x1_0000_0000 ==> r as int == a as int * b as int
  {
    var p := a as int * b as int;
    assert 0 <= p by {
      assert 0 <= a as int && 0 <= b as int;
    }
    (p % 0x1_0000_0000) as u32
  }

  /**
   * The product wraps: 3 * 0x5555_5556 is 2^32 + 2, so an RGB image of
   * 0x5555_5556 pixels passes the size check with an image size of 2.
   */
  lemma MulU32Wraps()
    ensures MulU32(3, 0x5555_5556) == 2
    ensures !RgbSizeMismatch(GlRgb, 0x5555_5556, 1, 2)
  {
  }

  /**
   * The size check of an RGB image: 3 * width * height, computed in
   * 32-bit unsigned arithmetic, against the stored image size. A mismatch
   * only warns.
   */
  predicate RgbSizeMismatch(format: u32, width: u32, height: u32, size: u32)
  {
    format == GlRgb && MulU32(3, MulU32(width, height)) != size
  }

  /**
   * pad = 4 - size % 4: the bytes that would follow the image to reach a
   * multiple of 4. It lies in 1..4 and is 4, not 0, when the size is
   * already a multiple of 4.
   */
  function Pad(size: u32): (pad: int)
    ensures 1 <= pad <= 4
    ensures pad == 4 <==> size as int % 4 == 0
    ensures (size as int + pad) % 4 == 0
  {
    4 - size as int % 4
  }

  /**
   * The mip padding of section 2.16 of the KTX 1 specification,
   * 3 - ((size + 3) % 4), which is 0 for a multiple of 4.
   */
  function MipPadding(size: u32): (pad: int)
    ensures 0 <= pad <= 3 && (size as int + pad) % 4 == 0
  {
    3 - (size as int + 3) % 4
  }

  /**
   * The source's pad agrees with the KTX padding except for sizes that
   * are multiples of 4, where it is 4 bytes too many. The value only feeds
   * the counter of the single-level loop, which nothing reads afterwards.
   */
  lemma PadVersusMipPadding(size: u32)
    ensures size as int % 4 != 0 ==> Pad(size) == MipPadding(size)
    ensures size as int % 4 == 0 ==> Pad(size) == MipPadding(size) + 4
  {
  }

  /** C's conversion of a u32 to int (two's complement, 32 bits). */
  function AsInt32(v: u32): (r: int)
    ensures -0x8000_0000 <= r < 0x8000_0000
    ensures r % 0x1_0000_0000 == v as int % 0x1_0000_0000
  {
    if v < 0x8000_0000 then v as int else v as int - 0x1_0000_0000
  }

  /**
   * The value load_ktx returns: -1 when the file does not open, the
   * identifier is wrong, the defaulted mip-map level count is not 1, or the
   * pixel buffer cannot be allocated; 0 otherwise.
   */
  function KtxVerdict(fileOpened: bool, id: Identifier, numMipmapLevels: u32, pixelsAllocated: bool): int
  {
    if !fileOpened || id != KtxIdentifier || Defaulted(numMipmapLevels) != 1 || !pixelsAllocated then -1 else 0
  }

  /**
   * A texture loads exactly when the file fileOpened, carries the KTX
   * identifier, declares zero or one mip-map level, and its pixels could
   * be pixelsAllocated; every other outcome is -1.
   */
  lemma KtxVerdictLoaded(fileOpened: bool, id: Identifier, numMipmapLevels: u32, pixelsAllocated: bool)
    ensures KtxVerdict(fileOpened, id, numMipmapLevels, pixelsAllocated) == 0 <==>
      fileOpened && id == KtxIdentifier && (numMipmapLevels == 0 || numMipmapLevels == 1) && pixelsAllocated
    ensures KtxVerdict(fileOpened, id, numMipmapLevels, pixelsAllocated) != 0 ==>
      KtxVerdict(fileOpened, id, numMipmapLevels, pixelsAllocated) == -1
  {
  }

  /** The out-parameters of load_ktx. */
  class KtxOutputs {
    var texId: u32
    var imgWidth: int
    var imgHeight: int
  }

  /**
   * load_ktx over a decoded header. `size` is the image size word read
   * after the key/value data, `pixelsAllocated` whether malloc succeeded, and
   * `texture` the name generate_texture returns. Besides the result it
   * reports whether the RGB size warning was printed.
   */
  method LoadKtx(fileOpened: bool, h: KtxHeader, size: u32, pixelsAllocated: bool, texture: u32, out: KtxOutputs)
    returns (result: int, sizeWarning: bool)
    modifies h, out
    ensures result == KtxVerdict(fileOpened, old(h.identifier), old(h.numMipmapLevels), pixelsAllocated)
    ensures result == 0 ==>
      out.texId == texture && out.imgWidth == AsInt32(h.pixelWidth) && out.imgHeight == AsInt32(h.pixelHeight)
    ensures result != 0 ==> unchanged(out)
    ensures !fileOpened || old(h.identifier) != KtxIdentifier ==> unchanged(h) && !sizeWarning
    ensures fileOpened && old(h.identifier) == KtxIdentifier ==> HeaderDefaulted(h)
    ensures sizeWarning <==>
      fileOpened && old(h.identifier) == KtxIdentifier && Defaulted(old(h.numMipmapLevels)) == 1 &&
      RgbSizeMismatch(old(h.format), Defaulted(old(h.pixelWidth)), old(h.pixelHeight), size)
  {
    sizeWarning := false;
    if !fileOpened {
      return -1, sizeWarning;
    }
    var ok := CheckIdentifier(h.identifier);
    if !ok {
      return -1, sizeWarning;
    }
    ApplyDefaults(h);
    if 1 != h.numMipmapLevels {
      return -1, sizeWarning;
    }
    var s := MulU32(h.pixelWidth, h.pixelHeight);
    if h.format == GlRgb {
      if MulU32(3, s) != size {
        sizeWarning := true;
      }
    }
    var pad := Pad(size);
    if !pixelsAllocated {
      return -1, sizeWarning;
    }
    out.texId := texture;
    out.imgWidth := AsInt32(h.pixelWidth);
    out.imgHeight := AsInt32(h.pixelHeight);
    return 0, sizeWarning;
  }
}
