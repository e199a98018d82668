/** The decisions `safe_open` of pypsi/utils.py makes once the first chunk of
    the file has been read: whether to open the file plainly (an empty file) or
    with the detected encoding, and how many leading bytes to seek past. */
module SafeOpen {
  import opened Errors
  import opened Sequences

  type Byte = b: int | 0 <= b < 256

  /** `fp.read(0x1000)`: the size of the first chunk. */
  const CHUNK_SIZE: nat := 0x1000

  const BOM_UTF32_BE: seq<Byte> := [0x00, 0x00, 0xFE, 0xFF]
  const BOM_UTF32_LE: seq<Byte> := [0xFF, 0xFE, 0x00, 0x00]
  const BOM_UTF8: seq<Byte> := [0xEF, 0xBB, 0xBF]
  const BOM_UTF16_BE: seq<Byte> := [0xFE, 0xFF]
  const BOM_UTF16_LE: seq<Byte> := [0xFF, 0xFE]

  /** The byte-order marks in the order `safe_open` tries them. */
  const BOMS: seq<seq<Byte>> := [BOM_UTF32_BE, BOM_UTF32_LE, BOM_UTF8, BOM_UTF16_BE, BOM_UTF16_LE]

  /** The index of the first mark in `boms[from..]` that `first` starts with. */
  function FirstMatch(boms: seq<seq<Byte>>, first: seq<Byte>, from: nat): (r: Option<nat>)
    requires from <= |boms|
    decreases |boms| - from
    ensures r.Some? ==> from <= r.value < |boms| && StartsWith(first, boms[r.value])
    ensures r.Some? ==> forall j :: from <= j < r.value ==> !StartsWith(first, boms[j])
    ensures r.None? ==> forall j :: from <= j < |boms| ==> !StartsWith(first, boms[j])
  {
    if from == |boms| then None
    else if StartsWith(first, boms[from]) then Some(from)
    else FirstMatch(boms, first, from + 1)
  }

  /** The argument of `fp.seek`: the length of the first mark in BOMS that the
      chunk starts with, or 0 when it starts with none. */
  function BomSkip(first: seq<Byte>): (n: nat)
    ensures n <= |first|
    ensures n == 0 <==> forall j :: 0 <= j < |BOMS| ==> !StartsWith(first, BOMS[j])
    ensures n > 0 ==> exists i :: 0 <= i < |BOMS| && n == |BOMS[i]| && StartsWith(first, BOMS[i])
                                  && forall j :: 0 <= j < i ==> !StartsWith(first, BOMS[j])
  {
    match FirstMatch(BOMS, first, 0)
    case Some(i) => |BOMS[i]|
    case None => 0
  }

  /** The encoding the detector settled on; opaque to this model. */
  type Encoding = string

  /** How `safe_open` opens the file. */
  datatype OpenPlan =
    | PlainOpen                                   // `open(path, mode)`
    | DecodedOpen(encoding: Encoding, skip: nat)  // `codecs.open(..., encoding)` then `seek(skip)` when skip > 0

  /** The first chunk `safe_open` reads from a file's bytes. */
  function FirstChunk(file: seq<Byte>): (c: seq<Byte>)
    ensures |c| == if |file| < CHUNK_SIZE then |file| else CHUNK_SIZE
    ensures c == file[..|c|]
  {
    if |file| < CHUNK_SIZE then file else file[..CHUNK_SIZE]
  }

  /** `safe_open` after the detector has run, for a first chunk `first` and the
      detector's answer `detected`. */
  function Plan(first: seq<Byte>, detected: Encoding): (p: OpenPlan)
    ensures p.PlainOpen? <==> first == []
    ensures p.DecodedOpen? ==> p.encoding == detected && p.skip == BomSkip(first)
  {
    if first == [] then PlainOpen else DecodedOpen(detected, BomSkip(first))
  }

  /** Looking only at the first chunk loses nothing: every mark is shorter than
      a chunk, so the skip is the one the whole file would give, never runs past
      the end of the file, and the empty file is exactly the plain-open case. */
  lemma PlanOfFile(file: seq<Byte>, detected: Encoding)
    ensures Plan(FirstChunk(file), detected).PlainOpen? <==> file == []
    ensures BomSkip(FirstChunk(file)) == BomSkip(file) <= |file|
  {
  }

  /** The UTF-32 little-endian mark is tried before the UTF-16 little-endian
      mark it begins with, so `FF FE 00 00` skips 4 bytes, not 2. */
  lemma Utf32LeBeforeUtf16Le(rest: seq<Byte>)
    ensures BomSkip([0xFF, 0xFE, 0x00, 0x00] + rest) == 4
    ensures BomSkip([0xFF, 0xFE, 0x01] + rest) == 2
  {
    var a: seq<Byte> := [0xFF, 0xFE, 0x00, 0x00] + rest;
    assert a[..4] == BOM_UTF32_LE;
    assert !StartsWith(a, BOMS[0]) by { assert a[..4][0] != BOM_UTF32_BE[0]; }
    assert FirstMatch(BOMS, a, 1) == Some(1);
    assert FirstMatch(BOMS, a, 0) == Some(1);
    var b: seq<Byte> := [0xFF, 0xFE, 0x01] + rest;
    assert b[..2] == BOM_UTF16_LE;
    assert !StartsWith(b, BOMS[0]) by { assert b[0] != BOM_UTF32_BE[0]; }
    assert !StartsWith(b, BOMS[1]) by { assert b[2] != BOM_UTF32_LE[2]; }
    assert !StartsWith(b, BOMS[2]) by { assert b[0] != BOM_UTF8[0]; }
    assert !StartsWith(b, BOMS[3]) by { assert b[0] != BOM_UTF16_BE[0]; }
    assert FirstMatch(BOMS, b, 4) == Some(4);
    assert FirstMatch(BOMS, b, 2) == Some(4);
    assert FirstMatch(BOMS, b, 0) == Some(4);
  }

  /** A file written as a UTF-8 mark followed by content: the first chunk
      `safe_open` inspects leads to a decoded open positioned past exactly the
      mark, so what the caller reads is the content. */
  lemma Utf8RoundTrip(content: seq<Byte>, detected: Encoding)
    ensures Plan(FirstChunk(BOM_UTF8 + content), detected) == DecodedOpen(detected, 3)
    ensures (BOM_UTF8 + content)[3..] == content
  {
    var f := BOM_UTF8 + content;
    assert f[..3] == BOM_UTF8;
    assert !StartsWith(f, BOMS[0]) by { assert f[0] != BOM_UTF32_BE[0]; }
    assert !StartsWith(f, BOMS[1]) by { assert f[0] != BOM_UTF32_LE[0]; }
    assert FirstMatch(BOMS, f, 2) == Some(2);
    assert FirstMatch(BOMS, f, 0) == Some(2);
    PlanOfFile(f, detected);
  }
}
