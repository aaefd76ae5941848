/**
 * Font handling: the built-in Inter faces, the byte-view normalisation they
 * go through, the magic-byte check for TrueType and OpenType files, and the
 * validation steps of fetching a custom font (scheme filter, cache lookup,
 * HTTP status, declared and actual size, format).
 *
 * The signatures are the sfnt version tags of the OpenType specification
 * ("Organization of an OpenType Font", table directory): 0x00010000 for
 * TrueType outlines and 'OTTO' for CFF outlines.
 */
module Fonts {
  import opened Js
  import opened JsNumber

  type Bytes = seq<bv8>

  /** The largest custom font accepted: 5 MiB. */
  const MaxFontSize: nat := 5 * 1024 * 1024

  datatype FontFormat = Ttf | Otf

  const TrueTypeTag: Bytes := [0x00, 0x01, 0x00, 0x00]
  const OpenTypeTag: Bytes := [0x4F, 0x54, 0x54, 0x4F]

  /** `detectFontFormat`: the format named by the first four bytes, if any. */
  function DetectFontFormat(buffer: Bytes): (r: Option<FontFormat>)
    ensures |buffer| < 4 ==> r.None?
    ensures r == Some(Ttf) <==> |buffer| >= 4 && buffer[..4] == TrueTypeTag
    ensures r == Some(Otf) <==> |buffer| >= 4 && buffer[..4] == OpenTypeTag
  {
    if |buffer| < 4 then None
    else if buffer[0] == 0x00 && buffer[1] == 0x01 && buffer[2] == 0x00 && buffer[3] == 0x00 then
      assert buffer[..4] == TrueTypeTag;
      Some(Ttf)
    else if buffer[0] == 0x4F && buffer[1] == 0x54 && buffer[2] == 0x54 && buffer[3] == 0x4F then
      assert buffer[..4] == OpenTypeTag;
      Some(Otf)
    else
      assert buffer[..4] != TrueTypeTag by { assert !(buffer[..4][0] == 0x00 && buffer[..4][1] == 0x01 && buffer[..4][2] == 0x00 && buffer[..4][3] == 0x00); }
      assert buffer[..4] != OpenTypeTag by { assert !(buffer[..4][0] == 0x4F && buffer[..4][1] == 0x54 && buffer[..4][2] == 0x54 && buffer[..4][3] == 0x4F); }
      None
  }

  /** Only the first four bytes matter: appending or changing later bytes keeps the verdict. */
  lemma {:induction false} DetectDependsOnlyOnTag(a: Bytes, b: Bytes)
    requires |a| >= 4 && |b| >= 4 && a[..4] == b[..4]
    ensures DetectFontFormat(a) == DetectFontFormat(b)
  {
    assert a[0] == a[..4][0] == b[0] && a[1] == a[..4][1] == b[1];
    assert a[2] == a[..4][2] == b[2] && a[3] == a[..4][3] == b[3];
  }

  // ---------------------------------------------------------------------
  // Binary data

  /** An `ArrayBuffer`, or a typed-array view into one. */
  datatype BinaryData =
    | Buffer(bytes: Bytes)
    | View(buffer: Bytes, byteOffset: nat, byteLength: nat)

  /** `ArrayBuffer.prototype.slice(start, end)` for non-negative bounds, which it clamps to the length. */
  function Slice(buffer: Bytes, start: nat, end: nat): (r: Bytes)
    ensures start <= end <= |buffer| ==> r == buffer[start..end]
    ensures |r| <= |buffer|
  {
    var first := if start < |buffer| then start else |buffer|;
    var last := if end < |buffer| then end else |buffer|;
    if first < last then buffer[first..last] else []
  }

  /** `ensureArrayBuffer`: a buffer as is, or a copy of the bytes a view covers. */
  function EnsureArrayBuffer(data: BinaryData): (r: Bytes)
    ensures data.Buffer? ==> r == data.bytes
    ensures data.View? ==> |r| <= data.byteLength
  {
    match data
    case Buffer(bytes) => bytes
    case View(buffer, offset, length) => Slice(buffer, offset, offset + length)
  }

  /** A view that lies inside its buffer, as every typed array does. */
  predicate ValidView(data: BinaryData) {
    data.View? && data.byteOffset + data.byteLength <= |data.buffer|
  }

  /** On a valid view the copy is exactly the viewed bytes [byteOffset, byteOffset + byteLength). */
  lemma {:induction false} EnsureArrayBufferOfView(data: BinaryData)
    requires ValidView(data)
    ensures |EnsureArrayBuffer(data)| == data.byteLength
    ensures forall i | 0 <= i < data.byteLength ::
      EnsureArrayBuffer(data)[i] == data.buffer[data.byteOffset + i]
  {
    assert EnsureArrayBuffer(data) == data.buffer[data.byteOffset..data.byteOffset + data.byteLength];
  }

  // ---------------------------------------------------------------------
  // Fonts

  datatype FontStyle = Normal | Italic

  datatype Font = Font(name: string, data: Bytes, weight: nat, style: FontStyle)

  /** `getFonts`: the bundled Inter regular and bold faces, whose file contents are parameters. */
  function GetFonts(regular: BinaryData, bold: BinaryData): (r: seq<Font>)
    ensures |r| == 2
    ensures r[0].name == "Inter" && r[0].weight == 400 && r[0].style == Normal
    ensures r[1].name == "Inter" && r[1].weight == 700 && r[1].style == Normal
    ensures r[0].data == EnsureArrayBuffer(regular) && r[1].data == EnsureArrayBuffer(bold)
  {
    [Font("Inter", EnsureArrayBuffer(regular), 400, Normal),
     Font("Inter", EnsureArrayBuffer(bold), 700, Normal)]
  }

  /** The one-font list a custom font is returned as. */
  function CustomFont(data: Bytes): seq<Font> {
    [Font("Custom", data, 400, Normal)]
  }

  // ---------------------------------------------------------------------
  // Fetching a custom font

  /** What reading the font cache gives: nothing, an error, or a stored body. */
  datatype CacheRead = Miss | ReadFailed | Hit(body: Bytes)

  /**
   * What fetching the URL gives: an error (network failure, timeout), or a
   * response with its `ok` flag, its Content-Length header and its body, which
   * may fail to arrive (`None`).
   */
  datatype FetchReply =
    | FetchFailed
    | Reply(ok: bool, contentLength: Option<string>, body: Option<Bytes>)

  /** The result of `fetchCustomFont` with what it did on the way. */
  datatype FontLookup = FontLookup(
    fonts: Option<seq<Font>>,
    /** whether the URL was fetched */
    fetched: bool,
    /** the body scheduled to be stored in the cache, if any */
    stored: Option<Bytes>)

  /** Only web URLs are fetched; `None` stands for a URL that does not parse. */
  predicate WebScheme(protocol: Option<string>) {
    protocol == Some("https:") || protocol == Some("http:")
  }

  /** A Content-Length header that declares more than the limit. */
  predicate DeclaredTooLarge(contentLength: Option<string>) {
    Truthy(contentLength) && Greater(ParseInt(contentLength.value), Finite(MaxFontSize))
  }

  /** A cached body that passes format detection. */
  predicate UsableHit(cache: CacheRead) {
    cache.Hit? && DetectFontFormat(cache.body).Some?
  }

  /**
   * The checks a fetched response goes through, in order: the status, the
   * declared length, the body arriving, its size, its format.
   */
  function AcceptFetched(reply: FetchReply): (r: Option<Bytes>)
    ensures r.Some? <==>
      && reply.Reply? && reply.ok && !DeclaredTooLarge(reply.contentLength)
      && reply.body.Some? && |reply.body.value| <= MaxFontSize
      && DetectFontFormat(reply.body.value).Some?
    ensures r.Some? ==> r == reply.body
  {
    match reply
    case FetchFailed => None
    case Reply(ok, contentLength, body) =>
      if !ok then None
      else if DeclaredTooLarge(contentLength) then None
      else if body.None? then None
      else if |body.value| > MaxFontSize then None
      else if DetectFontFormat(body.value).None? then None
      else body
  }

  /**
   * `fetchCustomFont`: the URL's scheme is checked, then a usable cached copy
   * is returned; otherwise the URL is fetched and its body validated. Every
   * failure gives null, so the caller falls back to Inter. With an execution
   * context (`canStore`) an accepted fetched body is stored in the cache.
   */
  function FetchCustomFont(protocol: Option<string>, cache: CacheRead, reply: FetchReply, canStore: bool): (r: FontLookup)
    ensures !WebScheme(protocol) ==> r == FontLookup(None, false, None)
    ensures WebScheme(protocol) && UsableHit(cache) ==> r == FontLookup(Some(CustomFont(cache.body)), false, None)
    ensures r.fetched <==> WebScheme(protocol) && !UsableHit(cache)
    ensures r.fonts.Some? ==>
      && |r.fonts.value| == 1
      && r.fonts.value[0].name == "Custom" && r.fonts.value[0].weight == 400 && r.fonts.value[0].style == Normal
      && DetectFontFormat(r.fonts.value[0].data).Some?
    ensures r.fetched && r.fonts.Some? ==>
      && reply.Reply? && reply.body == Some(r.fonts.value[0].data)
      && |r.fonts.value[0].data| <= MaxFontSize
    ensures r.fetched ==> r.fonts == (if AcceptFetched(reply).Some? then Some(CustomFont(AcceptFetched(reply).value)) else None)
    ensures r.stored.Some? <==> r.fetched && r.fonts.Some? && canStore
    ensures r.stored.Some? ==> r.stored.value == r.fonts.value[0].data
  {
    if !WebScheme(protocol) then FontLookup(None, false, None)
    else if UsableHit(cache) then FontLookup(Some(CustomFont(cache.body)), false, None)
    else
      match AcceptFetched(reply)
      case None => FontLookup(None, true, None)
      case Some(body) => FontLookup(Some(CustomFont(body)), true, if canStore then Some(body) else None)
  }

  /**
   * A declared length over the limit rejects the font before the body is read:
   * the outcome is the same whatever the body turns out to be.
   */
  lemma {:induction false} DeclaredTooLargeIgnoresBody(protocol: Option<string>, cache: CacheRead, ok: bool,
                                                      contentLength: Option<string>, a: Option<Bytes>, b: Option<Bytes>,
                                                      canStore: bool)
    requires DeclaredTooLarge(contentLength)
    ensures FetchCustomFont(protocol, cache, Reply(ok, contentLength, a), canStore).fonts.None?
      || UsableHit(cache)
    ensures FetchCustomFont(protocol, cache, Reply(ok, contentLength, a), canStore)
         == FetchCustomFont(protocol, cache, Reply(ok, contentLength, b), canStore)
  {
    assert AcceptFetched(Reply(ok, contentLength, a)).None?;
    assert AcceptFetched(Reply(ok, contentLength, b)).None?;
  }

  /**
   * The size limit is inclusive: a well-formed font of exactly 5 MiB is
   * accepted, and one byte more is rejected.
   */
  lemma {:induction false} SizeLimitBoundary(protocol: Option<string>, contentLength: Option<string>, body: Bytes, canStore: bool)
    requires WebScheme(protocol) && !DeclaredTooLarge(contentLength)
    requires |body| >= 4 && DetectFontFormat(body).Some?
    ensures |body| == MaxFontSize ==>
      FetchCustomFont(protocol, Miss, Reply(true, contentLength, Some(body)), canStore).fonts == Some(CustomFont(body))
    ensures |body| == MaxFontSize + 1 ==>
      FetchCustomFont(protocol, Miss, Reply(true, contentLength, Some(body)), canStore).fonts.None?
  {
    var r := FetchCustomFont(protocol, Miss, Reply(true, contentLength, Some(body)), canStore);
    if |body| == MaxFontSize {
      assert AcceptFetched(Reply(true, contentLength, Some(body))) == Some(body);
    }
  }

  /** A corrupt cached copy is not used: the font is fetched again. */
  lemma {:induction false} CorruptCacheRefetches(protocol: Option<string>, body: Bytes, reply: FetchReply, canStore: bool)
    requires WebScheme(protocol) && DetectFontFormat(body).None?
    ensures FetchCustomFont(protocol, Hit(body), reply, canStore)
         == FetchCustomFont(protocol, Miss, reply, canStore)
  {
    assert !UsableHit(Hit(body));
  }
}
