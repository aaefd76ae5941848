/**
 * The `/v1/og` routes: building the image parameters from a GET query or a
 * POST body, the title check, the defaults, the dimension clamp, and the
 * responses built from the render outcome; and the templates listing route.
 *
 * The render step is a parameter (`render`), and the two side effects a
 * handler can have, calling the renderer and scheduling the usage record, are
 * returned as an ordered effect log next to the response.
 */
module OgRoute {
  import opened Js
  import opened JsNumber
  import opened SearchParams
  import opened OgTypes
  import Templates

  // ---------------------------------------------------------------------
  // Dimensions

  const MinDimension: int := 200
  const MaxWidth: int := 2400
  const MaxHeight: int := 1260
  const DefaultWidth: int := 1200
  const DefaultHeight: int := 630

  /** `Math.min(Math.max(v, 200), hi)`. */
  function ClampDimension(v: Num, hi: int): (r: Num)
    requires MinDimension <= hi
    ensures r.NaN? <==> v.NaN?
    ensures r.Finite? ==> MinDimension <= r.value <= hi
    ensures v.Finite? && MinDimension <= v.value <= hi ==> r == v
    ensures v.Finite? && v.value < MinDimension ==> r == Finite(MinDimension)
    ensures v.Finite? && v.value > hi ==> r == Finite(hi)
  {
    Min(Max(v, Finite(MinDimension)), Finite(hi))
  }

  /** Clamping a clamped dimension changes nothing. */
  lemma ClampIdempotent(v: Num, hi: int)
    requires MinDimension <= hi
    ensures ClampDimension(ClampDimension(v, hi), hi) == ClampDimension(v, hi)
  {
  }

  // ---------------------------------------------------------------------
  // Parameters

  /** The title check: a missing or empty title is rejected. */
  const GetTitleError: string := "title parameter is required"
  const PostTitleError: string := "title is required"

  /**
   * The GET handler's parameters: every field is the first value of the query
   * parameter of the same name; width and height go through `parseInt` and
   * the clamp, so a non-numeric dimension stays NaN.
   */
  function GetParams(q: Pairs): (r: Option<Params>)
    ensures r.Some? <==> Truthy(Get(q, "title"))
    ensures r.Some? ==> r.value.title == Get(q, "title").value
    ensures r.Some? ==>
      && (Truthy(Get(q, "template")) ==> r.value.template == Get(q, "template").value)
      && (!Truthy(Get(q, "template")) ==> r.value.template == "basic")
      && (Truthy(Get(q, "format")) ==> r.value.format == Get(q, "format").value)
      && (!Truthy(Get(q, "format")) ==> r.value.format == "png")
    ensures r.Some? ==>
      && r.value.subtitle == Get(q, "subtitle") && r.value.eyebrow == Get(q, "eyebrow")
      && r.value.author == Get(q, "author") && r.value.avatar == Get(q, "avatar")
      && r.value.logo == Get(q, "logo") && r.value.domain == Get(q, "domain")
      && r.value.font == Get(q, "font") && r.value.fontUrl == Get(q, "fontUrl")
      && r.value.bgColor == Get(q, "bgColor") && r.value.textColor == Get(q, "textColor")
      && r.value.accentColor == Get(q, "accentColor")
    ensures r.Some? ==>
      && (r.value.width.Finite? ==> MinDimension <= r.value.width.value <= MaxWidth)
      && (r.value.height.Finite? ==> MinDimension <= r.value.height.value <= MaxHeight)
    ensures r.Some? && !Truthy(Get(q, "width")) ==> r.value.width == Finite(DefaultWidth)
    ensures r.Some? && !Truthy(Get(q, "height")) ==> r.value.height == Finite(DefaultHeight)
  {
    var title := Get(q, "title");
    if !Truthy(title) then None
    else
      var width := ParseInt(Or(Get(q, "width"), "1200"));
      var height := ParseInt(Or(Get(q, "height"), "630"));
      DefaultDimensions();
      Some(Params(
        template := Or(Get(q, "template"), "basic"),
        title := title.value,
        subtitle := Get(q, "subtitle"),
        eyebrow := Get(q, "eyebrow"),
        author := Get(q, "author"),
        avatar := Get(q, "avatar"),
        logo := Get(q, "logo"),
        domain := Get(q, "domain"),
        font := Get(q, "font"),
        fontUrl := Get(q, "fontUrl"),
        bgColor := Get(q, "bgColor"),
        textColor := Get(q, "textColor"),
        accentColor := Get(q, "accentColor"),
        format := Or(Get(q, "format"), "png"),
        width := ClampDimension(width, MaxWidth),
        height := ClampDimension(height, MaxHeight)))
  }

  /** The default dimension strings parse back to the default dimensions. */
  lemma DefaultDimensions()
    ensures ParseInt("1200") == Finite(DefaultWidth)
    ensures ParseInt("630") == Finite(DefaultHeight)
  {
    ParseIntOfNumberToString(1200);
    ParseIntOfNumberToString(630);
    DecimalDigitsOf1200And630();
  }

  /** `String(1200)` and `String(630)`. */
  lemma DecimalDigitsOf1200And630()
    ensures NumberToString(1200) == "1200" && NumberToString(630) == "630"
  {
  }

  /** A GET width given as the decimal text of an integer is that integer, clamped. */
  lemma {:induction false} GetWidthOfDecimal(q: Pairs, n: SafeInteger)
    requires Truthy(Get(q, "title")) && Get(q, "width") == Some(NumberToString(n))
    ensures GetParams(q).value.width == ClampDimension(Finite(n), MaxWidth)
  {
    ParseIntOfNumberToString(n);
    assert Or(Get(q, "width"), "1200") == NumberToString(n);
  }

  /** A GET height given as the decimal text of an integer is that integer, clamped. */
  lemma {:induction false} GetHeightOfDecimal(q: Pairs, n: SafeInteger)
    requires Truthy(Get(q, "title")) && Get(q, "height") == Some(NumberToString(n))
    ensures GetParams(q).value.height == ClampDimension(Finite(n), MaxHeight)
  {
    ParseIntOfNumberToString(n);
    assert Or(Get(q, "height"), "630") == NumberToString(n);
  }

  /** The JSON body of a POST request; dimensions are JSON integers. */
  datatype PostBody = PostBody(
    template: Option<string>,
    title: Option<string>,
    subtitle: Option<string>,
    eyebrow: Option<string>,
    author: Option<string>,
    avatar: Option<string>,
    logo: Option<string>,
    domain: Option<string>,
    font: Option<string>,
    fontUrl: Option<string>,
    bgColor: Option<string>,
    textColor: Option<string>,
    accentColor: Option<string>,
    format: Option<string>,
    width: Option<int>,
    height: Option<int>)

  /**
   * The POST handler's parameters: fields are copied from the body, and a
   * missing or zero dimension takes its default before the clamp.
   */
  function PostParams(b: PostBody): (r: Option<Params>)
    ensures r.Some? <==> Truthy(b.title)
    ensures r.Some? ==> r.value.title == b.title.value
    ensures r.Some? ==>
      && (Truthy(b.template) ==> r.value.template == b.template.value)
      && (!Truthy(b.template) ==> r.value.template == "basic")
      && (Truthy(b.format) ==> r.value.format == b.format.value)
      && (!Truthy(b.format) ==> r.value.format == "png")
    ensures r.Some? ==>
      && r.value.subtitle == b.subtitle && r.value.eyebrow == b.eyebrow
      && r.value.author == b.author && r.value.avatar == b.avatar
      && r.value.logo == b.logo && r.value.domain == b.domain
      && r.value.font == b.font && r.value.fontUrl == b.fontUrl
      && r.value.bgColor == b.bgColor && r.value.textColor == b.textColor
      && r.value.accentColor == b.accentColor
    ensures r.Some? ==>
      && r.value.width.Finite? && MinDimension <= r.value.width.value <= MaxWidth
      && r.value.height.Finite? && MinDimension <= r.value.height.value <= MaxHeight
    ensures r.Some? && !TruthyInt(b.width) ==> r.value.width == Finite(DefaultWidth)
    ensures r.Some? && !TruthyInt(b.height) ==> r.value.height == Finite(DefaultHeight)
    ensures r.Some? && b.width.Some? && MinDimension <= b.width.value <= MaxWidth ==>
      r.value.width == Finite(b.width.value)
    ensures r.Some? && b.height.Some? && MinDimension <= b.height.value <= MaxHeight ==>
      r.value.height == Finite(b.height.value)
    ensures r.Some? && b.width.Some? && b.width.value > MaxWidth ==> r.value.width == Finite(MaxWidth)
    ensures r.Some? && b.width.Some? && b.width.value != 0 && b.width.value < MinDimension ==>
      r.value.width == Finite(MinDimension)
    ensures r.Some? && b.height.Some? && b.height.value > MaxHeight ==> r.value.height == Finite(MaxHeight)
    ensures r.Some? && b.height.Some? && b.height.value != 0 && b.height.value < MinDimension ==>
      r.value.height == Finite(MinDimension)
  {
    if !Truthy(b.title) then None
    else
      Some(Params(
        template := Or(b.template, "basic"),
        title := b.title.value,
        subtitle := b.subtitle,
        eyebrow := b.eyebrow,
        author := b.author,
        avatar := b.avatar,
        logo := b.logo,
        domain := b.domain,
        font := b.font,
        fontUrl := b.fontUrl,
        bgColor := b.bgColor,
        textColor := b.textColor,
        accentColor := b.accentColor,
        format := Or(b.format, "png"),
        width := ClampDimension(Finite(OrInt(b.width, DefaultWidth)), MaxWidth),
        height := ClampDimension(Finite(OrInt(b.height, DefaultHeight)), MaxHeight)))
  }

  /**
   * The two handlers disagree on a zero width: GET parses "0" and clamps it up
   * to 200, while POST treats 0 as missing and uses 1200.
   */
  lemma {:induction false} ZeroWidthDiffers(q: Pairs, b: PostBody)
    requires Truthy(Get(q, "title")) && Get(q, "width") == Some("0")
    requires Truthy(b.title) && b.width == Some(0)
    ensures GetParams(q).value.width == Finite(MinDimension)
    ensures PostParams(b).value.width == Finite(DefaultWidth)
  {
    assert NumberToString(0) == "0";
    GetWidthOfDecimal(q, 0);
  }

  // ---------------------------------------------------------------------
  // Rendering and responses

  datatype Timings = Timings(svgMs: SafeInteger, pngMs: SafeInteger, totalMs: SafeInteger)

  /** What the render step returns on success. */
  datatype RenderResult = RenderResult(
    data: seq<bv8>,
    contentType: string,
    fontFallback: bool,
    timings: Timings)

  /** The render step either returns a result or throws an error with a message. */
  datatype RenderOutcome = Rendered(result: RenderResult) | Threw(message: string)

  /** The response headers the handlers set. */
  datatype Header =
    | ContentType | CacheControl | RenderTime | SvgTime | PngTime | AllowOrigin | FontFallback

  /** The header's name on the wire. */
  function HeaderName(h: Header): string {
    match h
    case ContentType => "Content-Type"
    case CacheControl => "Cache-Control"
    case RenderTime => "X-Render-Time-Ms"
    case SvgTime => "X-SVG-Time-Ms"
    case PngTime => "X-PNG-Time-Ms"
    case AllowOrigin => "Access-Control-Allow-Origin"
    case FontFallback => "X-Font-Fallback"
  }

  /** Distinct headers have distinct names, so no header overwrites another. */
  lemma HeaderNameInjective(a: Header, b: Header)
    ensures HeaderName(a) == HeaderName(b) ==> a == b
  {
    if HeaderName(a) == HeaderName(b) {
      assert |HeaderName(a)| == |HeaderName(b)|;
      assert HeaderName(a)[2] == HeaderName(b)[2];
    }
  }

  type Headers = map<Header, string>

  const CachePolicy: string := "public, max-age=86400"

  /**
   * The headers of a successful image response. GET also reports the SVG and
   * PNG phase timings (`phases`); POST reports only the total.
   */
  function SuccessHeaders(res: RenderResult, phases: bool): (h: Headers)
    ensures ContentType in h && h[ContentType] == res.contentType
    ensures CacheControl in h && h[CacheControl] == CachePolicy
    ensures AllowOrigin in h && h[AllowOrigin] == "*"
    ensures RenderTime in h && h[RenderTime] == NumberToString(res.timings.totalMs)
    ensures (SvgTime in h <==> phases) && (PngTime in h <==> phases)
    ensures phases ==> h[SvgTime] == NumberToString(res.timings.svgMs) && h[PngTime] == NumberToString(res.timings.pngMs)
    ensures FontFallback in h <==> res.fontFallback
    ensures res.fontFallback ==> h[FontFallback] == "true"
  {
    var base := BaseHeaders(res.contentType, res.timings.totalMs);
    var svg := NumberToString(res.timings.svgMs);
    var png := NumberToString(res.timings.pngMs);
    var timed := if phases then WithPhases(base, svg, png) else base;
    if res.fontFallback then timed[FontFallback := "true"] else timed
  }

  /** The headers every successful response carries. */
  function BaseHeaders(contentType: string, totalMs: SafeInteger): (h: Headers)
    ensures h.Keys == {ContentType, CacheControl, RenderTime, AllowOrigin}
    ensures h[ContentType] == contentType && h[CacheControl] == CachePolicy && h[AllowOrigin] == "*"
    ensures h[RenderTime] == NumberToString(totalMs)
  {
    map[
      ContentType := contentType,
      CacheControl := CachePolicy,
      RenderTime := NumberToString(totalMs),
      AllowOrigin := "*"
    ]
  }

  /** Adds the SVG and PNG phase timing texts to `h`, leaving its other entries alone. */
  function WithPhases(h: Headers, svg: string, png: string): (r: Headers)
    requires SvgTime !in h && PngTime !in h
    ensures r.Keys == h.Keys + {SvgTime, PngTime}
    ensures forall k | k in h :: k in r && r[k] == h[k]
    ensures r[SvgTime] == svg && r[PngTime] == png
  {
    h[SvgTime := svg][PngTime := png]
  }

  /** Each timing header reads back, with `parseInt`, as the timing it reports. */
  lemma {:induction false} TimingHeadersParse(res: RenderResult, phases: bool)
    ensures ParseInt(SuccessHeaders(res, phases)[RenderTime]) == Finite(res.timings.totalMs)
    ensures phases ==> ParseInt(SuccessHeaders(res, phases)[SvgTime]) == Finite(res.timings.svgMs)
    ensures phases ==> ParseInt(SuccessHeaders(res, phases)[PngTime]) == Finite(res.timings.pngMs)
  {
    var t := res.timings;
    ParseIntOfNumberToString(t.totalMs);
    ParseIntOfNumberToString(t.svgMs);
    ParseIntOfNumberToString(t.pngMs);
  }

  /** The JSON bodies the routes send. */
  datatype JsonBody =
    | ErrorBody(error: string)
    | FailureBody(error: string, message: string)
    | TemplatesBody(templates: seq<string>, docs: string)

  datatype Response =
    | Image(data: seq<bv8>, headers: Headers)
    | Json(status: nat, body: JsonBody)

  function Status(r: Response): nat {
    if r.Image? then 200 else r.status
  }

  /** The effects a handler has besides its response, in the order it has them. */
  datatype Effect =
    | Render(params: Params)
    /** The usage record scheduled for the key, with the literal `false` the handlers pass. */
    | RecordUsage(apiKeyId: string, flag: bool)

  datatype Handled = Handled(response: Response, effects: seq<Effect>)

  predicate Renders(h: Handled) {
    exists i | 0 <= i < |h.effects| :: h.effects[i].Render?
  }

  predicate RecordsUsage(h: Handled) {
    exists i | 0 <= i < |h.effects| :: h.effects[i].RecordUsage?
  }

  const FailureMessage: string := "Image generation failed"

  /**
   * The shared tail of both handlers: render, then either send the image and
   * schedule the usage record, or answer 500 with the error's message.
   */
  function Respond(p: Params, apiKeyId: string, render: Params -> RenderOutcome, phases: bool): (h: Handled)
    ensures |h.effects| >= 1 && h.effects[0] == Render(p)
    ensures render(p).Rendered? ==>
      && h.response == Image(render(p).result.data, SuccessHeaders(render(p).result, phases))
      && h.effects == [Render(p), RecordUsage(apiKeyId, false)]
    ensures render(p).Threw? ==>
      && h.response == Json(500, FailureBody(FailureMessage, render(p).message))
      && h.effects == [Render(p)]
    ensures RecordsUsage(h) <==> Status(h.response) == 200
  {
    match render(p)
    case Rendered(res) =>
      var h := Handled(Image(res.data, SuccessHeaders(res, phases)), [Render(p), RecordUsage(apiKeyId, false)]);
      assert h.effects[1].RecordUsage?;
      h
    case Threw(message) =>
      Handled(Json(500, FailureBody(FailureMessage, message)), [Render(p)])
  }

  /** `GET /v1/og` after authentication: `apiKeyId` is the key the middleware found. */
  function HandleGet(q: Pairs, apiKeyId: string, render: Params -> RenderOutcome): (h: Handled)
    ensures !Truthy(Get(q, "title")) ==>
      h.response == Json(400, ErrorBody(GetTitleError)) && h.effects == []
    ensures Truthy(Get(q, "title")) ==> h == Respond(GetParams(q).value, apiKeyId, render, true)
    ensures Renders(h) <==> Truthy(Get(q, "title"))
    ensures RecordsUsage(h) <==> Status(h.response) == 200
  {
    var p := GetParams(q);
    if p.None? then Handled(Json(400, ErrorBody(GetTitleError)), [])
    else
      var h := Respond(p.value, apiKeyId, render, true);
      assert h.effects[0].Render?;
      h
  }

  /** `POST /v1/og` after authentication, with the JSON body already parsed. */
  function HandlePost(b: PostBody, apiKeyId: string, render: Params -> RenderOutcome): (h: Handled)
    ensures !Truthy(b.title) ==>
      h.response == Json(400, ErrorBody(PostTitleError)) && h.effects == []
    ensures Truthy(b.title) ==> h == Respond(PostParams(b).value, apiKeyId, render, false)
    ensures Renders(h) <==> Truthy(b.title)
    ensures RecordsUsage(h) <==> Status(h.response) == 200
  {
    var p := PostParams(b);
    if p.None? then Handled(Json(400, ErrorBody(PostTitleError)), [])
    else
      var h := Respond(p.value, apiKeyId, render, false);
      assert h.effects[0].Render?;
      h
  }

  /** A rejected request renders nothing and records no usage. */
  lemma {:induction false} RejectedHasNoEffects(q: Pairs, b: PostBody, apiKeyId: string, render: Params -> RenderOutcome)
    ensures Status(HandleGet(q, apiKeyId, render).response) == 400 ==>
      !Renders(HandleGet(q, apiKeyId, render)) && !RecordsUsage(HandleGet(q, apiKeyId, render))
    ensures Status(HandlePost(b, apiKeyId, render).response) == 400 ==>
      !Renders(HandlePost(b, apiKeyId, render)) && !RecordsUsage(HandlePost(b, apiKeyId, render))
  {
    var p := GetParams(q);
    if p.Some? {
      var h := Respond(p.value, apiKeyId, render, true);
      assert Status(h.response) != 400;
    }
    var p' := PostParams(b);
    if p'.Some? {
      var h := Respond(p'.value, apiKeyId, render, false);
      assert Status(h.response) != 400;
    }
  }

  const TemplatesDocs: string := "https://shotog.com/docs/templates"

  /** `GET /v1/og/templates`. */
  function ListTemplatesRoute(): (r: Response)
    ensures r.Json? && r.status == 200 && r.body.TemplatesBody?
    ensures r.body.templates ==
      ["basic", "blog", "product", "social", "event", "changelog", "testimonial", "announcement"]
    ensures forall i | 0 <= i < |r.body.templates| ::
      Templates.NameOf(Templates.Resolve(r.body.templates[i])) == r.body.templates[i]
    ensures r.body.docs == TemplatesDocs
  {
    Templates.ListedNames();
    Json(200, TemplatesBody(Templates.ListTemplates(), TemplatesDocs))
  }
}
