/**
 * The SDK and the service together: the query string `url()` builds is read
 * back by the GET handler as the parameters the options describe. Options the
 * SDK drops (falsy texts, a zero or missing dimension) come back as the
 * handler's defaults, and the parameters the SDK has no option for (avatar,
 * logo, font, fontUrl) come back absent.
 */
module SdkRoundTrip {
  import opened Js
  import opened JsNumber
  import opened SearchParams
  import opened OgTypes
  import opened OgRoute
  import opened Sdk

  /** What a dimension option turns into on the service side. */
  function ReceivedDimension(n: Option<SafeInteger>, hi: int, default: int): Num
    requires MinDimension <= hi
  {
    if n.Some? && n.value != 0 then ClampDimension(Finite(n.value), hi) else Finite(default)
  }

  /** The parameters the service should see for the options `o`. */
  function Received(o: ImageOptions): Params {
    Params(
      template := Or(o.template, "basic"),
      title := o.title,
      subtitle := KeepTruthy(o.subtitle),
      eyebrow := KeepTruthy(o.eyebrow),
      author := KeepTruthy(o.author),
      avatar := None,
      logo := None,
      domain := KeepTruthy(o.domain),
      font := None,
      fontUrl := None,
      bgColor := KeepTruthy(o.bgColor),
      textColor := KeepTruthy(o.textColor),
      accentColor := KeepTruthy(o.accentColor),
      format := Or(o.format, "png"),
      width := ReceivedDimension(o.width, MaxWidth, DefaultWidth),
      height := ReceivedDimension(o.height, MaxHeight, DefaultHeight))
  }

  /** A dimension the SDK sends is read back clamped; one it leaves out is read back as the default. */
  lemma {:induction false} WidthRoundTrip(c: Client, o: ImageOptions)
    requires |o.title| > 0
    ensures GetParams(UrlQuery(c, o)).Some?
    ensures GetParams(UrlQuery(c, o)).value.width == ReceivedDimension(o.width, MaxWidth, DefaultWidth)
  {
    var q := UrlQuery(c, o);
    UrlQueryTitle(c, o);
    UrlQueryDimensions(c, o);
    if o.width.Some? && o.width.value != 0 {
      GetWidthOfDecimal(q, o.width.value);
    }
  }

  /** The height counterpart of `WidthRoundTrip`. */
  lemma {:induction false} HeightRoundTrip(c: Client, o: ImageOptions)
    requires |o.title| > 0
    ensures GetParams(UrlQuery(c, o)).Some?
    ensures GetParams(UrlQuery(c, o)).value.height == ReceivedDimension(o.height, MaxHeight, DefaultHeight)
  {
    var q := UrlQuery(c, o);
    UrlQueryTitle(c, o);
    UrlQueryDimensions(c, o);
    if o.height.Some? && o.height.value != 0 {
      GetHeightOfDecimal(q, o.height.value);
    }
  }

  /** The text parameters come back as the truthy options, the others as absent. */
  lemma {:induction false} TextsRoundTrip(c: Client, o: ImageOptions)
    requires |o.title| > 0
    ensures GetParams(UrlQuery(c, o)).Some?
    ensures var p := GetParams(UrlQuery(c, o)).value;
      && p.title == o.title
      && p.template == Or(o.template, "basic") && p.format == Or(o.format, "png")
      && p.subtitle == KeepTruthy(o.subtitle) && p.eyebrow == KeepTruthy(o.eyebrow)
      && p.author == KeepTruthy(o.author) && p.domain == KeepTruthy(o.domain)
  {
    UrlQueryTitle(c, o);
    UrlQueryStyle(c, o);
    UrlQueryTexts(c, o);
  }

  /** The colours come back as the truthy options. */
  lemma {:induction false} ColorsRoundTrip(c: Client, o: ImageOptions)
    requires |o.title| > 0
    ensures GetParams(UrlQuery(c, o)).Some?
    ensures var p := GetParams(UrlQuery(c, o)).value;
      && p.bgColor == KeepTruthy(o.bgColor) && p.textColor == KeepTruthy(o.textColor)
      && p.accentColor == KeepTruthy(o.accentColor)
  {
    UrlQueryTitle(c, o);
    UrlQueryStyle(c, o);
  }

  /** The SDK has no avatar or logo option: the service sees neither. */
  lemma {:induction false} PicturesRoundTrip(c: Client, o: ImageOptions)
    requires |o.title| > 0
    ensures GetParams(UrlQuery(c, o)).Some?
    ensures GetParams(UrlQuery(c, o)).value.avatar.None?
    ensures GetParams(UrlQuery(c, o)).value.logo.None?
  {
    UrlQueryTitle(c, o);
    NotAParameter("avatar");
    NotAParameter("logo");
    UrlQueryOmits(c, o, "avatar");
    UrlQueryOmits(c, o, "logo");
  }

  /** The SDK has no font option: the service sees no custom font. */
  lemma {:induction false} FontsRoundTrip(c: Client, o: ImageOptions)
    requires |o.title| > 0
    ensures GetParams(UrlQuery(c, o)).Some?
    ensures GetParams(UrlQuery(c, o)).value.font.None?
    ensures GetParams(UrlQuery(c, o)).value.fontUrl.None?
  {
    UrlQueryTitle(c, o);
    NotAParameter("font");
    NotAParameter("fontUrl");
    UrlQueryOmits(c, o, "font");
    UrlQueryOmits(c, o, "fontUrl");
  }

  /**
   * The round trip: with a non-empty title the handler reads the SDK's query
   * back as exactly the parameters the options describe; with an empty one it
   * reads nothing back and answers 400 without rendering.
   */
  lemma {:induction false} UrlRoundTrip(c: Client, o: ImageOptions, apiKeyId: string, render: Params -> RenderOutcome)
    ensures |o.title| > 0 ==> GetParams(UrlQuery(c, o)) == Some(Received(o))
    ensures |o.title| == 0 ==> GetParams(UrlQuery(c, o)).None?
    ensures |o.title| == 0 ==>
      HandleGet(UrlQuery(c, o), apiKeyId, render).response == Json(400, ErrorBody(GetTitleError))
  {
    UrlQueryTitle(c, o);
    if |o.title| > 0 {
      WidthRoundTrip(c, o);
      HeightRoundTrip(c, o);
      TextsRoundTrip(c, o);
      ColorsRoundTrip(c, o);
      PicturesRoundTrip(c, o);
      FontsRoundTrip(c, o);
    }
  }
}
