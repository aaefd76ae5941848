/**
 * The image request parameters (`OGImageParams`) the route handlers build
 * and the render step and templates consume. The declaring types file is not
 * part of this model; the fields are those the handlers fill in.
 */
module OgTypes {
  import opened Js
  import opened JsNumber

  datatype Params = Params(
    template: string,
    title: string,
    subtitle: Option<string>,
    eyebrow: Option<string>,
    author: Option<string>,
    avatar: Option<string>,
    logo: Option<string>,
    domain: Option<string>,
    font: Option<string>,
    fontUrl: Option<string>,
    bgColor: Option<string>,
    textColor: Option<string>,
    accentColor: Option<string>,
    format: string,
    width: Num,
    height: Num)

  /** The watermark every template shows when no domain is given. */
  const DefaultDomain: string := "shotog.com"
}
