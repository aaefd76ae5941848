# shotog in Dafny

A model of the pure core of shotog, an Open Graph image service. The model covers:

- the `/v1/og` GET and POST handlers, which turn a query string or a JSON body into image parameters and answer with an image or an error;
- the custom-font validation in `fetchCustomFont` and the default Inter fonts;
- the template registry and three of its templates (event, changelog, announcement), as layout trees;
- the client SDK's URL builder, its base-URL normalisation and the key check `usage()` makes before any request.

Everything is modelled as immutable datatypes and pure functions. The renderer, the font fetch and the cache are parameters. The side effects a handler has (calling the renderer, scheduling the usage record) are returned as an ordered effect log next to the response.

Modules, one per concern of the source:

| module | file | models |
|---|---|---|
| `Js` | js.dfy | truthiness, `a \|\| b` defaults, UTF-16 `.length`, `charAt(0)`, ASCII `toUpperCase` |
| `JsNumber` | js_number.dfy | numbers with NaN, `Math.min`/`Math.max`, `String(n)`, global `parseInt` (section 19.2.5 of ECMA-262) |
| `SearchParams` | search_params.dfy | `URLSearchParams.set`, first-value lookup `query(name)`, `toString` with encoding left abstract |
| `OgTypes` | og_types.dfy | `OGImageParams` |
| `Layout` | layout.dfy | layout-tree nodes, `filter(Boolean)`, the texts of a tree in reading order |
| `Fonts` | fonts.dfy | `src/lib/fonts.ts` |
| `EventTemplate`, `ChangelogTemplate`, `AnnouncementTemplate` | template_*.dfy | `src/templates/{event,changelog,announcement}.ts` |
| `Templates` | templates.dfy | `src/templates/index.ts` |
| `OgRoute` | og_route.dfy | `src/routes/og.ts` |
| `Sdk` | sdk.dfy | `sdk/src/index.ts` |
| `SdkRoundTrip` | sdk_round_trip.dfy | the SDK's `url()` read back by the GET handler |

The GET handler parses `width` and `height` with `parseInt` and clamps with `Math.min(Math.max(…))`, so a non-numeric dimension stays NaN. The model keeps that: `parseInt` is modelled in full (white space, sign, `0x` prefix, longest digit prefix, NaN when there is no digit), and the clamp propagates NaN. Finite numbers are unbounded integers. JavaScript would round very long digit strings to a double, but that rounding is monotone and every bound compared against (200, 1260, 2400, 5 MiB) is an exact double, so every comparison and clamp gives the same answer.

## Model

| member | source | states |
|---|---|---|
| OgRoute.ClampDimension | src/routes/og.ts:54-55 | the clamped value is NaN exactly when the input is, otherwise lies in [200, hi]; in-range values are unchanged, values below go to 200 and values above go to hi |
| OgRoute.ClampIdempotent | src/routes/og.ts:54-55 | clamping twice gives the same as clamping once |
| OgRoute.GetParams | src/routes/og.ts:29-55 | the GET parameters exist exactly when the title is truthy; template defaults to "basic" and format to "png" when falsy; the text, colour, picture and font fields are the query's values unchanged; finite dimensions lie in the clamp range; an absent width or height gives 1200 or 630 |
| OgRoute.DefaultDimensions | src/routes/og.ts:49-50 | `parseInt("1200")` is 1200 and `parseInt("630")` is 630 |
| OgRoute.GetWidthOfDecimal | src/routes/og.ts:49-54 | a width sent as the decimal text of an integer is read back as that integer, clamped |
| OgRoute.GetHeightOfDecimal | src/routes/og.ts:50-55 | the same for the height |
| OgRoute.PostParams | src/routes/og.ts:93-113 | the POST parameters exist exactly when the body's title is truthy; the same defaults and pass-through as GET; a falsy (absent or 0) width or height becomes 1200 or 630; in-range values are kept; a value above the bound becomes the bound (2400 or 1260) and a non-zero value below 200, negative ones included, becomes 200 |
| OgRoute.ZeroWidthDiffers | src/routes/og.ts:49-113 | a width of 0 becomes 200 over GET but 1200 over POST |
| OgRoute.HeaderNameInjective | src/routes/og.ts:64-75 | distinct header keys have distinct header names |
| OgRoute.SuccessHeaders | src/routes/og.ts:64-75 | a success response carries the render's content type, `public, max-age=86400`, `*` as allowed origin and the total render time; the SVG and PNG times exactly on GET; `X-Font-Fallback: true` exactly when the render fell back |
| OgRoute.BaseHeaders | src/routes/og.ts:122-127 | the POST header set is exactly content type, cache policy, render time and allowed origin, with their values |
| OgRoute.WithPhases | src/routes/og.ts:64-71 | adding the phase timings keeps every other header and adds exactly the SVG and PNG times |
| OgRoute.TimingHeadersParse | src/routes/og.ts:67-69 | each timing header parses back to the millisecond count it was written from |
| OgRoute.Respond | src/routes/og.ts:57-83 | the renderer is called first; a successful render gives the image with its headers and then schedules the usage record; a throwing render gives 500 with "Image generation failed" and the error's message and records nothing; usage is recorded exactly on 200 |
| OgRoute.HandleGet | src/routes/og.ts:28-84 | a falsy title gives 400 "title parameter is required" with no effects; otherwise the shared tail runs on the GET parameters; the renderer runs exactly when the title is truthy |
| OgRoute.HandlePost | src/routes/og.ts:90-140 | the same for POST with "title is required" and the POST parameters |
| OgRoute.RejectedHasNoEffects | src/routes/og.ts:30-95 | a 400 answer from either handler renders nothing and records no usage |
| OgRoute.ListTemplatesRoute | src/routes/og.ts:145-150 | the listing route answers 200 with the eight template names in declaration order, each resolving to its own template, and the docs link |
| Fonts.DetectFontFormat | src/lib/fonts.ts:41-53 | fewer than 4 bytes give no format; "ttf" exactly when the first four bytes are 00 01 00 00; "otf" exactly when they are 4F 54 54 4F |
| Fonts.DetectDependsOnlyOnTag | src/lib/fonts.ts:43-52 | two buffers that agree on their first four bytes get the same format |
| Fonts.Slice | src/lib/fonts.ts:7 | `ArrayBuffer.slice` with in-range bounds is exactly that range of bytes |
| Fonts.EnsureArrayBuffer | src/lib/fonts.ts:4-10 | a buffer is returned as is; a view gives at most its length in bytes |
| Fonts.EnsureArrayBufferOfView | src/lib/fonts.ts:6-8 | for a view inside its buffer, the result is exactly the bytes from byteOffset to byteOffset + byteLength |
| Fonts.GetFonts | src/lib/fonts.ts:20-35 | exactly two Inter faces, weight 400 then 700, both normal, over the two embedded files |
| Fonts.AcceptFetched | src/lib/fonts.ts:110-125 | a fetched body is accepted exactly when the status is ok, the declared length is not over 5 MiB, the body arrived, is at most 5 MiB and has a font format; the accepted bytes are the body |
| Fonts.FetchCustomFont | src/lib/fonts.ts:65-148 | a non-http(s) or unparsable URL gives null without fetching; a cached copy is used only when it has a font format; any result is one "Custom" face of weight 400, normal style, with valid font data; a fetched result is the fetched body, at most 5 MiB; a fetched reply gives a font exactly when `AcceptFetched` accepts it, so a failed fetch or a reply that is not ok gives null; the body is stored exactly when it was fetched and accepted and a context was given |
| Fonts.DeclaredTooLargeIgnoresBody | src/lib/fonts.ts:113-116 | a declared length over the limit gives null whatever the body would have been |
| Fonts.SizeLimitBoundary | src/lib/fonts.ts:118-121 | a valid font of exactly 5 MiB is accepted and one of 5 MiB plus one byte is rejected |
| Fonts.CorruptCacheRefetches | src/lib/fonts.ts:86-94 | a cached copy with no font format is ignored: the outcome is the one of a cache miss |
| Templates.Find | src/templates/index.ts:23 | a name is found exactly when some registry entry has it, and then that entry's template is returned |
| Templates.Resolve | src/templates/index.ts:23 | a listed name resolves to the template of that name; any other name resolves to basic |
| Templates.ListTemplates | src/templates/index.ts:27-29 | the listed names are the registry's keys in declaration order |
| Templates.RegistryNames | src/templates/index.ts:11-20 | each registry key names the template it maps to |
| Templates.ListedNames | src/templates/index.ts:11-20 | the listed names are basic, blog, product, social, event, changelog, testimonial, announcement |
| Templates.ListedNamesDistinct | src/templates/index.ts:11-20 | no name is listed twice, and every template is listed |
| Templates.ResolveNameOf | src/templates/index.ts:11-24 | every template's own name resolves back to it, so no listed name falls back |
| Templates.NameOfInjective | src/templates/index.ts:11-20 | distinct templates have distinct names |
| Templates.GetTemplate | src/templates/index.ts:22-25 | an unlisted template name draws the basic template; a listed unshown one draws that template |
| Templates.GetTemplateEvent | src/templates/index.ts:16-24 | "event" draws the event card |
| Templates.GetTemplateChangelog | src/templates/index.ts:17-24 | "changelog" draws the changelog card |
| Templates.GetTemplateAnnouncement | src/templates/index.ts:19-24 | "announcement" draws the announcement card |
| Templates.Draw | src/templates/index.ts:22-25 | the template function a resolved name calls; what it draws for each shown template is stated by GetTemplateEvent, GetTemplateChangelog and GetTemplateAnnouncement, and the fallback by GetTemplate |
| EventTemplate.TitleColumn | src/templates/event.ts:83-110 | the title column is the title, then the subtitle exactly when it is truthy |
| EventTemplate.AuthorBlock | src/templates/event.ts:123-172 | the speaker block is an avatar with the upper-cased first character, then the name |
| EventTemplate.BottomRow | src/templates/event.ts:122-185 | the bottom row has two children: the speaker block when the author is truthy, otherwise an empty div; then the domain, defaulting to "shotog.com" |
| EventTemplate.ContentColumn | src/templates/event.ts:41-190 | the content column is the badge row, the title column and the bottom row, in that order |
| EventTemplate.RootStyle | src/templates/event.ts:14-24 | a 1200px × 630px canvas in the text colour over the 160° gradient from the background colour |
| EventTemplate.EventLayout | src/templates/event.ts:7-194 | fixed 1200 × 630 canvas; colours default to #0c0a1a, #8b5cf6, #ffffff; badge text defaults to "EVENT"; title size 46px exactly when the title is longer than 40 UTF-16 units, else 56px; one or two column rows by subtitle; bottom row as above |
| EventTemplate.ContentTexts | src/templates/event.ts:41-190 | the content column's texts in reading order |
| EventTemplate.EventTexts | src/templates/event.ts:7-194 | the card's texts in reading order: badge, title, subtitle when truthy, avatar letter and author when truthy, domain |
| EventTemplate.Event | src/templates/event.ts:7-194 | the event card; its canvas, defaults, sizes and children are stated by EventLayout and its texts by EventTexts |
| ChangelogTemplate.VersionBadge | src/templates/changelog.ts:42-70 | the badge is an accent dot then the eyebrow, defaulting to "Changelog" |
| ChangelogTemplate.TopRow | src/templates/changelog.ts:28-83 | the top row is the badge, then the domain, defaulting to "shotog.com" |
| ChangelogTemplate.TitleColumn | src/templates/changelog.ts:86-124 | the title column is the title, then the subtitle exactly when it is truthy |
| ChangelogTemplate.BottomRow | src/templates/changelog.ts:127-162 | the bottom row is the accent bar, then the author, defaulting to "Release Notes" |
| ChangelogTemplate.RootStyle | src/templates/changelog.ts:14-24 | a 1200px × 630px canvas in the background and text colours |
| ChangelogTemplate.ChangelogLayout | src/templates/changelog.ts:7-168 | fixed canvas; colours default to #09090b, #22c55e, #fafafa; exactly three rows (top, middle, bottom); title size 48px exactly when the title is longer than 40 UTF-16 units, else 60px; the defaults above |
| ChangelogTemplate.ChangelogTexts | src/templates/changelog.ts:7-168 | the card's texts in reading order: eyebrow, domain, title, subtitle when truthy, author |
| ChangelogTemplate.Changelog | src/templates/changelog.ts:7-168 | the changelog card; its canvas, defaults, sizes and rows are stated by ChangelogLayout and its texts by ChangelogTexts |
| AnnouncementTemplate.TopLine | src/templates/announcement.ts:30-42 | the top line is an empty bar with the accent gradient |
| AnnouncementTemplate.BottomLine | src/templates/announcement.ts:114-126 | the bottom line is an empty bar with the same accent gradient |
| AnnouncementTemplate.TitleLabelSize | src/templates/announcement.ts:66-80 | the title label shows the title at 52px exactly when it is longer than 30 UTF-16 units, else 64px |
| AnnouncementTemplate.RootStyle | src/templates/announcement.ts:14-26 | a 1200px × 630px canvas in the background and text colours |
| AnnouncementTemplate.FilterFrame | src/templates/announcement.ts:27-128 | `filter(Boolean)` over the six slots keeps the top line, the badge when there is one, the title, the subtitle when there is one, the domain and the bottom line |
| AnnouncementTemplate.FrameIndexes | src/templates/announcement.ts:27-128 | where each kept slot lands in the filtered children |
| AnnouncementTemplate.FrameTexts | src/templates/announcement.ts:27-128 | the filtered children's texts in slot order |
| AnnouncementTemplate.AnnouncementCanvas | src/templates/announcement.ts:8-26 | fixed 1200 × 630 canvas; colours default to #000000 and #ffffff |
| AnnouncementTemplate.AnnouncementLayout | src/templates/announcement.ts:27-80 | 4 + [eyebrow truthy] + [subtitle truthy] children; the badge, when present, shows the eyebrow with no default; then the title at its size |
| AnnouncementTemplate.AnnouncementTail | src/templates/announcement.ts:82-112 | after the title comes the subtitle when truthy; the second-to-last child is the domain, defaulting to "shotog.com" |
| AnnouncementTemplate.AnnouncementLines | src/templates/announcement.ts:30-126 | the first and last children carry the same gradient of the accent, defaulting to #3b82f6 |
| AnnouncementTemplate.AnnouncementTexts | src/templates/announcement.ts:7-131 | the card's texts in reading order: eyebrow when truthy, title, subtitle when truthy, domain |
| AnnouncementTemplate.Announcement | src/templates/announcement.ts:7-131 | the announcement card; its canvas, children, gradient lines and texts are stated by AnnouncementCanvas, AnnouncementLayout, AnnouncementTail, AnnouncementLines and AnnouncementTexts |
| Sdk.StripTrailingSlash | sdk/src/index.ts:82 | the result is the input, or the input is the result plus one slash; it is unchanged exactly when the input does not end in a slash |
| Sdk.StripOneSlashOnly | sdk/src/index.ts:82 | a base ending in two slashes keeps one |
| Sdk.NormalizeBase | sdk/src/index.ts:74-82 | a falsy base gives the built-in default; otherwise the base without one trailing slash |
| Sdk.KeyNameInjective | sdk/src/index.ts:91-103 | the query parameters `url()` sets have distinct names |
| Sdk.ApplyAppends | sdk/src/index.ts:90-103 | when no step sets a name already in the query, every `set` appends, so the steps yield exactly the kept pairs after the start |
| Sdk.GetKept | sdk/src/index.ts:91-103 | looking up a step's name finds its value when the step is present and nothing otherwise |
| Sdk.KeptDistinct | sdk/src/index.ts:91-103 | the kept pairs have distinct names |
| Sdk.KeptNamesSubsequence | sdk/src/index.ts:91-103 | the kept names are the step names with the absent ones left out |
| Sdk.QueryOrderListed | sdk/src/index.ts:91-103 | the order is title, template, subtitle, eyebrow, author, domain, bgColor, textColor, accentColor, format, width, height, api_key |
| Sdk.EntriesOrder | sdk/src/index.ts:91-103 | the steps set the parameters of that order, one each, in that order |
| Sdk.UrlQuery | sdk/src/index.ts:90-103 | the pairs `url()` serialises after the base and `/v1/og?` (`Url`); what they are is stated by UrlQueryKept, UrlQueryShape, UrlQueryAt, UrlQueryTitle, UrlQueryTexts, UrlQueryStyle, UrlQueryDimensions and UrlQueryOmits |
| Sdk.UrlQueryKept | sdk/src/index.ts:90-103 | the query is exactly the pairs of the set steps, in order |
| Sdk.UrlQueryShape | sdk/src/index.ts:90-103 | the names are a subsequence of the fixed order with no duplicates; title is the first pair; a truthy API key is the last pair |
| Sdk.UrlQueryAt | sdk/src/index.ts:91-103 | each parameter's value in the query is its step's value when set, nothing otherwise |
| Sdk.UrlQueryTitle | sdk/src/index.ts:91-92 | title is always in the query; template exactly when truthy |
| Sdk.UrlQueryTexts | sdk/src/index.ts:93-96 | subtitle, eyebrow, author, domain are in the query exactly when truthy |
| Sdk.UrlQueryStyle | sdk/src/index.ts:97-103 | the colours, format and api_key are in the query exactly when truthy |
| Sdk.UrlQueryDimensions | sdk/src/index.ts:101-102 | width and height are in the query as `String(n)` exactly when given and non-zero, so 0 is left out |
| Sdk.UrlQueryOmits | sdk/src/index.ts:90-103 | a name no step sets is never in the query |
| Sdk.Usage | sdk/src/index.ts:148-153 | without a truthy key `usage()` fails with "API key required for usage stats" before any request; otherwise it requests the usage endpoint with the key |
| Sdk.CreateKeyUrl | sdk/src/index.ts:170-171 | `createKey` posts to the base normalised as the constructor does, or the default, plus `/v1/keys` |
| SdkRoundTrip.WidthRoundTrip | sdk/src/index.ts:101 | a width the SDK sends is read back by the GET handler clamped; one it leaves out is read back as 1200 |
| SdkRoundTrip.HeightRoundTrip | sdk/src/index.ts:102 | the same for the height, with 630 |
| SdkRoundTrip.TextsRoundTrip | sdk/src/index.ts:91-100 | the handler reads back the title, template or "basic", format or "png", and the truthy texts |
| SdkRoundTrip.ColorsRoundTrip | sdk/src/index.ts:97-99 | the handler reads back the truthy colours |
| SdkRoundTrip.PicturesRoundTrip | src/routes/og.ts:40-41 | the SDK has no avatar or logo option, so the handler sees neither |
| SdkRoundTrip.FontsRoundTrip | src/routes/og.ts:43-44 | the SDK has no font option, so the handler sees no custom font |
| SdkRoundTrip.UrlRoundTrip | sdk/src/index.ts:89-104 | with a non-empty title the GET handler reads the SDK's query back as exactly the parameters the options describe; with an empty one it reads nothing and answers 400 without rendering |
| SearchParams.Get | src/routes/og.ts:29 | the lookup finds nothing exactly when no pair has the name; what it finds is a pair of the list |
| SearchParams.Set | sdk/src/index.ts:91-103 | after `set` the name has the new value and every other name its old value; a new name is appended at the end |
| SearchParams.RemoveAll | sdk/src/index.ts:91-103 | removing a name's pairs leaves every other name's lookup unchanged |
| SearchParams.Serialize | sdk/src/index.ts:104 | `toString()`: each pair as `name=value` through the encoding, joined by `&`; SerializeAppend states how it splits |
| SearchParams.SerializeAppend | sdk/src/index.ts:104 | the serialisation of two non-empty runs of pairs is the two serialisations joined by one `&` |
| JsNumber.ParseIntOfNumberToString | src/routes/og.ts:49-50 | `parseInt(String(n))` is n for every safe integer |
| JsNumber.ParseIntLeadingDigit | src/routes/og.ts:49-50 | text starting with a non-zero digit parses to a positive number |
| JsNumber.ParseIntNeedsADigit | src/lib/fonts.ts:114 | `parseInt` gives NaN unless the text holds a decimal digit (a hexadecimal number holds the "0" of its "0x" prefix), so text such as "abc" gives NaN |
| JsNumber.TrimStart | src/routes/og.ts:49-50 | the trimmed text is a suffix of the input that starts with no white space, and everything dropped is white space |
| JsNumber.ParseInt | src/routes/og.ts:49-50 | global `parseInt` (section 19.2.5 of ECMA-262) with radix 10 or a `0x` prefix; its facts are stated by ParseIntOfNumberToString, ParseIntLeadingDigit, ParseIntNeedsADigit, DefaultDimensions and TimingHeadersParse |
| JsNumber.NumberToString | sdk/src/index.ts:101-102 | `String(n)` of a safe integer is non-empty, starts with a minus sign exactly when n is negative and is all digits otherwise; ParseIntOfNumberToString reads it back as n |
| JsNumber.Max | src/routes/og.ts:54-55 | `Math.max` is NaN exactly when an operand is; otherwise it is one of the operands and not less than either |
| JsNumber.Min | src/routes/og.ts:54-55 | `Math.min` is NaN exactly when an operand is; otherwise it is one of the operands and not greater than either |
| Js.Or | src/routes/og.ts:35 | `a \|\| b` on strings: the value when truthy, the fallback otherwise |
| Js.OrInt | src/routes/og.ts:112-113 | `n \|\| fallback` on numbers: the value when it is given and non-zero, the fallback otherwise; a non-zero fallback never gives 0 |
| Js.ToUpperCase | src/templates/event.ts:147 | upper-casing keeps the length and maps each character |
| Js.FirstChar | src/templates/event.ts:147 | `charAt(0)` is empty exactly when the text is, and otherwise the text's first character |
| Js.Utf16Length | src/templates/event.ts:88 | `.length` counts UTF-16 units: between the number of characters and twice that, and equal to it when every character is in the Basic Multilingual Plane |
| Layout.PresentAppend | src/templates/announcement.ts:128 | `filter(Boolean)` distributes over concatenation |
| Layout.PresentMembers | src/templates/announcement.ts:128 | `filter(Boolean)` keeps exactly the present slots |
| Layout.Present | src/templates/announcement.ts:128 | `filter(Boolean)` keeps as many nodes as there are present slots, never more than the slots; PresentMembers and PresentAppend state which ones |
| Layout.TextsOfAppend | src/templates/announcement.ts:27-128 | the texts of two runs of children are the texts of each, concatenated |

## Left out

- `src/lib/render.ts` (the layout engine, the rasteriser, the timing clock, the image prefetch) is not part of this model: rendering is the `render` parameter of the handlers, returning a result or a thrown message.
- The auth, usage-limit and cache middleware are not part of this model; the handlers start after them, with the key id they found as a parameter. What `recordUsage` writes is not modelled, only that it is scheduled.
- The font cache, `fetch`, the 5-second `AbortController` timeout and `waitUntil` are I/O: their outcomes (a cache hit or miss, a fetch reply or failure, whether a context exists) are parameters of `FetchCustomFont`, and the store is returned as a value. A cache read that throws is a `CacheRead` value of its own and falls through to the fetch, as in the source.
- URL parsing in `fetchCustomFont` is a parameter: the parsed protocol, or none when `new URL` throws.
- The cache key built with `encodeURIComponent` and the cache TTL only matter to the cache, which is not modelled.
- Percent-encoding in `URLSearchParams.toString` is the `encode` parameter of `Url`; the query is modelled as decoded name/value pairs.
- The SDK's network calls (`generate`, `templates`, the request part of `usage`, `createKey`) are not modelled beyond the URL and the key check.
- The basic, blog, product, social and testimonial templates are not part of this model; `GetTemplate` takes them as a function parameter.
- Templates.Resolve: the registry is a finite map, so a template name such as "constructor" that would find an `Object.prototype` member in JavaScript falls back to basic here.
- Js.ToUpperCase: only ASCII letters are upper-cased; Unicode case mappings (which can change the length) are not modelled.
- Js.FirstChar: `charAt(0)` is modelled as the first character, which differs from JavaScript for characters outside the Basic Multilingual Plane (JavaScript returns half a surrogate pair).
- OgRoute.PostParams: the JSON body's fields are taken with the types the handler declares (strings, integer dimensions); a body with other JSON types, a non-integer width or a malformed body is not modelled.
- OgRoute.SuccessHeaders: render timings are integers of milliseconds, so `toString` of a fractional timing is not modelled.
- Fonts.EnsureArrayBuffer: the last branch, which passes anything that is neither a buffer nor a view through as a buffer, has no counterpart: the embedded font data is modelled as a buffer or a view.
- UrlQueryDimensions: the SDK's `width` and `height` are JavaScript numbers, modelled as safe integers; `String(n)` of a fractional number, of one of 1e21 or more (exponent form) or of a non-finite one is not modelled.
- WidthRoundTrip: holds for safe-integer widths only; a fractional width such as 300.5 would be sent as "300.5" and read back truncated to 300, and 1e21 would be sent as "1e+21" and read back as 1, then clamped to 200; these numbers are not modelled.
- HeightRoundTrip: the same safe-integer restriction as WidthRoundTrip, for the height.
- UrlRoundTrip: "exactly the parameters the options describe" holds for safe-integer dimensions only; fractional, exponent-form and non-finite dimensions are not modelled.
- Exponent forms and digit strings longer than a double holds exactly: `parseInt` works on unbounded integers, which agrees with JavaScript on every comparison the source makes.
- Styles are plain strings keyed by CSS property; layout semantics are not modelled.
