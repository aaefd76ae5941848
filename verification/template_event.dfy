/**
 * The "event" template: a conference/meetup card with a gradient top line,
 * an eyebrow badge, the title with an optional subtitle, and a bottom row
 * with an optional speaker block and the domain watermark.
 */
module EventTemplate {
  import opened Js
  import opened OgTypes
  import opened Layout

  const DefaultBg: string := "#0c0a1a"
  const DefaultAccent: string := "#8b5cf6"
  const DefaultText: string := "#ffffff"
  const DefaultEyebrow: string := "EVENT"

  /** Titles longer than this many UTF-16 code units get the smaller font. */
  const LongTitle: nat := 40

  function TitleFontSize(title: string): string {
    if Utf16Length(title) > LongTitle then "46px" else "56px"
  }

  function TopLine(accent: string): Node {
    Box(map[
      Display := "flex",
      Height := "4px",
      Background := "linear-gradient(90deg, " + accent + ", #ec4899, " + accent + ")"
    ], [])
  }

  function Badge(accent: string, eyebrow: Option<string>): Node {
    Label(map[
      Display := "flex",
      Padding := "8px 20px",
      BorderRadius := "24px",
      Border := "1px solid " + accent,
      Background := accent + "20",
      FontSize := "16px",
      FontWeight := "600",
      Color := accent
    ], Or(eyebrow, DefaultEyebrow))
  }

  function TitleLabel(title: string): Node {
    Label(map[
      FontSize := TitleFontSize(title),
      FontWeight := "700",
      LineHeight := "1.15",
      MaxWidth := "900px"
    ], title)
  }

  function SubtitleLabel(subtitle: string): Node {
    Label(map[
      FontSize := "22px",
      MarginTop := "16px",
      Opacity := "0.6",
      LineHeight := "1.4"
    ], subtitle)
  }

  /** The title column: the title, then the subtitle when one is given. */
  function TitleColumn(p: Params): (r: Node)
    ensures Kids(r) == [TitleLabel(p.title)] + Opt(When(Truthy(p.subtitle), SubtitleLabel(Or(p.subtitle, ""))))
    ensures TextsOf(Kids(r)) == [p.title] + (if Truthy(p.subtitle) then [p.subtitle.value] else [])
  {
    var title := TitleLabel(p.title);
    var subtitle := SubtitleLabel(Or(p.subtitle, ""));
    var kids := Present([Some(title), When(Truthy(p.subtitle), subtitle)]);
    assert kids == [title] + Opt(When(Truthy(p.subtitle), subtitle)) by {
      assert [Some(title), When(Truthy(p.subtitle), subtitle)]
          == [Some(title)] + [When(Truthy(p.subtitle), subtitle)];
      PresentAppend([Some(title)], [When(Truthy(p.subtitle), subtitle)]);
      PresentOne(Truthy(p.subtitle), subtitle);
      PresentOne(true, title);
    }
    TextsOfCons(title, Opt(When(Truthy(p.subtitle), subtitle)));
    TextsOfOne(subtitle);
    Box(map[Display := "flex", FlexDirection := "column"], kids)
  }

  /** The speaker's initial on an accent-coloured disc. */
  function Avatar(accent: string, author: string): Node {
    Label(map[
      Display := "flex",
      Width := "44px",
      Height := "44px",
      BorderRadius := "50%",
      Background := "linear-gradient(135deg, " + accent + ", #ec4899)",
      AlignItems := "center",
      JustifyContent := "center",
      FontSize := "18px",
      FontWeight := "700",
      MarginRight := "14px"
    ], ToUpperCase(FirstChar(author)))
  }

  /** The speaker block: the initial disc, then the name column. */
  function AuthorBlock(accent: string, author: string): (r: Node)
    requires |author| > 0
    ensures |Kids(r)| == 2 && TextOf(Kids(r)[0]) == Some(ToUpperCase(author[..1]))
    ensures Texts(r) == [ToUpperCase(author[..1]), author]
  {
    var name := Label(map[FontSize := "18px", FontWeight := "600"], author);
    var column := Box(map[Display := "flex", FlexDirection := "column"], [name]);
    var avatar := Avatar(accent, author);
    assert FirstChar(author) == author[..1];
    TextsOfOne(name);
    TextsOfOne(column);
    TextsOfCons(avatar, [column]);
    assert [avatar, column] == [avatar] + [column];
    Box(map[Display := "flex", AlignItems := "center"], [avatar, column])
  }

  /** The empty `div` that keeps the domain right-aligned when there is no speaker. */
  const Placeholder: Node := Node("div", map[], Nodes([]))

  function DomainLabel(domain: Option<string>): Node {
    Label(map[FontSize := "16px", Opacity := "0.4"], Or(domain, DefaultDomain))
  }

  /** The bottom row: the speaker block or a placeholder, then the domain. */
  function BottomRow(p: Params, accent: string): (r: Node)
    ensures |Kids(r)| == 2
    ensures Kids(r)[0] == if Truthy(p.author) then AuthorBlock(accent, p.author.value) else Placeholder
    ensures TextOf(Kids(r)[1]) == Some(Or(p.domain, DefaultDomain))
    ensures TextsOf(Kids(r)) ==
      (if Truthy(p.author) then [ToUpperCase(p.author.value[..1]), p.author.value] else [])
      + [Or(p.domain, DefaultDomain)]
  {
    var speaker := if Truthy(p.author) then AuthorBlock(accent, p.author.value) else Placeholder;
    var domain := DomainLabel(p.domain);
    TextsOfOne(domain);
    TextsOfCons(speaker, [domain]);
    assert [speaker, domain] == [speaker] + [domain];
    Box(map[
      Display := "flex",
      JustifyContent := "space-between",
      AlignItems := "center"
    ], [speaker, domain])
  }

  /** The outer column holding the badge row, the title column and the bottom row. */
  function ContentColumn(p: Params, accent: string): (r: Node)
    ensures Kids(r) == [Box(map[Display := "flex"], [Badge(accent, p.eyebrow)]), TitleColumn(p), BottomRow(p, accent)]
  {
    Box(map[
      Display := "flex",
      FlexDirection := "column",
      Padding := "60px 80px",
      Flex := "1",
      JustifyContent := "space-between"
    ], [
      Box(map[Display := "flex"], [Badge(accent, p.eyebrow)]),
      TitleColumn(p),
      BottomRow(p, accent)
    ])
  }

  function RootStyle(bg: string, text: string): (s: Style)
    ensures Width in s && s[Width] == "1200px" && Height in s && s[Height] == "630px"
    ensures Color in s && s[Color] == text
    ensures Background in s && s[Background] == "linear-gradient(160deg, " + bg + " 0%, #1e1036 100%)"
  {
    map[
      Display := "flex",
      FlexDirection := "column",
      Width := "1200px",
      Height := "630px",
      Background := "linear-gradient(160deg, " + bg + " 0%, #1e1036 100%)",
      FontFamily := "Inter",
      Color := text,
      Position := "relative"
    ]
  }

  /** The layout tree of the event card for the given parameters. */
  function Event(p: Params): Node {
    var accent := Or(p.accentColor, DefaultAccent);
    Box(RootStyle(Or(p.bgColor, DefaultBg), Or(p.textColor, DefaultText)),
        [TopLine(accent), ContentColumn(p, accent)])
  }

  /** The card's canvas and structure. */
  lemma EventLayout(p: Params)
    // a fixed 1200 x 630 canvas, whatever the requested dimensions
    ensures StyleIs(Event(p), Width, "1200px") && StyleIs(Event(p), Height, "630px")
    ensures StyleIs(Event(p), Color, Or(p.textColor, DefaultText))
    ensures StyleIs(Event(p), Background, "linear-gradient(160deg, " + Or(p.bgColor, DefaultBg) + " 0%, #1e1036 100%)")
    // a top line, then the content column of badge row, title column and bottom row
    ensures |Kids(Event(p))| == 2 && Kids(Kids(Event(p))[0]) == [] && |Kids(Kids(Event(p))[1])| == 3
    ensures var badge := Kids(Kids(Kids(Event(p))[1])[0]);
      |badge| == 1 && TextOf(badge[0]) == Some(Or(p.eyebrow, DefaultEyebrow))
      && StyleIs(badge[0], Color, Or(p.accentColor, DefaultAccent))
    ensures var column := Kids(Kids(Kids(Event(p))[1])[1]);
      && |column| == (if Truthy(p.subtitle) then 2 else 1)
      && TextOf(column[0]) == Some(p.title)
      && StyleIs(column[0], FontSize, if Utf16Length(p.title) > 40 then "46px" else "56px")
      && (Truthy(p.subtitle) ==> TextOf(column[1]) == p.subtitle)
    ensures var bottom := Kids(Kids(Kids(Event(p))[1])[2]);
      && |bottom| == 2
      && TextOf(bottom[1]) == Some(Or(p.domain, DefaultDomain))
      && (Truthy(p.author) ==>
            |Kids(bottom[0])| == 2
            && TextOf(Kids(bottom[0])[0]) == Some(ToUpperCase(p.author.value[..1])))
      && (!Truthy(p.author) ==> bottom[0] == Node("div", map[], Nodes([])))
  {
  }

  /** The content column's texts: badge, title, subtitle, speaker, domain. */
  lemma ContentTexts(p: Params, accent: string)
    ensures TextsOf(Kids(ContentColumn(p, accent))) ==
      [Or(p.eyebrow, DefaultEyebrow)]
      + (([p.title] + (if Truthy(p.subtitle) then [p.subtitle.value] else []))
      + ((if Truthy(p.author) then [ToUpperCase(p.author.value[..1]), p.author.value] else [])
      + [Or(p.domain, DefaultDomain)]))
  {
    var badgeRow := Box(map[Display := "flex"], [Badge(accent, p.eyebrow)]);
    var column := TitleColumn(p);
    var bottom := BottomRow(p, accent);
    TextsOfOne(Badge(accent, p.eyebrow));
    assert Texts(badgeRow) == [Or(p.eyebrow, DefaultEyebrow)];
    assert Texts(column) == [p.title] + (if Truthy(p.subtitle) then [p.subtitle.value] else []);
    TextsOfOne(bottom);
    TextsOfCons(column, [bottom]);
    assert [column, bottom] == [column] + [bottom];
    TextsOfCons(badgeRow, [column, bottom]);
    assert [badgeRow, column, bottom] == [badgeRow] + [column, bottom];
  }

  /** The card's texts in reading order: badge, title, subtitle, speaker, domain. */
  lemma EventTexts(p: Params)
    ensures Texts(Event(p)) ==
      [Or(p.eyebrow, DefaultEyebrow)]
      + (([p.title] + (if Truthy(p.subtitle) then [p.subtitle.value] else []))
      + ((if Truthy(p.author) then [ToUpperCase(p.author.value[..1]), p.author.value] else [])
      + [Or(p.domain, DefaultDomain)]))
  {
    var accent := Or(p.accentColor, DefaultAccent);
    var content := ContentColumn(p, accent);
    ContentTexts(p, accent);
    TextsOfOne(content);
    TextsOfCons(TopLine(accent), [content]);
    assert [TopLine(accent), content] == [TopLine(accent)] + [content];
  }
}
