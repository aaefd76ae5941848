/**
 * The "changelog" template: a release-notes card with a top row of version
 * badge and domain, the title with an optional subtitle, and a bottom row
 * with an icon and the author label.
 */
module ChangelogTemplate {
  import opened Js
  import opened OgTypes
  import opened Layout

  const DefaultBg: string := "#09090b"
  const DefaultAccent: string := "#22c55e"
  const DefaultText: string := "#fafafa"
  const DefaultEyebrow: string := "Changelog"
  const DefaultAuthor: string := "Release Notes"

  /** Titles longer than this many UTF-16 code units get the smaller font. */
  const LongTitle: nat := 40

  function TitleFontSize(title: string): string {
    if Utf16Length(title) > LongTitle then "48px" else "60px"
  }

  /** The accent dot and the eyebrow label. */
  function VersionBadge(accent: string, eyebrow: Option<string>): (r: Node)
    ensures |Kids(r)| == 2
    ensures StyleIs(Kids(r)[0], Background, accent) && Kids(Kids(r)[0]) == []
    ensures TextOf(Kids(r)[1]) == Some(Or(eyebrow, DefaultEyebrow))
    ensures StyleIs(Kids(r)[1], Color, accent)
    ensures TextsOf(Kids(r)) == [Or(eyebrow, DefaultEyebrow)]
  {
    var dot := Box(map[
      Display := "flex",
      Width := "12px",
      Height := "12px",
      BorderRadius := "50%",
      Background := accent,
      MarginRight := "10px"
    ], []);
    var tag := Label(map[
      FontSize := "18px",
      FontWeight := "600",
      Color := accent
    ], Or(eyebrow, DefaultEyebrow));
    TextsOfCons(dot, [tag]);
    TextsOfOne(tag);
    assert [dot, tag] == [dot] + [tag];
    assert TextsOf([]) == [];
    Box(map[Display := "flex", AlignItems := "center"], [dot, tag])
  }

  /** The top row: the version badge, then the domain watermark. */
  function TopRow(p: Params, accent: string): (r: Node)
    ensures |Kids(r)| == 2
    ensures Kids(r)[0] == VersionBadge(accent, p.eyebrow)
    ensures TextOf(Kids(r)[1]) == Some(Or(p.domain, DefaultDomain))
    ensures TextsOf(Kids(r)) == [Or(p.eyebrow, DefaultEyebrow), Or(p.domain, DefaultDomain)]
  {
    var badge := VersionBadge(accent, p.eyebrow);
    var domain := Label(map[FontSize := "16px", Opacity := "0.4"], Or(p.domain, DefaultDomain));
    TextsOfCons(badge, [domain]);
    TextsOfOne(domain);
    assert [badge, domain] == [badge] + [domain];
    Box(map[
      Display := "flex",
      JustifyContent := "space-between",
      AlignItems := "center"
    ], [badge, domain])
  }

  function TitleLabel(title: string): Node {
    Label(map[
      FontSize := TitleFontSize(title),
      FontWeight := "700",
      LineHeight := "1.15",
      LetterSpacing := "-0.02em",
      MaxWidth := "900px"
    ], title)
  }

  function SubtitleLabel(subtitle: string): Node {
    Label(map[
      FontSize := "24px",
      MarginTop := "20px",
      Color := "#a1a1aa",
      LineHeight := "1.5",
      MaxWidth := "700px"
    ], subtitle)
  }

  /** The title column: the title, then the subtitle when one is given. */
  function TitleColumn(p: Params): (r: Node)
    ensures Kids(r) == [TitleLabel(p.title)] + Opt(When(Truthy(p.subtitle), SubtitleLabel(Or(p.subtitle, ""))))
    ensures TextsOf(Kids(r)) == [p.title] + (if Truthy(p.subtitle) then [p.subtitle.value] else [])
  {
    var title := TitleLabel(p.title);
    var subtitle := SubtitleLabel(Or(p.subtitle, ""));
    var kids := Present([Some(title), When(Truthy(p.subtitle), subtitle)]);
    assert kids == [title] + Opt(When(Truthy(p.subtitle), subtitle)) by {
      assert [Some(title), When(Truthy(p.subtitle), subtitle)]
          == [Some(title)] + [When(Truthy(p.subtitle), subtitle)];
      PresentAppend([Some(title)], [When(Truthy(p.subtitle), subtitle)]);
      PresentOne(Truthy(p.subtitle), subtitle);
      PresentOne(true, title);
    }
    TextsOfCons(title, Opt(When(Truthy(p.subtitle), subtitle)));
    TextsOfOne(subtitle);
    Box(map[Display := "flex", FlexDirection := "column"], kids)
  }

  /** The bottom row: the accent icon, then the author label. */
  function BottomRow(p: Params, accent: string): (r: Node)
    ensures |Kids(r)| == 2
    ensures StyleIs(Kids(r)[0], Background, "linear-gradient(135deg, " + accent + ", #16a34a)")
    ensures TextOf(Kids(r)[1]) == Some(Or(p.author, DefaultAuthor))
    ensures TextsOf(Kids(r)) == [Or(p.author, DefaultAuthor)]
  {
    var icon := Box(map[
      Display := "flex",
      Width := "32px",
      Height := "32px",
      BorderRadius := "6px",
      Background := "linear-gradient(135deg, " + accent + ", #16a34a)",
      MarginRight := "12px"
    ], []);
    var author := Label(map[
      FontSize := "16px",
      FontWeight := "600",
      Color := "#a1a1aa"
    ], Or(p.author, DefaultAuthor));
    TextsOfCons(icon, [author]);
    TextsOfOne(author);
    assert [icon, author] == [icon] + [author];
    assert TextsOf([]) == [];
    Box(map[
      Display := "flex",
      AlignItems := "center",
      BorderTop := "1px solid #27272a",
      PaddingTop := "24px"
    ], [icon, author])
  }

  function RootStyle(bg: string, text: string): (s: Style)
    ensures Width in s && s[Width] == "1200px" && Height in s && s[Height] == "630px"
    ensures Color in s && s[Color] == text
    ensures Background in s && s[Background] == bg
  {
    map[
      Display := "flex",
      FlexDirection := "column",
      Width := "1200px",
      Height := "630px",
      Background := bg,
      FontFamily := "Inter",
      Color := text,
      Padding := "60px 80px",
      JustifyContent := "space-between"
    ]
  }

  /** The layout tree of the changelog card for the given parameters. */
  function Changelog(p: Params): Node {
    var accent := Or(p.accentColor, DefaultAccent);
    Box(RootStyle(Or(p.bgColor, DefaultBg), Or(p.textColor, DefaultText)),
        [TopRow(p, accent), TitleColumn(p), BottomRow(p, accent)])
  }

  /** The card's canvas and structure. */
  lemma ChangelogLayout(p: Params)
    ensures StyleIs(Changelog(p), Width, "1200px") && StyleIs(Changelog(p), Height, "630px")
    ensures StyleIs(Changelog(p), Background, Or(p.bgColor, DefaultBg))
    ensures StyleIs(Changelog(p), Color, Or(p.textColor, DefaultText))
    // exactly three rows: top row, title column, bottom row
    ensures |Kids(Changelog(p))| == 3
    ensures var top := Kids(Kids(Changelog(p))[0]);
      && |top| == 2 && |Kids(top[0])| == 2
      && TextOf(Kids(top[0])[1]) == Some(Or(p.eyebrow, DefaultEyebrow))
      && StyleIs(Kids(top[0])[0], Background, Or(p.accentColor, DefaultAccent))
      && TextOf(top[1]) == Some(Or(p.domain, DefaultDomain))
    ensures var column := Kids(Kids(Changelog(p))[1]);
      && |column| == (if Truthy(p.subtitle) then 2 else 1)
      && TextOf(column[0]) == Some(p.title)
      && StyleIs(column[0], FontSize, if Utf16Length(p.title) > 40 then "48px" else "60px")
      && (Truthy(p.subtitle) ==> TextOf(column[1]) == p.subtitle)
    ensures var bottom := Kids(Kids(Changelog(p))[2]);
      |bottom| == 2 && TextOf(bottom[1]) == Some(Or(p.author, DefaultAuthor))
  {
  }

  /** The card's texts in reading order: eyebrow, domain, title, subtitle, author. */
  lemma ChangelogTexts(p: Params)
    ensures Texts(Changelog(p)) ==
      [Or(p.eyebrow, DefaultEyebrow), Or(p.domain, DefaultDomain)]
      + ([p.title]
      + ((if Truthy(p.subtitle) then [p.subtitle.value] else [])
      + [Or(p.author, DefaultAuthor)]))
  {
    var accent := Or(p.accentColor, DefaultAccent);
    var top := TopRow(p, accent);
    var column := TitleColumn(p);
    var bottom := BottomRow(p, accent);
    TextsOfOne(bottom);
    TextsOfCons(column, [bottom]);
    assert [column, bottom] == [column] + [bottom];
    TextsOfCons(top, [column, bottom]);
    assert [top, column, bottom] == [top] + [column, bottom];
  }
}
