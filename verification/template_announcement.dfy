/**
 * The "announcement" template: a bold centred card framed by two accent
 * lines, with an optional eyebrow badge, the title, an optional subtitle and
 * the domain watermark.
 */
module AnnouncementTemplate {
  import opened Js
  import opened OgTypes
  import opened Layout

  const DefaultBg: string := "#000000"
  const DefaultAccent: string := "#3b82f6"
  const DefaultText: string := "#ffffff"

  /** Titles longer than this many UTF-16 code units get the smaller font. */
  const LongTitle: nat := 30

  function TitleFontSize(title: string): string {
    if Utf16Length(title) > LongTitle then "52px" else "64px"
  }

  /** The gradient both framing lines are painted with. */
  function LineGradient(accent: string): string {
    "linear-gradient(90deg, transparent, " + accent + ", transparent)"
  }

  function TopLine(accent: string): (r: Node)
    ensures StyleIs(r, Background, LineGradient(accent)) && Kids(r) == [] && Texts(r) == []
  {
    Box(map[
      Display := "flex",
      Position := "absolute",
      Top := "0",
      Left := "0",
      Right := "0",
      Height := "4px",
      Background := LineGradient(accent)
    ], [])
  }

  function BottomLine(accent: string): (r: Node)
    ensures StyleIs(r, Background, LineGradient(accent)) && Kids(r) == [] && Texts(r) == []
  {
    Box(map[
      Display := "flex",
      Position := "absolute",
      Bottom := "0",
      Left := "0",
      Right := "0",
      Height := "4px",
      Background := LineGradient(accent)
    ], [])
  }

  function Badge(accent: string, eyebrow: string): Node {
    Label(map[
      Display := "flex",
      Padding := "8px 24px",
      BorderRadius := "24px",
      Background := accent + "20",
      Border := "1px solid " + accent + "40",
      FontSize := "16px",
      FontWeight := "600",
      Color := accent,
      TextTransform := "uppercase",
      LetterSpacing := "3px",
      MarginBottom := "28px"
    ], eyebrow)
  }

  function TitleLabel(title: string): Node {
    Label(map[
      FontSize := TitleFontSize(title),
      FontWeight := "700",
      LineHeight := "1.1",
      TextAlign := "center",
      MaxWidth := "900px",
      LetterSpacing := "-0.02em"
    ], title)
  }

  /** The title keeps its text and takes the size its length calls for. */
  lemma TitleLabelSize(title: string)
    ensures TextOf(TitleLabel(title)) == Some(title)
    ensures StyleIs(TitleLabel(title), FontSize, if Utf16Length(title) > 30 then "52px" else "64px")
  {
  }

  function SubtitleLabel(subtitle: string): Node {
    Label(map[
      FontSize := "24px",
      MarginTop := "24px",
      Opacity := "0.6",
      TextAlign := "center",
      MaxWidth := "700px",
      LineHeight := "1.4"
    ], subtitle)
  }

  function DomainLabel(domain: Option<string>): Node {
    Label(map[
      Display := "flex",
      Position := "absolute",
      Bottom := "30px",
      FontSize := "16px",
      Opacity := "0.3"
    ], Or(domain, DefaultDomain))
  }

  function RootStyle(bg: string, text: string): (s: Style)
    ensures Width in s && s[Width] == "1200px" && Height in s && s[Height] == "630px"
    ensures Color in s && s[Color] == text
    ensures Background in s && s[Background] == bg
  {
    map[
      Display := "flex",
      FlexDirection := "column",
      AlignItems := "center",
      JustifyContent := "center",
      Width := "1200px",
      Height := "630px",
      Background := bg,
      FontFamily := "Inter",
      Color := text,
      Position := "relative"
    ]
  }

  /** The card's entries once the absent optional ones are dropped. */
  function Frame(top: Node, badge: Option<Node>, title: Node,
                 subtitle: Option<Node>, domain: Node, bottom: Node): seq<Node> {
    [top] + (Opt(badge) + ([title] + (Opt(subtitle) + [domain, bottom])))
  }

  /**
   * Filtering the six entries of the card: the two optional entries drop out
   * when absent and every other entry keeps its place relative to the rest.
   */
  lemma {:induction false} FilterFrame(top: Node, badge: Option<Node>, title: Node,
                                       subtitle: Option<Node>, domain: Node, bottom: Node)
    ensures Present([Some(top), badge, Some(title), subtitle, Some(domain), Some(bottom)])
         == Frame(top, badge, title, subtitle, domain, bottom)
  {
    var t5: seq<Option<Node>> := [Some(bottom)];
    var t4 := [Some(domain)] + t5;
    var t3 := [subtitle] + t4;
    var t2 := [Some(title)] + t3;
    var t1 := [badge] + t2;
    var t0 := [Some(top)] + t1;
    assert t0 == [Some(top), badge, Some(title), subtitle, Some(domain), Some(bottom)];
    PresentCons(Some(bottom), []);
    assert t5 == [Some(bottom)] + [];
    PresentCons(Some(domain), t5);
    assert Present(t4) == [domain, bottom];
    PresentCons(subtitle, t4);
    PresentCons(Some(title), t3);
    PresentCons(badge, t2);
    PresentCons(Some(top), t1);
  }

  /** Where each entry of the filtered card sits. */
  lemma FrameIndexes(top: Node, badge: Option<Node>, title: Node,
                     subtitle: Option<Node>, domain: Node, bottom: Node)
    ensures var kids := Frame(top, badge, title, subtitle, domain, bottom);
      var t := |Opt(badge)| + 1;
      && |kids| == 4 + |Opt(badge)| + |Opt(subtitle)|
      && kids[0] == top && kids[t] == title
      && (badge.Some? ==> kids[1] == badge.value)
      && (subtitle.Some? ==> kids[t + 1] == subtitle.value)
      && kids[|kids| - 2] == domain && kids[|kids| - 1] == bottom
  {
  }

  /** The texts of the filtered entries, in order. */
  lemma {:induction false} FrameTexts(top: Node, badge: Option<Node>, title: Node,
                                      subtitle: Option<Node>, domain: Node, bottom: Node)
    ensures TextsOf(Frame(top, badge, title, subtitle, domain, bottom))
         == Texts(top) + (TextsOf(Opt(badge)) + (Texts(title) + (TextsOf(Opt(subtitle))
            + (Texts(domain) + Texts(bottom)))))
  {
    var d := [domain, bottom];
    var c := Opt(subtitle) + d;
    var b := [title] + c;
    var a := Opt(badge) + b;
    TextsOfCons(domain, [bottom]);
    TextsOfOne(bottom);
    assert d == [domain] + [bottom];
    TextsOfAppend(Opt(subtitle), d);
    TextsOfCons(title, c);
    TextsOfAppend(Opt(badge), b);
    TextsOfCons(top, a);
  }

  /** The entries of the card, with the absent badge and subtitle filtered out. */
  function Children(p: Params, accent: string): seq<Node> {
    Present([
      Some(TopLine(accent)),
      When(Truthy(p.eyebrow), Badge(accent, Or(p.eyebrow, ""))),
      Some(TitleLabel(p.title)),
      When(Truthy(p.subtitle), SubtitleLabel(Or(p.subtitle, ""))),
      Some(DomainLabel(p.domain)),
      Some(BottomLine(accent))
    ])
  }

  /** The layout tree of the announcement card for the given parameters. */
  function Announcement(p: Params): Node {
    var accent := Or(p.accentColor, DefaultAccent);
    Box(RootStyle(Or(p.bgColor, DefaultBg), Or(p.textColor, DefaultText)), Children(p, accent))
  }

  /** The card's canvas: a fixed 1200 x 630 area in the chosen colours. */
  lemma AnnouncementCanvas(p: Params)
    ensures StyleIs(Announcement(p), Width, "1200px") && StyleIs(Announcement(p), Height, "630px")
    ensures StyleIs(Announcement(p), Background, Or(p.bgColor, DefaultBg))
    ensures StyleIs(Announcement(p), Color, Or(p.textColor, DefaultText))
  {
  }

  /** The card's rows: top line, badge when given, title, subtitle when given, domain, bottom line. */
  lemma AnnouncementLayout(p: Params)
    ensures |Kids(Announcement(p))| == 4 + (if Truthy(p.eyebrow) then 1 else 0) + (if Truthy(p.subtitle) then 1 else 0)
    ensures var kids := Kids(Announcement(p));
      var t := if Truthy(p.eyebrow) then 2 else 1;
      && (Truthy(p.eyebrow) ==> TextOf(kids[1]) == p.eyebrow)
      && TextOf(kids[t]) == Some(p.title)
      && StyleIs(kids[t], FontSize, if Utf16Length(p.title) > 30 then "52px" else "64px")
  {
    TitleLabelSize(p.title);
    var accent := Or(p.accentColor, DefaultAccent);
    var badge := When(Truthy(p.eyebrow), Badge(accent, Or(p.eyebrow, "")));
    var subtitle := When(Truthy(p.subtitle), SubtitleLabel(Or(p.subtitle, "")));
    FilterFrame(TopLine(accent), badge, TitleLabel(p.title), subtitle, DomainLabel(p.domain), BottomLine(accent));
    FrameIndexes(TopLine(accent), badge, TitleLabel(p.title), subtitle, DomainLabel(p.domain), BottomLine(accent));
  }

  /** After the title come the subtitle, when given, and the domain watermark. */
  lemma AnnouncementTail(p: Params)
    ensures |Kids(Announcement(p))| >= 4
    ensures var kids := Kids(Announcement(p));
      var t := if Truthy(p.eyebrow) then 2 else 1;
      && (Truthy(p.subtitle) ==> t + 1 < |kids| && TextOf(kids[t + 1]) == p.subtitle)
      && TextOf(kids[|kids| - 2]) == Some(Or(p.domain, DefaultDomain))
  {
    var accent := Or(p.accentColor, DefaultAccent);
    var badge := When(Truthy(p.eyebrow), Badge(accent, Or(p.eyebrow, "")));
    var subtitle := When(Truthy(p.subtitle), SubtitleLabel(Or(p.subtitle, "")));
    FilterFrame(TopLine(accent), badge, TitleLabel(p.title), subtitle, DomainLabel(p.domain), BottomLine(accent));
    FrameIndexes(TopLine(accent), badge, TitleLabel(p.title), subtitle, DomainLabel(p.domain), BottomLine(accent));
  }

  /** Both framing lines use the same accent gradient. */
  lemma AnnouncementLines(p: Params)
    ensures |Kids(Announcement(p))| >= 4
    ensures var kids := Kids(Announcement(p));
      && StyleIs(kids[0], Background, LineGradient(Or(p.accentColor, DefaultAccent)))
      && StyleIs(kids[|kids| - 1], Background, LineGradient(Or(p.accentColor, DefaultAccent)))
  {
    var accent := Or(p.accentColor, DefaultAccent);
    var badge := When(Truthy(p.eyebrow), Badge(accent, Or(p.eyebrow, "")));
    var subtitle := When(Truthy(p.subtitle), SubtitleLabel(Or(p.subtitle, "")));
    FilterFrame(TopLine(accent), badge, TitleLabel(p.title), subtitle, DomainLabel(p.domain), BottomLine(accent));
    FrameIndexes(TopLine(accent), badge, TitleLabel(p.title), subtitle, DomainLabel(p.domain), BottomLine(accent));
  }

  /** The card's texts in reading order: eyebrow, title, subtitle, domain. */
  lemma AnnouncementTexts(p: Params)
    ensures Texts(Announcement(p)) ==
      (if Truthy(p.eyebrow) then [p.eyebrow.value] else [])
      + ([p.title]
      + ((if Truthy(p.subtitle) then [p.subtitle.value] else [])
      + [Or(p.domain, DefaultDomain)]))
  {
    var accent := Or(p.accentColor, DefaultAccent);
    var badge := When(Truthy(p.eyebrow), Badge(accent, Or(p.eyebrow, "")));
    var subtitle := When(Truthy(p.subtitle), SubtitleLabel(Or(p.subtitle, "")));
    FilterFrame(TopLine(accent), badge, TitleLabel(p.title), subtitle, DomainLabel(p.domain), BottomLine(accent));
    FrameTexts(TopLine(accent), badge, TitleLabel(p.title), subtitle, DomainLabel(p.domain), BottomLine(accent));
    if badge.Some? { TextsOfOne(badge.value); }
    if subtitle.Some? { TextsOfOne(subtitle.value); }
  }
}
