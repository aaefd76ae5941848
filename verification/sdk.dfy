/**
 * The client SDK's pure parts: normalising the base URL, building the image
 * URL (`url()`), the API-key check `usage()` makes before any request, and
 * the base URL `createKey` posts to.
 *
 * `url()` issues a fixed sequence of `params.set` calls, each guarded by the
 * truthiness of its option; that sequence is modelled as a list of entries
 * applied in order, and the query string it yields is a list of pairs with the
 * percent-encoding left to the `encode` parameter.
 */
module Sdk {
  import opened Js
  import opened JsNumber
  import opened SearchParams

  const DefaultBaseUrl: string := "https://shotog.2214962083.workers.dev"

  /** `s.replace(/\/$/, "")`: one trailing slash removed, if there is one. */
  function StripTrailingSlash(s: string): (r: string)
    ensures r == s || r + "/" == s
    ensures r == s <==> |s| == 0 || s[|s| - 1] != '/'
  {
    if |s| > 0 && s[|s| - 1] == '/' then
      assert s[..|s| - 1] + "/" == s;
      s[..|s| - 1]
    else s
  }

  /** Only the last slash goes: a base ending in two slashes keeps one. */
  lemma {:induction false} StripOneSlashOnly(s: string)
    ensures StripTrailingSlash(s + "//") == s + "/"
  {
    var t := s + "//";
    assert t[..|t| - 1] == s + "/";
  }

  datatype Config = Config(apiKey: Option<string>, baseUrl: Option<string>)

  /** A configured client: its key and its normalised base URL. */
  datatype Client = Client(apiKey: Option<string>, baseUrl: string)

  /** The base URL a configured base, or the default, normalises to. */
  function NormalizeBase(baseUrl: Option<string>): (r: string)
    ensures !Truthy(baseUrl) ==> r == DefaultBaseUrl
    ensures Truthy(baseUrl) ==> r == StripTrailingSlash(baseUrl.value)
  {
    assert DefaultBaseUrl[|DefaultBaseUrl| - 1] == 'v';
    StripTrailingSlash(Or(baseUrl, DefaultBaseUrl))
  }

  /** The constructor. */
  function NewClient(config: Config): Client {
    Client(config.apiKey, NormalizeBase(config.baseUrl))
  }

  /** The options of an image URL. Dimensions are integers JavaScript prints without an exponent. */
  datatype ImageOptions = ImageOptions(
    template: Option<string>,
    title: string,
    subtitle: Option<string>,
    eyebrow: Option<string>,
    author: Option<string>,
    domain: Option<string>,
    bgColor: Option<string>,
    textColor: Option<string>,
    accentColor: Option<string>,
    format: Option<string>,
    width: Option<SafeInteger>,
    height: Option<SafeInteger>)

  // ---------------------------------------------------------------------
  // Query parameters

  /** The query parameters `url()` sets, in the order it sets them. */
  datatype Key =
    | Title | Template | Subtitle | Eyebrow | Author | Domain | BgColor
    | TextColor | AccentColor | Format | Width | Height | ApiKey

  /** The name a parameter has in the query string. */
  function KeyName(k: Key): string {
    match k
    case Title => "title"
    case Template => "template"
    case Subtitle => "subtitle"
    case Eyebrow => "eyebrow"
    case Author => "author"
    case Domain => "domain"
    case BgColor => "bgColor"
    case TextColor => "textColor"
    case AccentColor => "accentColor"
    case Format => "format"
    case Width => "width"
    case Height => "height"
    case ApiKey => "api_key"
  }

  /** The position of a parameter's `set` call in `url()`. */
  function Rank(k: Key): nat {
    match k
    case Title => 0
    case Template => 1
    case Subtitle => 2
    case Eyebrow => 3
    case Author => 4
    case Domain => 5
    case BgColor => 6
    case TextColor => 7
    case AccentColor => 8
    case Format => 9
    case Width => 10
    case Height => 11
    case ApiKey => 12
  }

  /** How many parameters `url()` can set. */
  const KeyCount: nat := 13

  /** The parameter set at position `i`: the inverse of `Rank`. */
  function KeyAt(i: nat): (k: Key)
    requires i < KeyCount
    ensures Rank(k) == i
  {
    if i == 0 then Title else if i == 1 then Template else if i == 2 then Subtitle
    else if i == 3 then Eyebrow else if i == 4 then Author else if i == 5 then Domain
    else if i == 6 then BgColor else if i == 7 then TextColor else if i == 8 then AccentColor
    else if i == 9 then Format else if i == 10 then Width else if i == 11 then Height
    else ApiKey
  }

  /** Every parameter has a position, and the position names it back. */
  lemma KeyAtRank(k: Key)
    ensures Rank(k) < KeyCount && KeyAt(Rank(k)) == k
  {
  }

  /** Distinct parameters have distinct names. */
  lemma KeyNameInjective(a: Key, b: Key)
    ensures KeyName(a) == KeyName(b) ==> a == b
  {
    if KeyName(a) == KeyName(b) {
      assert |KeyName(a)| == |KeyName(b)|;
      assert KeyName(a)[0] == KeyName(b)[0];
    }
  }

  // ---------------------------------------------------------------------
  // Guarded `set` sequences

  /** One `if (present) params.set(name, value)` step. */
  datatype Entry = Entry(key: Key, present: bool, value: string)

  function EntryNames(es: seq<Entry>): (ns: seq<string>)
    ensures |ns| == |es|
    ensures forall i | 0 <= i < |es| :: ns[i] == KeyName(es[i].key)
  {
    if |es| == 0 then [] else [KeyName(es[0].key)] + EntryNames(es[1..])
  }

  /** The steps applied in order to `q`. */
  function Apply(q: Pairs, es: seq<Entry>): Pairs
    decreases |es|
  {
    if |es| == 0 then q
    else Apply(SetIf(q, es[0].present, KeyName(es[0].key), es[0].value), es[1..])
  }

  /** The pair a step contributes when nothing of its name is there yet. */
  function Row(e: Entry): Pairs {
    if e.present then [(KeyName(e.key), e.value)] else []
  }

  /** The pairs of the present entries, in entry order. */
  function Kept(es: seq<Entry>): (q: Pairs)
    ensures |q| <= |es|
  {
    if |es| == 0 then [] else Row(es[0]) + Kept(es[1..])
  }

  /** The steps are for consecutive positions of `url()`, starting at `start`. */
  predicate RankedFrom(es: seq<Entry>, start: nat) {
    forall i | 0 <= i < |es| :: Rank(es[i].key) == start + i
  }

  /** The steps after the first are ranked from the next position. */
  lemma RankedTail(es: seq<Entry>, start: nat)
    requires |es| > 0 && RankedFrom(es, start)
    ensures RankedFrom(es[1..], start + 1)
  {
    assert forall i | 0 <= i < |es| - 1 :: es[1..][i] == es[i + 1];
  }

  /**
   * When every step sets a parameter not yet in the query, every `set`
   * appends, so the steps yield exactly the kept pairs after `q`.
   */
  lemma {:induction false} ApplyAppends(q: Pairs, used: set<string>, es: seq<Entry>, start: nat)
    requires forall i | 0 <= i < |q| :: q[i].0 in used
    requires forall i | 0 <= i < |es| :: KeyName(es[i].key) !in used
    requires RankedFrom(es, start)
    ensures Apply(q, es) == q + Kept(es)
    decreases |es|
  {
    if |es| > 0 {
      var e := es[0];
      var name := KeyName(e.key);
      AppendStep(q, used, e);
      TailFresh(es, start, used);
      assert Apply(q, es) == Apply(q + Row(e), es[1..]);
      ApplyAppends(q + Row(e), used + {name}, es[1..], start + 1);
      assert Kept(es) == Row(e) + Kept(es[1..]);
      ConcatAssoc(q, Row(e), Kept(es[1..]));
    }
  }

  /** Concatenation is associative. */
  lemma ConcatAssoc(a: Pairs, b: Pairs, c: Pairs)
    ensures (a + b) + c == a + (b + c)
  {
  }

  /** A step whose parameter is not in the query appends its row, and the row's name is then used. */
  lemma AppendStep(q: Pairs, used: set<string>, e: Entry)
    requires forall i | 0 <= i < |q| :: q[i].0 in used
    requires KeyName(e.key) !in used
    ensures SetIf(q, e.present, KeyName(e.key), e.value) == q + Row(e)
    ensures forall i | 0 <= i < |q + Row(e)| :: (q + Row(e))[i].0 in used + {KeyName(e.key)}
  {
    assert KeyName(e.key) !in Names(q);
  }

  /** After the first step, the remaining steps set names neither used before nor by the first step. */
  lemma TailFresh(es: seq<Entry>, start: nat, used: set<string>)
    requires |es| > 0 && RankedFrom(es, start)
    requires forall i | 0 <= i < |es| :: KeyName(es[i].key) !in used
    ensures RankedFrom(es[1..], start + 1)
    ensures forall i | 0 <= i < |es[1..]| :: KeyName(es[1..][i].key) !in used + {KeyName(es[0].key)}
  {
    FirstNameUnique(es, start);
    assert forall i | 0 <= i < |es| - 1 :: es[1..][i] == es[i + 1];
  }

  /** A step's parameter is set by no later step. */
  lemma {:induction false} FirstNameUnique(es: seq<Entry>, start: nat)
    requires |es| > 0 && RankedFrom(es, start)
    ensures forall k | 0 < k < |es| :: KeyName(es[k].key) != KeyName(es[0].key)
    ensures KeyName(es[0].key) !in EntryNames(es[1..])
  {
    forall k | 0 < k < |es|
      ensures KeyName(es[k].key) != KeyName(es[0].key)
    {
      KeyNameInjective(es[k].key, es[0].key);
    }
    assert forall i | 0 <= i < |es| - 1 :: EntryNames(es[1..])[i] == KeyName(es[i + 1].key);
  }

  /** Whether `xs` is `ys` with some elements left out. */
  predicate Subsequence(xs: seq<string>, ys: seq<string>)
    decreases |ys|
  {
    if |xs| == 0 then true
    else if |ys| == 0 then false
    else if xs[0] == ys[0] then Subsequence(xs[1..], ys[1..])
    else Subsequence(xs, ys[1..])
  }

  /** The kept names are the entry names with the absent ones left out. */
  lemma {:induction false} KeptNamesSubsequence(es: seq<Entry>)
    ensures Subsequence(Names(Kept(es)), EntryNames(es))
  {
    if |es| > 0 {
      var rest := es[1..];
      KeptNamesSubsequence(rest);
      assert EntryNames(es)[1..] == EntryNames(rest);
      if es[0].present {
        assert Kept(es) == [(KeyName(es[0].key), es[0].value)] + Kept(rest);
        assert Names(Kept(es))[0] == EntryNames(es)[0];
        assert Names(Kept(es))[1..] == Names(Kept(rest));
      } else {
        assert Kept(es) == Kept(rest);
        SubsequenceDropHead(Names(Kept(rest)), EntryNames(es));
      }
    }
  }

  /** A subsequence of the tail is a subsequence of the whole. */
  lemma {:induction false} SubsequenceDropHead(xs: seq<string>, ys: seq<string>)
    requires |ys| > 0 && Subsequence(xs, ys[1..])
    ensures Subsequence(xs, ys)
    decreases |ys|, |xs|
  {
    if |xs| > 0 && xs[0] == ys[0] {
      SubsequenceTail(xs, ys[1..]);
    }
  }

  /** Dropping the first element of a subsequence keeps it a subsequence. */
  lemma {:induction false} SubsequenceTail(xs: seq<string>, ys: seq<string>)
    requires |xs| > 0 && Subsequence(xs, ys)
    ensures Subsequence(xs[1..], ys)
    decreases |ys|, |xs|
  {
    assert |ys| > 0;
    if xs[0] == ys[0] {
      SubsequenceDropHead(xs[1..], ys);
    } else {
      SubsequenceTail(xs, ys[1..]);
      SubsequenceDropHead(xs[1..], ys);
    }
  }

  /** Every element of a subsequence is in the whole sequence. */
  lemma {:induction false} SubsequenceMembers(xs: seq<string>, ys: seq<string>)
    requires Subsequence(xs, ys)
    ensures forall x | x in xs :: x in ys
    decreases |ys|
  {
    if |xs| > 0 {
      if xs[0] == ys[0] {
        SubsequenceMembers(xs[1..], ys[1..]);
        assert forall x | x in xs :: x == xs[0] || x in xs[1..];
      } else {
        SubsequenceMembers(xs, ys[1..]);
      }
    }
  }

  /** What looking up a step's parameter should find: its value when it is present. */
  function Found(e: Entry): Option<string> {
    if e.present then Some(e.value) else None
  }

  /** Looking a name up in the kept pairs finds the entry of that name, if it is present. */
  lemma {:induction false} GetKept(es: seq<Entry>, start: nat, k: nat)
    requires RankedFrom(es, start) && k < |es|
    ensures Get(Kept(es), KeyName(es[k].key)) == Found(es[k])
    decreases k
  {
    if k == 0 {
      GetKeptHead(es, start);
    } else {
      GetKeptLater(es, start, k);
      GetKept(es[1..], start + 1, k - 1);
    }
  }

  /** The first step's parameter has the first step's value, if it is present. */
  lemma GetKeptHead(es: seq<Entry>, start: nat)
    requires RankedFrom(es, start) && |es| > 0
    ensures Get(Kept(es), KeyName(es[0].key)) == Found(es[0])
  {
    var e := es[0];
    assert Kept(es) == Row(e) + Kept(es[1..]);
    if e.present {
      GetCons((KeyName(e.key), e.value), Kept(es[1..]));
    } else {
      FirstNameUnique(es, start);
      GetKeptAbsent(es[1..], KeyName(e.key));
    }
  }

  /** A later step is the tail's step one position earlier, and its parameter is looked up past the first step. */
  lemma GetKeptLater(es: seq<Entry>, start: nat, k: nat)
    requires RankedFrom(es, start) && 0 < k < |es|
    ensures RankedFrom(es[1..], start + 1) && es[1..][k - 1] == es[k]
    ensures Get(Kept(es), KeyName(es[k].key)) == Get(Kept(es[1..]), KeyName(es[k].key))
  {
    RankedTail(es, start);
    var e := es[0];
    if e.present {
      assert Rank(es[k].key) != Rank(e.key);
      KeyNameInjective(es[k].key, e.key);
      GetCons((KeyName(e.key), e.value), Kept(es[1..]));
    } else {
      assert Kept(es) == Kept(es[1..]);
    }
  }

  /** A name no entry has is never in the kept pairs. */
  lemma {:induction false} GetKeptAbsent(es: seq<Entry>, name: string)
    requires name !in EntryNames(es)
    ensures Get(Kept(es), name).None?
  {
    KeptNamesSubsequence(es);
    SubsequenceMembers(Names(Kept(es)), EntryNames(es));
  }

  /** The kept pairs have distinct names. */
  lemma {:induction false} KeptDistinct(es: seq<Entry>, start: nat)
    requires RankedFrom(es, start)
    ensures Distinct(Names(Kept(es)))
    decreases |es|
  {
    if |es| > 0 {
      var rest := es[1..];
      RankedTail(es, start);
      KeptDistinct(rest, start + 1);
      if es[0].present {
        FirstNameUnique(es, start);
        KeptNamesSubsequence(rest);
        SubsequenceMembers(Names(Kept(rest)), EntryNames(rest));
        var ns := Names(Kept(es));
        assert ns[1..] == Names(Kept(rest));
        forall i, j | 0 <= i < j < |ns|
          ensures ns[i] != ns[j]
        {
          assert ns[j] == ns[1..][j - 1];
          if i > 0 {
            assert ns[i] == ns[1..][i - 1];
          } else {
            assert ns[j] in Names(Kept(rest));
          }
        }
      } else {
        assert Kept(es) == Kept(rest);
      }
    }
  }

  // ---------------------------------------------------------------------
  // url()

  /** The parameter names `url()` sets, in order. */
  function QueryOrder(): (ns: seq<string>)
    ensures |ns| == KeyCount
    ensures forall i | 0 <= i < KeyCount :: ns[i] == KeyName(KeyAt(i))
  {
    seq(KeyCount, i requires 0 <= i < KeyCount => KeyName(KeyAt(i)))
  }

  /** The order spelled out. */
  lemma QueryOrderListed()
    ensures QueryOrder() == [
      "title", "template", "subtitle", "eyebrow", "author", "domain",
      "bgColor", "textColor", "accentColor", "format", "width", "height", "api_key"
    ]
  {
  }

  /** A dimension is set when it is present and non-zero; its text is `String(n)`. */
  function DimensionEntry(key: Key, n: Option<SafeInteger>): (e: Entry)
    ensures e.key == key
    ensures e.present <==> n.Some? && n.value != 0
    ensures e.present ==> e.value == NumberToString(n.value)
  {
    match n
    case Some(v) => Entry(key, v != 0, NumberToString(v))
    case None => Entry(key, false, "")
  }

  /** A text option is set when it is truthy. */
  function TextEntry(key: Key, s: Option<string>): (e: Entry)
    ensures e.key == key
    ensures e.present <==> Truthy(s)
    ensures e.present ==> e.value == s.value
  {
    Entry(key, Truthy(s), Or(s, ""))
  }

  /** The `params.set` step of `url()` for each parameter: the title always, the rest when given. */
  function Step(c: Client, o: ImageOptions, k: Key): (e: Entry)
    ensures e.key == k
  {
    match k
    case Title => Entry(Title, true, o.title)
    case Template => TextEntry(Template, o.template)
    case Subtitle => TextEntry(Subtitle, o.subtitle)
    case Eyebrow => TextEntry(Eyebrow, o.eyebrow)
    case Author => TextEntry(Author, o.author)
    case Domain => TextEntry(Domain, o.domain)
    case BgColor => TextEntry(BgColor, o.bgColor)
    case TextColor => TextEntry(TextColor, o.textColor)
    case AccentColor => TextEntry(AccentColor, o.accentColor)
    case Format => TextEntry(Format, o.format)
    case Width => DimensionEntry(Width, o.width)
    case Height => DimensionEntry(Height, o.height)
    case ApiKey => TextEntry(ApiKey, c.apiKey)
  }

  /** The steps of `url()`, in source order. */
  function Entries(c: Client, o: ImageOptions): (es: seq<Entry>)
    ensures |es| == KeyCount
    ensures forall i | 0 <= i < KeyCount :: es[i] == Step(c, o, KeyAt(i))
  {
    seq(KeyCount, i requires 0 <= i < KeyCount => Step(c, o, KeyAt(i)))
  }

  /** The steps set the parameters of the query order, one each, in that order. */
  lemma EntriesOrder(c: Client, o: ImageOptions)
    ensures EntryNames(Entries(c, o)) == QueryOrder()
    ensures RankedFrom(Entries(c, o), 0)
  {
  }

  /** The query pairs of `url()`, before encoding. */
  function UrlQuery(c: Client, o: ImageOptions): Pairs {
    Apply([], Entries(c, o))
  }

  /** `url()`: the base, the image path, and the encoded query. No request is made. */
  function Url(c: Client, o: ImageOptions, encode: string -> string): string {
    c.baseUrl + "/v1/og?" + Serialize(UrlQuery(c, o), encode)
  }

  /** Every `set` of `url()` appends: the query is the kept pairs of its steps. */
  lemma UrlQueryKept(c: Client, o: ImageOptions)
    ensures UrlQuery(c, o) == Kept(Entries(c, o))
  {
    var es := Entries(c, o);
    EntriesOrder(c, o);
    ApplyAppends([], {}, es, 0);
    assert [] + Kept(es) == Kept(es);
  }

  /**
   * The query holds exactly the set parameters, in the fixed order, without
   * duplicates: title first, every optional one only when truthy, the API key
   * last.
   */
  lemma UrlQueryShape(c: Client, o: ImageOptions)
    ensures Subsequence(Names(UrlQuery(c, o)), QueryOrder())
    ensures Distinct(Names(UrlQuery(c, o)))
    ensures |UrlQuery(c, o)| >= 1 && UrlQuery(c, o)[0] == ("title", o.title)
    ensures Truthy(c.apiKey) ==> UrlQuery(c, o)[|UrlQuery(c, o)| - 1] == ("api_key", c.apiKey.value)
  {
    UrlQueryOrdered(c, o);
    UrlQueryFirst(c, o);
    UrlQueryLast(c, o);
  }

  /** The names come in `url()`'s order, each at most once. */
  lemma UrlQueryOrdered(c: Client, o: ImageOptions)
    ensures Subsequence(Names(UrlQuery(c, o)), QueryOrder())
    ensures Distinct(Names(UrlQuery(c, o)))
  {
    UrlQueryKept(c, o);
    EntriesOrder(c, o);
    KeptNamesSubsequence(Entries(c, o));
    KeptDistinct(Entries(c, o), 0);
  }

  /** The title is always the first pair. */
  lemma UrlQueryFirst(c: Client, o: ImageOptions)
    ensures |UrlQuery(c, o)| >= 1 && UrlQuery(c, o)[0] == ("title", o.title)
  {
    var es := Entries(c, o);
    UrlQueryKept(c, o);
    assert es[0] == Entry(Title, true, o.title);
    assert Kept(es) == Row(es[0]) + Kept(es[1..]);
  }

  /** A truthy API key is always the last pair. */
  lemma UrlQueryLast(c: Client, o: ImageOptions)
    ensures Truthy(c.apiKey) ==>
      |UrlQuery(c, o)| >= 1 && UrlQuery(c, o)[|UrlQuery(c, o)| - 1] == ("api_key", c.apiKey.value)
  {
    if Truthy(c.apiKey) {
      UrlQueryKept(c, o);
      LastStep(c, o);
      KeptLast(UrlQuery(c, o), Entries(c, o), Entry(ApiKey, true, c.apiKey.value));
    }
  }

  /** The last step of `url()` is the API key's. */
  lemma LastStep(c: Client, o: ImageOptions)
    ensures |Entries(c, o)| > 0 && Entries(c, o)[|Entries(c, o)| - 1] == TextEntry(ApiKey, c.apiKey)
  {
    assert KeyAt(KeyCount - 1) == ApiKey;
  }

  /** When the last entry is present it gives the last pair. */
  lemma {:induction false} KeptLast(q: Pairs, es: seq<Entry>, e: Entry)
    requires q == Kept(es) && |es| > 0 && es[|es| - 1] == e && e.present
    ensures |q| > 0 && q[|q| - 1] == (KeyName(e.key), e.value)
    decreases |es|
  {
    if |es| > 1 {
      assert es[1..][|es[1..]| - 1] == e;
      KeptLast(Kept(es[1..]), es[1..], e);
    }
  }

  /** What the query holds under a parameter's name: the step's value when it is set, nothing otherwise. */
  lemma UrlQueryAt(c: Client, o: ImageOptions, k: Key)
    ensures Get(UrlQuery(c, o), KeyName(k)) ==
      if Step(c, o, k).present then Some(Step(c, o, k).value) else None
  {
    UrlQueryKept(c, o);
    EntriesOrder(c, o);
    KeyAtRank(k);
    GetKept(Entries(c, o), 0, Rank(k));
  }

  /** The title is always set, the template only when it is truthy. */
  lemma UrlQueryTitle(c: Client, o: ImageOptions)
    ensures Get(UrlQuery(c, o), "title") == Some(o.title)
    ensures Get(UrlQuery(c, o), "template") == KeepTruthy(o.template)
  {
    UrlQueryAt(c, o, Title);
    UrlQueryAt(c, o, Template);
  }

  /** The texts are set only when they are truthy. */
  lemma UrlQueryTexts(c: Client, o: ImageOptions)
    ensures Get(UrlQuery(c, o), "subtitle") == KeepTruthy(o.subtitle)
    ensures Get(UrlQuery(c, o), "eyebrow") == KeepTruthy(o.eyebrow)
    ensures Get(UrlQuery(c, o), "author") == KeepTruthy(o.author)
    ensures Get(UrlQuery(c, o), "domain") == KeepTruthy(o.domain)
  {
    UrlQueryAt(c, o, Subtitle);
    UrlQueryAt(c, o, Eyebrow);
    UrlQueryAt(c, o, Author);
    UrlQueryAt(c, o, Domain);
  }

  /** The colours, the format and the API key are set only when they are truthy. */
  lemma UrlQueryStyle(c: Client, o: ImageOptions)
    ensures Get(UrlQuery(c, o), "bgColor") == KeepTruthy(o.bgColor)
    ensures Get(UrlQuery(c, o), "textColor") == KeepTruthy(o.textColor)
    ensures Get(UrlQuery(c, o), "accentColor") == KeepTruthy(o.accentColor)
    ensures Get(UrlQuery(c, o), "format") == KeepTruthy(o.format)
    ensures Get(UrlQuery(c, o), "api_key") == KeepTruthy(c.apiKey)
  {
    UrlQueryAt(c, o, BgColor);
    UrlQueryAt(c, o, TextColor);
    UrlQueryAt(c, o, AccentColor);
    UrlQueryAt(c, o, Format);
    UrlQueryAt(c, o, ApiKey);
  }

  /** A dimension is in the query, as `String(n)`, exactly when it is given and non-zero. */
  lemma UrlQueryDimensions(c: Client, o: ImageOptions)
    ensures Get(UrlQuery(c, o), "width") ==
      if o.width.Some? && o.width.value != 0 then Some(NumberToString(o.width.value)) else None
    ensures Get(UrlQuery(c, o), "height") ==
      if o.height.Some? && o.height.value != 0 then Some(NumberToString(o.height.value)) else None
  {
    UrlQueryAt(c, o, Width);
    UrlQueryAt(c, o, Height);
  }

  /** A name that is no parameter's never reaches the query. */
  lemma UrlQueryOmits(c: Client, o: ImageOptions, name: string)
    requires forall k: Key :: KeyName(k) != name
    ensures Get(UrlQuery(c, o), name).None?
  {
    UrlQueryKept(c, o);
    GetKeptAbsent(Entries(c, o), name);
  }

  /** `url()` has no option for an avatar, a logo or a font: no parameter has their names. */
  lemma NotAParameter(name: string)
    requires name in ["avatar", "logo", "font", "fontUrl"]
    ensures forall k: Key :: KeyName(k) != name
  {
  }

  // ---------------------------------------------------------------------
  // usage() and createKey

  /** What `usage()` does first: refuse without a key, or send the key to the usage endpoint. */
  datatype UsageStep =
    | Refused(message: string)
    | Request(url: string, apiKeyHeader: string)

  const UsageKeyError: string := "API key required for usage stats"

  function Usage(c: Client): (r: UsageStep)
    ensures r.Refused? <==> !Truthy(c.apiKey)
    ensures r.Refused? ==> r.message == UsageKeyError
    ensures r.Request? ==> r.url == c.baseUrl + "/v1/keys/usage" && r.apiKeyHeader == c.apiKey.value
  {
    if !Truthy(c.apiKey) then Refused(UsageKeyError)
    else Request(c.baseUrl + "/v1/keys/usage", c.apiKey.value)
  }

  /** The URL `createKey` posts to, with the base normalised as the constructor does. */
  function CreateKeyUrl(baseUrl: Option<string>): (u: string)
    ensures u == NewClient(Config(None, baseUrl)).baseUrl + "/v1/keys"
    ensures !Truthy(baseUrl) ==> u == DefaultBaseUrl + "/v1/keys"
  {
    NormalizeBase(baseUrl) + "/v1/keys"
  }
}
