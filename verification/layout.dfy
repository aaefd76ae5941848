/**
 * The layout trees the templates hand to the layout-to-SVG engine: a `div`
 * with a style object whose children are either an array of nodes or a text
 * string. CSS values are plain strings here, with no layout meaning; numeric
 * style values are written as JavaScript prints them.
 */
module Layout {
  import opened Js

  /** The CSS properties the templates set, named as in the style objects. */
  datatype Css =
    | Display | FlexDirection | Width | Height | Background | FontFamily | Color
    | Position | Padding | Flex | JustifyContent | AlignItems | BorderRadius
    | Border | BorderTop | FontSize | FontWeight | LineHeight | LetterSpacing
    | MaxWidth | MarginTop | MarginRight | MarginBottom | PaddingTop | Opacity
    | Top | Left | Right | Bottom | TextAlign | TextTransform

  type Style = map<Css, string>

  datatype Node = Node(kind: string, style: Style, children: Children)

  datatype Children = Nodes(nodes: seq<Node>) | Content(text: string)

  /** The child nodes of a node; a text child counts as none. */
  function Kids(n: Node): seq<Node> {
    if n.children.Nodes? then n.children.nodes else []
  }

  /** A `div` with an array of child nodes. */
  function Box(style: Style, kids: seq<Node>): (r: Node)
    ensures Kids(r) == kids && TextOf(r) == None
    ensures Texts(r) == TextsOf(kids)
  {
    Node("div", style, Nodes(kids))
  }

  /** A `div` whose child is a text string. */
  function Label(style: Style, text: string): (r: Node)
    ensures Kids(r) == [] && TextOf(r) == Some(text)
    ensures Texts(r) == [text]
  {
    Node("div", style, Content(text))
  }

  /** Whether the style of `n` sets `key` to `value`. */
  predicate StyleIs(n: Node, key: Css, value: string) {
    key in n.style && n.style[key] == value
  }

  /** The text child of a node, if it has one. */
  function TextOf(n: Node): Option<string> {
    if n.children.Content? then Some(n.children.text) else None
  }

  /** How many entries of `xs` are present. */
  function CountPresent(xs: seq<Option<Node>>): nat {
    if |xs| == 0 then 0 else (if xs[0].Some? then 1 else 0) + CountPresent(xs[1..])
  }

  /**
   * `[...].filter(Boolean)` over an array whose entries are nodes or `null`:
   * the present nodes, in their original order.
   */
  function Present(xs: seq<Option<Node>>): (r: seq<Node>)
    ensures |r| == CountPresent(xs) <= |xs|
  {
    if |xs| == 0 then []
    else
      var rest := Present(xs[1..]);
      if xs[0].Some? then [xs[0].value] + rest else rest
  }

  /** Filtering keeps exactly the present entries: nothing else, and none of them is lost. */
  lemma {:induction false} PresentMembers(xs: seq<Option<Node>>)
    ensures forall n | n in Present(xs) :: Some(n) in xs
    ensures forall i | 0 <= i < |xs| && xs[i].Some? :: xs[i].value in Present(xs)
  {
    if |xs| > 0 {
      PresentMembers(xs[1..]);
      assert forall i | 1 <= i < |xs| :: xs[i] == xs[1..][i - 1];
    }
  }

  /** Filtering distributes over concatenation, so it keeps the order of the parts. */
  lemma {:induction false} PresentAppend(xs: seq<Option<Node>>, ys: seq<Option<Node>>)
    ensures Present(xs + ys) == Present(xs) + Present(ys)
  {
    if |xs| > 0 {
      assert (xs + ys)[1..] == xs[1..] + ys;
      PresentAppend(xs[1..], ys);
    } else {
      assert xs + ys == ys;
    }
  }

  /** The nodes an optional entry contributes after filtering: none or one. */
  function Opt(o: Option<Node>): (r: seq<Node>)
    ensures |r| == if o.Some? then 1 else 0
    ensures o.Some? ==> r[0] == o.value
  {
    if o.Some? then [o.value] else []
  }

  /** Filtering a list that starts with `o`. */
  lemma PresentCons(o: Option<Node>, xs: seq<Option<Node>>)
    ensures Present([o] + xs) == Opt(o) + Present(xs)
  {
    assert ([o] + xs)[1..] == xs;
  }

  /** An optional node, present exactly when `cond` holds. */
  function When(cond: bool, n: Node): (r: Option<Node>)
    ensures r.Some? <==> cond
  {
    if cond then Some(n) else None
  }

  /** Filtering one optional node leaves it exactly when it is present. */
  lemma PresentOne(cond: bool, n: Node)
    ensures Present([When(cond, n)]) == Opt(When(cond, n))
  {
  }

  /** The text strings of a tree, in document order. */
  function Texts(n: Node): seq<string>
    decreases n
  {
    match n.children
    case Content(t) => [t]
    case Nodes(ns) => TextsOf(ns)
  }

  /** The text strings of a list of trees, in document order. */
  function TextsOf(ns: seq<Node>): seq<string>
    decreases ns
  {
    if |ns| == 0 then [] else Texts(ns[0]) + TextsOf(ns[1..])
  }

  /** The texts of a list that starts with `n`. */
  lemma TextsOfCons(n: Node, ns: seq<Node>)
    ensures TextsOf([n] + ns) == Texts(n) + TextsOf(ns)
  {
    assert ([n] + ns)[1..] == ns;
  }

  /** The texts of a one-node list. */
  lemma TextsOfOne(n: Node)
    ensures TextsOf([n]) == Texts(n)
  {
    assert [n][1..] == [];
  }

  /** Text flattening distributes over concatenation of sibling lists. */
  lemma {:induction false} TextsOfAppend(xs: seq<Node>, ys: seq<Node>)
    ensures TextsOf(xs + ys) == TextsOf(xs) + TextsOf(ys)
  {
    if |xs| > 0 {
      assert (xs + ys)[1..] == xs[1..] + ys;
      TextsOfAppend(xs[1..], ys);
    } else {
      assert xs + ys == ys;
    }
  }
}
