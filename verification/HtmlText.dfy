/** The streaming collector of visible text in `_VisibleHTMLParser`: four fields driven by the tag
    and data events of an HTML tokenizer. */
module HtmlText {
  datatype Token = Start(tag: string) | End(tag: string) | SelfClosing(tag: string) | Data(data: string)

  predicate Hidden(tag: string) {
    tag in {"script", "style", "noscript", "svg"}
  }

  predicate Heading(tag: string) {
    tag in {"title", "h1"}
  }

  /** The parser's fields as a value. */
  datatype Scan = Scan(text: seq<string>, title: seq<string>, depth: nat, inHeading: bool)

  function OpenTag(s: Scan, tag: string): Scan {
    s.(depth := if Hidden(tag) then s.depth + 1 else s.depth, inHeading := s.inHeading || Heading(tag))
  }

  function CloseTag(s: Scan, tag: string): Scan {
    s.(depth := if Hidden(tag) && s.depth > 0 then s.depth - 1 else s.depth, inHeading := s.inHeading && !Heading(tag))
  }

  function Collect(s: Scan, data: string): Scan {
    if s.depth > 0 then s
    else s.(text := s.text + [data], title := if s.inHeading then s.title + [data] else s.title)
  }

  function Step(s: Scan, t: Token): Scan {
    match t
    case Start(tag) => OpenTag(s, tag)
    case End(tag) => CloseTag(s, tag)
    case SelfClosing(tag) => CloseTag(OpenTag(s, tag), tag)
    case Data(data) => Collect(s, data)
  }

  function Run(s: Scan, ts: seq<Token>): Scan {
    if ts == [] then s else Step(Run(s, ts[..|ts| - 1]), ts[|ts| - 1])
  }

  class VisibleHtmlParser {
    var title: seq<string>
    var text: seq<string>
    var ignoredDepth: nat
    var inHeading: bool

    ghost function State(): Scan
      reads this
    {
      Scan(text, title, ignoredDepth, inHeading)
    }

    constructor ()
      ensures State() == Scan([], [], 0, false)
    {
      title, text, ignoredDepth, inHeading := [], [], 0, false;
    }

    method HandleStartTag(tag: string)
      modifies this
      ensures State() == OpenTag(old(State()), tag)
    {
      if Hidden(tag) {
        ignoredDepth := ignoredDepth + 1;
      }
      if Heading(tag) {
        inHeading := true;
      }
    }

    method HandleEndTag(tag: string)
      modifies this
      ensures State() == CloseTag(old(State()), tag)
    {
      if Hidden(tag) && ignoredDepth > 0 {
        ignoredDepth := ignoredDepth - 1;
      }
      if Heading(tag) {
        inHeading := false;
      }
    }

    method HandleData(data: string)
      modifies this
      ensures State() == Collect(old(State()), data)
    {
      if ignoredDepth > 0 {
        return;
      }
      text := text + [data];
      if inHeading {
        title := title + [data];
      }
    }

    /** `feed`: dispatch the tokenizer's events in order. */
    method Feed(tokens: seq<Token>)
      modifies this
      ensures State() == Run(old(State()), tokens)
    {
      for i := 0 to |tokens|
        invariant State() == Run(old(State()), tokens[..i])
      {
        assert tokens[..i + 1][..i] == tokens[..i];
        match tokens[i] {
          case Start(tag) => HandleStartTag(tag);
          case End(tag) => HandleEndTag(tag);
          case SelfClosing(tag) => HandleStartTag(tag); HandleEndTag(tag);
          case Data(data) => HandleData(data);
        }
      }
      assert tokens[..|tokens|] == tokens;
    }
  }

  lemma {:induction false} RunConcat(s: Scan, a: seq<Token>, b: seq<Token>)
    ensures Run(s, a + b) == Run(Run(s, a), b)
  {
    if b == [] {
      assert a + b == a;
    } else {
      assert (a + b)[..|a + b| - 1] == a + b[..|b| - 1];
      RunConcat(s, a, b[..|b| - 1]);
    }
  }

  // ---------------------------------------------------------------- documents as trees

  datatype Node =
    | Element(tag: string, children: seq<Node>)
    | Closed(emptyTag: string) // <tag/>
    | Void(voidTag: string) // a tag that is never closed, such as <br>
    | Text(data: string)

  function Flatten(n: Node): seq<Token>
    decreases n
  {
    match n
    case Element(tag, children) => [Start(tag)] + FlattenAll(children) + [End(tag)]
    case Closed(tag) => [SelfClosing(tag)]
    case Void(tag) => [Start(tag)]
    case Text(data) => [Data(data)]
  }

  function FlattenAll(ns: seq<Node>): seq<Token>
    decreases ns
  {
    if ns == [] then [] else Flatten(ns[0]) + FlattenAll(ns[1..])
  }

  /** No script, style, noscript, svg, title or h1 tag is left without an end tag. */
  predicate Balanced(n: Node)
    decreases n
  {
    match n
    case Element(_, children) => AllBalanced(children)
    case Void(tag) => !Hidden(tag) && !Heading(tag)
    case _ => true
  }

  predicate AllBalanced(ns: seq<Node>)
    decreases ns
  {
    ns == [] || (Balanced(ns[0]) && AllBalanced(ns[1..]))
  }

  /** The data of the nodes with no hidden ancestor, in document order. */
  function Visible(n: Node): seq<string>
    decreases n
  {
    match n
    case Element(tag, children) => if Hidden(tag) then [] else AllVisible(children)
    case Text(data) => [data]
    case _ => []
  }

  function AllVisible(ns: seq<Node>): seq<string>
    decreases ns
  {
    if ns == [] then [] else Visible(ns[0]) + AllVisible(ns[1..])
  }

  /** The data of the nodes with a heading ancestor and no hidden one; `inside` says that there is a
      heading ancestor further up. */
  function Titled(n: Node, inside: bool): seq<string>
    decreases n
  {
    match n
    case Element(tag, children) => if Hidden(tag) then [] else AllTitled(children, inside || Heading(tag))
    case Text(data) => if inside then [data] else []
    case _ => []
  }

  function AllTitled(ns: seq<Node>, inside: bool): seq<string>
    decreases ns
  {
    if ns == [] then [] else Titled(ns[0], inside) + AllTitled(ns[1..], inside)
  }

  predicate HasHeading(n: Node)
    decreases n
  {
    match n
    case Element(tag, children) => Heading(tag) || AnyHeading(children)
    case Closed(tag) => Heading(tag)
    case _ => false
  }

  predicate AnyHeading(ns: seq<Node>)
    decreases ns
  {
    ns != [] && (HasHeading(ns[0]) || AnyHeading(ns[1..]))
  }

  /** No visible text inside a heading follows the end of a heading nested in it. `ended` says that
      a nested heading has ended earlier in the heading around `n`. */
  predicate TitleIsWhole(n: Node, inside: bool, ended: bool)
    decreases n
  {
    match n
    case Element(tag, children) =>
      Hidden(tag) || AllTitlesWhole(children, inside || Heading(tag), ended && !Heading(tag))
    case Text(_) => !(inside && ended)
    case _ => true
  }

  predicate AllTitlesWhole(ns: seq<Node>, inside: bool, ended: bool)
    decreases ns
  {
    ns == [] || (TitleIsWhole(ns[0], inside, ended) && AllTitlesWhole(ns[1..], inside, ended || HasHeading(ns[0])))
  }

  /** Scripts, styles, noscript and svg elements hide what is below them, title and h1 elements are
      headings, and every other element is as its children are. */
  lemma TagsInPlainTerms(tag: string, children: seq<Node>, data: string, inside: bool)
    ensures var hidden, heading := tag in {"script", "style", "noscript", "svg"}, tag in {"title", "h1"};
            && Visible(Element(tag, children)) == (if hidden then [] else AllVisible(children))
            && Titled(Element(tag, children), inside) ==
               (if hidden then [] else if heading then AllTitled(children, true) else AllTitled(children, inside))
    ensures Visible(Text(data)) == [data] && Titled(Text(data), true) == [data] && Titled(Text(data), false) == []
  {
  }

  lemma {:induction false} SiblingsInTurn(a: seq<Node>, b: seq<Node>, inside: bool)
    ensures AllVisible(a + b) == AllVisible(a) + AllVisible(b)
    ensures AllTitled(a + b, inside) == AllTitled(a, inside) + AllTitled(b, inside)
  {
    if a == [] {
      assert a + b == b;
    } else {
      assert (a + b)[1..] == a[1..] + b;
      SiblingsInTurn(a[1..], b, inside);
    }
  }

  // ---------------------------------------------------------------- the stream computes the tree meaning

  /** From `s` to `r` exactly the visible text was appended, the depth is back where it was, and a
      heading that was open is still open unless another heading was read. */
  predicate Reads(s: Scan, r: Scan, visible: seq<string>, heading: bool) {
    && r.text == s.text + (if s.depth == 0 then visible else [])
    && r.depth == s.depth
    && r.inHeading == (s.inHeading && !heading)
  }

  lemma ReadsInTurn(s: Scan, mid: Scan, r: Scan, a: seq<string>, b: seq<string>, p: bool, q: bool)
    requires Reads(s, mid, a, p) && Reads(mid, r, b, q)
    ensures Reads(s, r, a + b, p || q)
  {
    assert s.text + a + b == s.text + (a + b);
    assert s.text + [] + [] == s.text + [];
  }

  /** Reading a balanced document appends exactly its visible text (nothing below a hidden element)
      and leaves the ignore depth where it was. */
  lemma {:induction false} StreamIsTree(n: Node, s: Scan)
    requires Balanced(n)
    ensures Reads(s, Run(s, Flatten(n)), Visible(n), HasHeading(n))
    decreases n
  {
    match n {
      case Element(tag, children) =>
        var body := FlattenAll(children);
        var started := OpenTag(s, tag);
        AllStreamIsTree(children, started);
        ElementRun(s, tag, body);
      case Closed(tag) =>
        assert Run(s, [SelfClosing(tag)]) == Step(Run(s, []), SelfClosing(tag));
      case Void(tag) =>
        assert Run(s, [Start(tag)]) == Step(Run(s, []), Start(tag));
      case Text(data) =>
        assert Run(s, [Data(data)]) == Step(Run(s, []), Data(data));
    }
  }

  lemma ElementRun(s: Scan, tag: string, body: seq<Token>)
    ensures Run(s, [Start(tag)] + body + [End(tag)]) == CloseTag(Run(OpenTag(s, tag), body), tag)
  {
    RunConcat(s, [Start(tag)] + body, [End(tag)]);
    RunConcat(s, [Start(tag)], body);
    assert Run(s, [Start(tag)]) == Step(Run(s, []), Start(tag));
    var t := Run(OpenTag(s, tag), body);
    assert Run(t, [End(tag)]) == Step(Run(t, []), End(tag));
  }

  lemma {:induction false} AllStreamIsTree(ns: seq<Node>, s: Scan)
    requires AllBalanced(ns)
    ensures Reads(s, Run(s, FlattenAll(ns)), AllVisible(ns), AnyHeading(ns))
    decreases ns
  {
    if ns == [] {
    } else {
      StreamIsTree(ns[0], s);
      var mid := Run(s, Flatten(ns[0]));
      AllStreamIsTree(ns[1..], mid);
      RunConcat(s, Flatten(ns[0]), FlattenAll(ns[1..]));
      hide Run, Flatten, Visible, HasHeading, Balanced, Reads;
      ReadsInTurn(s, mid, Run(mid, FlattenAll(ns[1..])), Visible(ns[0]), AllVisible(ns[1..]),
                  HasHeading(ns[0]), AnyHeading(ns[1..]));
    }
  }

  /** The title collected from a node: everything before it, then all or a part of the heading text;
      all of it exactly when no heading text follows a nested heading. */
  ghost predicate TitleOutcome(before: Scan, after: Scan, titled: seq<string>, whole: bool) {
    exists part: seq<string> :: IsPart(before, after, titled, whole, part)
  }

  ghost predicate IsPart(before: Scan, after: Scan, titled: seq<string>, whole: bool, part: seq<string>) {
    && after.title == before.title + part
    && (whole ==> part == titled)
    && (!whole ==> |part| < |titled|)
  }

  lemma {:induction false} TitleOfNode(n: Node, s: Scan, inside: bool, ended: bool)
    requires Balanced(n) && s.inHeading == (inside && !ended)
    ensures s.depth == 0 ==> TitleOutcome(s, Run(s, Flatten(n)), Titled(n, inside), TitleIsWhole(n, inside, ended))
    ensures s.depth > 0 ==> Run(s, Flatten(n)).title == s.title
    decreases n
  {
    match n {
      case Element(tag, children) =>
        var body := FlattenAll(children);
        var start := OpenTag(s, tag);
        TitleOfNodes(children, start, inside || Heading(tag), ended && !Heading(tag));
        ElementRun(s, tag, body);
        if s.depth == 0 {
          if Hidden(tag) {
            assert IsPart(s, Run(s, Flatten(n)), [], true, []);
          } else {
            var part :| IsPart(start, Run(start, body), AllTitled(children, inside || Heading(tag)),
                               AllTitlesWhole(children, inside || Heading(tag), ended && !Heading(tag)), part);
            assert IsPart(s, Run(s, Flatten(n)), Titled(n, inside), TitleIsWhole(n, inside, ended), part);
          }
        }
      case Closed(tag) =>
        assert Run(s, [SelfClosing(tag)]) == Step(Run(s, []), SelfClosing(tag));
        assert IsPart(s, Run(s, Flatten(n)), [], true, []);
      case Void(tag) =>
        assert Run(s, [Start(tag)]) == Step(Run(s, []), Start(tag));
        assert IsPart(s, Run(s, Flatten(n)), [], true, []);
      case Text(data) =>
        assert Run(s, [Data(data)]) == Step(Run(s, []), Data(data));
        assert s.depth == 0 ==>
          IsPart(s, Run(s, Flatten(n)), Titled(n, inside), TitleIsWhole(n, inside, ended),
                 if s.inHeading then [data] else []);
    }
  }

  lemma {:induction false} TitleOfNodes(ns: seq<Node>, s: Scan, inside: bool, ended: bool)
    requires AllBalanced(ns) && s.inHeading == (inside && !ended)
    ensures s.depth == 0 ==>
            TitleOutcome(s, Run(s, FlattenAll(ns)), AllTitled(ns, inside), AllTitlesWhole(ns, inside, ended))
    ensures s.depth > 0 ==> Run(s, FlattenAll(ns)).title == s.title
    decreases ns
  {
    if ns == [] {
      assert IsPart(s, s, [], true, []);
    } else {
      StreamIsTree(ns[0], s);
      TitleOfNode(ns[0], s, inside, ended);
      var mid, later := Run(s, Flatten(ns[0])), ended || HasHeading(ns[0]);
      TitleOfNodes(ns[1..], mid, inside, later);
      RunConcat(s, Flatten(ns[0]), FlattenAll(ns[1..]));
      hide Run, Flatten, Titled, TitleIsWhole, TitleOutcome;
      if s.depth == 0 {
        OutcomesChain(s, mid, Run(mid, FlattenAll(ns[1..])), Titled(ns[0], inside), AllTitled(ns[1..], inside),
                      TitleIsWhole(ns[0], inside, ended), AllTitlesWhole(ns[1..], inside, later));
      }
    }
  }

  lemma OutcomesChain(s: Scan, mid: Scan, end: Scan, first: seq<string>, second: seq<string>, p: bool, q: bool)
    requires TitleOutcome(s, mid, first, p) && TitleOutcome(mid, end, second, q)
    ensures TitleOutcome(s, end, first + second, p && q)
  {
    var a :| IsPart(s, mid, first, p, a);
    var b :| IsPart(mid, end, second, q, b);
    assert s.title + a + b == s.title + (a + b);
    assert |a| <= |first| && |b| <= |second|;
    assert IsPart(s, end, first + second, p && q, a + b);
  }

  /** The whole document, from a fresh parser: the text is the visible text, and the title is the
      visible heading text if and only if none of that text follows a heading nested in its heading. */
  lemma DocumentIsCollected(ns: seq<Node>)
    requires AllBalanced(ns)
    ensures var r := Run(Scan([], [], 0, false), FlattenAll(ns));
            && r.text == AllVisible(ns) && r.depth == 0 && !r.inHeading
            && (r.title == AllTitled(ns, false) <==> AllTitlesWhole(ns, false, false))
  {
    var s := Scan([], [], 0, false);
    AllStreamIsTree(ns, s);
    TitleOfNodes(ns, s, false, false);
    var r := Run(s, FlattenAll(ns));
    var part :| IsPart(s, r, AllTitled(ns, false), AllTitlesWhole(ns, false, false), part);
  }

  /** A heading that starts with a titled icon loses its text. */
  lemma TitledIconHidesTheHeading()
    ensures var icon := Element("svg", [Element("title", [Text("menu")])]);
            var doc := Element("h1", [icon, Text("Rates rise")]);
            Balanced(doc) && Titled(doc, false) == ["Rates rise"] &&
            Run(Scan([], [], 0, false), Flatten(doc)).title == []
  {
    var caption, words := Text("menu"), Text("Rates rise");
    var title := Element("title", [caption]);
    var icon := Element("svg", [title]);
    var doc := Element("h1", [icon, words]);
    var s := Scan([], [], 0, false);
    assert [icon, words][1..] == [words] && [words][1..] == [] && [title][1..] == [] && [caption][1..] == [];
    assert AllBalanced([]) && Balanced(caption) && Balanced(words);
    assert AllBalanced([caption]) && AllBalanced([title]) && AllBalanced([words]);
    assert Balanced(icon) && AllBalanced([icon, words]);
    assert AllTitled([words], true) == ["Rates rise"] && AllTitled([icon, words], true) == ["Rates rise"];
    assert AnyHeading([title]) && HasHeading(icon) && !TitleIsWhole(words, true, true);
    assert !AllTitlesWhole([words], true, true) && !AllTitlesWhole([icon, words], true, false);
    TitleOfNode(doc, s, false, false);
    var part :| IsPart(s, Run(s, Flatten(doc)), Titled(doc, false), TitleIsWhole(doc, false, false), part);
  }

  // ---------------------------------------------------------------- arbitrary token streams

  /** +1 for a hidden start tag, -1 for a hidden end tag. */
  function Weight(t: Token): int {
    match t
    case Start(tag) => if Hidden(tag) then 1 else 0
    case End(tag) => if Hidden(tag) then -1 else 0
    case _ => 0
  }

  function Balance(ts: seq<Token>): int {
    if ts == [] then 0 else Balance(ts[..|ts| - 1]) + Weight(ts[|ts| - 1])
  }

  /** `k` bounds the surplus of hidden start tags over end tags in every stretch that ends `ts`. */
  ghost predicate Bounds(k: int, ts: seq<Token>) {
    forall j :: 0 <= j <= |ts| ==> Balance(ts[j..]) <= k
  }

  lemma BalanceSnoc(ts: seq<Token>, j: nat)
    requires j < |ts|
    ensures Balance(ts[j..]) == Balance(ts[..|ts| - 1][j..]) + Weight(ts[|ts| - 1])
  {
    assert ts[j..][..|ts| - j - 1] == ts[..|ts| - 1][j..];
  }

  /** However unbalanced the stream, the depth is the largest surplus of hidden start tags over end
      tags in any stretch up to here (counting the depth at the start for the whole stream): it
      never goes below zero, and stray end tags are forgotten. */
  lemma {:induction false} DepthIsLargestSurplus(s: Scan, ts: seq<Token>)
    ensures var d := Run(s, ts).depth;
            && s.depth + Balance(ts) <= d && Bounds(d, ts)
            && (d == s.depth + Balance(ts) || exists j: nat :: j <= |ts| && Balance(ts[j..]) == d)
  {
    if ts == [] {
      assert forall j :: 0 <= j <= |ts| ==> ts[j..] == [];
    } else {
      var init, last := ts[..|ts| - 1], ts[|ts| - 1];
      DepthIsLargestSurplus(s, init);
      var e, d := Run(s, init).depth, Run(s, ts).depth;
      assert d == if e + Weight(last) < 0 then 0 else e + Weight(last);
      assert ts[|ts|..] == [];
      forall j | 0 <= j <= |ts| ensures Balance(ts[j..]) <= d {
        if j < |ts| {
          BalanceSnoc(ts, j);
        }
      }
      if e + Weight(last) < 0 {
        assert Balance(ts[|ts|..]) == d;
      } else if e != s.depth + Balance(init) {
        var j: nat :| j <= |init| && Balance(init[j..]) == e;
        BalanceSnoc(ts, j);
      }
    }
  }

  /** On any stream into a fresh parser, a piece of data is kept iff no stretch of tokens ending
      just before it opens more hidden elements than it closes. */
  lemma DataIsKeptIff(before: seq<Token>, data: string)
    ensures var s := Run(Scan([], [], 0, false), before);
            var r := Run(Scan([], [], 0, false), before + [Data(data)]);
            r.text == s.text + (if Bounds(0, before) then [data] else [])
  {
    var start := Scan([], [], 0, false);
    DepthIsLargestSurplus(start, before);
    assert (before + [Data(data)])[..|before|] == before;
    assert before[0..] == before;
    assert before[|before|..] == [];
  }
}
