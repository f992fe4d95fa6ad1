/**
 * The rich-text serialization rules of the public story page: three rules, one
 * per Slate `object` kind (block, mark, inline), each switching on the node's
 * `type` string and answering with one HTML element or with nothing.
 */
module SlateRules {
  import opened Wrappers

  /** A node of a stored Slate document as the rules see it. The constructor is
      the node's `object` kind, `kind` its `type` string and `data` its data map. */
  datatype Node =
    | Block(kind: string, data: map<string, string>, nodes: seq<Node>)
    | Mark(kind: string, data: map<string, string>, nodes: seq<Node>)
    | Inline(kind: string, data: map<string, string>, nodes: seq<Node>)
    | Text(text: string)

  /** An output fragment: an HTML element with its attributes and children, or a run of text. */
  datatype Fragment =
    | Element(tag: string, attrs: map<string, string>, children: seq<Fragment>)
    | TextRun(text: string)

  /** The block table: each known block `type` and the element it becomes. */
  const BlockTags: map<string, string> := map[
    "paragraph" := "p",
    "block-quote" := "blockquote",
    "image" := "img",
    "list-item" := "li",
    "numbered-list" := "ol",
    "bulleted-list" := "ul",
    "heading-one" := "h1",
    "heading-two" := "h2",
    "heading-three" := "h3"
  ]

  /** The mark table. */
  const MarkTags: map<string, string> := map[
    "bold" := "strong",
    "italic" := "em",
    "underlined" := "u"
  ]

  /** The inline table. */
  const InlineTags: map<string, string> := map["link" := "a"]

  /** The elements that copy one entry of the node's data into an attribute of the same name. */
  const DataAttribute: map<string, string> := map["p" := "className", "img" := "src", "a" := "href"]

  /** Every element the rules can emit, with the attributes it may carry. */
  const EmittedAttributes: map<string, set<string>> := map[
    "p" := {"className"},
    "blockquote" := {},
    "img" := {"src"},
    "li" := {},
    "ol" := {},
    "ul" := {},
    "h1" := {},
    "h2" := {},
    "h3" := {},
    "strong" := {},
    "em" := {},
    "u" := {},
    "a" := {"href"}
  ]

  /** A JSX attribute `key={data.get(key)}`: present with the data's value when the
      data has the key; a missing key gives `undefined`, which renders no attribute. */
  function Pick(data: map<string, string>, key: string): (a: map<string, string>)
    ensures a.Keys <= {key}
    ensures key in a <==> key in data
    ensures key in a ==> a[key] == data[key]
  {
    if key in data then map[key := data[key]] else map[]
  }

  /** What the tables say a node with element `tag` becomes: the element takes its
      data attribute (if it has one) and wraps the children, except `img`, which is empty. */
  function TableFragment(tag: string, data: map<string, string>, children: seq<Fragment>): Fragment
  {
    Element(tag,
            if tag in DataAttribute then Pick(data, DataAttribute[tag]) else map[],
            if tag == "img" then [] else children)
  }

  /** The first rule: blocks. */
  function SerializeBlock(obj: Node, children: seq<Fragment>): (r: Option<Fragment>)
    ensures r.Some? <==> obj.Block? && obj.kind in BlockTags
    ensures r.Some? ==> r.value == TableFragment(BlockTags[obj.kind], obj.data, children)
  {
    if obj.Block? then
      match obj.kind
      case "paragraph" => Some(Element("p", Pick(obj.data, "className"), children))
      case "block-quote" => Some(Element("blockquote", map[], children))
      case "image" => Some(Element("img", Pick(obj.data, "src"), []))
      case "list-item" => Some(Element("li", map[], children))
      case "numbered-list" => Some(Element("ol", map[], children))
      case "bulleted-list" => Some(Element("ul", map[], children))
      case "heading-one" => Some(Element("h1", map[], children))
      case "heading-two" => Some(Element("h2", map[], children))
      case "heading-three" => Some(Element("h3", map[], children))
      case _ => None
    else
      None
  }

  /** The second rule: marks. */
  function SerializeMark(obj: Node, children: seq<Fragment>): (r: Option<Fragment>)
    ensures r.Some? <==> obj.Mark? && obj.kind in MarkTags
    ensures r.Some? ==> r.value == TableFragment(MarkTags[obj.kind], obj.data, children)
  {
    if obj.Mark? then
      match obj.kind
      case "bold" => Some(Element("strong", map[], children))
      case "italic" => Some(Element("em", map[], children))
      case "underlined" => Some(Element("u", map[], children))
      case _ => None
    else
      None
  }

  /** The third rule: inlines. */
  function SerializeInline(obj: Node, children: seq<Fragment>): (r: Option<Fragment>)
    ensures r.Some? <==> obj.Inline? && obj.kind in InlineTags
    ensures r.Some? ==> r.value == TableFragment(InlineTags[obj.kind], obj.data, children)
  {
    if obj.Inline? then
      match obj.kind
      case "link" => Some(Element("a", Pick(obj.data, "href"), children))
      case _ => None
    else
      None
  }

  /** The entries of the `rules` array. */
  datatype Rule = BlockRule | MarkRule | InlineRule

  /** The `rules` array in its declared order. */
  const Rules: seq<Rule> := [BlockRule, MarkRule, InlineRule]

  function Apply(rule: Rule, obj: Node, children: seq<Fragment>): Option<Fragment>
  {
    match rule
    case BlockRule => SerializeBlock(obj, children)
    case MarkRule => SerializeMark(obj, children)
    case InlineRule => SerializeInline(obj, children)
  }

  /** The rule whose `object` guard admits a node. */
  function OwnerRule(obj: Node): Option<Rule>
  {
    match obj
    case Block(_, _, _) => Some(BlockRule)
    case Mark(_, _, _) => Some(MarkRule)
    case Inline(_, _, _) => Some(InlineRule)
    case Text(_) => None
  }

  /** The element the kind/type table gives a node, if its pair is in the table. */
  function TableTag(obj: Node): Option<string>
  {
    match obj
    case Block(k, _, _) => if k in BlockTags then Some(BlockTags[k]) else None
    case Mark(k, _, _) => if k in MarkTags then Some(MarkTags[k]) else None
    case Inline(k, _, _) => if k in InlineTags then Some(InlineTags[k]) else None
    case Text(_) => None
  }

  /** The rules are disjoint: only the rule owning the node's `object` kind can answer,
      and some rule answers exactly when the node's kind/type pair is in the table,
      with the element that table names. */
  lemma RulesDisjoint(obj: Node, children: seq<Fragment>, rule: Rule)
    ensures Apply(rule, obj, children).Some? ==> OwnerRule(obj) == Some(rule)
    ensures Apply(rule, obj, children).Some? ==> TableTag(obj).Some?
    ensures Apply(rule, obj, children).Some? ==> Apply(rule, obj, children).value.tag == TableTag(obj).value
    ensures OwnerRule(obj) == Some(rule) && TableTag(obj).Some? ==> Apply(rule, obj, children).Some?
  {
  }

  /** The answer of the first rule in `rules` that answers, if any. */
  function FirstAnswer(rules: seq<Rule>, obj: Node, children: seq<Fragment>): Option<Fragment>
  {
    if rules == [] then None
    else
      var r := Apply(rules[0], obj, children);
      if r.Some? then r else FirstAnswer(rules[1..], obj, children)
  }

  /** Consulting any list of rules gives the owning rule's answer if that rule is in the
      list, and nothing otherwise. */
  lemma {:induction false} FirstAnswerIsOwner(rules: seq<Rule>, obj: Node, children: seq<Fragment>)
    ensures FirstAnswer(rules, obj, children)
            == if OwnerRule(obj).Some? && OwnerRule(obj).value in rules
               then Apply(OwnerRule(obj).value, obj, children)
               else None
  {
    if rules != [] {
      FirstAnswerIsOwner(rules[1..], obj, children);
      RulesDisjoint(obj, children, rules[0]);
      assert rules == [rules[0]] + rules[1..];
    }
  }

  /** Because the rules are disjoint, the order in which they are consulted does not matter. */
  lemma OrderIrrelevant(rules1: seq<Rule>, rules2: seq<Rule>, obj: Node, children: seq<Fragment>)
    requires forall rule :: rule in rules1 <==> rule in rules2
    ensures FirstAnswer(rules1, obj, children) == FirstAnswer(rules2, obj, children)
  {
    FirstAnswerIsOwner(rules1, obj, children);
    FirstAnswerIsOwner(rules2, obj, children);
  }

  /** The `rules` array answers a node exactly when its kind/type pair is in the table,
      with the table's fragment; a node outside the table gets nothing from any rule. */
  lemma RulesAnswerTable(obj: Node, children: seq<Fragment>)
    ensures FirstAnswer(Rules, obj, children).Some? <==> TableTag(obj).Some?
    ensures TableTag(obj).Some? ==>
              FirstAnswer(Rules, obj, children) == Some(TableFragment(TableTag(obj).value, obj.data, children))
    ensures TableTag(obj).None? ==> forall rule :: Apply(rule, obj, children).None?
  {
    FirstAnswerIsOwner(Rules, obj, children);
  }

  /** A tree built only from node types the table knows (text leaves aside). */
  predicate Known(n: Node)
  {
    match n
    case Text(_) => true
    case Block(k, _, ns) => k in BlockTags && forall c | c in ns :: Known(c)
    case Mark(k, _, ns) => k in MarkTags && forall c | c in ns :: Known(c)
    case Inline(k, _, ns) => k in InlineTags && forall c | c in ns :: Known(c)
  }

  /** A fragment built only from the elements and attributes the rules emit, with `img` empty. */
  predicate Emitted(f: Fragment)
  {
    match f
    case TextRun(_) => true
    case Element(tag, attrs, cs) =>
      && tag in EmittedAttributes
      && attrs.Keys <= EmittedAttributes[tag]
      && (tag == "img" ==> cs == [])
      && forall c | c in cs :: Emitted(c)
  }

  /** Every element the table names, filled from any data around emitted children, is emitted. */
  lemma TableFragmentEmitted(obj: Node, data: map<string, string>, children: seq<Fragment>)
    requires TableTag(obj).Some?
    requires forall i | 0 <= i < |children| :: Emitted(children[i])
    ensures Emitted(TableFragment(TableTag(obj).value, data, children))
  {
    var f := TableFragment(TableTag(obj).value, data, children);
    forall c | c in f.children ensures Emitted(c) {
      var i :| 0 <= i < |children| && children[i] == c;
    }
  }

  /** Renders a tree of known types: the children first, then the node's rule wraps them.
      How a text leaf becomes a string is given by `leaf`. */
  function Render(n: Node, leaf: string -> string): (r: Fragment)
    requires Known(n)
    ensures n.Text? ==> r == TextRun(leaf(n.text))
    ensures !n.Text? ==> r == TableFragment(TableTag(n).value, n.data, RenderAll(n.nodes, leaf))
    ensures Emitted(r)
    decreases n, 1
  {
    match n
    case Text(s) => TextRun(leaf(s))
    case _ =>
      var children := RenderAll(n.nodes, leaf);
      RulesAnswerTable(n, children);
      TableFragmentEmitted(n, n.data, children);
      FirstAnswer(Rules, n, children).value
  }

  /** Renders a sequence of sibling nodes, in order. */
  function RenderAll(ns: seq<Node>, leaf: string -> string): (rs: seq<Fragment>)
    requires forall c | c in ns :: Known(c)
    ensures |rs| == |ns|
    ensures forall i | 0 <= i < |rs| :: rs[i] == Render(ns[i], leaf)
    ensures forall i | 0 <= i < |rs| :: Emitted(rs[i])
    decreases ns, 0
  {
    if ns == [] then [] else [Render(ns[0], leaf)] + RenderAll(ns[1..], leaf)
  }

  /** Text leaves rendered as they are. */
  function Verbatim(text: string): string
  {
    text
  }

  /** A paragraph holding "Bye" and an empty link to `http://x` renders as
      `<p>Bye<a href="http://x"></a></p>`. */
  lemma RenderParagraphWithLink()
    ensures
      var para := Block("paragraph", map[], [Text("Bye"), Inline("link", map["href" := "http://x"], [])]);
      Known(para)
      && Render(para, Verbatim)
         == Element("p", map[], [TextRun("Bye"), Element("a", map["href" := "http://x"], [])])
  {
    var a := Element("a", map["href" := "http://x"], []);
    var link := Inline("link", map["href" := "http://x"], []);
    assert Render(link, Verbatim) == a by {
      assert RenderAll([], Verbatim) == [];
    }
    var bye := [Text("Bye"), link];
    var kids := RenderAll(bye, Verbatim);
    assert kids == [TextRun("Bye"), a] by {
      assert |kids| == 2 && kids[0] == Render(Text("Bye"), Verbatim) && kids[1] == Render(link, Verbatim);
    }
    var para := Block("paragraph", map[], bye);
    assert Render(para, Verbatim) == TableFragment("p", map[], kids);
  }

  /** A heading-one holding "Hi" renders as `<h1>Hi</h1>`. */
  lemma RenderHeading()
    ensures
      var head := Block("heading-one", map[], [Text("Hi")]);
      Known(head) && Render(head, Verbatim) == Element("h1", map[], [TextRun("Hi")])
  {
    var kids := RenderAll([Text("Hi")], Verbatim);
    assert kids == [TextRun("Hi")] by {
      assert |kids| == 1 && kids[0] == Render(Text("Hi"), Verbatim);
    }
    assert Render(Block("heading-one", map[], [Text("Hi")]), Verbatim) == TableFragment("h1", map[], kids);
  }

  /** A heading followed by a paragraph holding text and an empty link renders as
      `<h1>Hi</h1><p>Bye<a href="http://x"></a></p>`. */
  lemma RenderHeadingAndParagraph()
    ensures
      var doc := [Block("heading-one", map[], [Text("Hi")]),
                  Block("paragraph", map[], [Text("Bye"), Inline("link", map["href" := "http://x"], [])])];
      (forall c | c in doc :: Known(c))
      && RenderAll(doc, Verbatim)
         == [Element("h1", map[], [TextRun("Hi")]),
             Element("p", map[], [TextRun("Bye"), Element("a", map["href" := "http://x"], [])])]
  {
    RenderHeading();
    RenderParagraphWithLink();
    var doc := [Block("heading-one", map[], [Text("Hi")]),
                Block("paragraph", map[], [Text("Bye"), Inline("link", map["href" := "http://x"], [])])];
    var out := RenderAll(doc, Verbatim);
    assert |out| == 2 && out[0] == Render(doc[0], Verbatim) && out[1] == Render(doc[1], Verbatim);
  }
}
