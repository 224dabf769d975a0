/** A structural model of the HTML fragments the blog pages build with
    template literals, a serialiser that writes them out, and queries
    (elements by tag, class or attribute; their text; their attribute values)
    used to state what a rendered fragment contains.

    The serialiser interpolates text verbatim: like the templates it models,
    it performs no HTML escaping. */
module Markup {
  import opened Wrappers

  /** One attribute `name="value"`. */
  datatype Attr = Attr(name: string, value: string)

  /** A node of a fragment: text, an element with children, or a void
      element (`<img>`), which has no closing tag. */
  datatype Node =
    | Text(content: string)
    | Element(tag: string, attrs: seq<Attr>, children: seq<Node>)
    | Void(tag: string, attrs: seq<Attr>)

  /** `Array.prototype.join('')`: the parts one after another. */
  function Join(parts: seq<string>): string
  {
    if |parts| == 0 then "" else parts[0] + Join(parts[1..])
  }

  /** The attributes as written inside a start tag: ` name="value"` each. */
  function AttrsHtml(attrs: seq<Attr>): string
  {
    if |attrs| == 0 then ""
    else " " + attrs[0].name + "=\"" + attrs[0].value + "\"" + AttrsHtml(attrs[1..])
  }

  /** The markup text of a fragment. */
  function Html(ns: seq<Node>): string
    decreases ns
  {
    if |ns| == 0 then "" else NodeHtml(ns[0]) + Html(ns[1..])
  }

  function NodeHtml(n: Node): string
    decreases n
  {
    match n
    case Text(s) => s
    case Element(t, a, ch) => "<" + t + AttrsHtml(a) + ">" + Html(ch) + "</" + t + ">"
    case Void(t, a) => "<" + t + AttrsHtml(a) + ">"
  }

  /** Serialising two fragments side by side is concatenating their markup. */
  lemma {:induction false} HtmlAppend(a: seq<Node>, b: seq<Node>)
    ensures Html(a + b) == Html(a) + Html(b)
  {
    if |a| == 0 {
      assert a + b == b;
    } else {
      assert (a + b)[1..] == a[1..] + b;
      HtmlAppend(a[1..], b);
    }
  }

  /** A fragment's markup is the `join('')` of its nodes' markup. */
  lemma {:induction false} HtmlIsJoin(ns: seq<Node>)
    ensures Html(ns) == Join(seq(|ns|, i requires 0 <= i < |ns| => NodeHtml(ns[i])))
  {
    if |ns| > 0 {
      HtmlIsJoin(ns[1..]);
      var parts := seq(|ns|, i requires 0 <= i < |ns| => NodeHtml(ns[i]));
      assert parts[1..] == seq(|ns[1..]|, i requires 0 <= i < |ns[1..]| => NodeHtml(ns[1..][i]));
    }
  }

  lemma {:induction false} HtmlOne(n: Node)
    ensures Html([n]) == NodeHtml(n)
  {
    assert [n][1..] == [];
  }

  lemma {:induction false} AttrsHtmlOne(a: Attr)
    ensures AttrsHtml([a]) == " " + a.name + "=\"" + a.value + "\""
  {
    assert [a][1..] == [];
  }

  /** The attributes of a node (text has none). */
  function AttrsOf(n: Node): seq<Attr>
  {
    match n
    case Text(_) => []
    case Element(_, a, _) => a
    case Void(_, a) => a
  }

  /** The value of the first attribute called `name`, as `getAttribute` reads it. */
  function Lookup(attrs: seq<Attr>, name: string): Option<string>
  {
    if |attrs| == 0 then None
    else if attrs[0].name == name then Some(attrs[0].value)
    else Lookup(attrs[1..], name)
  }

  lemma {:induction false} LookupAbsent(attrs: seq<Attr>, name: string)
    requires forall i :: 0 <= i < |attrs| ==> attrs[i].name != name
    ensures Lookup(attrs, name) == None
  {
    if |attrs| > 0 {
      LookupAbsent(attrs[1..], name);
    }
  }

  lemma {:induction false} LookupFound(attrs: seq<Attr>, k: nat, name: string)
    requires k < |attrs| && attrs[k].name == name
    requires forall i :: 0 <= i < k ==> attrs[i].name != name
    ensures Lookup(attrs, name) == Some(attrs[k].value)
  {
    if k > 0 {
      LookupFound(attrs[1..], k - 1, name);
    }
  }

  function ValueOr(o: Option<string>, default: string): string
  {
    match o
    case Some(v) => v
    case None => default
  }

  /** What to look for in a fragment. `ClassIs` compares the whole class
      attribute, so `ClassIs("post-body glass")` finds `class="post-body glass"`. */
  datatype Selector = TagIs(tag: string) | ClassIs(cls: string) | HasAttr(name: string)

  predicate Matches(n: Node, sel: Selector)
  {
    match sel
    case TagIs(t) => !n.Text? && n.tag == t
    case ClassIs(c) => Lookup(AttrsOf(n), "class") == Some(c)
    case HasAttr(a) => Lookup(AttrsOf(n), a).Some?
  }

  /** The elements of a fragment that match `sel`, in document order
      (a parent before its descendants). */
  function Select(ns: seq<Node>, sel: Selector): seq<Node>
    decreases ns
  {
    if |ns| == 0 then [] else SelectIn(ns[0], sel) + Select(ns[1..], sel)
  }

  /** The matching elements of the subtree rooted at `n`. */
  function SelectIn(n: Node, sel: Selector): seq<Node>
    decreases n
  {
    Hit(n, sel) + (if n.Element? then Select(n.children, sel) else [])
  }

  /** The node itself when it matches, nothing otherwise. */
  function Hit(n: Node, sel: Selector): seq<Node>
  {
    if Matches(n, sel) then [n] else []
  }

  lemma {:induction false} SelectAppend(a: seq<Node>, b: seq<Node>, sel: Selector)
    ensures Select(a + b, sel) == Select(a, sel) + Select(b, sel)
  {
    if |a| == 0 {
      assert a + b == b;
    } else {
      assert (a + b)[1..] == a[1..] + b;
      SelectAppend(a[1..], b, sel);
    }
  }

  lemma {:induction false} SelectCons(n: Node, ns: seq<Node>, sel: Selector)
    ensures Select([n] + ns, sel) == SelectIn(n, sel) + Select(ns, sel)
  {
    assert ([n] + ns)[1..] == ns;
  }

  lemma {:induction false} SelectOne(n: Node, sel: Selector)
    ensures Select([n], sel) == SelectIn(n, sel)
  {
    assert [n][1..] == [];
  }

  /** `textContent`: the text of a fragment with all tags removed. */
  function TextOf(ns: seq<Node>): string
    decreases ns
  {
    if |ns| == 0 then "" else NodeText(ns[0]) + TextOf(ns[1..])
  }

  function NodeText(n: Node): string
    decreases n
  {
    match n
    case Text(s) => s
    case Element(_, _, ch) => TextOf(ch)
    case Void(_, _) => ""
  }

  lemma {:induction false} TextOfOne(n: Node)
    ensures TextOf([n]) == NodeText(n)
  {
    assert [n][1..] == [];
  }

  /** The number of elements matching `sel`. */
  function Count(ns: seq<Node>, sel: Selector): nat
  {
    |Select(ns, sel)|
  }

  /** The text of every element matching `sel`, in document order. */
  function Texts(ns: seq<Node>, sel: Selector): seq<string>
  {
    var es := Select(ns, sel);
    seq(|es|, i requires 0 <= i < |es| => NodeText(es[i]))
  }

  /** The value of attribute `name` on every element carrying it, in document order. */
  function Values(ns: seq<Node>, name: string): seq<string>
  {
    var es := Select(ns, HasAttr(name));
    seq(|es|, i requires 0 <= i < |es| => ValueOr(Lookup(AttrsOf(es[i]), name), ""))
  }

  /** Every link target of a fragment, in document order. */
  function Hrefs(ns: seq<Node>): seq<string>
  {
    Values(ns, "href")
  }

  lemma {:induction false} TextsAppend(a: seq<Node>, b: seq<Node>, sel: Selector)
    ensures Texts(a + b, sel) == Texts(a, sel) + Texts(b, sel)
  {
    SelectAppend(a, b, sel);
  }

  lemma {:induction false} CountAppend(a: seq<Node>, b: seq<Node>, sel: Selector)
    ensures Count(a + b, sel) == Count(a, sel) + Count(b, sel)
  {
    SelectAppend(a, b, sel);
  }

  lemma {:induction false} ValuesAppend(a: seq<Node>, b: seq<Node>, name: string)
    ensures Values(a + b, name) == Values(a, name) + Values(b, name)
  {
    SelectAppend(a, b, HasAttr(name));
  }
}
