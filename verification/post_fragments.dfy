/** Markup pieces that the list page and the post page build the same way:
    an element with a class, the tag chips of a post and its date/author line. */
module PostFragments {
  import opened Wrappers
  import opened Markup
  import opened Posts

  /** `<tag class="cls">children</tag>`. */
  function Classed(tag: string, cls: string, children: seq<Node>): (n: Node)
    ensures n.Element? && n.tag == tag && n.children == children
    ensures Lookup(n.attrs, "class") == Some(cls)
    ensures forall name :: name != "class" ==> Lookup(n.attrs, name) == None
  {
    var n := Element(tag, [Attr("class", cls)], children);
    assert n.attrs[1..] == [];
    n
  }

  /** The nodes `s` when `b` holds, none otherwise. */
  function When(b: bool, s: seq<Node>): seq<Node>
  {
    if b then s else []
  }

  /** A classed element is picked out by its own class and by no other. */
  lemma {:induction false} ClassedHit(tag: string, cls: string, children: seq<Node>, c: string)
    ensures Hit(Classed(tag, cls, children), ClassIs(c)) == When(c == cls, [Classed(tag, cls, children)])
  {
  }

  /** A text node never matches a selector: only elements are selected. */
  lemma {:induction false} TextNeverMatches(s: string, sel: Selector)
    ensures Select([Text(s)], sel) == []
  {
    assert SelectIn(Text(s), sel) == [];
  }

  /** Selecting inside a one-text-child element finds at most the element itself. */
  lemma {:induction false} SelectLabelled(tag: string, attrs: seq<Attr>, s: string, sel: Selector)
    ensures Select([Element(tag, attrs, [Text(s)])], sel) == Hit(Element(tag, attrs, [Text(s)]), sel)
  {
    TextNeverMatches(s, sel);
  }

  /** One tag chip: `<span class="post-tag">tag</span>`. */
  function TagSpan(tag: string): Node
  {
    Classed("span", "post-tag", [Text(tag)])
  }

  /** `tags.map(tag => <span class="post-tag">tag</span>)`. */
  function TagSpans(tags: seq<string>): seq<Node>
  {
    if |tags| == 0 then [] else [TagSpan(tags[0])] + TagSpans(tags[1..])
  }

  /** The chips are selected exactly by what selects a chip, whatever its text. */
  lemma {:induction false} TagSpansSelect(tags: seq<string>, sel: Selector)
    ensures Select(TagSpans(tags), sel) == (if Matches(TagSpan(""), sel) then TagSpans(tags) else [])
  {
    if |tags| > 0 {
      var rest := TagSpans(tags[1..]);
      SelectAppend([TagSpan(tags[0])], rest, sel);
      SelectLabelled("span", [Attr("class", "post-tag")], tags[0], sel);
      TagSpansSelect(tags[1..], sel);
    }
  }

  /** The chips show the tags, one chip per tag, in tag order. */
  lemma {:induction false} TagSpansShowTags(tags: seq<string>)
    ensures Texts(TagSpans(tags), ClassIs("post-tag")) == tags
  {
    TagSpansSelect(tags, ClassIs("post-tag"));
    var es := TagSpans(tags);
    TagSpansAt(tags);
    forall i | 0 <= i < |tags| ensures NodeText(es[i]) == tags[i] {
      TextOfOne(Text(tags[i]));
    }
  }

  lemma {:induction false} TagSpansAt(tags: seq<string>)
    ensures |TagSpans(tags)| == |tags|
    ensures forall i :: 0 <= i < |tags| ==> TagSpans(tags)[i] == TagSpan(tags[i])
  {
    if |tags| > 0 {
      TagSpansAt(tags[1..]);
      forall i | 0 < i < |tags| ensures TagSpans(tags)[i] == TagSpan(tags[i]) {
        assert TagSpans(tags)[i] == TagSpans(tags[1..])[i - 1];
      }
    }
  }

  /** The serialised chips are the list page's `tags.map(...).join('')`, one
      `<span class="post-tag">…</span>` per tag. */
  lemma {:induction false} TagSpansHtml(tags: seq<string>)
    ensures Html(TagSpans(tags))
         == Join(seq(|tags|, i requires 0 <= i < |tags| => "<span class=\"post-tag\">" + tags[i] + "</span>"))
  {
    var es := TagSpans(tags);
    HtmlIsJoin(es);
    TagSpansAt(tags);
    forall i | 0 <= i < |tags|
      ensures NodeHtml(es[i]) == "<span class=\"post-tag\">" + tags[i] + "</span>"
    {
      TagSpanHtml(tags[i]);
    }
    assert seq(|es|, i requires 0 <= i < |es| => NodeHtml(es[i]))
        == seq(|tags|, i requires 0 <= i < |tags| => "<span class=\"post-tag\">" + tags[i] + "</span>");
  }

  lemma {:induction false} TagSpanHtml(tag: string)
    ensures NodeHtml(TagSpan(tag)) == "<span class=\"post-tag\">" + tag + "</span>"
  {
    HtmlOne(Text(tag));
    AttrsHtmlOne(Attr("class", "post-tag"));
  }

  /** The date and author line: `<div class="post-meta">` holding the
      formatted date and `by <author>`. */
  function PostMeta(post: Post, formatDate: int -> string): Node
  {
    Classed("div", "post-meta", [
      Classed("span", "post-date", [Text(formatDate(post.date))]),
      Classed("span", "post-author", [Text("by " + post.author)])])
  }

  lemma {:induction false} PostMetaSelect(post: Post, formatDate: int -> string, sel: Selector)
    ensures var m := PostMeta(post, formatDate);
      Select([m], sel) == Hit(m, sel) + Hit(m.children[0], sel) + Hit(m.children[1], sel)
  {
    var m := PostMeta(post, formatDate);
    SelectOne(m, sel);
    SelectCons(m.children[0], [m.children[1]], sel);
    assert m.children == [m.children[0]] + [m.children[1]];
    SelectLabelled("span", [Attr("class", "post-date")], formatDate(post.date), sel);
    SelectLabelled("span", [Attr("class", "post-author")], "by " + post.author, sel);
  }

  /** The date and author line shows the formatted date, then `by <author>`. */
  lemma {:induction false} PostMetaTexts(post: Post, formatDate: int -> string)
    ensures var m := PostMeta(post, formatDate);
      && NodeText(m.children[0]) == formatDate(post.date)
      && NodeText(m.children[1]) == "by " + post.author
  {
    TextOfOne(Text(formatDate(post.date)));
    TextOfOne(Text("by " + post.author));
  }
}
