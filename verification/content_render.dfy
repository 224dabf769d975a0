/** The content-block dispatch of the post page (`renderContentBlock` in
    blog/blog-post.js) and the post body built from it. */
module ContentRender {
  import opened Wrappers
  import opened Markup
  import opened Posts
  import opened PostFragments

  /** A caption element, present only when the caption is truthy. */
  function CaptionOf(tag: string, attrs: seq<Attr>, caption: Option<string>): seq<Node>
  {
    if Present(caption) then [Element(tag, attrs, [Text(caption.value)])] else []
  }

  /** `item.alt || ''`. */
  function AltText(alt: Option<string>): string
  {
    if Present(alt) then alt.value else ""
  }

  /** `<li>item</li>` for each item, in order. */
  function ListItems(items: seq<string>): seq<Node>
  {
    if |items| == 0 then [] else [Element("li", [], [Text(items[0])])] + ListItems(items[1..])
  }

  /** The link of a video block: the label and, when given, the caption. */
  function VideoLink(url: string, caption: Option<string>): Node
  {
    Element("a", [Attr("href", url), Attr("target", "_blank"), Attr("rel", "noopener"), Attr("class", "video-link")],
      [Element("p", [], [Element("strong", [], [Text("Watch Video on LinkedIn")])])]
      + CaptionOf("p", [Attr("class", "video-caption")], caption))
  }

  const VideoNote: Node :=
    Classed("p", "video-note", [Element("em", [], [Text("Note: Video hosted on LinkedIn. Click to view in a new tab.")])])

  function VideoEmbed(url: string, caption: Option<string>): Node
  {
    Classed("div", "video-embed", [Classed("div", "video-placeholder", [VideoLink(url, caption)]), VideoNote])
  }

  function ImageFigure(url: string, alt: Option<string>, caption: Option<string>): Node
  {
    Classed("figure", "post-image",
      [Void("img", [Attr("src", url), Attr("alt", AltText(alt)), Attr("loading", "lazy")])]
      + CaptionOf("figcaption", [], caption))
  }

  /** The markup of one block: a closed dispatch on its type, with nothing
      at all for a type it does not recognise. */
  function RenderContentBlock(b: Block): (r: seq<Node>)
    ensures r == [] <==> TypeName(b) !in KnownTypes
    ensures |r| <= 1
  {
    match b
    case Paragraph(t) => [Element("p", [], [Text(t)])]
    case Heading(t) => [Element("h2", [], [Text(t)])]
    case List(items) => [Element("ul", [], ListItems(items))]
    case Video(url, caption) => [VideoEmbed(url, caption)]
    case Image(url, alt, caption) => [ImageFigure(url, alt, caption)]
    case Quote(t) => [Element("blockquote", [], [Text(t)])]
    case Unrecognised(_) => []
  }

  /** The body of a post: the blocks' markup, one after another. */
  function RenderBody(content: seq<Block>): seq<Node>
  {
    if |content| == 0 then [] else RenderContentBlock(content[0]) + RenderBody(content[1..])
  }

  lemma {:induction false} WrapHtml(tag: string, t: string)
    ensures Html([Element(tag, [], [Text(t)])]) == "<" + tag + ">" + t + "</" + tag + ">"
  {
    HtmlOne(Element(tag, [], [Text(t)]));
    HtmlOne(Text(t));
  }

  lemma {:induction false} WrapText(tag: string, t: string)
    ensures TextOf([Element(tag, [], [Text(t)])]) == t
  {
    TextOfOne(Element(tag, [], [Text(t)]));
    TextOfOne(Text(t));
  }

  /** A paragraph block is its text, unescaped, inside `<p>`, and shows nothing else. */
  lemma {:induction false} ParagraphMarkup(t: string)
    ensures Html(RenderContentBlock(Paragraph(t))) == "<p>" + t + "</p>"
    ensures TextOf(RenderContentBlock(Paragraph(t))) == t
  {
    WrapText("p", t);
    WrapHtml("p", t);
  }

  /** A heading block is its text, unescaped, inside `<h2>`, and shows nothing else. */
  lemma {:induction false} HeadingMarkup(t: string)
    ensures Html(RenderContentBlock(Heading(t))) == "<h2>" + t + "</h2>"
    ensures TextOf(RenderContentBlock(Heading(t))) == t
  {
    WrapText("h2", t);
    WrapHtml("h2", t);
  }

  /** A quote block is its text, unescaped, inside `<blockquote>`, and shows nothing else. */
  lemma {:induction false} QuoteMarkup(t: string)
    ensures Html(RenderContentBlock(Quote(t))) == "<blockquote>" + t + "</blockquote>"
    ensures TextOf(RenderContentBlock(Quote(t))) == t
  {
    WrapText("blockquote", t);
    WrapHtml("blockquote", t);
  }

  lemma {:induction false} ListItemsSelect(items: seq<string>, sel: Selector)
    ensures Select(ListItems(items), sel) == (if Matches(Element("li", [], []), sel) then ListItems(items) else [])
  {
    if |items| > 0 {
      SelectAppend([Element("li", [], [Text(items[0])])], ListItems(items[1..]), sel);
      SelectLabelled("li", [], items[0], sel);
      ListItemsSelect(items[1..], sel);
    }
  }

  lemma {:induction false} ListItemsAt(items: seq<string>)
    ensures |ListItems(items)| == |items|
    ensures forall i :: 0 <= i < |items| ==> ListItems(items)[i] == Element("li", [], [Text(items[i])])
  {
    if |items| > 0 {
      ListItemsAt(items[1..]);
      forall i | 0 < i < |items| ensures ListItems(items)[i] == Element("li", [], [Text(items[i])]) {
        assert ListItems(items)[i] == ListItems(items[1..])[i - 1];
      }
    }
  }

  /** A list block is one `<ul>` holding exactly one `<li>` per item, in item order. */
  lemma {:induction false} ListBlockItems(items: seq<string>)
    ensures Texts(RenderContentBlock(List(items)), TagIs("li")) == items
    ensures Count(RenderContentBlock(List(items)), TagIs("ul")) == 1
  {
    var ul := Element("ul", [], ListItems(items));
    var lis := ListItems(items);
    ListItemsAt(items);
    SelectOne(ul, TagIs("li"));
    ListItemsSelect(items, TagIs("li"));
    forall i | 0 <= i < |items| ensures NodeText(lis[i]) == items[i] {
      TextOfOne(Text(items[i]));
    }
    SelectOne(ul, TagIs("ul"));
    ListItemsSelect(items, TagIs("ul"));
  }

  lemma {:induction false} ListItemHtml(item: string)
    ensures NodeHtml(Element("li", [], [Text(item)])) == "<li>" + item + "</li>"
  {
    HtmlOne(Text(item));
  }

  lemma {:induction false} ListItemsHtml(items: seq<string>)
    ensures Html(ListItems(items)) == Join(seq(|items|, i requires 0 <= i < |items| => "<li>" + items[i] + "</li>"))
  {
    var lis := ListItems(items);
    HtmlIsJoin(lis);
    ListItemsAt(items);
    forall i | 0 <= i < |items|
      ensures NodeHtml(lis[i]) == "<li>" + items[i] + "</li>"
    {
      ListItemHtml(items[i]);
    }
    assert seq(|lis|, i requires 0 <= i < |lis| => NodeHtml(lis[i]))
        == seq(|items|, i requires 0 <= i < |items| => "<li>" + items[i] + "</li>");
  }

  /** The markup of a list block is `<ul>`, the `join('')` of one
      `<li>item</li>` per item, then `</ul>`. */
  lemma {:induction false} ListBlockHtml(items: seq<string>)
    ensures Html(RenderContentBlock(List(items)))
         == "<ul>" + Join(seq(|items|, i requires 0 <= i < |items| => "<li>" + items[i] + "</li>")) + "</ul>"
  {
    ListItemsHtml(items);
    HtmlOne(Element("ul", [], ListItems(items)));
  }

  lemma {:induction false} CaptionSelect(tag: string, attrs: seq<Attr>, caption: Option<string>, sel: Selector)
    ensures var c := CaptionOf(tag, attrs, caption);
      Select(c, sel) == if Present(caption) then Hit(c[0], sel) else []
  {
    if Present(caption) {
      SelectLabelled(tag, attrs, caption.value, sel);
    }
  }

  /** The elements of a video block in document order, whatever is being selected. */
  lemma {:induction false} VideoSelect(url: string, caption: Option<string>, sel: Selector)
    ensures var e := VideoEmbed(url, caption); var a := VideoLink(url, caption);
      Select([e], sel)
        == Hit(e, sel)
           + ((Hit(e.children[0], sel) + (Hit(a, sel)
                + ((Hit(a.children[0], sel) + Hit(a.children[0].children[0], sel))
                   + Select(CaptionOf("p", [Attr("class", "video-caption")], caption), sel))))
              + (Hit(VideoNote, sel) + Hit(VideoNote.children[0], sel)))
  {
    var e := VideoEmbed(url, caption);
    var ph := e.children[0];
    var a := VideoLink(url, caption);
    var w := a.children[0];
    var cap := CaptionOf("p", [Attr("class", "video-caption")], caption);
    SelectOne(e, sel);
    SelectCons(ph, [VideoNote], sel);
    SelectOne(VideoNote, sel);
    SelectOne(ph, sel);
    SelectOne(a, sel);
    SelectCons(w, cap, sel);
    SelectOne(w, sel);
    SelectLabelled("strong", [], "Watch Video on LinkedIn", sel);
    SelectLabelled("em", [], "Note: Video hosted on LinkedIn. Click to view in a new tab.", sel);
  }

  lemma {:induction false} VideoLinkElements(url: string, caption: Option<string>)
    ensures Select([VideoEmbed(url, caption)], HasAttr("href")) == [VideoLink(url, caption)]
  {
    var capAttrs := [Attr("class", "video-caption")];
    assert Lookup(capAttrs, "href") == None by {
      LookupAbsent(capAttrs, "href");
    }
    VideoSelect(url, caption, HasAttr("href"));
    CaptionSelect("p", capAttrs, caption, HasAttr("href"));
  }

  lemma {:induction false} VideoCaptionElements(url: string, caption: Option<string>)
    ensures Select([VideoEmbed(url, caption)], ClassIs("video-caption"))
         == CaptionOf("p", [Attr("class", "video-caption")], caption)
  {
    var a := VideoLink(url, caption);
    assert Lookup(a.attrs, "class") == Some("video-link") by {
      LookupFound(a.attrs, 3, "class");
    }
    VideoSelect(url, caption, ClassIs("video-caption"));
    CaptionSelect("p", [Attr("class", "video-caption")], caption, ClassIs("video-caption"));
  }

  lemma {:induction false} VideoEmbedElements(url: string, caption: Option<string>)
    ensures Select([VideoEmbed(url, caption)], ClassIs("video-embed")) == [VideoEmbed(url, caption)]
  {
    var a := VideoLink(url, caption);
    assert Lookup(a.attrs, "class") == Some("video-link") by {
      LookupFound(a.attrs, 3, "class");
    }
    VideoSelect(url, caption, ClassIs("video-embed"));
    CaptionSelect("p", [Attr("class", "video-caption")], caption, ClassIs("video-embed"));
  }

  /** A video block is one embed whose only link is the video URL, with a
      caption paragraph exactly when a caption is given. */
  lemma {:induction false} VideoBlockMarkup(url: string, caption: Option<string>)
    ensures var r := RenderContentBlock(Video(url, caption));
      && Hrefs(r) == [url]
      && Texts(r, ClassIs("video-caption")) == (if Present(caption) then [caption.value] else [])
      && Count(r, ClassIs("video-embed")) == 1
  {
    VideoLinkElements(url, caption);
    VideoCaptionElements(url, caption);
    VideoEmbedElements(url, caption);
    if Present(caption) {
      TextOfOne(Text(caption.value));
    }
  }

  lemma {:induction false} ImageSelect(url: string, alt: Option<string>, caption: Option<string>, sel: Selector)
    ensures var f := ImageFigure(url, alt, caption);
      Select([f], sel) == Hit(f, sel) + (Hit(f.children[0], sel) + Select(CaptionOf("figcaption", [], caption), sel))
  {
    var f := ImageFigure(url, alt, caption);
    var img := f.children[0];
    SelectOne(f, sel);
    SelectCons(img, CaptionOf("figcaption", [], caption), sel);
    CaptionSelect("figcaption", [], caption, sel);
  }

  /** The elements of an image block carrying attribute `name` (one the
      `<img>` has and the figure does not) or having tag `tag`. */
  lemma {:induction false} ImageAttrElements(url: string, alt: Option<string>, caption: Option<string>)
    ensures var f := ImageFigure(url, alt, caption); var img := f.children[0];
      && Select([f], HasAttr("src")) == [img]
      && Select([f], HasAttr("alt")) == [img]
  {
    var f := ImageFigure(url, alt, caption);
    var img := f.children[0];
    assert img == Void("img", [Attr("src", url), Attr("alt", AltText(alt)), Attr("loading", "lazy")]);
    assert Select([f], HasAttr("src")) == [img] by {
      ImageSelect(url, alt, caption, HasAttr("src"));
      CaptionSelect("figcaption", [], caption, HasAttr("src"));
    }
    assert Select([f], HasAttr("alt")) == [img] by {
      assert Lookup(img.attrs, "alt") == Some(AltText(alt)) by {
        LookupFound(img.attrs, 1, "alt");
      }
      ImageSelect(url, alt, caption, HasAttr("alt"));
      CaptionSelect("figcaption", [], caption, HasAttr("alt"));
    }
  }

  lemma {:induction false} ImageTagElements(url: string, alt: Option<string>, caption: Option<string>)
    ensures var f := ImageFigure(url, alt, caption); var img := f.children[0];
      && Select([f], TagIs("img")) == [img]
      && Select([f], TagIs("figcaption")) == CaptionOf("figcaption", [], caption)
  {
    var f := ImageFigure(url, alt, caption);
    var img := f.children[0];
    assert Select([f], TagIs("img")) == [img] by {
      ImageSelect(url, alt, caption, TagIs("img"));
      CaptionSelect("figcaption", [], caption, TagIs("img"));
    }
    assert Select([f], TagIs("figcaption")) == CaptionOf("figcaption", [], caption) by {
      ImageSelect(url, alt, caption, TagIs("figcaption"));
      CaptionSelect("figcaption", [], caption, TagIs("figcaption"));
    }
  }

  /** An image block is one `<img>` whose `src` is the URL and whose `alt` is
      the alt text or `""` when there is none, with a `<figcaption>` exactly
      when a caption is given. */
  lemma {:induction false} ImageBlockMarkup(url: string, alt: Option<string>, caption: Option<string>)
    ensures var r := RenderContentBlock(Image(url, alt, caption));
      && Values(r, "src") == [url]
      && Values(r, "alt") == [if Present(alt) then alt.value else ""]
      && Count(r, TagIs("img")) == 1
      && Texts(r, TagIs("figcaption")) == (if Present(caption) then [caption.value] else [])
  {
    var f := ImageFigure(url, alt, caption);
    var r := RenderContentBlock(Image(url, alt, caption));
    assert r == [f];
    var img := f.children[0];
    assert img.attrs == [Attr("src", url), Attr("alt", AltText(alt)), Attr("loading", "lazy")];
    assert Values(r, "src") == [url] by {
      ImageAttrElements(url, alt, caption);
      LookupFound(img.attrs, 0, "src");
    }
    assert Values(r, "alt") == [AltText(alt)] by {
      ImageAttrElements(url, alt, caption);
      LookupFound(img.attrs, 1, "alt");
    }
    assert Count(r, TagIs("img")) == 1 && Select(r, TagIs("figcaption")) == CaptionOf("figcaption", [], caption) by {
      ImageTagElements(url, alt, caption);
    }
    assert Texts(r, TagIs("figcaption")) == (if Present(caption) then [caption.value] else []) by {
      if Present(caption) {
        TextOfOne(Text(caption.value));
      }
    }
  }

  /** The body of two runs of blocks is the body of the first followed by
      the body of the second. */
  lemma {:induction false} BodyAppend(a: seq<Block>, b: seq<Block>)
    ensures RenderBody(a + b) == RenderBody(a) + RenderBody(b)
  {
    if |a| == 0 {
      assert a + b == b;
    } else {
      assert (a + b)[1..] == a[1..] + b;
      BodyAppend(a[1..], b);
    }
  }

  /** The body markup is `content.map(renderContentBlock).join('')`: the
      blocks' markup concatenated in content order. */
  lemma {:induction false} BodyHtml(content: seq<Block>)
    ensures Html(RenderBody(content))
         == Join(seq(|content|, i requires 0 <= i < |content| => Html(RenderContentBlock(content[i]))))
  {
    if |content| > 0 {
      BodyHtml(content[1..]);
      HtmlAppend(RenderContentBlock(content[0]), RenderBody(content[1..]));
      var parts := seq(|content|, i requires 0 <= i < |content| => Html(RenderContentBlock(content[i])));
      assert parts[1..] == seq(|content[1..]|, i requires 0 <= i < |content[1..]| => Html(RenderContentBlock(content[1..][i])));
    }
  }

  /** A block of a type the dispatch does not recognise contributes nothing:
      the body is as if it were not there. */
  lemma {:induction false} BodySkipsUnrecognised(before: seq<Block>, u: Block, after: seq<Block>)
    requires TypeName(u) !in KnownTypes
    ensures RenderBody(before + [u] + after) == RenderBody(before + after)
  {
    assert RenderBody([u]) == [] by {
      assert [u][1..] == [];
      assert RenderContentBlock(u) == [];
    }
    assert RenderBody(before + [u]) == RenderBody(before) by {
      BodyAppend(before, [u]);
    }
    BodyAppend(before + [u], after);
    BodyAppend(before, after);
  }

  /** A block renders a video embed exactly when it is a video block. */
  lemma {:induction false} BlockVideoEmbeds(b: Block)
    ensures Count(RenderContentBlock(b), ClassIs("video-embed")) == if b.Video? then 1 else 0
  {
    var sel := ClassIs("video-embed");
    match b
    case Paragraph(t) => SelectLabelled("p", [], t, sel);
    case Heading(t) => SelectLabelled("h2", [], t, sel);
    case Quote(t) => SelectLabelled("blockquote", [], t, sel);
    case List(items) =>
      SelectOne(Element("ul", [], ListItems(items)), sel);
      ListItemsSelect(items, sel);
    case Video(url, caption) => VideoEmbedElements(url, caption);
    case Image(url, alt, caption) =>
      ImageSelect(url, alt, caption, sel);
      CaptionSelect("figcaption", [], caption, sel);
      var img := ImageFigure(url, alt, caption).children[0];
      assert img == Void("img", [Attr("src", url), Attr("alt", AltText(alt)), Attr("loading", "lazy")]);
      assert Lookup(img.attrs, "class") == None by {
        LookupAbsent(img.attrs, "class");
      }
    case Unrecognised(_) =>
  }

  /** Selectors that pick out nothing a content block renders: a tag or a
      class that no block uses. */
  predicate ForeignToBlocks(sel: Selector)
  {
    match sel
    case TagIs(t) => t !in {"p", "h2", "ul", "li", "div", "a", "strong", "em", "figure", "img", "figcaption", "blockquote"}
    case ClassIs(c) => c !in {"video-embed", "video-placeholder", "video-link", "video-caption", "video-note", "post-image"}
    case HasAttr(_) => false
  }

  lemma {:induction false} VideoForeign(url: string, caption: Option<string>, sel: Selector)
    requires ForeignToBlocks(sel)
    ensures Select([VideoEmbed(url, caption)], sel) == []
  {
    var a := VideoLink(url, caption);
    assert Lookup(a.attrs, "class") == Some("video-link") by {
      LookupFound(a.attrs, 3, "class");
    }
    VideoSelect(url, caption, sel);
    CaptionSelect("p", [Attr("class", "video-caption")], caption, sel);
  }

  lemma {:induction false} ImageForeign(url: string, alt: Option<string>, caption: Option<string>, sel: Selector)
    requires ForeignToBlocks(sel)
    ensures Select([ImageFigure(url, alt, caption)], sel) == []
  {
    ImageSelect(url, alt, caption, sel);
    CaptionSelect("figcaption", [], caption, sel);
    var img := ImageFigure(url, alt, caption).children[0];
    assert img == Void("img", [Attr("src", url), Attr("alt", AltText(alt)), Attr("loading", "lazy")]);
    assert Lookup(img.attrs, "class") == None by {
      LookupAbsent(img.attrs, "class");
    }
  }

  lemma {:induction false} ListForeign(items: seq<string>, sel: Selector)
    requires ForeignToBlocks(sel)
    ensures Select([Element("ul", [], ListItems(items))], sel) == []
  {
    SelectOne(Element("ul", [], ListItems(items)), sel);
    ListItemsSelect(items, sel);
  }

  /** No block renders an element a foreign selector picks out. */
  lemma {:induction false} BlockForeign(b: Block, sel: Selector)
    requires ForeignToBlocks(sel)
    ensures Select(RenderContentBlock(b), sel) == []
  {
    match b
    case Paragraph(t) => SelectLabelled("p", [], t, sel);
    case Heading(t) => SelectLabelled("h2", [], t, sel);
    case Quote(t) => SelectLabelled("blockquote", [], t, sel);
    case List(items) => ListForeign(items, sel);
    case Video(url, caption) => VideoForeign(url, caption, sel);
    case Image(url, alt, caption) => ImageForeign(url, alt, caption, sel);
    case Unrecognised(_) =>
  }

  /** The whole body holds nothing a foreign selector picks out, so the
      page chrome around it is found only where the page puts it. */
  lemma {:induction false} BodyForeign(content: seq<Block>, sel: Selector)
    requires ForeignToBlocks(sel)
    ensures Select(RenderBody(content), sel) == []
  {
    if |content| > 0 {
      BodyForeign(content[1..], sel);
      BlockForeign(content[0], sel);
      SelectAppend(RenderContentBlock(content[0]), RenderBody(content[1..]), sel);
    }
  }

  /** The body holds a video embed exactly when some block is a video, the
      same condition under which the list page shows the video badge. */
  lemma {:induction false} BodyVideoEmbeds(content: seq<Block>)
    ensures Count(RenderBody(content), ClassIs("video-embed")) > 0 <==> HasVideo(content)
  {
    if |content| > 0 {
      BodyVideoEmbeds(content[1..]);
      BlockVideoEmbeds(content[0]);
      CountAppend(RenderContentBlock(content[0]), RenderBody(content[1..]), ClassIs("video-embed"));
    }
  }

  lemma {:induction false} QuoteThenUnknownBody(t: string, kind: string)
    requires kind !in KnownTypes
    ensures RenderBody([Quote(t), Unrecognised(kind)]) == [Element("blockquote", [], [Text(t)])]
  {
    var u: Block := Unrecognised(kind);
    var content: seq<Block> := [Quote(t), u];
    assert RenderBody([u]) == [] by {
      assert [u][1..] == [];
      assert RenderContentBlock(u) == [];
    }
    assert content[1..] == [u];
    assert RenderBody(content) == RenderContentBlock(Quote(t)) + RenderBody([u]);
  }

  /** A quote followed by a block of unknown type renders as that one
      blockquote and nothing else. */
  lemma {:induction false} QuoteThenUnknown(t: string, kind: string)
    requires kind !in KnownTypes
    ensures var body := RenderBody([Quote(t), Unrecognised(kind)]);
      && Html(body) == "<blockquote>" + t + "</blockquote>"
      && Texts(body, TagIs("blockquote")) == [t]
  {
    QuoteThenUnknownBody(t, kind);
    assert Html([Element("blockquote", [], [Text(t)])]) == "<blockquote>" + t + "</blockquote>" by {
      QuoteMarkup(t);
    }
    assert Texts([Element("blockquote", [], [Text(t)])], TagIs("blockquote")) == [t] by {
      SelectLabelled("blockquote", [], t, TagIs("blockquote"));
      TextOfOne(Text(t));
    }
  }
}
