/** The post page (blog/blog-post.js): from the `id` query parameter and the
    loaded collection, either a redirect to the list page, an error box, or
    the rendered post with the page metadata updated from it. */
module BlogPost {
  import opened Wrappers
  import opened Markup
  import opened Posts
  import opened PostFragments
  import opened ContentRender

  const NotFoundMessage := "Post not found"
  const LoadFailedMessage := "Error loading post. Please try again later."
  const ListPage := "index.html"

  /** What the page reads from its surroundings: the date formatter
      (`toLocaleDateString`), `encodeURIComponent` and the current address
      (`window.location.href`). */
  datatype Env = Env(formatDate: int -> string, encode: string -> string, pageUrl: string)

  /** The document title and the `content` of the description, og:title and
      og:description meta elements; `None` when the page has no such element. */
  datatype Head = Head(title: string, description: Option<string>, ogTitle: Option<string>, ogDescription: Option<string>)

  /** Where the page ends up: sent to another address, or showing `content`
      in the post area under `head`. */
  datatype Outcome = Redirect(location: string) | Display(head: Head, content: seq<Node>)

  /** No post of `posts` has slug `id`. */
  predicate NoMatch(posts: seq<Post>, id: string)
  {
    forall i :: 0 <= i < |posts| ==> posts[i].slug != id
  }

  /** `posts[i]` is the first post with slug `id`. */
  predicate FirstMatch(posts: seq<Post>, id: string, i: int)
  {
    0 <= i < |posts| && posts[i].slug == id && forall j :: 0 <= j < i ==> posts[j].slug != id
  }

  /** The index of the first post with slug `id`, or `|posts|` when no post has it. */
  function FirstIndex(posts: seq<Post>, id: string): (k: nat)
    ensures k <= |posts|
    ensures k < |posts| ==> FirstMatch(posts, id, k)
    ensures k == |posts| ==> NoMatch(posts, id)
  {
    if |posts| == 0 then 0
    else if posts[0].slug == id then 0
    else
      var k := FirstIndex(posts[1..], id);
      assert forall j :: 0 < j <= k && j < |posts| ==> posts[j] == posts[1..][j - 1];
      1 + k
  }

  /** `posts.find(p => p.slug === id)`: the first post with that slug. */
  function FindPost(posts: seq<Post>, id: string): (r: Option<Post>)
    ensures r.None? <==> NoMatch(posts, id)
    ensures r.Some? ==> exists i :: FirstMatch(posts, id, i) && posts[i] == r.value
  {
    var k := FirstIndex(posts, id);
    if k < |posts| then Some(posts[k]) else None
  }

  /** Conversely, the first post with slug `id` is the one found. */
  lemma {:induction false} FindPostFirst(posts: seq<Post>, id: string, i: int)
    requires FirstMatch(posts, id, i)
    ensures FindPost(posts, id) == Some(posts[i])
  {
    var k := FirstIndex(posts, id);
    assert k < |posts| && FirstMatch(posts, id, k);
    assert !(k < i) && !(i < k);
  }

  /** Replaces the content of a meta element that exists; a missing one stays missing. */
  function SetMeta(meta: Option<string>, content: string): Option<string>
  {
    if meta.Some? then Some(content) else None
  }

  /** `updateMetaTags`: the description and og:description meta elements
      take the excerpt and og:title takes `<title> | TechImbue`, each only if
      the page has that element. */
  function UpdateMetaTags(head: Head, post: Post): (r: Head)
    ensures r.title == head.title
    ensures r.description.Some? <==> head.description.Some?
    ensures r.ogTitle.Some? <==> head.ogTitle.Some?
    ensures r.ogDescription.Some? <==> head.ogDescription.Some?
    ensures r.description.Some? ==> r.description.value == post.excerpt
    ensures r.ogTitle.Some? ==> r.ogTitle.value == post.title + " | TechImbue"
    ensures r.ogDescription.Some? ==> r.ogDescription.value == post.excerpt
  {
    head.(description := SetMeta(head.description, post.excerpt),
          ogTitle := SetMeta(head.ogTitle, post.title + " | TechImbue"),
          ogDescription := SetMeta(head.ogDescription, post.excerpt))
  }

  /** `showError`: the error box with `message`, replacing the post area. */
  function ShowError(message: string): seq<Node>
  {
    [Classed("div", "error-message glass", [
      Element("h2", [], [Text("Oops!")]),
      Element("p", [], [Text(message)]),
      Element("a", [Attr("href", ListPage), Attr("class", "btn-primary")], [Text("Back to Blog")])])]
  }

  /** The "View Original on LinkedIn" link, present only when the URL is truthy. */
  function LinkedInSource(linkedinUrl: Option<string>): seq<Node>
  {
    if Present(linkedinUrl) then
      [Element("a", [Attr("href", linkedinUrl.value), Attr("target", "_blank"), Attr("rel", "noopener"),
                     Attr("class", "linkedin-source")],
               [Text("View Original on LinkedIn")])]
    else []
  }

  function PostHeader(post: Post, env: Env): Node
  {
    Classed("header", "post-header glass",
      [PostMeta(post, env.formatDate),
       Classed("h1", "post-title", [Text(post.title)]),
       Classed("div", "post-tags", TagSpans(post.tags))]
      + LinkedInSource(post.linkedinUrl))
  }

  /** The share target on Twitter, given the encoded title and page address. */
  function TwitterShare(post: Post, env: Env): string
  {
    "https://twitter.com/intent/tweet?text=" + env.encode(post.title) + "&url=" + env.encode(env.pageUrl)
  }

  /** The share target on LinkedIn, given the encoded page address. */
  function LinkedInShare(env: Env): string
  {
    "https://www.linkedin.com/sharing/share-offsite/?url=" + env.encode(env.pageUrl)
  }

  function ShareButton(href: string, cls: string, caption: string): Node
  {
    Element("a", [Attr("href", href), Attr("target", "_blank"), Attr("rel", "noopener"), Attr("class", cls)],
      [Text(caption)])
  }

  function PostFooter(post: Post, env: Env): Node
  {
    Classed("footer", "post-footer glass", [
      Classed("div", "post-share", [
        Element("p", [], [Text("Share this post:")]),
        Classed("div", "share-buttons", [
          ShareButton(TwitterShare(post, env), "share-btn twitter", "Twitter"),
          ShareButton(LinkedInShare(env), "share-btn linkedin", "LinkedIn")])]),
      Element("a", [Attr("href", ListPage), Attr("class", "back-to-blog")], [Text("\U{2190} Back to All Posts")])])
  }

  /** The body region: the rendered blocks. */
  function PostBody(post: Post): Node
  {
    Classed("div", "post-body glass", RenderBody(post.content))
  }

  /** `renderPost`: header, body and share footer. */
  function RenderPost(post: Post, env: Env): seq<Node>
  {
    [PostHeader(post, env), PostBody(post), PostFooter(post, env)]
  }

  /** The document title of the post page for `post`. */
  function DocumentTitle(post: Post): string
  {
    post.title + " | TechImbue Blog"
  }

  /** The page showing `post`: its title and meta tags, and the rendered post. */
  function ShowPost(post: Post, head: Head, env: Env): Outcome
  {
    Display(UpdateMetaTags(head.(title := DocumentTitle(post)), post), RenderPost(post, env))
  }

  /** `loadBlogPost`, once the `id` parameter has been read and, if it was
      given, the collection fetched: a missing or empty `id` redirects to the
      list page without consulting the collection; a load failure or an
      unknown slug shows an error box and leaves the metadata alone; the
      first post with that slug is shown. */
  function LoadBlogPost(id: Option<string>, fetched: Result<seq<Post>, LoadError>, head: Head, env: Env): (r: Outcome)
    ensures !Present(id) ==> r == Redirect(ListPage)
    ensures Present(id) && fetched.Failure? ==> r == Display(head, ShowError(LoadFailedMessage))
    ensures Present(id) && fetched.Success? && NoMatch(fetched.value, id.value)
            ==> r == Display(head, ShowError(NotFoundMessage))
    ensures Present(id) && fetched.Success?
            ==> forall i :: FirstMatch(fetched.value, id.value, i) ==> r == ShowPost(fetched.value[i], head, env)
  {
    if !Present(id) then Redirect(ListPage)
    else
      match fetched
      case Failure(_) => Display(head, ShowError(LoadFailedMessage))
      case Success(posts) =>
        match FindPost(posts, id.value)
        case None => Display(head, ShowError(NotFoundMessage))
        case Some(post) =>
          assert forall i :: FirstMatch(posts, id.value, i) ==> posts[i] == post by {
            forall i | FirstMatch(posts, id.value, i) ensures posts[i] == post {
              FindPostFirst(posts, id.value, i);
            }
          }
          ShowPost(post, head, env)
  }

  /** The elements of the error box in document order, whatever is being selected. */
  lemma {:induction false} ErrorBoxSelect(message: string, sel: Selector)
    ensures var box := ShowError(message)[0];
      Select(ShowError(message), sel)
        == Hit(box, sel) + (Hit(box.children[0], sel) + (Hit(box.children[1], sel) + Hit(box.children[2], sel)))
  {
    var box := ShowError(message)[0];
    var h, p, a := box.children[0], box.children[1], box.children[2];
    SelectOne(box, sel);
    assert box.children == [h] + ([p] + [a]);
    SelectCons(h, [p] + [a], sel);
    SelectCons(p, [a], sel);
    SelectLabelled("h2", [], "Oops!", sel);
    SelectLabelled("p", [], message, sel);
    SelectLabelled("a", a.attrs, "Back to Blog", sel);
  }

  /** The error box shows the message in its one paragraph, under the
      "Oops!" heading, with a single link back to the list page. */
  lemma {:induction false} ErrorBox(message: string)
    ensures Texts(ShowError(message), TagIs("p")) == [message]
    ensures Texts(ShowError(message), TagIs("h2")) == ["Oops!"]
    ensures Hrefs(ShowError(message)) == [ListPage]
    ensures Count(ShowError(message), ClassIs("error-message glass")) == 1
  {
    var box := ShowError(message)[0];
    var h, p, a := box.children[0], box.children[1], box.children[2];
    assert Texts(ShowError(message), TagIs("p")) == [message] by {
      ErrorBoxSelect(message, TagIs("p"));
      assert Select(ShowError(message), TagIs("p")) == [p];
      TextOfOne(Text(message));
    }
    assert Texts(ShowError(message), TagIs("h2")) == ["Oops!"] by {
      ErrorBoxSelect(message, TagIs("h2"));
      assert Select(ShowError(message), TagIs("h2")) == [h];
      TextOfOne(Text("Oops!"));
    }
    assert Hrefs(ShowError(message)) == [ListPage] by {
      ErrorBoxSelect(message, HasAttr("href"));
      assert Select(ShowError(message), HasAttr("href")) == [a];
    }
    assert Count(ShowError(message), ClassIs("error-message glass")) == 1 by {
      ErrorBoxSelect(message, ClassIs("error-message glass"));
      assert Lookup(a.attrs, "class") == Some("btn-primary") by {
        LookupFound(a.attrs, 1, "class");
      }
      assert Select(ShowError(message), ClassIs("error-message glass")) == [box];
    }
  }

  /** The two error boxes of the page are told apart by their message. */
  lemma {:induction false} ErrorsDiffer()
    ensures Texts(ShowError(LoadFailedMessage), TagIs("p")) != Texts(ShowError(NotFoundMessage), TagIs("p"))
  {
    ErrorBox(LoadFailedMessage);
    ErrorBox(NotFoundMessage);
    assert LoadFailedMessage[0] != NotFoundMessage[0];
  }

  lemma {:induction false} LinkedInSourceSelect(linkedinUrl: Option<string>, sel: Selector)
    ensures var l := LinkedInSource(linkedinUrl);
      Select(l, sel) == if |l| == 0 then [] else Hit(l[0], sel)
  {
    var l := LinkedInSource(linkedinUrl);
    if |l| > 0 {
      SelectLabelled("a", l[0].attrs, "View Original on LinkedIn", sel);
    }
  }

  lemma {:induction false} LinkedInSourceClass(linkedinUrl: Option<string>, c: string)
    ensures Select(LinkedInSource(linkedinUrl), ClassIs(c)) == When(c == "linkedin-source", LinkedInSource(linkedinUrl))
  {
    var ls := LinkedInSource(linkedinUrl);
    LinkedInSourceSelect(linkedinUrl, ClassIs(c));
    if |ls| > 0 {
      assert Lookup(ls[0].attrs, "class") == Some("linkedin-source") by {
        LookupFound(ls[0].attrs, 3, "class");
      }
    }
  }

  /** The elements of the post header in document order, whatever is being selected. */
  lemma {:induction false} HeaderSelect(post: Post, env: Env, sel: Selector)
    ensures var h := PostHeader(post, env); var m := h.children[0];
      Select([h], sel)
        == Hit(h, sel)
           + ((Hit(m, sel) + Hit(m.children[0], sel) + Hit(m.children[1], sel))
           + (Hit(h.children[1], sel)
           + ((Hit(h.children[2], sel) + Select(TagSpans(post.tags), sel))
           + Select(LinkedInSource(post.linkedinUrl), sel))))
  {
    var h := PostHeader(post, env);
    var m, t, g := h.children[0], h.children[1], h.children[2];
    var ls := LinkedInSource(post.linkedinUrl);
    SelectOne(h, sel);
    assert h.children == [m] + ([t] + ([g] + ls));
    SelectCons(m, [t] + ([g] + ls), sel);
    assert SelectIn(m, sel) == Hit(m, sel) + Hit(m.children[0], sel) + Hit(m.children[1], sel) by {
      SelectOne(m, sel);
      PostMetaSelect(post, env.formatDate, sel);
    }
    assert Select([t] + ([g] + ls), sel)
        == Hit(t, sel) + ((Hit(g, sel) + Select(TagSpans(post.tags), sel)) + Select(ls, sel)) by {
      SelectCons(t, [g] + ls, sel);
      SelectCons(g, ls, sel);
      assert SelectIn(t, sel) == Hit(t, sel) by {
        SelectOne(t, sel);
        SelectLabelled("h1", [Attr("class", "post-title")], post.title, sel);
      }
    }
  }

  lemma {:induction false} ShareSelect(post: Post, env: Env, sel: Selector)
    ensures var sh := PostFooter(post, env).children[0]; var bs := sh.children[1];
      Select([sh], sel)
        == Hit(sh, sel) + (Hit(sh.children[0], sel) + (Hit(bs, sel) + (Hit(bs.children[0], sel) + Hit(bs.children[1], sel))))
  {
    var sh := PostFooter(post, env).children[0];
    var p, bs := sh.children[0], sh.children[1];
    var tw, li := bs.children[0], bs.children[1];
    SelectOne(sh, sel);
    SelectCons(p, [bs], sel);
    assert SelectIn(p, sel) == Hit(p, sel) by {
      SelectOne(p, sel);
      SelectLabelled("p", [], "Share this post:", sel);
    }
    assert Select([bs], sel) == Hit(bs, sel) + (Hit(tw, sel) + Hit(li, sel)) by {
      SelectOne(bs, sel);
      SelectCons(tw, [li], sel);
      SelectOne(tw, sel);
      SelectLabelled("a", tw.attrs, "Twitter", sel);
      SelectLabelled("a", li.attrs, "LinkedIn", sel);
    }
  }

  /** The elements of the post footer in document order, whatever is being selected. */
  lemma {:induction false} FooterSelect(post: Post, env: Env, sel: Selector)
    ensures var f := PostFooter(post, env); var sh := f.children[0]; var bs := sh.children[1];
      Select([f], sel)
        == Hit(f, sel)
           + ((Hit(sh, sel) + (Hit(sh.children[0], sel) + (Hit(bs, sel) + (Hit(bs.children[0], sel) + Hit(bs.children[1], sel)))))
           + Hit(f.children[1], sel))
  {
    var f := PostFooter(post, env);
    var sh, back := f.children[0], f.children[1];
    SelectOne(f, sel);
    SelectCons(sh, [back], sel);
    SelectOne(sh, sel);
    ShareSelect(post, env, sel);
    SelectLabelled("a", back.attrs, "\U{2190} Back to All Posts", sel);
  }

  /** The body region holds the rendered blocks and nothing else. */
  lemma {:induction false} BodySelect(post: Post, sel: Selector)
    ensures Select([PostBody(post)], sel) == Hit(PostBody(post), sel) + Select(RenderBody(post.content), sel)
  {
    SelectOne(PostBody(post), sel);
  }

  /** The elements of the rendered post in document order: header, body region, footer. */
  lemma {:induction false} PostSelect(post: Post, env: Env, sel: Selector)
    ensures Select(RenderPost(post, env), sel)
         == Select([PostHeader(post, env)], sel) + (Select([PostBody(post)], sel) + Select([PostFooter(post, env)], sel))
  {
    SelectCons(PostHeader(post, env), [PostBody(post), PostFooter(post, env)], sel);
    SelectCons(PostBody(post), [PostFooter(post, env)], sel);
    SelectOne(PostFooter(post, env), sel);
    SelectOne(PostBody(post), sel);
    SelectOne(PostHeader(post, env), sel);
  }

  lemma {:induction false} LinkedInSourceLinks(linkedinUrl: Option<string>)
    ensures Hrefs(LinkedInSource(linkedinUrl)) == if Present(linkedinUrl) then [linkedinUrl.value] else []
  {
    var ls := LinkedInSource(linkedinUrl);
    LinkedInSourceSelect(linkedinUrl, HasAttr("href"));
    if |ls| > 0 {
      assert Lookup(ls[0].attrs, "href") == Some(linkedinUrl.value);
    }
  }

  lemma {:induction false} HeaderLinks(post: Post, env: Env)
    ensures Hrefs([PostHeader(post, env)]) == if Present(post.linkedinUrl) then [post.linkedinUrl.value] else []
  {
    var sel := HasAttr("href");
    var h := PostHeader(post, env);
    var ls := LinkedInSource(post.linkedinUrl);
    assert Select([h], sel) == Select(ls, sel) by {
      HeaderSelect(post, env, sel);
      assert Select(TagSpans(post.tags), sel) == [] by {
        TagSpansSelect(post.tags, sel);
      }
      var m := h.children[0];
      assert Hit(h, sel) + ((Hit(m, sel) + Hit(m.children[0], sel) + Hit(m.children[1], sel))
             + (Hit(h.children[1], sel) + (Hit(h.children[2], sel) + []))) == [];
    }
    LinkedInSourceLinks(post.linkedinUrl);
  }

  lemma {:induction false} FooterLinks(post: Post, env: Env)
    ensures Hrefs([PostFooter(post, env)]) == [TwitterShare(post, env), LinkedInShare(env), ListPage]
  {
    var sel := HasAttr("href");
    var f := PostFooter(post, env);
    var sh := f.children[0];
    var bs := sh.children[1];
    FooterSelect(post, env, sel);
    assert Select([f], sel) == [bs.children[0], bs.children[1], f.children[1]];
  }

  lemma {:induction false} BodyLinks(post: Post)
    ensures Hrefs([PostBody(post)]) == Hrefs(RenderBody(post.content))
  {
    var sel := HasAttr("href");
    assert Select([PostBody(post)], sel) == Select(RenderBody(post.content), sel) by {
      BodySelect(post, sel);
      assert Hit(PostBody(post), sel) == [];
    }
  }

  /** The links of the rendered post, in document order: the original on
      LinkedIn when there is one, the links of the body, the two share
      targets and the way back to the list. */
  lemma {:induction false} PostPageLinks(post: Post, env: Env)
    ensures Hrefs(RenderPost(post, env))
         == (if Present(post.linkedinUrl) then [post.linkedinUrl.value] else [])
            + (Hrefs(RenderBody(post.content)) + [TwitterShare(post, env), LinkedInShare(env), ListPage])
  {
    var h, b, f := PostHeader(post, env), PostBody(post), PostFooter(post, env);
    assert RenderPost(post, env) == [h] + ([b] + [f]);
    assert Hrefs([b] + [f]) == Hrefs(RenderBody(post.content)) + [TwitterShare(post, env), LinkedInShare(env), ListPage] by {
      ValuesAppend([b], [f], "href");
      BodyLinks(post);
      FooterLinks(post, env);
    }
    ValuesAppend([h], [b] + [f], "href");
    HeaderLinks(post, env);
  }

  /** The elements of the post header carrying class attribute `c`, in document order. */
  lemma {:induction false} HeaderClassElements(post: Post, env: Env, c: string)
    ensures var h := PostHeader(post, env); var m := h.children[0];
      Select([h], ClassIs(c))
        == When(c == "post-header glass", [h])
           + ((When(c == "post-meta", [m]) + When(c == "post-date", [m.children[0]]) + When(c == "post-author", [m.children[1]]))
           + (When(c == "post-title", [h.children[1]])
           + ((When(c == "post-tags", [h.children[2]]) + When(c == "post-tag", TagSpans(post.tags)))
           + When(c == "linkedin-source", LinkedInSource(post.linkedinUrl)))))
  {
    var sel := ClassIs(c);
    var h := PostHeader(post, env);
    var m, t, g := h.children[0], h.children[1], h.children[2];
    HeaderSelect(post, env, sel);
    assert Hit(h, sel) == When(c == "post-header glass", [h]) by {
      ClassedHit("header", "post-header glass", h.children, c);
    }
    assert Hit(m, sel) + Hit(m.children[0], sel) + Hit(m.children[1], sel)
        == When(c == "post-meta", [m]) + When(c == "post-date", [m.children[0]]) + When(c == "post-author", [m.children[1]]) by {
      ClassedHit("div", "post-meta", m.children, c);
      ClassedHit("span", "post-date", m.children[0].children, c);
      ClassedHit("span", "post-author", m.children[1].children, c);
    }
    assert Hit(t, sel) == When(c == "post-title", [t]) by {
      ClassedHit("h1", "post-title", t.children, c);
    }
    assert Hit(g, sel) + Select(TagSpans(post.tags), sel) == When(c == "post-tags", [g]) + When(c == "post-tag", TagSpans(post.tags)) by {
      ClassedHit("div", "post-tags", g.children, c);
      TagSpansSelect(post.tags, sel);
    }
    LinkedInSourceClass(post.linkedinUrl, c);
  }

  /** The elements of the post footer carrying class attribute `c`, in document order. */
  lemma {:induction false} FooterClassElements(post: Post, env: Env, c: string)
    ensures var f := PostFooter(post, env); var sh := f.children[0]; var bs := sh.children[1];
      Select([f], ClassIs(c))
        == When(c == "post-footer glass", [f])
           + ((When(c == "post-share", [sh])
               + (When(c == "share-buttons", [bs])
               + (When(c == "share-btn twitter", [bs.children[0]]) + When(c == "share-btn linkedin", [bs.children[1]]))))
           + When(c == "back-to-blog", [f.children[1]]))
  {
    var sel := ClassIs(c);
    var f := PostFooter(post, env);
    var sh := f.children[0];
    var bs := sh.children[1];
    var tw, li, back := bs.children[0], bs.children[1], f.children[1];
    FooterSelect(post, env, sel);
    assert Lookup(tw.attrs, "class") == Some("share-btn twitter") by {
      LookupFound(tw.attrs, 3, "class");
    }
    assert Lookup(li.attrs, "class") == Some("share-btn linkedin") by {
      LookupFound(li.attrs, 3, "class");
    }
    assert Lookup(back.attrs, "class") == Some("back-to-blog") by {
      LookupFound(back.attrs, 1, "class");
    }
    assert Lookup(sh.children[0].attrs, "class") == None;
  }

  /** For a class no block uses, the rendered post holds the header's
      elements of that class, the body region if it is the region's class,
      and the footer's. */
  lemma {:induction false} PageClassElements(post: Post, env: Env, c: string)
    requires ForeignToBlocks(ClassIs(c))
    ensures Select(RenderPost(post, env), ClassIs(c))
         == Select([PostHeader(post, env)], ClassIs(c))
            + (When(c == "post-body glass", [PostBody(post)]) + Select([PostFooter(post, env)], ClassIs(c)))
  {
    PostSelect(post, env, ClassIs(c));
    assert Select([PostBody(post)], ClassIs(c)) == When(c == "post-body glass", [PostBody(post)]) by {
      BodySelect(post, ClassIs(c));
      BodyForeign(post.content, ClassIs(c));
    }
  }

  lemma {:induction false} PageTitle(post: Post, env: Env)
    ensures Select(RenderPost(post, env), ClassIs("post-title")) == [PostHeader(post, env).children[1]]
  {
    PageClassElements(post, env, "post-title");
    HeaderClassElements(post, env, "post-title");
    FooterClassElements(post, env, "post-title");
  }

  lemma {:induction false} PageDate(post: Post, env: Env)
    ensures Select(RenderPost(post, env), ClassIs("post-date")) == [PostHeader(post, env).children[0].children[0]]
  {
    PageClassElements(post, env, "post-date");
    HeaderClassElements(post, env, "post-date");
    FooterClassElements(post, env, "post-date");
  }

  lemma {:induction false} PageAuthor(post: Post, env: Env)
    ensures Select(RenderPost(post, env), ClassIs("post-author")) == [PostHeader(post, env).children[0].children[1]]
  {
    PageClassElements(post, env, "post-author");
    HeaderClassElements(post, env, "post-author");
    FooterClassElements(post, env, "post-author");
  }

  lemma {:induction false} PageTags(post: Post, env: Env)
    ensures Select(RenderPost(post, env), ClassIs("post-tag")) == TagSpans(post.tags)
  {
    PageClassElements(post, env, "post-tag");
    HeaderClassElements(post, env, "post-tag");
    FooterClassElements(post, env, "post-tag");
  }

  lemma {:induction false} PageSource(post: Post, env: Env)
    ensures Select(RenderPost(post, env), ClassIs("linkedin-source")) == LinkedInSource(post.linkedinUrl)
  {
    PageClassElements(post, env, "linkedin-source");
    HeaderClassElements(post, env, "linkedin-source");
    FooterClassElements(post, env, "linkedin-source");
  }

  /** The rendered post shows its title, formatted date and author once
      each, one chip per tag in tag order, and the link to the original on
      LinkedIn exactly when the post has one. */
  lemma {:induction false} PostPageShows(post: Post, env: Env)
    ensures var page := RenderPost(post, env);
      && Texts(page, ClassIs("post-title")) == [post.title]
      && Texts(page, ClassIs("post-date")) == [env.formatDate(post.date)]
      && Texts(page, ClassIs("post-author")) == ["by " + post.author]
      && Texts(page, ClassIs("post-tag")) == post.tags
      && Count(page, ClassIs("linkedin-source")) == (if Present(post.linkedinUrl) then 1 else 0)
  {
    var page := RenderPost(post, env);
    var h := PostHeader(post, env);
    assert Texts(page, ClassIs("post-title")) == [post.title] by {
      PageTitle(post, env);
      TextOfOne(Text(post.title));
    }
    assert Texts(page, ClassIs("post-date")) == [env.formatDate(post.date)] by {
      PageDate(post, env);
      PostMetaTexts(post, env.formatDate);
    }
    assert Texts(page, ClassIs("post-author")) == ["by " + post.author] by {
      PageAuthor(post, env);
      PostMetaTexts(post, env.formatDate);
    }
    assert Texts(page, ClassIs("post-tag")) == post.tags by {
      PageTags(post, env);
      TagSpansShowTags(post.tags);
      TagSpansSelect(post.tags, ClassIs("post-tag"));
    }
    assert Count(page, ClassIs("linkedin-source")) == (if Present(post.linkedinUrl) then 1 else 0) by {
      PageSource(post, env);
    }
  }

  lemma {:induction false} PageBodyRegion(post: Post, env: Env)
    ensures Select(RenderPost(post, env), ClassIs("post-body glass")) == [PostBody(post)]
  {
    PageClassElements(post, env, "post-body glass");
    HeaderClassElements(post, env, "post-body glass");
    FooterClassElements(post, env, "post-body glass");
  }

  lemma {:induction false} PageVideoEmbeds(post: Post, env: Env)
    ensures Select(RenderPost(post, env), ClassIs("video-embed")) == Select(RenderBody(post.content), ClassIs("video-embed"))
  {
    var sel := ClassIs("video-embed");
    PostSelect(post, env, sel);
    BodySelect(post, sel);
    HeaderClassElements(post, env, "video-embed");
    FooterClassElements(post, env, "video-embed");
  }

  /** The rendered post has one body region, holding exactly the rendered
      blocks, and embeds a video exactly when the post has a video block,
      the same condition under which its card on the list page shows the
      video badge. */
  lemma {:induction false} PostPageBody(post: Post, env: Env)
    ensures var page := RenderPost(post, env);
      && Select(page, ClassIs("post-body glass")) == [Classed("div", "post-body glass", RenderBody(post.content))]
      && (Count(page, ClassIs("video-embed")) > 0 <==> HasVideo(post.content))
  {
    PageBodyRegion(post, env);
    PageVideoEmbeds(post, env);
    BodyVideoEmbeds(post.content);
  }

  lemma {:induction false} PageHasNoErrorBox(post: Post, env: Env)
    ensures Count(RenderPost(post, env), ClassIs("error-message glass")) == 0
  {
    PageClassElements(post, env, "error-message glass");
    HeaderClassElements(post, env, "error-message glass");
    FooterClassElements(post, env, "error-message glass");
  }

  /** Once an `id` is given, a collection that cannot be loaded shows the
      load-error box under untouched metadata. */
  lemma {:induction false} PostPageLoadFailed(id: Option<string>, fetched: Result<seq<Post>, LoadError>, head: Head, env: Env)
    requires Present(id) && fetched.Failure?
    ensures var r := LoadBlogPost(id, fetched, head, env);
      r.Display? && r.head == head && Texts(r.content, TagIs("p")) == [LoadFailedMessage]
  {
    ErrorBox(LoadFailedMessage);
  }

  /** A collection with no post of that slug shows "Post not found" under
      untouched metadata. */
  lemma {:induction false} PostPageNotFound(id: Option<string>, fetched: Result<seq<Post>, LoadError>, head: Head, env: Env)
    requires Present(id) && fetched.Success? && NoMatch(fetched.value, id.value)
    ensures var r := LoadBlogPost(id, fetched, head, env);
      r.Display? && r.head == head && Texts(r.content, TagIs("p")) == [NotFoundMessage]
  {
    ErrorBox(NotFoundMessage);
  }

  /** Otherwise the page shows a post with that slug: its title, no error
      box, and a document title made from the post's. */
  lemma {:induction false} PostPageFound(id: Option<string>, fetched: Result<seq<Post>, LoadError>, head: Head, env: Env)
    requires Present(id) && fetched.Success? && !NoMatch(fetched.value, id.value)
    ensures var r := LoadBlogPost(id, fetched, head, env);
      && r.Display?
      && Count(r.content, ClassIs("error-message glass")) == 0
      && exists i :: 0 <= i < |fetched.value| && fetched.value[i].slug == id.value
                     && Texts(r.content, ClassIs("post-title")) == [fetched.value[i].title]
                     && r.head.title == fetched.value[i].title + " | TechImbue Blog"
  {
    var post := FindPost(fetched.value, id.value).value;
    PostPageShows(post, env);
    PageHasNoErrorBox(post, env);
  }
}
