/** The list page (blog/blog-index.js): the posts sorted newest first, one
    summary card each, or a single placeholder when there are no posts or the
    collection could not be loaded. */
module BlogIndex {
  import opened Wrappers
  import opened Markup
  import opened Posts
  import opened PostOrder
  import opened PostFragments

  const NoPostsMessage := "No posts yet. Check back soon!"
  const LoadErrorMessage := "Error loading posts. Please try again later."
  const CardClass := "blog-post-card glass"

  /** The detail-page address of a post. */
  function PostLink(slug: string): string
  {
    "post.html?id=" + slug
  }

  /** The badge shown on cards of posts with a video. */
  function VideoIndicator(hasVideo: bool): seq<Node>
  {
    if hasVideo then [Classed("span", "media-indicator", [Text("\U{1F4F9} Video")])] else []
  }

  /** The "View on LinkedIn" link, present only when the URL is truthy. */
  function LinkedInLink(linkedinUrl: Option<string>): seq<Node>
  {
    if Present(linkedinUrl) then
      [Element("a", [Attr("href", linkedinUrl.value), Attr("target", "_blank"), Attr("rel", "noopener"),
                     Attr("class", "linkedin-link"), Attr("title", "View on LinkedIn")],
               [Element("span", [], [Text("LinkedIn")])])]
    else []
  }

  function CardHeader(post: Post, formatDate: int -> string): Node
  {
    Classed("div", "post-header", [PostMeta(post, formatDate)] + VideoIndicator(HasVideo(post.content)))
  }

  function CardTitle(post: Post): Node
  {
    Classed("h2", "post-title", [Element("a", [Attr("href", PostLink(post.slug))], [Text(post.title)])])
  }

  function CardFooter(post: Post): Node
  {
    Classed("div", "post-footer",
      [Element("a", [Attr("href", PostLink(post.slug)), Attr("class", "read-more")], [Text("Read Full Post")])]
      + LinkedInLink(post.linkedinUrl))
  }

  /** The summary card of one post. */
  function CreatePostCard(post: Post, formatDate: int -> string): Node
  {
    Classed("article", CardClass, [
      CardHeader(post, formatDate),
      CardTitle(post),
      Classed("p", "post-excerpt", [Text(post.excerpt)]),
      Classed("div", "post-tags", TagSpans(post.tags)),
      CardFooter(post)])
  }

  lemma {:induction false} LinkedInLinkSelect(linkedinUrl: Option<string>, sel: Selector)
    ensures var l := LinkedInLink(linkedinUrl);
      Select(l, sel) == if |l| == 0 then [] else Hit(l[0], sel) + Hit(l[0].children[0], sel)
  {
    var l := LinkedInLink(linkedinUrl);
    if |l| > 0 {
      SelectOne(l[0], sel);
      SelectOne(l[0].children[0], sel);
      SelectLabelled("span", [], "LinkedIn", sel);
    }
  }

  lemma {:induction false} CardHeaderSelect(post: Post, formatDate: int -> string, sel: Selector)
    ensures var h := CardHeader(post, formatDate); var m := h.children[0];
      Select([h], sel)
        == Hit(h, sel)
           + ((Hit(m, sel) + Hit(m.children[0], sel) + Hit(m.children[1], sel))
           + Select(VideoIndicator(HasVideo(post.content)), sel))
  {
    var h := CardHeader(post, formatDate);
    var m := PostMeta(post, formatDate);
    SelectOne(h, sel);
    SelectAppend([m], VideoIndicator(HasVideo(post.content)), sel);
    PostMetaSelect(post, formatDate, sel);
  }

  lemma {:induction false} CardFooterSelect(post: Post, sel: Selector)
    ensures var f := CardFooter(post);
      Select([f], sel) == Hit(f, sel) + (Hit(f.children[0], sel) + Select(LinkedInLink(post.linkedinUrl), sel))
  {
    var f := CardFooter(post);
    var ra := f.children[0];
    var li := LinkedInLink(post.linkedinUrl);
    SelectOne(f, sel);
    assert f.children == [ra] + li;
    SelectCons(ra, li, sel);
    assert SelectIn(ra, sel) == Hit(ra, sel) by {
      SelectOne(ra, sel);
      SelectLabelled("a", ra.attrs, "Read Full Post", sel);
    }
  }

  /** The elements of a card in document order, whatever is being selected. */
  lemma {:induction false} CardSelect(post: Post, formatDate: int -> string, sel: Selector)
    ensures var card := CreatePostCard(post, formatDate); var t := card.children[1];
      Select([card], sel)
        == Hit(card, sel)
           + (Select([CardHeader(post, formatDate)], sel)
           + ((Hit(t, sel) + Hit(t.children[0], sel))
           + (Hit(card.children[2], sel)
           + ((Hit(card.children[3], sel) + Select(TagSpans(post.tags), sel))
           + Select([CardFooter(post)], sel)))))
  {
    var card := CreatePostCard(post, formatDate);
    var h, t, e, g, f := card.children[0], card.children[1], card.children[2], card.children[3], card.children[4];
    SelectOne(card, sel);
    assert card.children == [h] + ([t] + ([e] + ([g] + [f])));
    SelectCons(h, [t, e, g, f], sel);
    SelectCons(t, [e, g, f], sel);
    SelectCons(e, [g, f], sel);
    SelectCons(g, [f], sel);
    SelectOne(f, sel);
    SelectOne(h, sel);
    assert SelectIn(t, sel) == Hit(t, sel) + Hit(t.children[0], sel) by {
      SelectOne(t.children[0], sel);
      SelectLabelled("a", t.children[0].attrs, post.title, sel);
    }
    assert SelectIn(e, sel) == Hit(e, sel) by {
      TextNeverMatches(post.excerpt, sel);
    }
  }

  lemma {:induction false} CardHeaderLinks(post: Post, formatDate: int -> string)
    ensures Select([CardHeader(post, formatDate)], HasAttr("href")) == []
  {
    CardHeaderSelect(post, formatDate, HasAttr("href"));
    if HasVideo(post.content) {
      SelectLabelled("span", [Attr("class", "media-indicator")], "\U{1F4F9} Video", HasAttr("href"));
    }
  }

  lemma {:induction false} CardFooterLinks(post: Post)
    ensures Select([CardFooter(post)], HasAttr("href")) == [CardFooter(post).children[0]] + LinkedInLink(post.linkedinUrl)
  {
    CardFooterSelect(post, HasAttr("href"));
    LinkedInLinkSelect(post.linkedinUrl, HasAttr("href"));
  }

  lemma {:induction false} CardLinkElements(post: Post, formatDate: int -> string)
    ensures var card := CreatePostCard(post, formatDate);
      Select([card], HasAttr("href"))
        == [card.children[1].children[0]] + ([CardFooter(post).children[0]] + LinkedInLink(post.linkedinUrl))
  {
    var sel := HasAttr("href");
    var card := CreatePostCard(post, formatDate);
    var t := card.children[1];
    var f := CardFooter(post);
    var ls := LinkedInLink(post.linkedinUrl);
    CardSelect(post, formatDate, sel);
    assert Hit(card, sel) == [];
    CardHeaderLinks(post, formatDate);
    assert Hit(t, sel) + Hit(t.children[0], sel) == [t.children[0]];
    assert Hit(card.children[2], sel) == [];
    assert Hit(card.children[3], sel) + Select(TagSpans(post.tags), sel) == [] by {
      TagSpansSelect(post.tags, sel);
    }
    CardFooterLinks(post);
  }

  lemma {:induction false} CardLinks(post: Post, formatDate: int -> string)
    ensures Hrefs([CreatePostCard(post, formatDate)])
         == [PostLink(post.slug), PostLink(post.slug)]
            + (if Present(post.linkedinUrl) then [post.linkedinUrl.value] else [])
  {
    CardLinkElements(post, formatDate);
  }

  lemma {:induction false} CardHeaderClasses(post: Post, formatDate: int -> string, c: string)
    ensures var h := CardHeader(post, formatDate); var m := h.children[0];
      Select([h], ClassIs(c))
        == When(c == "post-header", [h])
           + ((When(c == "post-meta", [m]) + When(c == "post-date", [m.children[0]]) + When(c == "post-author", [m.children[1]]))
           + When(c == "media-indicator", VideoIndicator(HasVideo(post.content))))
  {
    var sel := ClassIs(c);
    CardHeaderSelect(post, formatDate, sel);
    if HasVideo(post.content) {
      SelectLabelled("span", [Attr("class", "media-indicator")], "\U{1F4F9} Video", sel);
    }
  }

  lemma {:induction false} CardFooterClasses(post: Post, c: string)
    ensures var f := CardFooter(post);
      Select([f], ClassIs(c))
        == When(c == "post-footer", [f])
           + (When(c == "read-more", [f.children[0]]) + When(c == "linkedin-link", LinkedInLink(post.linkedinUrl)))
  {
    var sel := ClassIs(c);
    CardFooterSelect(post, sel);
    LinkedInLinkSelect(post.linkedinUrl, sel);
    var l := LinkedInLink(post.linkedinUrl);
    if |l| > 0 {
      assert Lookup(l[0].attrs, "class") == Some("linkedin-link") by {
        var a := l[0].attrs;
        var a3 := [Attr("class", "linkedin-link"), Attr("title", "View on LinkedIn")];
        assert a[1..][1..][1..] == a3;
        assert Lookup(a3, "class") == Some("linkedin-link");
        assert Lookup(a[1..][1..], "class") == Lookup(a3, "class");
        assert Lookup(a[1..], "class") == Lookup(a[1..][1..], "class");
      }
      assert Lookup(l[0].children[0].attrs, "class") == None;
    }
    var ra := CardFooter(post).children[0];
    assert Lookup(ra.attrs, "class") == Some("read-more") by {
      assert ra.attrs[1..] == [Attr("class", "read-more")];
    }
  }

  /** The elements of a card carrying class attribute `c`, in document order. */
  lemma {:induction false} CardClassElements(post: Post, formatDate: int -> string, c: string)
    ensures var card := CreatePostCard(post, formatDate);
      Select([card], ClassIs(c))
        == When(c == CardClass, [card])
           + (Select([CardHeader(post, formatDate)], ClassIs(c))
           + (When(c == "post-title", [card.children[1]])
           + (When(c == "post-excerpt", [card.children[2]])
           + ((When(c == "post-tags", [card.children[3]]) + When(c == "post-tag", TagSpans(post.tags)))
           + Select([CardFooter(post)], ClassIs(c))))))
  {
    var sel := ClassIs(c);
    var card := CreatePostCard(post, formatDate);
    var t := card.children[1];
    CardSelect(post, formatDate, sel);
    TagSpansSelect(post.tags, sel);
    var ta := Element("a", [Attr("href", PostLink(post.slug))], [Text(post.title)]);
    assert t.children[0] == ta;
    assert Lookup(ta.attrs, "class") == None by {
      assert ta.attrs[1..] == [];
    }
    assert Hit(t, sel) + Hit(ta, sel) == When(c == "post-title", [t]);
  }

  /** A card shows the video badge exactly when some block of the post is a video. */
  lemma {:induction false} CardVideoIndicator(post: Post, formatDate: int -> string)
    ensures Count([CreatePostCard(post, formatDate)], ClassIs("media-indicator"))
         == if exists i :: 0 <= i < |post.content| && post.content[i].Video? then 1 else 0
  {
    CardClassElements(post, formatDate, "media-indicator");
    CardHeaderClasses(post, formatDate, "media-indicator");
    CardFooterClasses(post, "media-indicator");
  }

  lemma {:induction false} CardTagElements(post: Post, formatDate: int -> string)
    ensures Select([CreatePostCard(post, formatDate)], ClassIs("post-tag")) == TagSpans(post.tags)
  {
    CardClassElements(post, formatDate, "post-tag");
    CardHeaderClasses(post, formatDate, "post-tag");
    CardFooterClasses(post, "post-tag");
  }

  /** A card shows one chip per tag, in tag order. */
  lemma {:induction false} CardShowsTags(post: Post, formatDate: int -> string)
    ensures Texts([CreatePostCard(post, formatDate)], ClassIs("post-tag")) == post.tags
  {
    CardTagElements(post, formatDate);
    TagSpansShowTags(post.tags);
    TagSpansSelect(post.tags, ClassIs("post-tag"));
  }

  lemma {:induction false} CardDateElements(post: Post, formatDate: int -> string)
    ensures Select([CreatePostCard(post, formatDate)], ClassIs("post-date"))
         == [CardHeader(post, formatDate).children[0].children[0]]
  {
    CardClassElements(post, formatDate, "post-date");
    CardHeaderClasses(post, formatDate, "post-date");
    CardFooterClasses(post, "post-date");
  }

  lemma {:induction false} CardAuthorElements(post: Post, formatDate: int -> string)
    ensures Select([CreatePostCard(post, formatDate)], ClassIs("post-author"))
         == [CardHeader(post, formatDate).children[0].children[1]]
  {
    CardClassElements(post, formatDate, "post-author");
    CardHeaderClasses(post, formatDate, "post-author");
    CardFooterClasses(post, "post-author");
  }

  lemma {:induction false} CardTitleElements(post: Post, formatDate: int -> string)
    ensures Select([CreatePostCard(post, formatDate)], ClassIs("post-title")) == [CardTitle(post)]
  {
    CardClassElements(post, formatDate, "post-title");
    CardHeaderClasses(post, formatDate, "post-title");
    CardFooterClasses(post, "post-title");
  }

  lemma {:induction false} CardExcerptElements(post: Post, formatDate: int -> string)
    ensures Select([CreatePostCard(post, formatDate)], ClassIs("post-excerpt"))
         == [CreatePostCard(post, formatDate).children[2]]
  {
    CardClassElements(post, formatDate, "post-excerpt");
    CardHeaderClasses(post, formatDate, "post-excerpt");
    CardFooterClasses(post, "post-excerpt");
  }

  lemma {:induction false} CardCardElements(post: Post, formatDate: int -> string)
    ensures Select([CreatePostCard(post, formatDate)], ClassIs(CardClass)) == [CreatePostCard(post, formatDate)]
  {
    CardClassElements(post, formatDate, CardClass);
    CardHeaderClasses(post, formatDate, CardClass);
    CardFooterClasses(post, CardClass);
  }

  /** A card shows the formatted date, the author, the title and the excerpt,
      each once, and is itself a single card. */
  lemma {:induction false} CardShowsSummary(post: Post, formatDate: int -> string)
    ensures var card := [CreatePostCard(post, formatDate)];
      && Texts(card, ClassIs("post-date")) == [formatDate(post.date)]
      && Texts(card, ClassIs("post-author")) == ["by " + post.author]
      && Texts(card, ClassIs("post-title")) == [post.title]
      && Texts(card, ClassIs("post-excerpt")) == [post.excerpt]
      && Count(card, ClassIs(CardClass)) == 1
  {
    var card := CreatePostCard(post, formatDate);
    assert Texts([card], ClassIs("post-date")) == [formatDate(post.date)] by {
      CardDateElements(post, formatDate);
      TextOfOne(Text(formatDate(post.date)));
    }
    assert Texts([card], ClassIs("post-author")) == ["by " + post.author] by {
      CardAuthorElements(post, formatDate);
      TextOfOne(Text("by " + post.author));
    }
    assert Texts([card], ClassIs("post-title")) == [post.title] by {
      CardTitleElements(post, formatDate);
      var ta := CardTitle(post).children[0];
      TextOfOne(ta);
      TextOfOne(Text(post.title));
    }
    assert Texts([card], ClassIs("post-excerpt")) == [post.excerpt] by {
      CardExcerptElements(post, formatDate);
      TextOfOne(Text(post.excerpt));
    }
    CardCardElements(post, formatDate);
  }

  /** One card per post, in the given order (`posts.map(createPostCard)`). */
  function Cards(posts: seq<Post>, formatDate: int -> string): seq<Node>
  {
    if |posts| == 0 then [] else [CreatePostCard(posts[0], formatDate)] + Cards(posts[1..], formatDate)
  }

  /** The single paragraph shown in place of the cards. */
  function Placeholder(cls: string, message: string): seq<Node>
  {
    [Classed("p", cls, [Text(message)])]
  }

  /** What the posts grid holds once the collection has been fetched (or
      has failed to load): the error placeholder, the "no posts" placeholder
      for an empty collection, or the cards of the posts sorted newest first. */
  function LoadBlogPosts(fetched: Result<seq<Post>, LoadError>, formatDate: int -> string): seq<Node>
  {
    match fetched
    case Failure(_) => Placeholder("error-message", LoadErrorMessage)
    case Success(posts) =>
      if |posts| == 0 then Placeholder("no-posts", NoPostsMessage)
      else Cards(SortNewestFirst(posts), formatDate)
  }

  lemma {:induction false} CardsAt(posts: seq<Post>, formatDate: int -> string)
    ensures |Cards(posts, formatDate)| == |posts|
    ensures forall i :: 0 <= i < |posts| ==> Cards(posts, formatDate)[i] == CreatePostCard(posts[i], formatDate)
  {
    if |posts| > 0 {
      CardsAt(posts[1..], formatDate);
      forall i | 0 < i < |posts| ensures Cards(posts, formatDate)[i] == CreatePostCard(posts[i], formatDate) {
        assert Cards(posts, formatDate)[i] == Cards(posts[1..], formatDate)[i - 1];
      }
    }
  }

  lemma {:induction false} CardHasNoPlaceholder(post: Post, formatDate: int -> string)
    ensures Count([CreatePostCard(post, formatDate)], ClassIs("no-posts")) == 0
    ensures Count([CreatePostCard(post, formatDate)], ClassIs("error-message")) == 0
  {
    CardClassElements(post, formatDate, "no-posts");
    CardHeaderClasses(post, formatDate, "no-posts");
    CardFooterClasses(post, "no-posts");
    CardClassElements(post, formatDate, "error-message");
    CardHeaderClasses(post, formatDate, "error-message");
    CardFooterClasses(post, "error-message");
  }

  lemma {:induction false} CardsCount(posts: seq<Post>, formatDate: int -> string)
    ensures Count(Cards(posts, formatDate), ClassIs(CardClass)) == |posts|
  {
    if |posts| > 0 {
      CardsCount(posts[1..], formatDate);
      CardCardElements(posts[0], formatDate);
      SelectAppend([CreatePostCard(posts[0], formatDate)], Cards(posts[1..], formatDate), ClassIs(CardClass));
    }
  }

  lemma {:induction false} CardsTitles(posts: seq<Post>, formatDate: int -> string)
    ensures Texts(Cards(posts, formatDate), ClassIs("post-title")) == seq(|posts|, i requires 0 <= i < |posts| => posts[i].title)
  {
    if |posts| > 0 {
      var p := posts[0];
      var card := CreatePostCard(p, formatDate);
      var rest := Cards(posts[1..], formatDate);
      CardsTitles(posts[1..], formatDate);
      CardShowsSummary(p, formatDate);
      TextsAppend([card], rest, ClassIs("post-title"));
      var titles := seq(|posts|, i requires 0 <= i < |posts| => posts[i].title);
      assert titles == [p.title] + seq(|posts[1..]|, i requires 0 <= i < |posts[1..]| => posts[1..][i].title);
    }
  }

  lemma {:induction false} CardsHaveNoPlaceholder(posts: seq<Post>, formatDate: int -> string)
    ensures Count(Cards(posts, formatDate), ClassIs("no-posts")) == 0
    ensures Count(Cards(posts, formatDate), ClassIs("error-message")) == 0
  {
    if |posts| > 0 {
      var card := CreatePostCard(posts[0], formatDate);
      var rest := Cards(posts[1..], formatDate);
      CardsHaveNoPlaceholder(posts[1..], formatDate);
      CardHasNoPlaceholder(posts[0], formatDate);
      SelectAppend([card], rest, ClassIs("no-posts"));
      SelectAppend([card], rest, ClassIs("error-message"));
    }
  }

  /** A sequence of cards holds one card and one title per post, in order,
      and no placeholder. */
  lemma {:induction false} CardsShowPosts(posts: seq<Post>, formatDate: int -> string)
    ensures var cards := Cards(posts, formatDate);
      && Count(cards, ClassIs(CardClass)) == |posts|
      && Texts(cards, ClassIs("post-title")) == seq(|posts|, i requires 0 <= i < |posts| => posts[i].title)
      && Count(cards, ClassIs("no-posts")) == 0
      && Count(cards, ClassIs("error-message")) == 0
  {
    CardsCount(posts, formatDate);
    CardsTitles(posts, formatDate);
    CardsHaveNoPlaceholder(posts, formatDate);
  }

  /** The single placeholder paragraph shows its message and is no card. */
  lemma {:induction false} PlaceholderShows(cls: string, message: string)
    requires cls != CardClass
    ensures Texts(Placeholder(cls, message), ClassIs(cls)) == [message]
    ensures Count(Placeholder(cls, message), ClassIs(CardClass)) == 0
  {
    SelectLabelled("p", [Attr("class", cls)], message, ClassIs(cls));
    SelectLabelled("p", [Attr("class", cls)], message, ClassIs(CardClass));
    TextOfOne(Text(message));
  }

  /** The outcome of the list page: a load failure shows only the error
      placeholder, an empty collection only the "no posts" placeholder, and
      otherwise there is exactly one card per post and no placeholder. */
  lemma {:induction false} ListPageOutcome(fetched: Result<seq<Post>, LoadError>, formatDate: int -> string)
    ensures var grid := LoadBlogPosts(fetched, formatDate);
      && (fetched.Failure? ==>
            Texts(grid, ClassIs("error-message")) == [LoadErrorMessage]
            && |grid| == 1 && Count(grid, ClassIs(CardClass)) == 0)
      && (fetched.Success? && |fetched.value| == 0 ==>
            Texts(grid, ClassIs("no-posts")) == [NoPostsMessage]
            && |grid| == 1 && Count(grid, ClassIs(CardClass)) == 0)
      && (fetched.Success? && |fetched.value| > 0 ==>
            Count(grid, ClassIs(CardClass)) == |fetched.value|
            && Count(grid, ClassIs("no-posts")) == 0
            && Count(grid, ClassIs("error-message")) == 0)
  {
    match fetched
    case Failure(_) =>
      PlaceholderShows("error-message", LoadErrorMessage);
    case Success(posts) =>
      if |posts| == 0 {
        PlaceholderShows("no-posts", NoPostsMessage);
      } else {
        var sorted := SortNewestFirst(posts);
        SortNewestFirstCorrect(posts);
        assert |sorted| == |posts| by {
          assert |multiset(sorted)| == |multiset(posts)|;
        }
        CardsCount(sorted, formatDate);
        CardsHaveNoPlaceholder(sorted, formatDate);
      }
  }

  /** The cards are those of the stable newest-first arrangement of the
      collection: whatever arrangement has dates never increasing and keeps
      the posts of each date in their input order, the grid holds one card
      per post of it, in its order. */
  lemma {:induction false} ListPageOrder(posts: seq<Post>, r: seq<Post>, formatDate: int -> string)
    requires |posts| > 0
    requires NewestFirst(r)
    requires forall d :: DatedOn(r, d) == DatedOn(posts, d)
    ensures var grid := LoadBlogPosts(Success(posts), formatDate);
      && |grid| == |r|
      && (forall i :: 0 <= i < |r| ==> grid[i] == CreatePostCard(r[i], formatDate))
  {
    SortIsTheStableOrder(posts, r);
    CardsAt(r, formatDate);
  }
}
