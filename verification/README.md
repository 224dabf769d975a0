# Blog pages of the TechImbue website, modelled in Dafny

The website has two blog pages, and both are driven by one JSON collection of posts.

- **List page** (`blog/blog-index.js`). It sorts the posts newest first and shows one summary card per post. Each card holds:
  - the formatted date and the author;
  - a video badge when the post contains a video;
  - the title, the excerpt and the tag chips;
  - two links to the post page;
  - a LinkedIn link when the post has one.

  An empty collection shows a "no posts" placeholder instead of cards. A collection that cannot be loaded shows an error placeholder.
- **Post page** (`blog/blog-post.js`). It reads the `id` query parameter. A missing or empty `id` redirects to the list page. Otherwise the page looks up the first post whose slug equals the id and renders it:
  - a header with the meta line, the title, the tags and an optional link to the LinkedIn original;
  - a body, which is the concatenation of its content blocks: paragraph, heading, list, video, image or quote;
  - a footer with share links.

  The page also sets the document title and the description/OpenGraph meta elements. If no post has that slug, the page shows a "Post not found" error box. If the collection cannot be loaded, it shows a load-error box.

The project is organised as follows.

- **Data model.** `Posts` holds the post records.
- **Markup.** `Markup` holds a small markup tree, its serialiser `Html`, and document-order queries:
  - `Select` by tag, class or attribute;
  - `Texts`, `Values` and `Hrefs`.

  Page properties are stated through these queries. For example, "the card's links are …" or "the page shows one chip per tag, in order".
- **Order.** `PostOrder` defines the newest-first order and a stable insertion sort.
- **Shared markup.** `PostFragments` holds the markup that both pages build the same way.
- **Pages.** `BlogIndex` is the list page. `ContentRender` renders the content blocks of the post page, and `BlogPost` is the rest of the post page.

Some inputs from outside the pages are modelled as parameters:
- the fetched collection, as `Result<seq<Post>, LoadError>`;
- the date formatter, as `formatDate: int -> string`;
- `encodeURIComponent`, as `encode`;
- the page address, as `pageUrl`;
- the `id` query parameter, as `id: Option<string>`. `getPostId` and the `URLSearchParams` decoding stay outside the model; `None` stands for a missing parameter;
- which meta elements the page has, as `head: Head`. Each `None` field is a missing description, og:title or og:description element, the case the `if (meta)` guards skip.

Optional fields follow JavaScript truthiness: `Present(o)` holds when the field is there and is not the empty string.

The post page looks a post up by the first slug match, as `posts.find` does. It does not rely on slugs being unique.

## Model

| member | source | states |
|---|---|---|
| Posts.HasVideo | blog/blog-index.js:49 | true exactly when some block's type is `video`, equivalently when some block is a video block |
| PostOrder.InsertPermutes | blog/blog-index.js:15 | inserting a post adds exactly that post to the multiset of posts |
| PostOrder.InsertKeepsOrder | blog/blog-index.js:15 | inserting into a newest-first sequence yields a newest-first sequence |
| PostOrder.InsertDatedOn | blog/blog-index.js:15 | inserting a post puts it first among the posts of its date and leaves the posts of every other date as they were |
| PostOrder.SortNewestFirstCorrect | blog/blog-index.js:15 | the sorted posts are a permutation of the input; dates never increase; posts of equal date keep their input order, as a stable `Array.prototype.sort` guarantees |
| PostOrder.StableOrderUnique | blog/blog-index.js:15 | two newest-first arrangements with the same per-date subsequences are identical |
| PostOrder.SortIsTheStableOrder | blog/blog-index.js:15 | every newest-first arrangement that keeps equal-date posts in input order is exactly the sort's result |
| PostFragments.TagSpansShowTags | blog/blog-index.js:45-47 | the tag chips show the tags, one chip per tag, in tag order |
| PostFragments.TagSpansHtml | blog/blog-index.js:45-47 | the serialised chips are the join of one `<span class="post-tag">tag</span>` per tag |
| BlogIndex.CardLinks | blog/blog-index.js:62-82 | a card's links are, in order, `post.html?id=<slug>` on the title and on "Read Full Post", then the LinkedIn URL exactly when it is present and non-empty |
| BlogIndex.CardVideoIndicator | blog/blog-index.js:49-59 | a card has one video badge when some block is a video, and none otherwise |
| BlogIndex.CardShowsTags | blog/blog-index.js:65-67 | a card's chips show the post's tags in order |
| BlogIndex.CardShowsSummary | blog/blog-index.js:53-64 | a card shows the formatted date, "by author", the title and the excerpt once each, and is one card |
| BlogIndex.CardHasNoPlaceholder | blog/blog-index.js:52-85 | a card contains neither placeholder |
| BlogIndex.CardsCount | blog/blog-index.js:18 | the grid built from a sequence of posts holds exactly one card per post |
| BlogIndex.CardsTitles | blog/blog-index.js:18 | the card titles of the grid are the post titles, in sequence order |
| BlogIndex.CardsHaveNoPlaceholder | blog/blog-index.js:18 | a grid of cards contains neither the "no posts" nor the error placeholder |
| BlogIndex.CardsShowPosts | blog/blog-index.js:18 | the cards of a sequence of posts are one per post, with the titles in sequence order and no placeholder |
| BlogIndex.PlaceholderShows | blog/blog-index.js:10 | a placeholder paragraph shows exactly its message under its own class and contains no card |
| BlogIndex.ListPageOutcome | blog/blog-index.js:9-33 | a load failure shows only the error placeholder; an empty collection shows only "No posts yet. Check back soon!"; otherwise there is one card per post and no placeholder |
| BlogIndex.ListPageOrder | blog/blog-index.js:15-18 | for every arrangement of a non-empty collection whose dates never increase and which keeps the posts of each date in input order, the grid is one card per post of that arrangement, in its order |
| ContentRender.RenderContentBlock | blog/blog-post.js:132-174 | a block renders to nothing exactly when its type is none of the six known types, and to at most one element otherwise |
| ContentRender.ParagraphMarkup | blog/blog-post.js:134-135 | a paragraph serialises as `<p>text</p>` and its text content is the text |
| ContentRender.HeadingMarkup | blog/blog-post.js:137-138 | a heading serialises as `<h2>text</h2>` and its text content is the text |
| ContentRender.QuoteMarkup | blog/blog-post.js:168-169 | a quote serialises as `<blockquote>text</blockquote>` and its text content is the text |
| ContentRender.ListBlockItems | blog/blog-post.js:140-142 | a list block is one `<ul>` whose `<li>` texts are the items in item order |
| ContentRender.ListBlockHtml | blog/blog-post.js:140-142 | a list block serialises as `<ul>` around the join of one `<li>item</li>` per item |
| ContentRender.ListItemsHtml | blog/blog-post.js:141 | the list items serialise as the join of one `<li>item</li>` per item, in item order |
| ContentRender.VideoBlockMarkup | blog/blog-post.js:144-158 | a video block is one embed whose only link is the video URL, with a caption paragraph exactly when a caption is present |
| ContentRender.ImageBlockMarkup | blog/blog-post.js:160-166 | an image block is one `<img>` with `src` the URL and `alt` the alt text or `""`, with a `<figcaption>` exactly when a caption is present |
| ContentRender.BodyAppend | blog/blog-post.js:77 | the body of two runs of blocks is the first run's body followed by the second's |
| ContentRender.BodyHtml | blog/blog-post.js:77 | the serialised body is the join of the blocks' serialisations, in content order |
| ContentRender.BodySkipsUnrecognised | blog/blog-post.js:171-172 | a block of unrecognised type contributes nothing to the body wherever it stands |
| ContentRender.BlockVideoEmbeds | blog/blog-post.js:132-174 | a block renders a video embed exactly when it is a video block |
| ContentRender.BodyVideoEmbeds | blog/blog-post.js:77 | the body holds a video embed exactly when the post has a video block, the condition of the list page's badge |
| ContentRender.BlockForeign | blog/blog-post.js:132-174 | no block renders an element with a tag or class that no block template uses |
| ContentRender.BodyForeign | blog/blog-post.js:77 | the body holds no element with a tag or class that no block template uses |
| ContentRender.QuoteThenUnknown | blog/blog-post.js:168-172 | a quote followed by a block of any unknown type serialises as just `<blockquote>text</blockquote>`, and the text is the only blockquote text |
| BlogPost.FindPost | blog/blog-post.js:20 | no post is found exactly when no slug matches; a found post is one whose slug matches, and no earlier post's slug does |
| BlogPost.FirstIndex | blog/blog-post.js:20 | the index is that of the first post whose slug equals the id, or the collection length exactly when no slug matches |
| BlogPost.UpdateMetaTags | blog/blog-post.js:46-62 | description and og:description become the excerpt and og:title becomes the title followed by the suffix "&#124; TechImbue", each only when that meta element exists; the title is untouched |
| BlogPost.LoadBlogPost | blog/blog-post.js:8-44 | a missing or empty id redirects to `index.html` whatever the collection; a load failure shows the load-error box, and an unmatched id shows "Post not found", both under unchanged metadata; otherwise the first matching post is rendered under the post title followed by the suffix "&#124; TechImbue Blog" and updated meta tags |
| BlogPost.ErrorBox | blog/blog-post.js:176-185 | the error box shows the message in its only paragraph, under "Oops!", with a single link back to `index.html` |
| BlogPost.ErrorsDiffer | blog/blog-post.js:20-43 | the "Post not found" box and the load-error box show different messages |
| BlogPost.PostPageLinks | blog/blog-post.js:89-127 | the post's links in order: the LinkedIn original when present, the body's links, the Twitter and LinkedIn share targets built from the encoded title and address, and `index.html` |
| BlogPost.PostPageShows | blog/blog-post.js:79-97 | the rendered post shows its title, formatted date and "by author" once each, its tags in order, and the LinkedIn-original link exactly when it is present |
| BlogPost.PostPageBody | blog/blog-post.js:99-101 | the page has one body region holding exactly the rendered blocks, and it embeds a video exactly when the post has a video block |
| BlogPost.PageHasNoErrorBox | blog/blog-post.js:79-129 | a rendered post contains no error box |
| BlogPost.PostPageLoadFailed | blog/blog-post.js:40-43 | with an id given, a collection that cannot be loaded shows the load-error message under unchanged metadata |
| BlogPost.PostPageNotFound | blog/blog-post.js:20-25 | with an id given, a collection with no post of that slug shows "Post not found" under unchanged metadata |
| BlogPost.PostPageFound | blog/blog-post.js:20-33 | with an id some post's slug equals, the page shows a post with that slug, its title and no error box, under the post title followed by the suffix "&#124; TechImbue Blog" |

## Left out

- `script.js`: scroll, click and observer effects, parallax arithmetic, timers and the cursor trail are page chrome outside the blog logic.
- `fetch` and `response.json()`: network and JSON I/O. The parsed collection, or the failure, is an input. A response that parses to something other than an array of well-formed posts is not modelled.
- Exceptions thrown during rendering: a post lacking a field that the templates dereference (for example `tags` or `content`) would make the source reach its `catch` and show the load-error message. In the source the document title and the meta tags (description, og:title, og:description) have already been updated by then. Every `Post` here has all of its fields, so this path does not arise.
- `new Date(...)` and `toLocaleDateString`: dates are integer timestamps. The formatted date is an opaque function of the timestamp, and invalid dates (NaN comparisons in the sort) are not modelled.
- `encodeURIComponent` and `window.location.href`: opaque parameters of the post page.
- DOM writes, `setTimeout` fade-ins, transition delays, the `visible`/`fade-in` classes and `console.error` are not modelled. The model yields the markup placed in the page and the page metadata.
- SVG icons and template whitespace are not modelled. The markup is structural. It is byte-exact only for the chips, the text blocks and the lists, not for cards, videos, images or whole pages.
- HTML escaping: the source does none and the model does none. Text is placed raw.
- Markup.Select, Markup.Texts, Markup.Hrefs and Markup.Count read the tree the templates build, not what a browser parses out of the string written to `innerHTML`. They describe the page only when no interpolated text (title, excerpt, author, tag, slug, URL, list item, caption, alt text) contains `<`, `&` or `"`. Otherwise the parsed page can hold elements, links, placeholders or cards that these queries do not see. For example, the paragraph text `</p><a href="x">y</a><p>` serialises to markup holding a link, while `Hrefs` of the block is empty. The page-level contracts built on these queries are weaker in the same way. This covers the card, list-page and post-page lemmas.
- `Markup.Select` with a class selector compares the whole `class` attribute, for example `blog-post-card glass`. It does not match single class tokens.

