/** The records of the post feed: a post and the typed content blocks of its
    body, as the blog pages read them from the parsed JSON collection. */
module Posts {
  import opened Wrappers

  /** The `type` names the content-block dispatch recognises. */
  const KnownTypes: set<string> := {"paragraph", "heading", "list", "video", "image", "quote"}

  /** One content block, discriminated by its `type` field. A block whose
      `type` is none of the known names is kept as `Unrecognised`. */
  datatype ContentBlock =
    | Paragraph(text: string)
    | Heading(text: string)
    | List(items: seq<string>)
    | Video(url: string, caption: Option<string>)
    | Image(url: string, alt: Option<string>, caption: Option<string>)
    | Quote(text: string)
    | Unrecognised(kind: string)

  /** The `type` field of a block. */
  function TypeName(b: ContentBlock): string
  {
    match b
    case Paragraph(_) => "paragraph"
    case Heading(_) => "heading"
    case List(_) => "list"
    case Video(_, _) => "video"
    case Image(_, _, _) => "image"
    case Quote(_) => "quote"
    case Unrecognised(k) => k
  }

  /** A block as it comes out of the feed: an `Unrecognised` block never
      carries one of the known type names, so the constructor and the
      `type` field always agree. */
  type Block = b: ContentBlock | !b.Unrecognised? || b.kind !in KnownTypes
    witness Paragraph("")

  /** One blog entry. `date` is a timestamp; `linkedinUrl` is optional. */
  datatype Post = Post(
    slug: string,
    title: string,
    author: string,
    date: int,
    excerpt: string,
    tags: seq<string>,
    content: seq<Block>,
    linkedinUrl: Option<string>)

  /** Why the post collection could not be had: the fetch or the JSON parse
      failed. Its detail only reaches the console. */
  datatype LoadError = FetchFailed | ParseFailed

  /** JavaScript truthiness of an optional string field: present and non-empty. */
  predicate Present(o: Option<string>)
  {
    o.Some? && o.value != ""
  }

  /** `content.some(item => item.type === 'video')`, scanning left to right. */
  function HasVideo(content: seq<Block>): (r: bool)
    ensures r <==> exists i :: 0 <= i < |content| && TypeName(content[i]) == "video"
    ensures r <==> exists i :: 0 <= i < |content| && content[i].Video?
  {
    if |content| == 0 then false
    else TypeName(content[0]) == "video" || HasVideo(content[1..])
  }
}
