/** The records the REST API exchanges with the site (src/lib/types.ts). */
module Types {
  import opened Common

  datatype MediaType = Image | Video | Pdf

  /** A file attached to an article. */
  datatype Media = Media(url: string, mediaType: MediaType, caption: Option<string>)

  /** A category; sub-categories are nested under `children`. */
  datatype Category = Category(
    id: string,
    name: string,
    slug: string,
    parent: Option<string>,
    children: seq<Category>)

  /** A JSON value; an article's rich-text body is a JSON object. */
  datatype Json =
    | JNull
    | JBool(b: bool)
    | JNumber(n: real)
    | JString(s: string)
    | JArray(items: seq<Json>)
    | JObject(fields: map<string, Json>)

  datatype Article = Article(
    id: string,
    slug: string,
    title: string,
    author: string,
    date: string,
    category: Category,
    excerpt: string,
    content: map<string, Json>,
    media: seq<Media>,
    trending: bool,
    createdAt: string,
    updatedAt: string)
}
