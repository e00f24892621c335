/** The search-index builder (scripts/build-search-data.mjs): one search record per article
    fetched from the API. */
module SearchIndex {
  import opened Common
  import opened Types
  import Seqs
  import JsString

  /** The fields of an API article the builder reads; the builder takes `content` to be a
      string, and any of them may be missing. */
  datatype ApiArticle = ApiArticle(
    id: string,
    slug: string,
    title: string,
    content: Option<string>,
    category: Option<Category>,
    publishedAt: Option<string>,
    createdAt: Option<string>)

  /** A record of `search-data.json`, which the search overlay loads. */
  datatype SearchRecord = SearchRecord(
    id: string,
    slug: string,
    title: string,
    contentSnippet: string,
    categorySlug: Option<string>,
    date: Option<string>)

  const SnippetLength: nat := 200
  const Ellipsis: string := "..."

  /** `article.content ? article.content.substring(0, 200) + '...' : ''`, with lengths in
      UTF-16 code units: at most 203 of them, and for a truthy content its leading part followed
      by the ellipsis. */
  function Snippet(content: Option<string>): (r: string)
    ensures JsString.Utf16Length(r) <= SnippetLength + |Ellipsis|
    ensures !Truthy(content) ==> r == ""
    ensures Truthy(content) ==>
      |r| >= |Ellipsis| && r[|r| - |Ellipsis|..] == Ellipsis && r[..|r| - |Ellipsis|] <= content.value
  {
    if Truthy(content) then
      var lead := JsString.TakeCodeUnits(content.value, SnippetLength);
      JsString.Utf16LengthConcat(lead, Ellipsis);
      assert (lead + Ellipsis)[..|lead|] == lead;
      lead + Ellipsis
    else ""
  }

  /** The snippet of a non-empty content is its longest prefix of at most 200 code units,
      the whole content when it fits, followed by "...". */
  lemma SnippetIsPrefix(content: string)
    requires content != ""
    ensures var r := Snippet(Some(content)); var lead := r[..|r| - 3];
      && r == lead + "..."
      && lead <= content
      && JsString.Utf16Length(lead) <= 200
      && (|lead| < |content| ==> 200 < JsString.Utf16Length(lead) + JsString.CodeUnits(content[|lead|]))
      && (JsString.Utf16Length(content) <= 200 ==> lead == content)
  {
    var lead := JsString.TakeCodeUnits(content, SnippetLength);
    assert Snippet(Some(content)) == lead + Ellipsis;
    assert (lead + Ellipsis)[..|lead|] == lead;
    if JsString.Utf16Length(content) <= 200 {
      JsString.TakeCodeUnitsOfShort(content, SnippetLength);
    }
  }

  /** For text within the Basic Multilingual Plane code units are characters: the snippet is
      the first 200 characters, all of them when there are fewer, followed by "...". */
  lemma SnippetOfBmpText(content: string)
    requires content != ""
    requires forall i :: 0 <= i < |content| ==> content[i] <= '\U{FFFF}'
    ensures Snippet(Some(content)) == content[..if |content| < 200 then |content| else 200] + "..."
  {
    JsString.TakeCodeUnitsOfBmp(content, SnippetLength);
  }

  /** The map callback of `buildSearchData`. */
  function ToRecord(a: ApiArticle): (r: SearchRecord)
    ensures r.id == a.id && r.slug == a.slug && r.title == a.title
    ensures r.contentSnippet == Snippet(a.content)
    ensures r.categorySlug == if a.category.Some? then Some(a.category.value.slug) else None
    ensures r.date == if Truthy(a.publishedAt) then a.publishedAt else a.createdAt
  {
    SearchRecord(
      a.id, a.slug, a.title, Snippet(a.content),
      match a.category case Some(c) => Some(c.slug) case None => None,
      if Truthy(a.publishedAt) then a.publishedAt else a.createdAt)
  }

  /** `articles.map(...)`: one record per article, in the same order. */
  function BuildSearchData(articles: seq<ApiArticle>): (r: seq<SearchRecord>)
    ensures |r| == |articles|
    ensures forall i :: 0 <= i < |r| ==> r[i] == ToRecord(articles[i])
  {
    Seqs.Map(articles, ToRecord)
  }

  /** Every record's snippet is at most 203 UTF-16 code units long. */
  lemma SnippetsBounded(articles: seq<ApiArticle>)
    ensures forall r :: r in BuildSearchData(articles) ==> JsString.Utf16Length(r.contentSnippet) <= 203
  {
    var records := BuildSearchData(articles);
    forall r | r in records ensures JsString.Utf16Length(r.contentSnippet) <= 203 {
      var i :| 0 <= i < |records| && records[i] == r;
      assert r == ToRecord(articles[i]);
    }
  }
}
