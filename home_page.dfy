/** The home page (src/app/page.tsx): the fetched list with each category replaced by its
    name, and the featured, trending, criticism and creative-writing sections drawn from it. */
module HomePage {
  import opened Common
  import opened Types
  import Seqs

  /** An article as the home page holds it: every field of the API's article, except that
      `category` is the category's name. */
  datatype HomeArticle = HomeArticle(
    id: string,
    slug: string,
    title: string,
    author: string,
    date: string,
    category: string,
    excerpt: string,
    content: map<string, Json>,
    media: seq<Media>,
    trending: bool,
    createdAt: string,
    updatedAt: string)

  /** `{ ...article, category: article.category.name }` */
  function WithCategoryName(a: Article): (h: HomeArticle)
    ensures h.category == a.category.name
    ensures h.id == a.id && h.slug == a.slug && h.title == a.title && h.author == a.author
    ensures h.date == a.date && h.excerpt == a.excerpt && h.content == a.content && h.media == a.media
    ensures h.trending == a.trending && h.createdAt == a.createdAt && h.updatedAt == a.updatedAt
  {
    HomeArticle(a.id, a.slug, a.title, a.author, a.date, a.category.name, a.excerpt,
                a.content, a.media, a.trending, a.createdAt, a.updatedAt)
  }

  /** `getArticles`; `response` is the fetch's outcome, a failure being either an error
      status or a thrown error. */
  function GetArticles(response: Result<seq<Article>>): (r: seq<HomeArticle>)
    ensures response.Err? ==> r == []
    ensures response.Ok? ==> |r| == |response.value|
    ensures response.Ok? ==> forall i :: 0 <= i < |r| ==> r[i] == WithCategoryName(response.value[i])
  {
    match response
    case Ok(articles) => Seqs.Map(articles, WithCategoryName)
    case Err(_) => []
  }

  const CriticismCategory: string := "Phê bình & Tiểu luận"
  const CreativeCategory: string := "Sáng tác"

  /** What the page renders: the fallback message, or the sections. Each section list is
      rendered only when it is non-empty; the trending carousel loops when `loopTrending`. */
  datatype HomeView =
    | Fallback
    | Sections(featured: HomeArticle, trending: seq<HomeArticle>, loopTrending: bool,
               criticism: seq<HomeArticle>, creative: seq<HomeArticle>)

  predicate IsTrending(a: HomeArticle) {
    a.trending
  }

  function InCategory(name: string): HomeArticle -> bool {
    (a: HomeArticle) => a.category == name
  }

  /** The `Home` component's selection. */
  function Home(articles: seq<HomeArticle>): HomeView {
    if |articles| == 0 then Fallback
    else
      var trending := Seqs.Filter(articles, IsTrending);
      Sections(articles[0], trending, |trending| > 1,
               Seqs.Take(Seqs.Filter(articles, InCategory(CriticismCategory)), 4),
               Seqs.Take(Seqs.Filter(articles, InCategory(CreativeCategory)), 3))
  }

  /** The fallback shows exactly when there are no articles; a failed fetch always shows it. */
  lemma FallbackIff(articles: seq<HomeArticle>, message: string)
    ensures Home(articles).Fallback? <==> articles == []
    ensures Home(GetArticles(Err(message))).Fallback?
  {
  }

  /** The featured article is the first one, and the trending section is exactly the
      trending articles in their order; its carousel loops only with two or more. */
  lemma FeaturedAndTrending(articles: seq<HomeArticle>)
    requires articles != []
    ensures Home(articles).featured == articles[0]
    ensures forall a :: a in Home(articles).trending <==> a in articles && a.trending
    ensures Seqs.IsSubsequence(Home(articles).trending, articles)
    ensures Home(articles).loopTrending <==> |Home(articles).trending| > 1
    ensures |Home(articles).trending| == Seqs.Count(articles, IsTrending)
  {
    Seqs.FilterIsSubsequence(articles, IsTrending);
    Seqs.FilterMembers(articles, IsTrending);
    Seqs.FilterLength(articles, IsTrending);
  }

  /** A capped section: at most `cap` articles, all of category `name`, the first ones of that
      category in order, and as many as there are when there are fewer than `cap`. */
  predicate IsCappedSection(section: seq<HomeArticle>, articles: seq<HomeArticle>, name: string, cap: nat) {
    var all := Seqs.Filter(articles, InCategory(name));
    && |section| == (if |all| < cap then |all| else cap)
    && section == all[..|section|]
    && (forall a :: a in section ==> a in articles && a.category == name)
    && Seqs.IsSubsequence(section, articles)
  }

  /** The criticism section is the first four (at most) articles of 'Phê bình & Tiểu luận',
      and the creative-writing section the first three (at most) of 'Sáng tác'. */
  lemma CappedSections(articles: seq<HomeArticle>)
    requires articles != []
    ensures IsCappedSection(Home(articles).criticism, articles, CriticismCategory, 4)
    ensures IsCappedSection(Home(articles).creative, articles, CreativeCategory, 3)
  {
    CappedSection(articles, CriticismCategory, 4);
    CappedSection(articles, CreativeCategory, 3);
  }

  lemma CappedSection(articles: seq<HomeArticle>, name: string, cap: nat)
    ensures IsCappedSection(Seqs.Take(Seqs.Filter(articles, InCategory(name)), cap), articles, name, cap)
  {
    var all := Seqs.Filter(articles, InCategory(name));
    var section := Seqs.Take(all, cap);
    Seqs.FilterIsSubsequence(articles, InCategory(name));
    Seqs.FilterMembers(articles, InCategory(name));
    Seqs.PrefixIsSubsequence(section, all);
    Seqs.SubsequenceTransitive(section, all, articles);
    forall a | a in section ensures a in all {
      var i :| 0 <= i < |section| && section[i] == a;
      assert all[i] == a;
    }
  }
}
