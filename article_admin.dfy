/** The article administration list (src/app/admin/articles/page.tsx): loading the list and
    deleting an article by its slug. */
module ArticleAdmin {
  import opened Common
  import opened Types
  import Seqs

  /** `article => article.slug !== slugToDelete` */
  function SlugIsNot(slug: string): Article -> bool {
    (a: Article) => a.slug != slug
  }

  /** `prev.filter(article => article.slug !== slugToDelete)` */
  function RemoveArticle(articles: seq<Article>, slug: string): seq<Article> {
    Seqs.Filter(articles, SlugIsNot(slug))
  }

  /** After a delete no article with that slug is left, every other one is, and their order
      is kept. */
  lemma RemoveArticleIsExact(articles: seq<Article>, slug: string)
    ensures forall a :: a in RemoveArticle(articles, slug) <==> a in articles && a.slug != slug
    ensures Seqs.IsSubsequence(RemoveArticle(articles, slug), articles)
    ensures |RemoveArticle(articles, slug)| == Seqs.Count(articles, SlugIsNot(slug))
  {
    Seqs.FilterIsSubsequence(articles, SlugIsNot(slug));
    Seqs.FilterMembers(articles, SlugIsNot(slug));
    Seqs.FilterLength(articles, SlugIsNot(slug));
  }

  /** Deleting the same slug again removes nothing more. */
  lemma RemoveArticleIdempotent(articles: seq<Article>, slug: string)
    ensures RemoveArticle(RemoveArticle(articles, slug), slug) == RemoveArticle(articles, slug)
  {
    Seqs.FilterIdempotent(articles, SlugIsNot(slug));
  }

  /** The list, its loading flag and the session's token. The page shows `articles.length`
      as the total, so the total is the list's length in every state. */
  class ArticlesAdminPage {
    var articles: seq<Article>
    var isLoading: bool
    var token: Option<string>

    constructor(token: Option<string>)
      ensures articles == [] && isLoading && this.token == token
    {
      articles := [];
      isLoading := true;
      this.token := token;
    }

    /** The mount effect: the list is replaced by the fetched one, or kept when the fetch
        fails (a toast); loading ends either way. */
    method Load(response: Result<seq<Article>>)
      modifies this
      ensures articles == if response.Ok? then response.value else old(articles)
      ensures !isLoading && token == old(token)
    {
      isLoading := true;
      if response.Ok? {
        articles := response.value;
      }
      isLoading := false;
    }

    /** `handleDelete`; it returns whether the delete call is made, and `response` is that
        call's outcome. Without a token nothing is called and nothing changes; after a
        successful delete exactly the articles with another slug remain, in order; after a
        failed one the list is unchanged. */
    method HandleDelete(slugToDelete: string, response: Outcome) returns (called: bool)
      modifies this
      ensures called == Truthy(old(token))
      ensures articles == if called && response.Done? then RemoveArticle(old(articles), slugToDelete)
                          else old(articles)
      ensures isLoading == old(isLoading) && token == old(token)
    {
      if !Truthy(token) {
        return false;
      }
      called := true;
      if response.Done? {
        articles := RemoveArticle(articles, slugToDelete);
      }
    }
  }
}
