/** The public article list (src/app/articles/page.tsx): the loaded articles and categories,
    and the category filter. */
module ArticleList {
  import opened Common
  import opened Types
  import Seqs

  /** The page's `getArticles` / `getCategories`: a failed fetch gives the empty list. */
  function OrEmpty<T>(response: Result<seq<T>>): (r: seq<T>)
    ensures response.Ok? ==> r == response.value
    ensures response.Err? ==> r == []
  {
    if response.Ok? then response.value else []
  }

  /** The value of the "every category" option of the filter. */
  const AllCategories: string := "all"

  function HasCategorySlug(slug: string): Article -> bool {
    (a: Article) => a.category.slug == slug
  }

  /** The filtered list for a selection: everything for 'all', otherwise the articles whose
      category has that slug. */
  function FilterBy(articles: seq<Article>, selection: string): seq<Article> {
    if selection == AllCategories then articles else Seqs.Filter(articles, HasCategorySlug(selection))
  }

  /** 'all' shows the whole list; any other selection exactly the articles of that category
      slug, in their order. */
  lemma FilterByIsExact(articles: seq<Article>, selection: string)
    ensures selection == AllCategories ==> FilterBy(articles, selection) == articles
    ensures selection != AllCategories ==>
      forall a :: a in FilterBy(articles, selection) <==> a in articles && a.category.slug == selection
    ensures Seqs.IsSubsequence(FilterBy(articles, selection), articles)
    ensures selection != AllCategories ==>
      |FilterBy(articles, selection)| == Seqs.Count(articles, HasCategorySlug(selection))
  {
    if selection == AllCategories {
      Seqs.SubsequenceOfSelf(articles);
    } else {
      Seqs.FilterIsSubsequence(articles, HasCategorySlug(selection));
      Seqs.FilterMembers(articles, HasCategorySlug(selection));
      Seqs.FilterLength(articles, HasCategorySlug(selection));
    }
  }

  /** Applying a selection to its own result changes nothing more. */
  lemma FilterByIdempotent(articles: seq<Article>, selection: string)
    ensures FilterBy(FilterBy(articles, selection), selection) == FilterBy(articles, selection)
  {
    if selection != AllCategories {
      Seqs.FilterIdempotent(articles, HasCategorySlug(selection));
    }
  }

  /** The page state. */
  class ArticlesPage {
    var articles: seq<Article>
    var categories: seq<Category>
    var filteredArticles: seq<Article>
    var selectedCategory: string
    var isLoading: bool

    constructor()
      ensures articles == [] && categories == [] && filteredArticles == []
      ensures selectedCategory == AllCategories && isLoading
    {
      articles := [];
      categories := [];
      filteredArticles := [];
      selectedCategory := AllCategories;
      isLoading := true;
    }

    /** The mount effect: both lists are fetched (a failure giving the empty list), the
        filtered list starts as the whole list, and loading ends. */
    method Load(articlesResponse: Result<seq<Article>>, categoriesResponse: Result<seq<Category>>)
      modifies this
      ensures articles == OrEmpty(articlesResponse) && filteredArticles == articles
      ensures categories == OrEmpty(categoriesResponse)
      ensures !isLoading && selectedCategory == old(selectedCategory)
      ensures selectedCategory == AllCategories ==> ShowsSelection()
    {
      isLoading := true;
      var articlesData := OrEmpty(articlesResponse);
      var categoriesData := OrEmpty(categoriesResponse);
      articles := articlesData;
      filteredArticles := articlesData;
      categories := categoriesData;
      isLoading := false;
    }

    /** `handleFilterChange`: the selection is remembered and the filtered list is computed
        from the whole list, never from the previous filtered list, so after any sequence of
        selections only the last one matters. */
    method HandleFilterChange(categorySlug: string)
      modifies this
      ensures selectedCategory == categorySlug
      ensures filteredArticles == FilterBy(articles, categorySlug)
      ensures articles == old(articles) && categories == old(categories) && isLoading == old(isLoading)
      ensures ShowsSelection()
    {
      selectedCategory := categorySlug;
      if categorySlug == AllCategories {
        filteredArticles := articles;
      } else {
        var filtered := Seqs.Filter(articles, HasCategorySlug(categorySlug));
        filteredArticles := filtered;
      }
    }

    /** The filtered list is the selection applied to the whole list (true after loading
        with the initial 'all', and after every filter change). */
    predicate ShowsSelection()
      reads this
    {
      filteredArticles == FilterBy(articles, selectedCategory)
    }
  }
}
