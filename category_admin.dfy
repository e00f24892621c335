/** The category administration page (src/app/admin/categories/page.tsx): its own crude slug
    function and the list updates around the create and delete calls. */
module CategoryAdmin {
  import opened Common
  import opened Types
  import opened UnicodeTables
  import opened JsString
  import Seqs

  /** The characters `[\w-]` keeps: ASCII letters, digits, `_` and `-`. */
  predicate IsWordOrHyphen(c: char) {
    ('a' <= c <= 'z') || ('A' <= c <= 'Z') || ('0' <= c <= '9') || c == '_' || c == '-'
  }

  /** The characters a local slug is made of. */
  predicate IsLocalSlugChar(c: char) {
    ('a' <= c <= 'z') || ('0' <= c <= '9') || c == '_' || c == '-'
  }

  /** The page's `generateSlug`: lower-case, turn every space into `-`, then drop every run of
      characters outside `[A-Za-z0-9_-]`. */
  function LocalSlug(name: string): string {
    Seqs.Filter(ReplaceChar(ToLowerCase(name), ' ', '-'), IsWordOrHyphen)
  }

  /** The output holds only `a`-`z`, `0`-`9`, `_` and `-`. */
  lemma LocalSlugChars(name: string)
    ensures forall i :: 0 <= i < |LocalSlug(name)| ==> IsLocalSlugChar(LocalSlug(name)[i])
  {
    var lowered := ReplaceChar(ToLowerCase(name), ' ', '-');
    assert forall i :: 0 <= i < |lowered| ==> !('A' <= lowered[i] <= 'Z');
    var r := LocalSlug(name);
    Seqs.FilterMembers(lowered, IsWordOrHyphen);
    forall i | 0 <= i < |r| ensures IsLocalSlugChar(r[i]) {
      assert r[i] in r;
      var j :| 0 <= j < |lowered| && lowered[j] == r[i];
    }
  }

  /** The local slug works character by character. */
  lemma LocalSlugConcat(a: string, b: string)
    ensures LocalSlug(a + b) == LocalSlug(a) + LocalSlug(b)
  {
    ToLowerCaseConcat(a, b);
    ReplaceCharConcat(ToLowerCase(a), ToLowerCase(b), ' ', '-');
    Seqs.FilterConcat(ReplaceChar(ToLowerCase(a), ' ', '-'), ReplaceChar(ToLowerCase(b), ' ', '-'), IsWordOrHyphen);
  }

  /** Every single space becomes its own hyphen; nothing merges runs. */
  lemma LocalSlugJoinsAtSpace(a: string, b: string)
    ensures LocalSlug(a + " " + b) == LocalSlug(a) + "-" + LocalSlug(b)
  {
    LocalSlugConcat(a + " ", b);
    LocalSlugConcat(a, " ");
    LocalSlugOfSpace();
  }

  lemma LocalSlugOfSpace()
    ensures LocalSlug(" ") == "-"
  {
  }

  /** A local slug is its own local slug. */
  lemma {:induction false} LocalSlugIdempotent(name: string)
    ensures LocalSlug(LocalSlug(name)) == LocalSlug(name)
  {
    LocalSlugChars(name);
    LocalSlugOfSlugChars(LocalSlug(name));
  }

  lemma {:induction false} LocalSlugOfSlugChars(s: string)
    requires forall i :: 0 <= i < |s| ==> IsLocalSlugChar(s[i])
    ensures LocalSlug(s) == s
  {
    if s != [] {
      assert s == [s[0]] + s[1..];
      LocalSlugConcat([s[0]], s[1..]);
      LocalSlugOfSlugChars(s[1..]);
      assert ToLowerCase([s[0]]) == [SimpleLower(s[0])] + ToLowerCase([]);
      assert Seqs.Filter([s[0]], IsWordOrHyphen) == [s[0]] + Seqs.Filter([], IsWordOrHyphen);
    }
  }

  /** What one character becomes: it is lower-cased, a space then turns into `-`, and the
      result is kept only when it is in `[A-Za-z0-9_-]`. */
  lemma LocalSlugOfChar(c: char)
    requires c != '\U{130}'
    ensures LocalSlug([c]) == (var l := SimpleLower(c);
                               var m := if l == ' ' then '-' else l;
                               if IsWordOrHyphen(m) then [m] else [])
  {
    ToLowerCaseOfChar(c);
    ReplaceCharOfChar(SimpleLower(c), ' ', '-');
    Seqs.FilterOfOne(if SimpleLower(c) == ' ' then '-' else SimpleLower(c), IsWordOrHyphen);
  }

  /** Two spaces in a row give two hyphens: runs are not collapsed. */
  lemma LocalSlugKeepsDoubleSpace(a: string, b: string)
    ensures LocalSlug(a + " " + " " + b) == LocalSlug(a) + "--" + LocalSlug(b)
  {
    var x := a + " ";
    LocalSlugJoinsAtSpace(x, b);
    LocalSlugConcat(a, " ");
    LocalSlugOfSpace();
    var la, lb := LocalSlug(a), LocalSlug(b);
    assert LocalSlug(x) == la + "-";
    assert (la + "-") + "-" + lb == la + "--" + lb;
  }

  /** A character whose lower-case form is outside ASCII contributes nothing: letters with
      diacritics are dropped, not spelt out. */
  lemma LocalSlugDropsNonAscii(c: char)
    requires c != '\U{130}' && SimpleLower(c) >= '\U{80}'
    ensures LocalSlug([c]) == []
  {
    LocalSlugOfChar(c);
  }

  /** The body of the create call. */
  datatype CategoryRequest = CategoryRequest(name: string, slug: string, token: string)

  /** The categories list, the new-name input and the flags of the page; `token` is the one
      the session context provides. */
  class CategoriesPage {
    var categories: seq<Category>
    var isLoading: bool
    var isSubmitting: bool
    var newCategoryName: string
    var token: Option<string>

    constructor(token: Option<string>)
      ensures categories == [] && isLoading && !isSubmitting && newCategoryName == ""
      ensures this.token == token
    {
      categories := [];
      isLoading := true;
      isSubmitting := false;
      newCategoryName := "";
      this.token := token;
    }

    /** The mount effect: the list is replaced by the fetched one, or kept when the fetch
        fails; loading ends either way. */
    method Load(response: Result<seq<Category>>)
      modifies this
      ensures categories == if response.Ok? then response.value else old(categories)
      ensures !isLoading
      ensures isSubmitting == old(isSubmitting) && newCategoryName == old(newCategoryName)
      ensures token == old(token)
    {
      isLoading := true;
      if response.Ok? {
        categories := response.value;
      }
      isLoading := false;
    }

    /** `handleCreate`. It returns the request it sends, if any; `response` is what the
        server answers to it. A blank name or a missing token sends nothing and changes
        nothing. After a successful create the new category is appended and the input is
        cleared; after a failed one only the submitting flag, which is back to false,
        has been touched. */
    method HandleCreate(response: Result<Category>) returns (request: Option<CategoryRequest>)
      modifies this
      ensures request == if Trim(old(newCategoryName)) == "" || !Truthy(old(token)) then None
                         else Some(CategoryRequest(old(newCategoryName), LocalSlug(old(newCategoryName)), old(token).value))
      ensures request.None? ==> categories == old(categories) && newCategoryName == old(newCategoryName)
                                && isSubmitting == old(isSubmitting)
      ensures request.Some? ==> !isSubmitting
      ensures request.Some? && response.Ok? ==> categories == old(categories) + [response.value] && newCategoryName == ""
      ensures request.Some? && response.Err? ==> categories == old(categories) && newCategoryName == old(newCategoryName)
      ensures isLoading == old(isLoading) && token == old(token)
    {
      if Trim(newCategoryName) == "" || !Truthy(token) {
        return None;
      }
      isSubmitting := true;
      var slug := LocalSlug(newCategoryName);
      request := Some(CategoryRequest(newCategoryName, slug, token.value));
      if response.Ok? {
        categories := categories + [response.value];
        newCategoryName := "";
      }
      isSubmitting := false;
    }

    /** `handleDelete`. It returns whether the delete call is made. Without a token nothing
        happens; after a successful delete exactly the categories with another id remain,
        in order; after a failed one the list is unchanged. */
    method HandleDelete(idToDelete: string, response: Outcome) returns (called: bool)
      modifies this
      ensures called == Truthy(old(token))
      ensures categories == if called && response.Done? then RemoveCategory(old(categories), idToDelete)
                            else old(categories)
      ensures isLoading == old(isLoading) && isSubmitting == old(isSubmitting)
      ensures newCategoryName == old(newCategoryName) && token == old(token)
    {
      if !Truthy(token) {
        return false;
      }
      called := true;
      if response.Done? {
        categories := RemoveCategory(categories, idToDelete);
      }
    }
  }

  /** `cat => cat._id !== idToDelete` */
  function IdIsNot(id: string): Category -> bool {
    (cat: Category) => cat.id != id
  }

  /** `prev.filter(cat => cat._id !== idToDelete)` */
  function RemoveCategory(categories: seq<Category>, id: string): seq<Category> {
    Seqs.Filter(categories, IdIsNot(id))
  }

  /** After a delete no category with that id is left, every other one is, and their order
      is kept. */
  lemma RemoveCategoryIsExact(categories: seq<Category>, id: string)
    ensures forall c :: c in RemoveCategory(categories, id) ==> c.id != id
    ensures forall c :: c in categories && c.id != id ==> c in RemoveCategory(categories, id)
    ensures Seqs.IsSubsequence(RemoveCategory(categories, id), categories)
    ensures |RemoveCategory(categories, id)| == Seqs.Count(categories, IdIsNot(id))
  {
    Seqs.FilterIsSubsequence(categories, IdIsNot(id));
    Seqs.FilterMembers(categories, IdIsNot(id));
    Seqs.FilterLength(categories, IdIsNot(id));
  }
}
