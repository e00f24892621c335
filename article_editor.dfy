/** The new-article page (src/app/admin/articles/new/page.tsx): the form's validation rules,
    the extension-to-MIME lookup, and the page state around category selection, media upload
    and the slug derived from the title. */
module ArticleEditor {
  import opened Common
  import opened Types
  import opened JsString
  import opened Utils
  import Seqs
  import UnicodeTables

  // ---------------------------------------------------------------------------------------
  // The slug pattern /^[a-z0-9]+(?:-[a-z0-9]+)*$/

  predicate IsAlnum(c: char) {
    ('a' <= c <= 'z') || ('0' <= c <= '9')
  }

  /** `[a-z0-9]+(?:-[a-z0-9]+)*` matches all of `s`: a first character of the leading run,
      then the rest. */
  predicate MatchesSlugPattern(s: string)
    decreases |s|
  {
    s != [] && IsAlnum(s[0]) && MatchesAfterRun(s[1..])
  }

  /** What may follow a character of a run: the end, more of the run, or a hyphen that
      starts a new `[a-z0-9]+` run. */
  predicate MatchesAfterRun(s: string)
    decreases |s|
  {
    s == [] || (IsAlnum(s[0]) && MatchesAfterRun(s[1..])) || (s[0] == '-' && MatchesSlugPattern(s[1..]))
  }

  /** A non-empty slug in the `generateSlug` alphabet, without two hyphens in a row and
      without a hyphen at either end. */
  predicate IsHyphenatedWords(s: string) {
    s != [] && s[0] != '-' && s[|s| - 1] != '-' && AllSlugChars(s) && NoDoubleHyphen(s)
  }

  predicate AfterRunShape(s: string) {
    AllSlugChars(s) && NoDoubleHyphen(s) && (s == [] || s[|s| - 1] != '-')
  }

  lemma {:induction false} MatchesAfterRunIff(s: string)
    ensures MatchesAfterRun(s) <==> AfterRunShape(s)
    decreases |s|
  {
    if s != [] {
      MatchesAfterRunIff(s[1..]);
      ShapeOfCons(s);
      if s[0] == '-' {
        MatchesSlugPatternIff(s[1..]);
      }
    }
  }

  lemma {:induction false} MatchesSlugPatternIff(s: string)
    ensures MatchesSlugPattern(s) <==> s != [] && IsAlnum(s[0]) && AfterRunShape(s[1..])
    decreases |s|
  {
    if s != [] {
      MatchesAfterRunIff(s[1..]);
    }
  }

  /** How the shape of `s` follows from its first character and the shape of the rest. */
  lemma ShapeOfCons(s: string)
    requires s != []
    ensures AfterRunShape(s) <==>
      IsSlugChar(s[0]) && AfterRunShape(s[1..])
      && (s[0] == '-' ==> s[1..] != [] && s[1] != '-')
  {
    var t := s[1..];
    if IsSlugChar(s[0]) && AfterRunShape(t) && (s[0] == '-' ==> t != [] && t[0] != '-') {
      assert AllSlugChars(s) by {
        forall i | 0 <= i < |s| ensures IsSlugChar(s[i]) {
          if i > 0 { assert s[i] == t[i - 1]; }
        }
      }
      assert NoDoubleHyphen(s) by {
        forall i | 0 <= i < |s| - 1 ensures !(s[i] == '-' && s[i + 1] == '-') {
          if i > 0 { assert s[i] == t[i - 1] && s[i + 1] == t[i]; }
        }
      }
    }
    if AfterRunShape(s) {
      assert IsSlugChar(s[0]);
      assert AllSlugChars(t) by {
        forall i | 0 <= i < |t| ensures IsSlugChar(t[i]) {
          assert t[i] == s[i + 1];
        }
      }
      assert NoDoubleHyphen(t) by {
        forall i | 0 <= i < |t| - 1 ensures !(t[i] == '-' && t[i + 1] == '-') {
          assert t[i] == s[i + 1] && t[i + 1] == s[i + 2];
        }
      }
    }
  }

  /** The slug regex accepts exactly the hyphen-separated `[a-z0-9]` words. */
  lemma SlugPatternIsHyphenatedWords(s: string)
    ensures MatchesSlugPattern(s) <==> IsHyphenatedWords(s)
  {
    MatchesSlugPatternIff(s);
    if s != [] {
      ShapeOfCons(s);
    }
  }

  /** A slug produced by `generateSlug` matches the pattern exactly when it is non-empty and
      has no hyphen at either end. */
  lemma GeneratedSlugMatchesPatternIff(title: string)
    ensures var slug := GenerateSlug(title);
      MatchesSlugPattern(slug) <==> slug != [] && slug[0] != '-' && slug[|slug| - 1] != '-'
  {
    GenerateSlugIsNormal(title);
    SlugPatternIsHyphenatedWords(GenerateSlug(title));
  }

  // ---------------------------------------------------------------------------------------
  // The form schema

  /** The form's values. `category` is `None` until a category (or the empty string) has
      been set. */
  datatype ArticleForm = ArticleForm(
    title: string,
    slug: string,
    author: string,
    excerpt: string,
    content: map<string, Json>,
    category: Option<string>,
    trending: bool,
    media: seq<Media>)

  /** The rules the schema can report as broken. */
  datatype Issue =
    | TitleTooShort
    | SlugTooShort
    | SlugMalformed
    | AuthorTooShort
    | ExcerptTooShort
    | ContentEmpty
    | CategoryMissing
    | MediaTypeNotAllowed(index: nat)

  /** Whether the form breaks the rule that `issue` reports: title of at least 5
      characters, slug of at least 3 matching the slug pattern, author of at least 2,
      excerpt of at least 10 (lengths in UTF-16 code units, as `z.string().min` counts them), content with at least one key, a non-empty category, and every
      media item an image or a video. */
  predicate Breaks(f: ArticleForm, issue: Issue) {
    match issue
    case TitleTooShort => Utf16Length(f.title) < 5
    case SlugTooShort => Utf16Length(f.slug) < 3
    case SlugMalformed => !MatchesSlugPattern(f.slug)
    case AuthorTooShort => Utf16Length(f.author) < 2
    case ExcerptTooShort => Utf16Length(f.excerpt) < 10
    case ContentEmpty => |f.content| == 0
    case CategoryMissing => !Truthy(f.category)
    case MediaTypeNotAllowed(i) => i < |f.media| && f.media[i].mediaType == Pdf
  }

  /** The issues that can arise for a form with `n` media items. */
  function Checks(n: nat): set<Issue> {
    {TitleTooShort, SlugTooShort, SlugMalformed, AuthorTooShort, ExcerptTooShort, ContentEmpty,
     CategoryMissing} + set i | 0 <= i < n :: MediaTypeNotAllowed(i)
  }

  /** Everything `articleFormSchema` reports about a form, as the schema is written: the
      category only has to be present, so the empty string passes. */
  function FormIssuesAsWritten(f: ArticleForm): set<Issue> {
    set x | x in Checks(|f.media|) && (if x == CategoryMissing then f.category.None? else Breaks(f, x))
  }

  /** The schema with a category that has actually been chosen: missing or empty both fail,
      as the message "Vui lòng chọn một danh mục con." (choose a sub-category) intends. */
  function FormIssues(f: ArticleForm): set<Issue> {
    set x | x in Checks(|f.media|) && Breaks(f, x)
  }

  /** The form is accepted exactly when every rule holds (lengths in UTF-16 code units):
      title of at least 5, a
      slug of at least 3 that is hyphen-separated `[a-z0-9]` words, author of at least 2,
      excerpt of at least 10, content with at least one key, a chosen category, and no media
      item other than an image or a video. */
  lemma FormAcceptedIff(f: ArticleForm)
    ensures FormIssues(f) == {} <==>
      Utf16Length(f.title) >= 5 && Utf16Length(f.slug) >= 3 && IsHyphenatedWords(f.slug)
      && Utf16Length(f.author) >= 2 && Utf16Length(f.excerpt) >= 10 && |f.content| > 0 && Truthy(f.category)
      && forall i :: 0 <= i < |f.media| ==> f.media[i].mediaType != Pdf
  {
    FormIssuesAreExact(f);
    if FormIssues(f) != {} {
      var x :| x in FormIssues(f);
      match x
      case MediaTypeNotAllowed(i) => assert f.media[i].mediaType == Pdf;
      case _ =>
    } else {
      forall i | 0 <= i < |f.media| ensures f.media[i].mediaType != Pdf {
        assert MediaTypeNotAllowed(i) !in FormIssues(f);
      }
    }
  }

  /** Each issue is reported exactly when its rule is broken. */
  lemma FormIssuesAreExact(f: ArticleForm)
    ensures TitleTooShort in FormIssues(f) <==> Utf16Length(f.title) < 5
    ensures SlugTooShort in FormIssues(f) <==> Utf16Length(f.slug) < 3
    ensures SlugMalformed in FormIssues(f) <==> !IsHyphenatedWords(f.slug)
    ensures AuthorTooShort in FormIssues(f) <==> Utf16Length(f.author) < 2
    ensures ExcerptTooShort in FormIssues(f) <==> Utf16Length(f.excerpt) < 10
    ensures ContentEmpty in FormIssues(f) <==> |f.content| == 0
    ensures CategoryMissing in FormIssues(f) <==> !Truthy(f.category)
    ensures forall i {:trigger MediaTypeNotAllowed(i)} :: 0 <= i < |f.media| ==>
      (MediaTypeNotAllowed(i) in FormIssues(f) <==> f.media[i].mediaType == Pdf)
  {
    SlugPatternIsHyphenatedWords(f.slug);
  }

  /** As written, a form whose category is the empty string is accepted as far as the
      category is concerned: picking a parent sets `category` to '' and passes. */
  lemma EmptyCategoryPassesAsWritten(f: ArticleForm)
    requires f.category == Some("")
    ensures CategoryMissing !in FormIssuesAsWritten(f)
    ensures CategoryMissing in FormIssues(f)
    ensures FormIssuesAsWritten(f) == FormIssues(f) - {CategoryMissing}
  {
  }

  // ---------------------------------------------------------------------------------------
  // getMimeTypeFromExtension

  /** The position of the last '.' in `name`, or -1 when there is none. */
  function LastDot(name: string): (k: int)
    ensures -1 <= k < |name|
    ensures k >= 0 ==> name[k] == '.'
    ensures forall j :: k < j < |name| ==> name[j] != '.'
  {
    if name == [] then -1
    else if name[|name| - 1] == '.' then |name| - 1
    else
      var k := LastDot(name[..|name| - 1]);
      assert forall j :: k < j < |name| - 1 ==> name[..|name| - 1][j] == name[j];
      k
  }

  /** `filename.split('.').pop()`: the text after the last '.', or the whole name when it
      has no '.'. */
  function Extension(name: string): (ext: string)
    ensures '.' !in ext
    ensures |ext| <= |name| && ext == name[|name| - |ext|..]
    ensures |ext| == |name| || name[|name| - |ext| - 1] == '.'
  {
    var ext := name[LastDot(name) + 1..];
    assert forall i :: 0 <= i < |ext| ==> ext[i] == name[LastDot(name) + 1 + i];
    ext
  }

  /** The last '.' is the only '.' with none after it. */
  lemma LastDotIsUnique(name: string, k: int)
    requires -1 <= k < |name| && (k >= 0 ==> name[k] == '.')
    requires forall j :: k < j < |name| ==> name[j] != '.'
    ensures LastDot(name) == k
  {
    var d := LastDot(name);
    if d < k {
      assert false;
    } else if k < d {
      assert false;
    }
  }

  /** The extension of `base.ext` is `ext` when `ext` holds no '.'. */
  lemma ExtensionOfJoin(base: string, ext: string)
    requires '.' !in ext
    ensures Extension(base + "." + ext) == ext
  {
    var name := base + "." + ext;
    forall j | |base| < j < |name| ensures name[j] != '.' {
      assert name[j] == ext[j - |base| - 1];
    }
    LastDotIsUnique(name, |base|);
    assert name[|base| + 1..] == ext;
  }

  /** A name without '.' is its own extension. */
  lemma ExtensionWithoutDot(name: string)
    requires '.' !in name
    ensures Extension(name) == name
  {
    LastDotIsUnique(name, -1);
  }

  /** The `mimeTypes` object's own entries. */
  const MimeTypes: map<string, string> := map[
    "mp4" := "video/mp4",
    "mov" := "video/quicktime",
    "avi" := "video/x-msvideo",
    "jpg" := "image/jpeg",
    "jpeg" := "image/jpeg",
    "png" := "image/png",
    "gif" := "image/gif",
    "webp" := "image/webp"]

  /** The members every plain object inherits from `Object.prototype`; reading one of them
      from `mimeTypes` yields a function or an object, which is truthy. A lower-cased
      extension can only ever equal "constructor" or "__proto__": the others are camelCase. */
  const ObjectPrototypeMembers: set<string> := {
    "constructor", "__proto__", "hasOwnProperty", "isPrototypeOf", "propertyIsEnumerable",
    "toString", "toLocaleString", "valueOf", "__defineGetter__", "__defineSetter__",
    "__lookupGetter__", "__lookupSetter__"}

  /** What `mimeTypes[extension]` evaluates to. */
  datatype Lookup = Undefined | OwnValue(mimeType: string) | InheritedMember(member: string)

  /** `filename.split('.').pop()?.toLowerCase()` */
  function LowerExtension(filename: string): string {
    ToLowerCase(Extension(filename))
  }

  /** `getMimeTypeFromExtension` as written: an empty extension gives `undefined`; any other
      one indexes the object literal, prototype included. */
  function MimeLookupAsWritten(filename: string): (r: Lookup)
    ensures r.InheritedMember? ==> r.member in ObjectPrototypeMembers
  {
    var ext := LowerExtension(filename);
    if ext == "" then Undefined
    else if ext in MimeTypes then OwnValue(MimeTypes[ext])
    else if ext in ObjectPrototypeMembers then InheritedMember(ext)
    else Undefined
  }

  /** `if (!correctMimeType)` as written: every lookup but `undefined` passes. */
  predicate MimeGuardPassesAsWritten(filename: string) {
    !MimeLookupAsWritten(filename).Undefined?
  }

  /** A file named "<anything>.constructor" gets past the type guard although "constructor" is not
      a listed extension, and is uploaded with the `Object` constructor as its type. */
  lemma PrototypeExtensionPassesGuard(base: string)
    ensures MimeGuardPassesAsWritten(base + "." + "constructor")
    ensures LowerExtension(base + "." + "constructor") !in MimeTypes
    ensures MimeTypeFromExtension(base + "." + "constructor") == None
  {
    LowerExtensionOfJoin(base, "constructor");
    assert "constructor" in ObjectPrototypeMembers;
  }

  /** The lower-cased extension of `base.ext`, for an `ext` already in lower-case ASCII. */
  lemma LowerExtensionOfJoin(base: string, ext: string)
    requires forall i :: 0 <= i < |ext| ==> ext[i] != '.' && ext[i] < '\U{80}' && !('A' <= ext[i] <= 'Z')
    ensures LowerExtension(base + "." + ext) == ext
  {
    ExtensionOfJoin(base, ext);
    ToLowerCaseOfLowerAscii(ext);
  }

  /** The lookup restricted to the object's own entries: a type only for a listed
      extension. */
  function OwnMimeType(ext: string): (r: Option<string>)
    ensures r.Some? <==> ext in MimeTypes
    ensures r.Some? ==> r.value == MimeTypes[ext]
  {
    if ext == "" then None
    else if ext in MimeTypes then Some(MimeTypes[ext])
    else None
  }

  /** `getMimeTypeFromExtension` with the own-entry lookup. */
  function MimeTypeFromExtension(filename: string): Option<string> {
    OwnMimeType(LowerExtension(filename))
  }

  /** Every type the lookup yields is an image or a video type, so an upload the guard lets
      through is one the form's `media` rule can describe. */
  lemma MimeTypeIsImageOrVideo(ext: string)
    ensures var r := OwnMimeType(ext);
      r.Some? ==> StartsWith(r.value, "image/") || StartsWith(r.value, "video/")
  {
    if ext in MimeTypes {
      assert ext == "mp4" || ext == "mov" || ext == "avi" || ext == "jpg" || ext == "jpeg"
          || ext == "png" || ext == "gif" || ext == "webp";
    }
  }

  /** Apart from the prototype members, the written lookup and the own-entry lookup agree. */
  lemma MimeLookupAgreesOffPrototype(filename: string)
    requires LowerExtension(filename) !in ObjectPrototypeMembers
    ensures MimeLookupAsWritten(filename).OwnValue? <==> MimeTypeFromExtension(filename).Some?
    ensures MimeLookupAsWritten(filename).OwnValue? ==>
      MimeLookupAsWritten(filename).mimeType == MimeTypeFromExtension(filename).value
    ensures MimeGuardPassesAsWritten(filename) <==> MimeTypeFromExtension(filename).Some?
  {
  }

  /** The extension is lower-cased before the lookup: an ASCII extension whose lower-case
      form is a listed one ("PHOTO.JPG", say) gets that entry's type. */
  lemma UpperCaseExtensionIsListed(base: string, ext: string, key: string)
    requires key in MimeTypes && |ext| == |key|
    requires forall i :: 0 <= i < |ext| ==> ext[i] != '.' && ext[i] < '\U{80}' && UnicodeTables.SimpleLower(ext[i]) == key[i]
    ensures MimeTypeFromExtension(base + "." + ext) == Some(MimeTypes[key])
  {
    ExtensionOfJoin(base, ext);
    ToLowerCaseOfAscii(ext);
    assert ToLowerCase(ext) == key;
  }

  /** A name without a dot is looked up whole ("mp4" is an MP4 video). */
  lemma BareNameIsLookedUpWhole(name: string)
    requires '.' !in name
    ensures MimeTypeFromExtension(name) == OwnMimeType(ToLowerCase(name))
  {
    ExtensionWithoutDot(name);
  }

  /** A trailing dot leaves an empty extension, which has no type. */
  lemma MimeOfTrailingDot(base: string)
    ensures MimeTypeFromExtension(base + ".") == None
    ensures MimeLookupAsWritten(base + ".") == Undefined
  {
    ExtensionOfJoin(base, "");
    assert ToLowerCase("") == "";
  }

  // ---------------------------------------------------------------------------------------
  // The page state

  /** Which guard of `handleFileUpload` stops it, or what it uploads. */
  datatype UploadPlan =
    | Ignored                                  // no file chosen, or no token
    | CategoryNotChosen                        // a parent and a child category are needed
    | SlugNotFound                             // a chosen category has no (non-empty) slug
    | UnsupportedType                          // the lookup gave `undefined`
    | Upload(lookup: Lookup, categoryPath: string)

  /** `c.children && c.children.length > 0`: the categories offered as parents. */
  predicate HasChildren(c: Category) {
    |c.children| > 0
  }

  /** `list.find(c => c._id === id)`: the first category with that id, if any. */
  function FindById(list: seq<Category>, id: string): (r: Option<Category>)
    ensures r.None? <==> forall c :: c in list ==> c.id != id
    ensures r.Some? ==> exists i :: 0 <= i < |list| && list[i] == r.value && r.value.id == id
                                    && forall j :: 0 <= j < i ==> list[j].id != id
  {
    Seqs.Find(list, (c: Category) => c.id == id)
  }

  /** `list.find(c => c._id === id)?.slug`, as an optional string. */
  function SlugOf(list: seq<Category>, id: string): Option<string> {
    match FindById(list, id)
    case Some(c) => Some(c.slug)
    case None => None
  }

  /** `categories.find(c => c._id === parentId)?.children || []` */
  function ChildrenOf(categories: seq<Category>, parentId: string): seq<Category> {
    match FindById(categories, parentId)
    case Some(c) => c.children
    case None => []
  }

  /** `i` is the index of the first category in `list` with that id. */
  predicate IsFirstWithId(list: seq<Category>, i: int, id: string) {
    0 <= i < |list| && list[i].id == id && forall k :: 0 <= k < i ==> list[k].id != id
  }

  /** The guards of `handleFileUpload` as written, in the order the code checks them: the type
      guard only refuses a lookup that gave `undefined`. */
  function PlanUpload(file: Option<string>, token: Option<string>, parentId: string,
                      childId: Option<string>, parents: seq<Category>, children: seq<Category>): UploadPlan
  {
    if file.None? || !Truthy(token) then Ignored
    else if parentId == "" || !Truthy(childId) then CategoryNotChosen
    else
      var parentSlug := SlugOf(parents, parentId);
      var childSlug := SlugOf(children, childId.value);
      if !Truthy(parentSlug) || !Truthy(childSlug) then SlugNotFound
      else if !MimeGuardPassesAsWritten(file.value) then UnsupportedType
      else Upload(MimeLookupAsWritten(file.value), parentSlug.value + "/" + childSlug.value)
  }

  /** The same guards with the own-entry lookup: only a listed extension is uploaded. */
  function CorrectedPlanUpload(file: Option<string>, token: Option<string>, parentId: string,
                               childId: Option<string>, parents: seq<Category>, children: seq<Category>): UploadPlan
  {
    if file.None? || !Truthy(token) then Ignored
    else if parentId == "" || !Truthy(childId) then CategoryNotChosen
    else
      var parentSlug := SlugOf(parents, parentId);
      var childSlug := SlugOf(children, childId.value);
      if !Truthy(parentSlug) || !Truthy(childSlug) then SlugNotFound
      else match MimeTypeFromExtension(file.value)
        case None => UnsupportedType
        case Some(mime) => Upload(OwnValue(mime), parentSlug.value + "/" + childSlug.value)
  }

  /** An upload happens exactly when there is a file, a token, a chosen parent and child whose
      first matches both have slugs, and a lookup that is not `undefined`. It then carries that
      lookup, and its path is the parent's slug, "/", and the child's slug (the upload body's
      `categoryPath`). */
  lemma UploadNeedsEverything(file: Option<string>, token: Option<string>, parentId: string,
                              childId: Option<string>, parents: seq<Category>, children: seq<Category>)
    ensures var plan := PlanUpload(file, token, parentId, childId, parents, children);
      plan.Upload? <==>
        && file.Some? && Truthy(token) && parentId != "" && Truthy(childId)
        && (exists i :: IsFirstWithId(parents, i, parentId) && parents[i].slug != "")
        && (exists j :: IsFirstWithId(children, j, childId.value) && children[j].slug != "")
        && MimeGuardPassesAsWritten(file.value)
    ensures var plan := PlanUpload(file, token, parentId, childId, parents, children);
      plan.Upload? ==>
        && plan.lookup == MimeLookupAsWritten(file.value)
        && exists i, j :: IsFirstWithId(parents, i, parentId) && IsFirstWithId(children, j, childId.value)
             && plan.categoryPath == parents[i].slug + "/" + children[j].slug
  {
    if file.Some? && Truthy(token) && parentId != "" && Truthy(childId) {
      FirstWithIdIsFound(parents, parentId);
      FirstWithIdIsFound(children, childId.value);
    }
  }

  /** `find` returns the category at the first index with that id, and there is such an index
      exactly when it returns one. */
  lemma FirstWithIdIsFound(list: seq<Category>, id: string)
    ensures FindById(list, id).Some? <==> exists i :: IsFirstWithId(list, i, id)
    ensures forall i :: IsFirstWithId(list, i, id) ==> FindById(list, id) == Some(list[i])
  {
    var r := FindById(list, id);
    if r.Some? {
      var i :| 0 <= i < |list| && list[i] == r.value && r.value.id == id
               && forall j :: 0 <= j < i ==> list[j].id != id;
      assert IsFirstWithId(list, i, id);
    }
    forall i | IsFirstWithId(list, i, id) ensures FindById(list, id) == Some(list[i]) {
      var r := FindById(list, id);
      assert list[i] in list;
      var i' :| 0 <= i' < |list| && list[i'] == r.value && r.value.id == id
                && forall j :: 0 <= j < i' ==> list[j].id != id;
      assert i' == i;
    }
  }

  /** Off the prototype names the handler as written and the corrected one make the same plan;
      on them, wherever the written handler uploads an inherited member, the corrected one
      refuses the type. */
  lemma CorrectedPlanDiffersOnlyOnPrototype(file: Option<string>, token: Option<string>, parentId: string,
                                            childId: Option<string>, parents: seq<Category>,
                                            children: seq<Category>)
    ensures file.Some? && LowerExtension(file.value) !in ObjectPrototypeMembers ==>
      CorrectedPlanUpload(file, token, parentId, childId, parents, children)
        == PlanUpload(file, token, parentId, childId, parents, children)
    ensures file.Some? && LowerExtension(file.value) in ObjectPrototypeMembers ==>
      var plan := PlanUpload(file, token, parentId, childId, parents, children);
      plan.Upload? ==>
        plan.lookup.InheritedMember?
        && CorrectedPlanUpload(file, token, parentId, childId, parents, children) == UnsupportedType
    ensures file.None? ==>
      CorrectedPlanUpload(file, token, parentId, childId, parents, children)
        == PlanUpload(file, token, parentId, childId, parents, children)
  {
    if file.Some? {
      if LowerExtension(file.value) !in ObjectPrototypeMembers {
        MimeLookupAgreesOffPrototype(file.value);
      } else {
        PrototypeMemberIsNotListed(LowerExtension(file.value));
      }
    }
  }

  /** No prototype member is a listed extension. */
  lemma PrototypeMemberIsNotListed(ext: string)
    requires ext in ObjectPrototypeMembers
    ensures ext !in MimeTypes && ext != ""
  {
    assert |ext| >= 7;
    assert forall k :: k in MimeTypes ==> |k| <= 4;
  }

  /** With both slugs found, a file named "<anything>.constructor" is uploaded by the handler as
      written, carrying the inherited `Object` constructor as its type, while the corrected
      handler refuses it. */
  lemma PrototypeFileIsUploaded(base: string, token: string, parent: Category, child: Category)
    requires token != "" && parent.id != "" && child.id != "" && parent.slug != "" && child.slug != ""
    ensures PlanUpload(Some(base + "." + "constructor"), Some(token), parent.id, Some(child.id), [parent], [child])
      == Upload(InheritedMember("constructor"), parent.slug + "/" + child.slug)
    ensures CorrectedPlanUpload(Some(base + "." + "constructor"), Some(token), parent.id, Some(child.id),
                                [parent], [child]) == UnsupportedType
  {
    LowerExtensionOfJoin(base, "constructor");
    PrototypeMemberIsNotListed("constructor");
    assert FindById([parent], parent.id) == Some(parent);
    assert FindById([child], child.id) == Some(child);
  }

  /** The guards run in order: the file type is only looked at once both slugs are found,
      so two files with different names get the same verdict until then. */
  lemma FileTypeCheckedLast(f1: string, f2: string, token: Option<string>, parentId: string,
                            childId: Option<string>, parents: seq<Category>, children: seq<Category>)
    ensures var p1 := PlanUpload(Some(f1), token, parentId, childId, parents, children);
      var p2 := PlanUpload(Some(f2), token, parentId, childId, parents, children);
      p1 != p2 ==> Truthy(token) && parentId != "" && Truthy(childId)
                   && Truthy(SlugOf(parents, parentId)) && Truthy(SlugOf(children, childId.value))
    ensures var p1 := PlanUpload(Some(f1), token, parentId, childId, parents, children);
      p1.Ignored? <==> !Truthy(token)
  {
  }

  /** The page's state: the loaded categories, the parent and child choices, the upload
      flag, the form values this code touches, and the file the upload input holds. */
  class NewArticlePage {
    var categories: seq<Category>
    var parentCategories: seq<Category>
    var childCategories: seq<Category>
    var selectedParent: string
    var isUploading: bool
    var title: string
    var slug: string
    var category: Option<string>
    var media: seq<Media>
    var fileInput: Option<string>
    var token: Option<string>

    constructor(token: Option<string>)
      ensures categories == [] && parentCategories == [] && childCategories == []
      ensures selectedParent == "" && !isUploading
      ensures title == "" && slug == "" && category.None? && media == [] && fileInput.None?
      ensures this.token == token
    {
      categories := [];
      parentCategories := [];
      childCategories := [];
      selectedParent := "";
      isUploading := false;
      title := "";
      slug := "";
      category := None;
      media := [];
      fileInput := None;
      this.token := token;
    }

    /** The categories effect: on success the list is stored and the parent options are the
        categories with children, in order; a failure (a toast) changes nothing. */
    method LoadCategories(response: Result<seq<Category>>)
      modifies this
      ensures response.Ok? ==> categories == response.value
                               && parentCategories == Seqs.Filter(response.value, HasChildren)
      ensures response.Err? ==> categories == old(categories) && parentCategories == old(parentCategories)
      ensures childCategories == old(childCategories) && selectedParent == old(selectedParent)
      ensures isUploading == old(isUploading) && title == old(title) && slug == old(slug)
      ensures category == old(category) && media == old(media) && fileInput == old(fileInput)
      ensures token == old(token)
    {
      if response.Ok? {
        categories := response.value;
        parentCategories := Seqs.Filter(response.value, HasChildren);
      }
    }

    /** The title effect: the slug field always holds `generateSlug(title)`. */
    method SetTitle(newTitle: string)
      modifies this
      ensures title == newTitle && slug == GenerateSlug(newTitle) && IsNormalSlug(slug)
      ensures categories == old(categories) && parentCategories == old(parentCategories)
      ensures childCategories == old(childCategories) && selectedParent == old(selectedParent)
      ensures isUploading == old(isUploading) && category == old(category)
      ensures media == old(media) && fileInput == old(fileInput) && token == old(token)
    {
      title := newTitle;
      slug := GenerateSlug(newTitle);
      GenerateSlugIsNormal(newTitle);
    }

    /** `handleParentCategoryChange`: the child choice is cleared to '', the parent is
        remembered, and the child options become that parent's children, or none when no
        category has that id. */
    method HandleParentCategoryChange(parentId: string)
      modifies this
      ensures category == Some("") && selectedParent == parentId
      ensures childCategories == ChildrenOf(categories, parentId)
      ensures categories == old(categories) && parentCategories == old(parentCategories)
      ensures isUploading == old(isUploading) && title == old(title) && slug == old(slug)
      ensures media == old(media) && fileInput == old(fileInput) && token == old(token)
    {
      category := Some("");
      selectedParent := parentId;
      childCategories := ChildrenOf(categories, parentId);
    }

    /** `removeMedia(index)`: exactly the item at `index` goes, the rest keep their order;
        an index outside the list changes nothing. */
    method RemoveMedia(index: int)
      modifies this
      ensures media == if 0 <= index < |old(media)| then old(media)[..index] + old(media)[index + 1..]
                       else old(media)
      ensures categories == old(categories) && parentCategories == old(parentCategories)
      ensures childCategories == old(childCategories) && selectedParent == old(selectedParent)
      ensures isUploading == old(isUploading) && title == old(title) && slug == old(slug)
      ensures category == old(category) && fileInput == old(fileInput) && token == old(token)
    {
      Seqs.FilterOutIndexIsRemoval(media, index, 0);
      media := Seqs.FilterOutIndex(media, index, 0);
    }

    /** `handleFileUpload`; `response` is what the upload call answers when it is made. The
        plan is the first guard that fails, or the upload, with the type guard as written. Only a successful upload changes
        the media list, by appending the one new item; every path past the first guard
        clears the file input, and the upload flag is down again at the end. */
    method HandleFileUpload(response: Result<Media>) returns (plan: UploadPlan)
      modifies this
      ensures plan == PlanUpload(old(fileInput), old(token), old(selectedParent), old(category),
                                 old(parentCategories), old(childCategories))
      ensures media == if plan.Upload? && response.Ok? then old(media) + [response.value] else old(media)
      ensures fileInput == if plan.Ignored? then old(fileInput) else None
      ensures isUploading == if plan.Upload? then false else old(isUploading)
      ensures categories == old(categories) && parentCategories == old(parentCategories)
      ensures childCategories == old(childCategories) && selectedParent == old(selectedParent)
      ensures title == old(title) && slug == old(slug) && category == old(category)
      ensures token == old(token)
    {
      plan := PlanUpload(fileInput, token, selectedParent, category, parentCategories, childCategories);
      if plan.Ignored? {
        return;
      }
      if plan.Upload? {
        isUploading := true;
        if response.Ok? {
          media := media + [response.value];
        }
        isUploading := false;
      }
      fileInput := None;
    }
  }

  /** The parent options are exactly the loaded categories that have children, in their
      loaded order. */
  lemma ParentOptionsAreExact(categories: seq<Category>)
    ensures forall c :: c in Seqs.Filter(categories, HasChildren) <==> c in categories && |c.children| > 0
    ensures Seqs.IsSubsequence(Seqs.Filter(categories, HasChildren), categories)
    ensures |Seqs.Filter(categories, HasChildren)| == Seqs.Count(categories, HasChildren)
  {
    Seqs.FilterLength(categories, HasChildren);
    Seqs.FilterIsSubsequence(categories, HasChildren);
    Seqs.FilterMembers(categories, HasChildren);
  }

  /** The child options after choosing a parent: the children of the first category with
      that id, or none when there is no such category. */
  lemma ChildrenOfIsFirstMatch(categories: seq<Category>, parentId: string)
    ensures (forall c :: c in categories ==> c.id != parentId) ==> ChildrenOf(categories, parentId) == []
    ensures forall i :: 0 <= i < |categories| && categories[i].id == parentId
                        && (forall k :: 0 <= k < i ==> categories[k].id != parentId)
                        ==> ChildrenOf(categories, parentId) == categories[i].children
  {
    var r := FindById(categories, parentId);
    if r.Some? {
      var i :| 0 <= i < |categories| && categories[i] == r.value && r.value.id == parentId
               && forall j :: 0 <= j < i ==> categories[j].id != parentId;
      forall i' | 0 <= i' < |categories| && categories[i'].id == parentId
                  && (forall k :: 0 <= k < i' ==> categories[k].id != parentId)
        ensures ChildrenOf(categories, parentId) == categories[i'].children
      {
        if i' != i {
          assert false;
        }
      }
    }
  }
}
