# A verified model of the literary site's front-end logic

The site is a Vietnamese literary magazine: a public reader of articles grouped in categories, a
search dialog, a custom video player, and an admin area where articles and categories are
created and deleted. Most of its code is page layout and calls to a REST API. This project
models the parts that decide something, and proves what each of them promises:

- `generateSlug` (`Utils`, `UnicodeTables`, `JsString`, `SlugExamples`). It strips Vietnamese
  diacritics through canonical decomposition, lower-cases, keeps `[a-z0-9\s-]`, trims, and
  turns white space and hyphen runs into single hyphens. The result is proved to be a normal
  slug (only `a`-`z`, `0`-`9` and `-`, never `--`), and `generateSlug` is proved idempotent.
  "Văn Chương" is proved to give "van-chuong".
- The category page's own cruder slug function, and its create and delete handlers
  (`CategoryAdmin`).
- The new-article page (`ArticleEditor`):
  - the form schema, and the slug regex, which is proved equal to "hyphen-separated
    `[a-z0-9]` words";
  - the extension-to-MIME lookup;
  - the parent and child category choice;
  - the guard sequence of the file upload;
  - media removal.
- The article administration list (`ArticleAdmin`), the home page's sections (`HomePage`) and
  the category filter of the article list (`ArticleList`).
- The search-index builder (`SearchIndex`) and the search dialog (`SearchOverlay`).
- The session context (`Auth`): restore, login, register and logout over an in-memory token
  and user and a `localStorage` map.
- The admin access gate (`AdminGate`).
- The video player's time format and its event handlers (`VideoPlayer`).
- The editor's line-height and font-size extensions (`LineHeight`, `FontSize`).

Pure code is modelled as functions with lemmas. Components whose handlers update state are
modelled as classes whose fields are that state: `CategoriesPage`, `NewArticlePage`,
`ArticlesAdminPage`, `ArticlesPage`, `SearchDialog`, `AuthProvider` and `Player`. Each method
states the complete new state. A REST call is an input to the method that makes it: the
call's `Result` or `Outcome`, or a `Reply` for the auth API.

Strings are sequences of Unicode scalar values (`seq<char>`). JavaScript counts UTF-16 code
units, so the lengths that zod's `.min` checks and the cut that `substring` makes are written
out in those units (`JsString.Utf16Length`, `JsString.TakeCodeUnits`): a character above U+FFFF
counts twice. The Unicode behaviour `generateSlug` depends on is written out as tables in
`UnicodeTables`:

- `Decompose` holds every canonical decomposition that begins with an ASCII character. These are
  exactly the ones that can leave something behind once the marks U+0300–U+036F are removed.
  Every other character is its own decomposition.
- `SimpleLower` is the simple lower-case mapping. It is given as runs of code points that shift
  by the same offset.
- `IsJsWhitespace` is the set of characters that JavaScript's `\s` and `trim` treat as white
  space.

The session code in src/context/AuthContext.tsx does not decode the stored token or check it
for expiry. The model follows the code and has no such check.

## Model

| member | source | states |
|---|---|---|
| Utils.SlugOfEmpty | src/lib/utils.ts:10 | the empty name gives the empty slug |
| Utils.KeepSlugCharacters | src/lib/utils.ts:21 | after the character filter every character is `a`-`z`, `0`-`9`, `-` or white space |
| Utils.WhitespaceToHyphensRemovesWhitespace | src/lib/utils.ts:23 | replacing `\s+` leaves no white space, and turns slug characters and white space into slug characters only |
| Utils.CollapseHyphensIsCollapsed | src/lib/utils.ts:24 | after replacing `-+` no two hyphens are adjacent |
| Utils.CollapseHyphensKeepsSlugChars | src/lib/utils.ts:24 | collapsing hyphens introduces no character outside `a`-`z`, `0`-`9`, `-` |
| Utils.AfterKeepIsNormal | src/lib/utils.ts:21-24 | trim, `\s+` and `-+` turn any text of slug characters and white space into a normal slug |
| Utils.GenerateSlug | src/lib/utils.ts:9-25 | '' for '', otherwise NFD, removal of U+0300–U+036F, đ/Đ to d/D, lower-case, removal of `[^a-z0-9\s-]`, trim, white-space runs to '-', hyphen runs to '-' |
| Utils.GenerateSlugIsNormal | src/lib/utils.ts:9-25 | every slug holds only `a`-`z`, `0`-`9` and `-`, and never two hyphens in a row |
| Utils.NormalSlugIsFixedPoint | src/lib/utils.ts:14-24 | each step leaves a normal slug unchanged, so `generateSlug` returns it as it is |
| Utils.AfterKeepOfNormalSlug | src/lib/utils.ts:22-24 | trim, `\s+` and `-+` leave a normal slug unchanged |
| Utils.GenerateSlugIdempotent | src/lib/utils.ts:9-25 | `generateSlug(generateSlug(s)) == generateSlug(s)` |
| Utils.GenerateSlugIgnoresSurroundingWhitespace | src/lib/utils.ts:22-24 | white space before and after the title never becomes a hyphen: the slug is that of the bare title |
| Utils.TrimIsSubstring | src/lib/utils.ts:22 | the trimmed text is a contiguous part of the text |
| Utils.TrimStartIsSuffix | src/lib/utils.ts:22 | trimming the start drops a prefix |
| Utils.TrimEndIsPrefix | src/lib/utils.ts:22 | trimming the end drops a suffix |
| Utils.NfdOfAscii | src/lib/utils.ts:15 | NFD leaves ASCII text unchanged |
| Utils.NfdConcat | src/lib/utils.ts:15 | NFD works character by character |
| Utils.RemoveAccentsOfChar | src/lib/utils.ts:14-17 | one character becomes nothing if it is a combining mark, otherwise its base letter, with `đ`/`Đ` mapped to `d`/`D` |
| Utils.StripDecomposition | src/lib/utils.ts:15-17 | removing the marks and mapping `đ`/`Đ` in a character's decomposition leaves exactly its base letter |
| Utils.RemoveAccentsConcat | src/lib/utils.ts:14-17 | diacritic removal works character by character |
| Utils.RemoveAccentsIsCharwise | src/lib/utils.ts:14-17 | diacritic removal drops the combining marks and maps every other character to its base letter |
| Utils.RemoveAccentsLeavesNoDiacritics | src/lib/utils.ts:15-17 | no combining mark U+0300–U+036F, no `đ` and no `Đ` is left |
| Utils.BaseLetterIsPlain | src/lib/utils.ts:15-17 | a non-mark character's base letter is neither a mark nor `đ`/`Đ` |
| Utils.BeforeTrimConcat | src/lib/utils.ts:14-21 | the steps before `trim` work character by character |
| Utils.BeforeTrimOfChar | src/lib/utils.ts:14-21 | what one character becomes through the steps before `trim` |
| Utils.BeforeTrimIsCharwise | src/lib/utils.ts:14-21 | the steps before `trim` are the concatenation of each character's image |
| Utils.SlugImagesConcat | src/lib/utils.ts:14-21 | the image of a concatenation is the concatenation of the images |
| Utils.SlugImageOfSlugChar | src/lib/utils.ts:14-21 | `a`-`z`, `0`-`9` and `-` pass the steps before `trim` unchanged |
| Utils.SlugImageOfUpperAscii | src/lib/utils.ts:14-21 | an ASCII capital becomes its lower-case letter |
| Utils.SlugImagesOfSlugText | src/lib/utils.ts:14-21 | text of slug characters passes the steps before `trim` unchanged |
| Utils.BeforeTrimOfSlugText | src/lib/utils.ts:14-21 | the same, for the pipeline as written |
| Utils.WhitespaceToHyphensJoinsWords | src/lib/utils.ts:23 | one white-space character between two words becomes one hyphen |
| Utils.WhitespaceToHyphensAfterWord | src/lib/utils.ts:23 | text without white space passes `\s+` unchanged ahead of the rest |
| Utils.WhitespaceToHyphensWithoutWhitespace | src/lib/utils.ts:23 | text without white space is unchanged |
| Utils.CollapseHyphensWithoutDoubleHyphen | src/lib/utils.ts:24 | text without `--` is unchanged |
| SlugExamples.SlugOfVanChuong | src/lib/utils.ts:9-25 | "Văn Chương" gives "van-chuong" |
| SlugExamples.BeforeTrimOfVanChuong | src/lib/utils.ts:14-21 | before `trim`, "Văn Chương" has become "van chuong" |
| SlugExamples.BeforeTrimAroundSpace | src/lib/utils.ts:14-21 | a space between two words survives the steps before `trim` |
| SlugExamples.SlugImagesOfSpace | src/lib/utils.ts:21 | a space is kept by the character filter |
| SlugExamples.SlugImagesOfVan | src/lib/utils.ts:14-21 | "Văn" becomes "van" |
| SlugExamples.SlugImagesOfChuong | src/lib/utils.ts:14-21 | "Chương" becomes "chuong" |
| SlugExamples.SlugImagesOfThree | src/lib/utils.ts:14-21 | a three-character word is the images of its characters |
| SlugExamples.SlugImageOfAccented | src/lib/utils.ts:14-20 | `ă`, `ư` and `ơ` become `a`, `u` and `o` |
| SlugExamples.HyphensOfVanChuong | src/lib/utils.ts:22-24 | "van chuong" becomes "van-chuong" |
| SlugExamples.SlugKeepsEdgeHyphen | src/lib/utils.ts:22-24 | an edge hyphen survives: "abc -" gives "abc-" |
| SlugExamples.CollapseOfEdgeHyphen | src/lib/utils.ts:24 | "abc--" collapses to "abc-" |
| UnicodeTables.DecomposeShape | src/lib/utils.ts:15 | every decomposition in the tables is an ASCII base character followed by combining marks |
| UnicodeTables.DecomposeOfMark | src/lib/utils.ts:15-16 | in the tables, a combining mark is its own decomposition (the marks that do decompose are removed either way) |
| UnicodeTables.SimpleLower | src/lib/utils.ts:20 | ASCII capitals move to lower case and other ASCII stays; nothing lower-cases to an ASCII capital; white space is kept |
| JsString.ToLowerCase | src/lib/utils.ts:20 | the lower-cased text holds no ASCII capital |
| JsString.ToLowerCaseConcat | src/lib/utils.ts:20 | `toLowerCase` works character by character |
| JsString.ToLowerCaseOfLowerAscii | src/lib/utils.ts:20 | ASCII text without capitals is unchanged |
| JsString.ToLowerCaseOfAscii | src/app/admin/articles/new/page.tsx:54 | on ASCII text `toLowerCase` keeps the length and maps each character on its own |
| JsString.ToLowerCaseOfChar | src/lib/utils.ts:20 | one character (other than U+0130) becomes its simple lower-case form |
| JsString.ToLowerCaseEmptyIff | src/components/search-overlay.tsx:48-49 | the lower-cased text is empty exactly when the text is |
| JsString.ReplaceChar | src/app/admin/categories/page.tsx:62 | replacing one character keeps the length and changes exactly its occurrences |
| JsString.ReplaceCharConcat | src/app/admin/categories/page.tsx:62 | replacement works character by character |
| JsString.ReplaceCharOfChar | src/app/admin/categories/page.tsx:62 | what one character becomes |
| JsString.TrimStart | src/lib/utils.ts:22 | the result does not start with white space |
| JsString.TrimEnd | src/lib/utils.ts:22 | the result does not end with white space |
| JsString.TrimStartConcat | src/lib/utils.ts:22 | trimming the start of `a + b` skips `a` when it is all white space |
| JsString.TrimEndAfterWhitespace | src/lib/utils.ts:22 | trailing white space is dropped by trimming the end |
| JsString.TrimStartOfWhitespace | src/lib/utils.ts:22 | white space trims to nothing from the start |
| JsString.TrimEndOfWhitespace | src/lib/utils.ts:22 | white space trims to nothing from the end |
| JsString.TrimIgnoresSurroundingWhitespace | src/lib/utils.ts:22 | `trim` removes the white space around a text and nothing else |
| JsString.TrimOfNonBlankEnds | src/lib/utils.ts:22 | a text that neither starts nor ends with white space is unchanged |
| JsString.IncludesAt | src/components/search-overlay.tsx:55-57 | `includes` holds exactly when the text occurs at some position |
| JsString.IncludesEmpty | src/components/search-overlay.tsx:55-57 | every text includes the empty string |
| JsString.Utf16Length | src/app/admin/articles/new/page.tsx:34-37 | `length` in UTF-16 code units: between the number of characters and twice that |
| JsString.Utf16LengthOfBmp | src/app/admin/articles/new/page.tsx:34-37 | within the Basic Multilingual Plane the code units are the characters |
| JsString.Utf16LengthConcat | src/app/admin/articles/new/page.tsx:34-37 | the code units of a concatenation add up |
| JsString.TakeCodeUnits | scripts/build-search-data.mjs:25 | `substring(0, n)`: the longest prefix of at most n code units |
| JsString.TakeCodeUnitsOfShort | scripts/build-search-data.mjs:25 | a string of at most n code units is taken whole |
| JsString.TakeCodeUnitsOfBmp | scripts/build-search-data.mjs:25 | within the Basic Multilingual Plane, n code units are the first n characters |
| CategoryAdmin.LocalSlug | src/app/admin/categories/page.tsx:60-63 | lower-case, every space to '-', then every character outside `[A-Za-z0-9_-]` removed |
| CategoryAdmin.LocalSlugChars | src/app/admin/categories/page.tsx:60-63 | the local slug holds only `a`-`z`, `0`-`9`, `_` and `-` |
| CategoryAdmin.LocalSlugConcat | src/app/admin/categories/page.tsx:60-63 | the local slug works character by character |
| CategoryAdmin.LocalSlugOfSpace | src/app/admin/categories/page.tsx:62 | a space becomes a hyphen |
| CategoryAdmin.LocalSlugJoinsAtSpace | src/app/admin/categories/page.tsx:62 | each single space becomes its own hyphen between the two parts |
| CategoryAdmin.LocalSlugKeepsDoubleSpace | src/app/admin/categories/page.tsx:62 | two spaces give two hyphens: runs are not collapsed (so "a  b" gives "a--b") |
| CategoryAdmin.LocalSlugOfChar | src/app/admin/categories/page.tsx:61-63 | one character is lower-cased, turned into `-` if it is a space, and kept only if it is in `[A-Za-z0-9_-]` |
| CategoryAdmin.LocalSlugDropsNonAscii | src/app/admin/categories/page.tsx:63 | a character whose lower-case form is not ASCII is dropped, not transliterated |
| CategoryAdmin.LocalSlugOfSlugChars | src/app/admin/categories/page.tsx:60-63 | text of `a`-`z`, `0`-`9`, `_` and `-` is its own local slug |
| CategoryAdmin.LocalSlugIdempotent | src/app/admin/categories/page.tsx:60-63 | the local slug of a local slug is itself |
| CategoryAdmin.CategoriesPage.constructor | src/app/admin/categories/page.tsx:68-73 | empty list, loading, not submitting, empty name, the session's token |
| CategoryAdmin.CategoriesPage.Load | src/app/admin/categories/page.tsx:76-89 | the fetched list replaces the list, a failure keeps it, and loading ends |
| CategoryAdmin.CategoriesPage.HandleCreate | src/app/admin/categories/page.tsx:91-107 | a blank name or no token sends nothing and changes nothing; otherwise it sends the name with its local slug. On success the new category is appended and the input cleared; on failure the list and the input are kept; submitting ends |
| CategoryAdmin.CategoriesPage.HandleDelete | src/app/admin/categories/page.tsx:109-118 | no token means no call and no change; a successful delete removes exactly that id; a failed one keeps the list |
| CategoryAdmin.RemoveCategory | src/app/admin/categories/page.tsx:113 | the categories whose id is not the deleted one, in order |
| CategoryAdmin.RemoveCategoryIsExact | src/app/admin/categories/page.tsx:113 | no category with the id remains, every other one does, in order, and the result has exactly as many entries as the list has categories with another id |
| ArticleEditor.MatchesAfterRunIff | src/app/admin/articles/new/page.tsx:35 | the tail of the slug regex matches exactly the texts of the hyphenated-words shape |
| ArticleEditor.MatchesSlugPatternIff | src/app/admin/articles/new/page.tsx:35 | the regex matches exactly a first alphanumeric followed by that shape |
| ArticleEditor.ShapeOfCons | src/app/admin/articles/new/page.tsx:35 | how the shape follows from the first character and the shape of the rest |
| ArticleEditor.SlugPatternIsHyphenatedWords | src/app/admin/articles/new/page.tsx:35 | `^[a-z0-9]+(?:-[a-z0-9]+)*$` accepts exactly non-empty `[a-z0-9-]` text with no `--` and no hyphen at either end |
| ArticleEditor.GeneratedSlugMatchesPatternIff | src/app/admin/articles/new/page.tsx:35 | a generated slug passes the regex exactly when it is non-empty and has no hyphen at either end |
| ArticleEditor.FormIssues | src/app/admin/articles/new/page.tsx:33-49 | the rules of the schema that the form breaks, with a category that has to be non-empty |
| ArticleEditor.FormIssuesAsWritten | src/app/admin/articles/new/page.tsx:33-49 | the same rules with the category only required to be present, as `z.string()` is written |
| ArticleEditor.FormIssuesAreExact | src/app/admin/articles/new/page.tsx:33-49 | each schema message is reported exactly when its rule is broken: title of at least 5 UTF-16 code units, slug of at least 3 matching the pattern, author of at least 2, excerpt of at least 10, content with a key, a chosen category, media of type image or video |
| ArticleEditor.FormAcceptedIff | src/app/admin/articles/new/page.tsx:33-49 | the form is accepted exactly when all those rules hold, lengths counted in UTF-16 code units |
| ArticleEditor.EmptyCategoryPassesAsWritten | src/app/admin/articles/new/page.tsx:42 | as written, the empty category that choosing a parent stores passes `z.string()`; the corrected schema reports it; nothing else differs |
| ArticleEditor.LastDot | src/app/admin/articles/new/page.tsx:54 | the position of a '.' with no '.' after it, or -1 when there is none |
| ArticleEditor.Extension | src/app/admin/articles/new/page.tsx:54 | `split('.').pop()` is the suffix after the last '.', or the whole name; it holds no '.' |
| ArticleEditor.LastDotIsUnique | src/app/admin/articles/new/page.tsx:54 | any position with that property is the last dot |
| ArticleEditor.ExtensionOfJoin | src/app/admin/articles/new/page.tsx:54 | the extension of `base.ext` is `ext` |
| ArticleEditor.ExtensionWithoutDot | src/app/admin/articles/new/page.tsx:54 | a name without '.' is its own extension |
| ArticleEditor.LowerExtensionOfJoin | src/app/admin/articles/new/page.tsx:54 | a lower-case ASCII extension is looked up as it is |
| ArticleEditor.MimeLookupAsWritten | src/app/admin/articles/new/page.tsx:53-66 | the lookup as written: an empty extension gives `undefined`; a listed one its type; an inherited `Object.prototype` member gives that member |
| ArticleEditor.MimeTypeFromExtension | src/app/admin/articles/new/page.tsx:53-66 | the own-entry lookup of the lower-cased extension: a type only for a listed extension |
| ArticleEditor.PrototypeMemberIsNotListed | src/app/admin/articles/new/page.tsx:53-66 | no `Object.prototype` member is a listed extension, nor empty |
| ArticleEditor.PrototypeExtensionPassesGuard | src/app/admin/articles/new/page.tsx:53-66 | as written, "x.constructor" passes the MIME guard although it is not listed; the corrected lookup gives no type |
| ArticleEditor.OwnMimeType | src/app/admin/articles/new/page.tsx:55-64 | a type exactly for the eight listed extensions, and the listed type |
| ArticleEditor.MimeTypeIsImageOrVideo | src/app/admin/articles/new/page.tsx:55-64 | every type the table yields is an image or a video type |
| ArticleEditor.MimeLookupAgreesOffPrototype | src/app/admin/articles/new/page.tsx:53-66 | off the prototype members the written and the corrected lookups agree, guard included |
| ArticleEditor.UpperCaseExtensionIsListed | src/app/admin/articles/new/page.tsx:53-65 | an ASCII extension whose lower-case form is listed gets that type ("PHOTO.JPG" is `image/jpeg`) |
| ArticleEditor.BareNameIsLookedUpWhole | src/app/admin/articles/new/page.tsx:54-65 | a name without '.' is looked up whole, lower-cased ("mp4" is `video/mp4`) |
| ArticleEditor.MimeOfTrailingDot | src/app/admin/articles/new/page.tsx:54-65 | a trailing '.' leaves an empty extension and no type, as written and corrected |
| ArticleEditor.FindById | src/app/admin/articles/new/page.tsx:155 | `find` by id: none exactly when no category has the id, otherwise the first that has it |
| ArticleEditor.SlugOf | src/app/admin/articles/new/page.tsx:172-173 | the slug of the first category with the id, or none |
| ArticleEditor.FirstWithIdIsFound | src/app/admin/articles/new/page.tsx:172-173 | `find` gives a category exactly when some index holds the id, and then the one at the first such index |
| ArticleEditor.PlanUpload | src/app/admin/articles/new/page.tsx:159-195 | the guards in source order (no file or token, no category chosen, a slug not found, an `undefined` lookup), or the upload with the lookup as written and the path parent slug "/" child slug |
| ArticleEditor.CorrectedPlanUpload | src/app/admin/articles/new/page.tsx:182-195 | the same guards with the own-entry lookup, so only a listed extension is uploaded |
| ArticleEditor.UploadNeedsEverything | src/app/admin/articles/new/page.tsx:159-195 | the handler as written uploads exactly when there is a file, a token, a parent and child whose first matches have slugs, and a lookup other than `undefined`; the upload carries that lookup, and its path is parent slug, "/", child slug |
| ArticleEditor.CorrectedPlanDiffersOnlyOnPrototype | src/app/admin/articles/new/page.tsx:53-66 | the handler as written and the corrected one agree for every file whose extension is not a prototype member; on those, wherever the written one uploads an inherited member, the corrected one refuses the type |
| ArticleEditor.PrototypeFileIsUploaded | src/app/admin/articles/new/page.tsx:182-195 | with both slugs found, "x.constructor" is uploaded as written with the inherited `constructor` as its type, and refused by the corrected handler |
| ArticleEditor.FileTypeCheckedLast | src/app/admin/articles/new/page.tsx:161-187 | the guards run in order: the file name only matters once both slugs are found, and only a missing token stops a chosen file at the first guard |
| ArticleEditor.ParentOptionsAreExact | src/app/admin/articles/new/page.tsx:147 | the parent options are exactly the categories with children, in order, as many as there are |
| ArticleEditor.ChildrenOf | src/app/admin/articles/new/page.tsx:155-156 | the children of the first category with the id, or none |
| ArticleEditor.ChildrenOfIsFirstMatch | src/app/admin/articles/new/page.tsx:155-156 | the child options are the children of the first category with the id, or none |
| ArticleEditor.NewArticlePage.constructor | src/app/admin/articles/new/page.tsx:112-120 | the initial state: no categories, no parent, not uploading, empty title, slug and media |
| ArticleEditor.NewArticlePage.LoadCategories | src/app/admin/articles/new/page.tsx:143-150 | on success the list is stored and the parent options are the categories with children; on failure nothing changes |
| ArticleEditor.NewArticlePage.SetTitle | src/app/admin/articles/new/page.tsx:138-141 | the slug becomes `generateSlug(title)`, which is a normal slug |
| ArticleEditor.NewArticlePage.HandleParentCategoryChange | src/app/admin/articles/new/page.tsx:152-157 | the category is cleared to '', the parent is stored, and the child options are that parent's children |
| ArticleEditor.NewArticlePage.RemoveMedia | src/app/admin/articles/new/page.tsx:204 | exactly the item at the index goes, the rest keep their order; an index out of range changes nothing |
| ArticleEditor.NewArticlePage.HandleFileUpload | src/app/admin/articles/new/page.tsx:159-202 | the first failing guard as written (only an `undefined` lookup is refused), or the upload; only a successful upload appends its one item; every path past the first guard clears the input; uploading ends |
| ArticleAdmin.RemoveArticle | src/app/admin/articles/page.tsx:88 | the articles whose slug is not the deleted one, in order |
| ArticleAdmin.RemoveArticleIsExact | src/app/admin/articles/page.tsx:88 | no article with the slug remains, every other one does, in order, and the result has exactly as many entries as the list has articles with another slug |
| ArticleAdmin.RemoveArticleIdempotent | src/app/admin/articles/page.tsx:88 | deleting the same slug again removes nothing more |
| ArticleAdmin.ArticlesAdminPage.constructor | src/app/admin/articles/page.tsx:60-62 | empty list, loading, the session's token |
| ArticleAdmin.ArticlesAdminPage.Load | src/app/admin/articles/page.tsx:65-78 | the fetched list replaces the list, a failure keeps it, and loading ends |
| ArticleAdmin.ArticlesAdminPage.HandleDelete | src/app/admin/articles/page.tsx:80-93 | no token means no call and no change; a successful delete removes exactly that slug; a failed one keeps the list |
| HomePage.WithCategoryName | src/app/page.tsx:36-39 | the category becomes its name and every other field is kept |
| HomePage.GetArticles | src/app/page.tsx:19-45 | a failed fetch gives []; otherwise one mapped article per fetched one, in order |
| HomePage.FallbackIff | src/app/page.tsx:52-59 | the fallback shows exactly when there are no articles, and so after every failed fetch |
| HomePage.Home | src/app/page.tsx:63-110 | the fallback for no articles, otherwise the first article, the trending ones, whether their carousel loops, and the first 4 and 3 of the two categories |
| HomePage.FeaturedAndTrending | src/app/page.tsx:63-110 | the featured article is the first; the trending section is exactly the trending articles, in order, as many as there are; its carousel loops only with more than one |
| HomePage.CappedSection | src/app/page.tsx:65-66 | filtering by a category name and taking `cap` gives the first at most `cap` articles of that category, in order |
| HomePage.CappedSections | src/app/page.tsx:65-66 | criticism holds the first at most 4 of 'Phê bình & Tiểu luận', creative the first at most 3 of 'Sáng tác' |
| ArticleList.OrEmpty | src/app/articles/page.tsx:16-39 | a failed fetch gives the empty list, a successful one its list |
| ArticleList.FilterBy | src/app/articles/page.tsx:97-101 | the whole list for 'all', otherwise the articles of that category slug |
| ArticleList.FilterByIsExact | src/app/articles/page.tsx:97-101 | 'all' gives the whole list; any other slug exactly the articles of that category slug, in order, as many as there are |
| ArticleList.FilterByIdempotent | src/app/articles/page.tsx:100 | filtering a filtered list again by the same slug changes nothing |
| ArticleList.ArticlesPage.constructor | src/app/articles/page.tsx:72-76 | empty lists, selection 'all', loading |
| ArticleList.ArticlesPage.Load | src/app/articles/page.tsx:79-92 | both lists are fetched (a failure giving []), the filtered list is the whole list, loading ends |
| ArticleList.ArticlesPage.HandleFilterChange | src/app/articles/page.tsx:95-103 | the selection is the argument and the filtered list is that selection applied to the whole list, so only the last selection matters |
| SearchIndex.Snippet | scripts/build-search-data.mjs:25 | at most 203 UTF-16 code units; '' for falsy content, otherwise a prefix of the content followed by "..." |
| SearchIndex.SnippetIsPrefix | scripts/build-search-data.mjs:25 | the snippet is the content's longest prefix of at most 200 code units, the whole content when it fits, followed by "..." |
| SearchIndex.SnippetOfBmpText | scripts/build-search-data.mjs:25 | for text within the Basic Multilingual Plane the snippet is the first 200 characters (or all of them) followed by "..." |
| SearchIndex.ToRecord | scripts/build-search-data.mjs:20-27 | id from `_id`, slug and title copied, the snippet, the category's slug if any, `publishedAt` when truthy and otherwise `createdAt` |
| SearchIndex.BuildSearchData | scripts/build-search-data.mjs:19-28 | exactly one record per article, in order |
| SearchIndex.SnippetsBounded | scripts/build-search-data.mjs:25 | every record's snippet has at most 203 UTF-16 code units |
| SearchOverlay.Search | src/components/search-overlay.tsx:47-60 | nothing for an empty lower-cased query, otherwise the records whose title, snippet or category slug includes it |
| SearchOverlay.SearchIsExact | src/components/search-overlay.tsx:47-60 | an empty query finds nothing; otherwise exactly the records whose lower-cased title, snippet or category slug contains the lower-cased query, in index order, as many as there are |
| SearchOverlay.NoCategoryMatchesByText | src/components/search-overlay.tsx:54-58 | a record without a category slug is found only by its title or snippet |
| SearchOverlay.SearchIgnoresCase | src/components/search-overlay.tsx:48 | queries with the same lower-case form give the same results |
| SearchOverlay.SearchDialog.constructor | src/components/search-overlay.tsx:25-27 | empty query, no results, no index |
| SearchOverlay.SearchDialog.LoadSearchData | src/components/search-overlay.tsx:31-45 | the loaded index is stored; a failure changes nothing |
| SearchOverlay.SearchDialog.SetQuery | src/components/search-overlay.tsx:89 | the query is the input's value |
| SearchOverlay.SearchDialog.HandleSearch | src/components/search-overlay.tsx:47-60 | the results are the search of the index for the query |
| SearchOverlay.SearchDialog.HandleResultClick | src/components/search-overlay.tsx:70-73 | the dialog closes and the query is cleared |
| SearchOverlay.NoResultsIff | src/components/search-overlay.tsx:94 | with up-to-date results, "no results" shows exactly when the query is non-empty and no record matches it |
| Auth.FailureMessage | src/context/AuthContext.tsx:75 | a refused call's message is the server's when it is truthy, else the fallback; a thrown error keeps its own |
| Auth.AuthProvider.constructor | src/context/AuthContext.tsx:30-33 | no user, no token, loading, no error |
| Auth.AuthProvider.Restore | src/context/AuthContext.tsx:36-59 | with a non-empty token and a user other than 'undefined' stored, the token is taken and then the user parsed. A parse error removes both keys but, as written, leaves the token in memory. Without such a session both keys are removed. Loading ends in every case |
| Auth.AuthProvider.ClearError | src/context/AuthContext.tsx:61 | the error is cleared and nothing else changes |
| Auth.AuthProvider.Login | src/context/AuthContext.tsx:64-88 | success stores token and user in memory and storage and goes to '/'; failure records the message, rethrows and leaves the session; loading ends |
| Auth.AuthProvider.Register | src/context/AuthContext.tsx:91-110 | always sends role 'user'; on acceptance logs in with the same credentials; on refusal records the message and leaves the session |
| Auth.AuthProvider.Logout | src/context/AuthContext.tsx:113-119 | no user, no token, both keys removed, route '/login' |
| Auth.ClearedStorageHasNoSession | src/context/AuthContext.tsx:46-49 | after both keys are removed no stored session is left |
| Auth.UseAuth | src/context/AuthContext.tsx:129-135 | the context inside a provider, the error outside one |
| AdminGate.Redirect | src/app/admin/layout.tsx:18-28 | a push to '/login' exactly when loading is over and there is no user |
| AdminGate.Render | src/app/admin/layout.tsx:18-61 | the spinner while loading, the denied screen for a non-admin, the pages for an admin, nothing otherwise, in that order |
| AdminGate.GateIsExact | src/app/admin/layout.tsx:18-61 | spinner exactly while loading (without redirect); denied exactly for a non-admin; the pages exactly for an admin; nothing exactly when redirecting |
| VideoPlayer.Floor | src/components/ui/custom-video-player.tsx:146-147 | `Math.floor` gives an integral number |
| VideoPlayer.NatToString | src/components/ui/custom-video-player.tsx:148 | `String(n)` has at least one digit |
| VideoPlayer.NatToStringRoundTrip | src/components/ui/custom-video-player.tsx:148 | `String(n)` is all digits and denotes `n` |
| VideoPlayer.LeadingZeroKeepsValue | src/components/ui/custom-video-player.tsx:148 | padding with a '0' keeps the value |
| VideoPlayer.ClockFieldIsExact | src/components/ui/custom-video-player.tsx:148 | a padded field is digits, at least two, denotes `n` exactly, and is exactly two below 100 |
| VideoPlayer.SecondsBounds | src/components/ui/custom-video-player.tsx:147 | the seconds past the minute lie in [0, 60) |
| VideoPlayer.FormatTime | src/components/ui/custom-video-player.tsx:144-149 | "00:00" for NaN, otherwise the floored minutes and floored remainder seconds, each padded to two digits |
| VideoPlayer.FormatTimeIsClock | src/components/ui/custom-video-player.tsx:144-149 | for t ≥ 0 the result is MM:SS with ⌊t/60⌋ minutes and ⌊t mod 60⌋ < 60 seconds, each padded, never truncated |
| VideoPlayer.FormatTimeOfNaN | src/components/ui/custom-video-player.tsx:145 | NaN shows as "00:00" |
| VideoPlayer.IconFor | src/components/ui/custom-video-player.tsx:151 | mute icon exactly when muted; otherwise Volume2 above 0.5 and Volume1 otherwise |
| VideoPlayer.Player.constructor | src/components/ui/custom-video-player.tsx:18-23 | paused, unmuted, volume 1, progress, time and duration 0 |
| VideoPlayer.ProgressOf | src/components/ui/custom-video-player.tsx:78-83 | the current time as a percentage of the duration, with NaN for 0/0, +∞ for t/0 and 0 for an infinite duration |
| VideoPlayer.Player.OnTimeUpdate | src/components/ui/custom-video-player.tsx:78-83 | with a NaN duration nothing changes; otherwise the time is copied and the progress is its percentage of the duration |
| VideoPlayer.Player.OnLoadedMetadata | src/components/ui/custom-video-player.tsx:84 | the duration is the element's |
| VideoPlayer.Player.OnPlayOrPause | src/components/ui/custom-video-player.tsx:85-86 | playing on 'play', paused on 'pause' |
| VideoPlayer.Player.OnEnded | src/components/ui/custom-video-player.tsx:87 | paused, progress 0, time 0 |
| VideoPlayer.Player.OnVolumeChange | src/components/ui/custom-video-player.tsx:88 | muted flag and volume follow the element |
| VideoPlayer.Player.HandleProgressChange | src/components/ui/custom-video-player.tsx:120-125 | ignored for a NaN or 0 duration; otherwise seeks to value/100 × duration and the progress is the value |
| VideoPlayer.Player.HandleVolumeChange | src/components/ui/custom-video-player.tsx:127-132 | the element takes the volume and is muted exactly when it is 0 |
| LineHeight.RenderHTML | src/lib/tiptap-extensions/line-height.ts:36-41 | no attributes exactly for the default '1.5', otherwise only `style` |
| LineHeight.RenderNonDefault | src/lib/tiptap-extensions/line-height.ts:40 | a non-default value renders exactly as style "line-height: " + value |
| LineHeight.ParseHTML | src/lib/tiptap-extensions/line-height.ts:35 | the text of the `line-height` declaration, or '' when the style has none |
| LineHeight.ParseRenderRoundTrip | src/lib/tiptap-extensions/line-height.ts:33-41 | reading back a rendered value other than the default gives it again; the default, rendered as no style, reads back as '' |
| LineHeight.DefaultIsLostOnReload | src/lib/tiptap-extensions/line-height.ts:35-41 | a default value read back and rendered again becomes the empty declaration "line-height: " |
| LineHeight.Update | src/lib/tiptap-extensions/line-height.ts:54 | headings and paragraphs take the value, other nodes are untouched |
| LineHeight.SetLineHeight | src/lib/tiptap-extensions/line-height.ts:50-55 | refused, changing nothing, exactly for a value outside `LINE_HEIGHTS`; otherwise the update |
| LineHeight.UnsetLineHeight | src/lib/tiptap-extensions/line-height.ts:56-58 | every heading and paragraph takes the default line height, other nodes are unchanged, and the list keeps its length |
| LineHeight.CommandsKeepListedValues | src/lib/tiptap-extensions/line-height.ts:50-58 | both commands keep every heading and paragraph at a listed line height |
| FontSize.ParseHTML | src/lib/tiptap-extensions/font-size.ts:34 | no quote is left, and only characters are removed |
| FontSize.ParseHTMLKeepsUnquoted | src/lib/tiptap-extensions/font-size.ts:34 | a size without quotes is read as it is |
| FontSize.RenderHTML | src/lib/tiptap-extensions/font-size.ts:35-40 | no attributes exactly for a null or empty size, otherwise only `style` |
| FontSize.StyleFontSize | src/lib/tiptap-extensions/font-size.ts:34 | the text of the `font-size` declaration, or '' when the style has none |
| FontSize.RenderParseRoundTrip | src/lib/tiptap-extensions/font-size.ts:34-40 | a non-empty size without quotes is rendered as "font-size: " + size and read back unchanged; a missing size reads back as '', which renders as no style again |
| FontSize.SetFontSize | src/lib/tiptap-extensions/font-size.ts:49-53 | the mark stores the size and keeps its other attributes |
| FontSize.SetFontSizeIgnoresList | src/lib/tiptap-extensions/font-size.ts:49-53 | a size outside `FONT_SIZES` is stored all the same |
| FontSize.UnsetFontSize | src/lib/tiptap-extensions/font-size.ts:54-59 | the size goes back to null, and a mark left without attributes is removed |
| FontSize.UnsetAfterSet | src/lib/tiptap-extensions/font-size.ts:49-59 | setting and then unsetting leaves no size |

## Left out

- REST calls (`getArticles`, `getCategories`, `createCategory`, `deleteCategoryById`, `deleteArticleBySlug`, `uploadFile`, `createArticle`, the auth endpoints): network I/O. Each call's outcome is an input to the method that makes it.
- `onSubmit` of the new-article page: it only forwards the form to `createArticle` and shows a toast.
- Toasts, `console` output, `e.preventDefault()` and DOM event wiring: presentation only.
- The router: `router.push` is recorded as the `route` field, and no navigation is modelled.
- `JSON.parse` and `JSON.stringify`: the parse result is an input of `Restore`, and the stored user text is part of the login reply.
- Login and register responses are taken to be well formed: a `token` and a `user` on success, and an optional `message` on failure.
- NFD normalisation (Unicode Standard Annex #15). It is modelled by tables of the canonical decompositions that begin with an ASCII character. Canonical reordering of marks is left out, because every reordered mark is deleted next.
- `toLowerCase` is the simple lower-case mapping, plus U+0130 becoming "i̇". The context-dependent Greek final sigma rule is left out.
- Snippet: when the 200th code unit is the first half of a surrogate pair, `substring(0, 200)` keeps that lone half; a `char` cannot hold it, so the model's snippet stops before the pair, one code unit shorter.
- SnippetIsPrefix: the same lone half of a surrogate pair is not part of the prefix it states.
- The concrete instances "a  b" → "a--b" (local slug), "Tản văn" → "tn-vn", "PHOTO.JPG" → "image/jpeg" and "mp4" → "video/mp4" are stated through the general lemmas `CategoryAdmin.LocalSlugKeepsDoubleSpace`, `CategoryAdmin.LocalSlugDropsNonAscii`, `ArticleEditor.UpperCaseExtensionIsListed` and `ArticleEditor.BareNameIsLookedUpWhole`. Their literal forms make the verifier unfold the Unicode tables over every character.
- The displayed total of the admin article list is `articles.length`, so it is the list's length in every state. It is not a separate member.
- JavaScript numbers in the video player are exact reals with NaN and the two infinities. Rounding of IEEE doubles is left out, and so is the exponent notation `String(x)` uses from 1e21 upward (`VideoPlayer.IntegralToString` always writes the digits).
- `togglePlay`, fullscreen, the controls auto-hide timer and the autoplay effect: they drive browser APIs and timers.
- The `videoRef.current` null guards: the element is always present in the model.
- `VideoPlayer.Player.HandleProgressChange`: the source's guard lets an infinite duration through, and the element then refuses the non-finite time and throws. In the model that case changes nothing.
- The 300 ms debounce of the search dialog: `HandleSearch` is the debounced call.
- Browser CSS parsing: `element.style.lineHeight` and `element.style.fontSize` are read from the rendered `style` text.
- `resetAttributes`: the reset of `unsetLineHeight` is modelled as setting the default value.
- The search-index builder takes `content` to be a string, as its comment assumes. Its fetch, file write and `process.exit` are I/O.
- `cn`, the AI and embedding code, the library-backed login, signup and contact forms, and the presentational pages are not part of this model.

## Findings

| source | as written | input that shows it | evidently intended | confidence | as-written member | corrected member |
|---|---|---|---|---|---|---|
| src/app/admin/articles/new/page.tsx:53-66 | `mimeTypes[extension]` indexes a plain object, so an extension naming an inherited `Object.prototype` member yields that (truthy) member | a file named "x.constructor" passes the `if (!correctMimeType)` guard and is uploaded with a function as its type | only the eight listed extensions have a type; every other file is refused | not executed | ArticleEditor.PrototypeFileIsUploaded | ArticleEditor.CorrectedPlanDiffersOnlyOnPrototype |
| src/app/admin/articles/new/page.tsx:42 | `category: z.string(...)` accepts the empty string, and choosing a parent sets the category to '' (line 153) | choose a parent, leave the child unchosen, and submit: the schema reports no missing category | a sub-category must be chosen before the form is accepted | not executed | ArticleEditor.EmptyCategoryPassesAsWritten | ArticleEditor.FormAcceptedIff |
