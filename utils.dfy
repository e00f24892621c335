/** `generateSlug` of src/lib/utils.ts: turns a Vietnamese title into a lower-case ASCII
    slug by stripping diacritics, dropping every other character outside `[a-z0-9]`, white
    space and `-`, and joining the words with single hyphens. */
module Utils {
  import opened UnicodeTables
  import opened JsString
  import Seqs

  /** `s.normalize('NFD')`, character by character (see `UnicodeTables.Decompose`). */
  function Nfd(s: string): string {
    if s == [] then [] else Decompose(s[0]) + Nfd(s[1..])
  }

  /** `.replace(/[̀-ͯ]/g, '')` */
  function RemoveCombiningMarks(s: string): string {
    Seqs.Filter(s, c => !IsCombiningMark(c))
  }

  /** The first line of `generateSlug`: decompose, drop the marks, and spell `đ`/`Đ` as `d`/`D`. */
  function RemoveAccents(name: string): string {
    ReplaceChar(ReplaceChar(RemoveCombiningMarks(Nfd(name)), '\U{111}', 'd'), '\U{110}', 'D')
  }

  predicate IsSlugChar(c: char) {
    ('a' <= c <= 'z') || ('0' <= c <= '9') || c == '-'
  }

  /** `.replace(/[^a-z0-9\s-]/g, '')` */
  function KeepSlugCharacters(s: string): (r: string)
    ensures forall i :: 0 <= i < |r| ==> IsSlugChar(r[i]) || IsJsWhitespace(r[i])
  {
    var keep := c => IsSlugChar(c) || IsJsWhitespace(c);
    Seqs.FilterSatisfies(s, keep);
    Seqs.Filter(s, keep)
  }

  /** `.replace(/\s+/g, '-')`; `afterRun` says that the character before `s` was white space
      that has already produced its hyphen. */
  function WhitespaceToHyphens(s: string, afterRun: bool): string {
    if s == [] then []
    else if IsJsWhitespace(s[0]) then (if afterRun then [] else "-") + WhitespaceToHyphens(s[1..], true)
    else [s[0]] + WhitespaceToHyphens(s[1..], false)
  }

  predicate NoWhitespace(s: string) {
    forall i :: 0 <= i < |s| ==> !IsJsWhitespace(s[i])
  }

  predicate AllSlugChars(s: string) {
    forall i :: 0 <= i < |s| ==> IsSlugChar(s[i])
  }

  predicate SlugCharsOrWhitespace(s: string) {
    forall i :: 0 <= i < |s| ==> IsSlugChar(s[i]) || IsJsWhitespace(s[i])
  }

  /** No white space survives, and an input of slug characters and white space comes out as
      slug characters only. */
  lemma {:induction false} WhitespaceToHyphensRemovesWhitespace(s: string, afterRun: bool)
    ensures NoWhitespace(WhitespaceToHyphens(s, afterRun))
    ensures SlugCharsOrWhitespace(s) ==> AllSlugChars(WhitespaceToHyphens(s, afterRun))
  {
    if s != [] {
      var rest := WhitespaceToHyphens(s[1..], IsJsWhitespace(s[0]));
      WhitespaceToHyphensRemovesWhitespace(s[1..], IsJsWhitespace(s[0]));
      var pre: string := if IsJsWhitespace(s[0]) then (if afterRun then [] else "-") else [s[0]];
      assert WhitespaceToHyphens(s, afterRun) == pre + rest;
      assert NoWhitespace(pre);
      if SlugCharsOrWhitespace(s) {
        assert SlugCharsOrWhitespace(s[1..]) by {
          forall i | 0 <= i < |s[1..]| ensures IsSlugChar(s[1..][i]) || IsJsWhitespace(s[1..][i]) {
            assert s[1..][i] == s[i + 1];
          }
        }
        assert AllSlugChars(pre);
      }
    }
  }

  /** No two consecutive hyphens. */
  predicate NoDoubleHyphen(s: string) {
    forall i :: 0 <= i < |s| - 1 ==> !(s[i] == '-' && s[i + 1] == '-')
  }

  /** `.replace(/-+/g, '-')`; `afterRun` says that the character before `s` was a hyphen. */
  function CollapseHyphens(s: string, afterRun: bool): string {
    if s == [] then []
    else if s[0] == '-' then (if afterRun then [] else "-") + CollapseHyphens(s[1..], true)
    else [s[0]] + CollapseHyphens(s[1..], false)
  }

  /** The result has no two hyphens in a row, and starts without a hyphen when one came
      just before. */
  lemma {:induction false} CollapseHyphensIsCollapsed(s: string, afterRun: bool)
    ensures NoDoubleHyphen(CollapseHyphens(s, afterRun))
    ensures afterRun && CollapseHyphens(s, afterRun) != [] ==> CollapseHyphens(s, afterRun)[0] != '-'
  {
    if s != [] {
      CollapseHyphensIsCollapsed(s[1..], s[0] == '-');
      var rest := CollapseHyphens(s[1..], s[0] == '-');
      var pre: string := if s[0] == '-' then (if afterRun then [] else "-") else [s[0]];
      var r := pre + rest;
      assert CollapseHyphens(s, afterRun) == r;
      forall i | 0 <= i < |r| - 1 ensures !(r[i] == '-' && r[i + 1] == '-') {
        if i >= |pre| {
          assert r[i] == rest[i - |pre|] && r[i + 1] == rest[i + 1 - |pre|];
        } else if s[0] == '-' && rest != [] {
          assert r[i + 1] == rest[0];
        }
      }
    }
  }

  /** Collapsing only deletes hyphens, so an input of slug characters stays one. */
  lemma {:induction false} CollapseHyphensKeepsSlugChars(s: string, afterRun: bool)
    requires AllSlugChars(s)
    ensures AllSlugChars(CollapseHyphens(s, afterRun))
  {
    if s != [] {
      assert AllSlugChars(s[1..]) by {
        forall i | 0 <= i < |s[1..]| ensures IsSlugChar(s[1..][i]) {
          assert s[1..][i] == s[i + 1];
        }
      }
      CollapseHyphensKeepsSlugChars(s[1..], s[0] == '-');
    }
  }

  /** `generateSlug(name)` */
  function GenerateSlug(name: string): string {
    if name == "" then ""
    else CollapseHyphens(WhitespaceToHyphens(Trim(KeepSlugCharacters(ToLowerCase(RemoveAccents(name)))), false), false)
  }

  /** A slug in the form `generateSlug` produces: only `a`-`z`, `0`-`9` and `-`, and never two
      hyphens in a row. */
  predicate IsNormalSlug(s: string) {
    AllSlugChars(s) && NoDoubleHyphen(s)
  }

  lemma SlugOfEmpty()
    ensures GenerateSlug("") == ""
  {
  }

  /** Every character of the result is a lower-case ASCII letter, a digit or a hyphen, and
      no two hyphens are adjacent. */
  lemma GenerateSlugIsNormal(name: string)
    ensures IsNormalSlug(GenerateSlug(name))
  {
    if name != "" {
      AfterKeepIsNormal(KeepSlugCharacters(ToLowerCase(RemoveAccents(name))));
    }
  }

  /** The steps after the character filter turn slug characters and white space into a
      normal slug. */
  lemma AfterKeepIsNormal(kept: string)
    requires SlugCharsOrWhitespace(kept)
    ensures IsNormalSlug(CollapseHyphens(WhitespaceToHyphens(Trim(kept), false), false))
  {
    var trimmed := Trim(kept);
    TrimIsSubstring(kept);
    var i, j :| 0 <= i <= j <= |kept| && trimmed == kept[i..j];
    assert SlugCharsOrWhitespace(trimmed) by {
      forall k | 0 <= k < |trimmed| ensures IsSlugChar(trimmed[k]) || IsJsWhitespace(trimmed[k]) {
        assert trimmed[k] == kept[i + k];
      }
    }
    var hyphened := WhitespaceToHyphens(trimmed, false);
    WhitespaceToHyphensRemovesWhitespace(trimmed, false);
    CollapseHyphensIsCollapsed(hyphened, false);
    CollapseHyphensKeepsSlugChars(hyphened, false);
  }

  /** `trim()` returns a contiguous piece of its argument. */
  lemma {:induction false} TrimIsSubstring(s: string)
    ensures exists i, j :: 0 <= i <= j <= |s| && Trim(s) == s[i..j]
  {
    TrimStartIsSuffix(s);
    var i :| 0 <= i <= |s| && TrimStart(s) == s[i..];
    TrimEndIsPrefix(s[i..]);
    var j :| 0 <= j <= |s[i..]| && TrimEnd(s[i..]) == s[i..][..j];
    assert s[i..][..j] == s[i..i + j];
  }

  lemma {:induction false} TrimStartIsSuffix(s: string)
    ensures exists i :: 0 <= i <= |s| && TrimStart(s) == s[i..]
  {
    if s != [] && IsJsWhitespace(s[0]) {
      TrimStartIsSuffix(s[1..]);
      var i :| 0 <= i <= |s[1..]| && TrimStart(s[1..]) == s[1..][i..];
      assert s[1..][i..] == s[i + 1..];
    } else {
      assert TrimStart(s) == s[0..];
    }
  }

  lemma {:induction false} TrimEndIsPrefix(s: string)
    ensures exists j :: 0 <= j <= |s| && TrimEnd(s) == s[..j]
    decreases |s|
  {
    if s != [] && IsJsWhitespace(s[|s| - 1]) {
      TrimEndIsPrefix(s[..|s| - 1]);
      var j :| 0 <= j <= |s| - 1 && TrimEnd(s[..|s| - 1]) == s[..|s| - 1][..j];
      assert s[..|s| - 1][..j] == s[..j];
    } else {
      assert TrimEnd(s) == s[..|s|];
    }
  }

  lemma {:induction false} NfdOfAscii(s: string)
    requires forall i :: 0 <= i < |s| ==> s[i] < '\U{80}'
    ensures Nfd(s) == s
  {
    if s != [] {
      NfdOfAscii(s[1..]);
    }
  }

  lemma {:induction false} NfdConcat(a: string, b: string)
    ensures Nfd(a + b) == Nfd(a) + Nfd(b)
  {
    if a == [] {
      assert a + b == b;
    } else {
      assert (a + b)[1..] == a[1..] + b;
      NfdConcat(a[1..], b);
    }
  }

  lemma {:induction false} WhitespaceToHyphensWithoutWhitespace(s: string, afterRun: bool)
    requires NoWhitespace(s)
    ensures WhitespaceToHyphens(s, afterRun) == s
  {
    if s != [] {
      WhitespaceToHyphensWithoutWhitespace(s[1..], false);
    }
  }

  lemma {:induction false} CollapseHyphensWithoutDoubleHyphen(s: string, afterRun: bool)
    requires NoDoubleHyphen(s)
    requires afterRun ==> s == [] || s[0] != '-'
    ensures CollapseHyphens(s, afterRun) == s
  {
    if s != [] {
      CollapseHyphensWithoutDoubleHyphen(s[1..], s[0] == '-');
    }
  }

  /** A slug already in normal form passes through every step of `generateSlug` unchanged. */
  lemma NormalSlugIsFixedPoint(s: string)
    requires IsNormalSlug(s)
    ensures GenerateSlug(s) == s
  {
    if s != "" {
      BeforeTrimOfSlugText(s);
      AfterKeepOfNormalSlug(s);
    }
  }

  /** The steps after the character filter leave a non-empty normal slug unchanged. */
  lemma AfterKeepOfNormalSlug(s: string)
    requires s != "" && IsNormalSlug(s)
    ensures CollapseHyphens(WhitespaceToHyphens(Trim(s), false), false) == s
  {
    TrimOfNonBlankEnds(s);
    WhitespaceToHyphensWithoutWhitespace(s, false);
    CollapseHyphensWithoutDoubleHyphen(s, false);
  }

  /** `generateSlug(generateSlug(s)) === generateSlug(s)` */
  lemma GenerateSlugIdempotent(name: string)
    ensures GenerateSlug(GenerateSlug(name)) == GenerateSlug(name)
  {
    GenerateSlugIsNormal(name);
    NormalSlugIsFixedPoint(GenerateSlug(name));
  }

  /** The character-wise steps that run before `trim()`. */
  function BeforeTrim(s: string): string {
    KeepSlugCharacters(ToLowerCase(RemoveAccents(s)))
  }

  lemma BeforeTrimConcat(a: string, b: string)
    ensures BeforeTrim(a + b) == BeforeTrim(a) + BeforeTrim(b)
  {
    NfdConcat(a, b);
    Seqs.FilterConcat(Nfd(a), Nfd(b), c => !IsCombiningMark(c));
    var m1, m2 := RemoveCombiningMarks(Nfd(a)), RemoveCombiningMarks(Nfd(b));
    ReplaceCharConcat(m1, m2, '\U{111}', 'd');
    var d1, d2 := ReplaceChar(m1, '\U{111}', 'd'), ReplaceChar(m2, '\U{111}', 'd');
    ReplaceCharConcat(d1, d2, '\U{110}', 'D');
    var e1, e2 := ReplaceChar(d1, '\U{110}', 'D'), ReplaceChar(d2, '\U{110}', 'D');
    ToLowerCaseConcat(e1, e2);
    Seqs.FilterConcat(ToLowerCase(e1), ToLowerCase(e2), c => IsSlugChar(c) || IsJsWhitespace(c));
  }

  /** White space around a title never becomes a hyphen. */
  lemma GenerateSlugIgnoresSurroundingWhitespace(w1: string, name: string, w2: string)
    requires AllWhitespace(w1) && AllWhitespace(w2)
    ensures GenerateSlug(w1 + name + w2) == GenerateSlug(name)
  {
    BeforeTrimConcat(w1 + name, w2);
    BeforeTrimConcat(w1, name);
    BeforeTrimOfSlugText(w1);
    BeforeTrimOfSlugText(w2);
    TrimIgnoresSurroundingWhitespace(w1, BeforeTrim(name), w2);
    if name == "" {
      assert BeforeTrim(name) == "";
    }
  }

  /** The letter a character stands for once its diacritics are gone: the base of its
      decomposition, with `đ`/`Đ` spelt `d`/`D`. */
  function BaseLetter(c: char): char {
    if c == '\U{111}' then 'd' else if c == '\U{110}' then 'D'
    else DecomposeShape(c); Decompose(c)[0]
  }

  /** Stripping accents from a single character. */
  lemma RemoveAccentsOfChar(c: char)
    ensures RemoveAccents([c]) == if IsCombiningMark(c) then [] else [BaseLetter(c)]
  {
    var d := Decompose(c);
    DecomposeShape(c);
    assert Nfd([c]) == d + Nfd([]);
    assert Nfd([c]) == d;
    assert Decompose('\U{111}') == "\U{111}";
    assert Decompose('\U{110}') == "\U{110}";
    if IsCombiningMark(c) {
      DecomposeOfMark(c);
    }
    StripDecomposition(c, d);
  }

  /** The marks and `đ`/`Đ` steps of accent stripping on the decomposition `d` of `c`. */
  lemma StripDecomposition(c: char, d: string)
    requires d == [c] || IsBaseWithMarks(d)
    requires c == '\U{111}' || c == '\U{110}' || IsCombiningMark(c) ==> d == [c]
    ensures ReplaceChar(ReplaceChar(RemoveCombiningMarks(d), '\U{111}', 'd'), '\U{110}', 'D')
         == if IsCombiningMark(c) then []
            else [if c == '\U{111}' then 'd' else if c == '\U{110}' then 'D' else d[0]]
  {
    if d != [c] {
      assert d == [d[0]] + d[1..];
      Seqs.FilterConcat([d[0]], d[1..], c => !IsCombiningMark(c));
      Seqs.FilterRejectsAll(d[1..], c => !IsCombiningMark(c));
      assert Seqs.Filter([d[0]], c => !IsCombiningMark(c)) == [d[0]] + Seqs.Filter([], c => !IsCombiningMark(c));
      assert RemoveCombiningMarks(d) == [d[0]];
      assert ReplaceChar([d[0]], '\U{111}', 'd') == [d[0]];
      assert ReplaceChar([d[0]], '\U{110}', 'D') == [d[0]];
    } else {
      assert Seqs.Filter([c], c => !IsCombiningMark(c)) == (if IsCombiningMark(c) then [] else [c]) + Seqs.Filter([], c => !IsCombiningMark(c));
    }
  }

  lemma {:induction false} RemoveAccentsConcat(a: string, b: string)
    ensures RemoveAccents(a + b) == RemoveAccents(a) + RemoveAccents(b)
  {
    NfdConcat(a, b);
    Seqs.FilterConcat(Nfd(a), Nfd(b), c => !IsCombiningMark(c));
    var m1, m2 := RemoveCombiningMarks(Nfd(a)), RemoveCombiningMarks(Nfd(b));
    ReplaceCharConcat(m1, m2, '\U{111}', 'd');
    ReplaceCharConcat(ReplaceChar(m1, '\U{111}', 'd'), ReplaceChar(m2, '\U{111}', 'd'), '\U{110}', 'D');
  }

  /** Accent stripping drops every combining mark and replaces every other character by its
      base letter, in order. */
  lemma {:induction false} RemoveAccentsIsCharwise(s: string)
    ensures RemoveAccents(s) == Seqs.Map(Seqs.Filter(s, c => !IsCombiningMark(c)), BaseLetter)
  {
    if s != [] {
      assert s == [s[0]] + s[1..];
      RemoveAccentsConcat([s[0]], s[1..]);
      RemoveAccentsOfChar(s[0]);
      RemoveAccentsIsCharwise(s[1..]);
    }
  }

  /** After accent stripping no combining mark and no `đ`/`Đ` is left. */
  lemma RemoveAccentsLeavesNoDiacritics(s: string)
    ensures forall i :: 0 <= i < |RemoveAccents(s)| ==>
      var c := RemoveAccents(s)[i];
      !IsCombiningMark(c) && c != '\U{111}' && c != '\U{110}'
  {
    RemoveAccentsIsCharwise(s);
    var f := Seqs.Filter(s, c => !IsCombiningMark(c));
    Seqs.FilterSatisfies(s, c => !IsCombiningMark(c));
    var r := RemoveAccents(s);
    forall i | 0 <= i < |r|
      ensures !IsCombiningMark(r[i]) && r[i] != '\U{111}' && r[i] != '\U{110}'
    {
      assert r[i] == BaseLetter(f[i]);
      BaseLetterIsPlain(f[i]);
    }
  }

  /** The base letter of a character that is not a mark is neither a mark nor `đ`/`Đ`. */
  lemma BaseLetterIsPlain(c: char)
    requires !IsCombiningMark(c)
    ensures !IsCombiningMark(BaseLetter(c)) && BaseLetter(c) != '\U{111}' && BaseLetter(c) != '\U{110}'
  {
    DecomposeShape(c);
  }

  /** What one character of the title contributes before `trim()`: nothing for a mark, else
      its base letter in lower case if that is a slug character or white space. */
  function SlugImage(c: char): string {
    if IsCombiningMark(c) then []
    else
      var l := SimpleLower(BaseLetter(c));
      if IsSlugChar(l) || IsJsWhitespace(l) then [l] else []
  }

  function SlugImages(s: string): string {
    if s == [] then [] else SlugImage(s[0]) + SlugImages(s[1..])
  }

  lemma {:induction false} SlugImagesConcat(a: string, b: string)
    ensures SlugImages(a + b) == SlugImages(a) + SlugImages(b)
  {
    if a == [] {
      assert a + b == b;
    } else {
      assert (a + b)[1..] == a[1..] + b;
      SlugImagesConcat(a[1..], b);
    }
  }

  lemma BeforeTrimOfChar(c: char)
    ensures BeforeTrim([c]) == SlugImage(c)
  {
    RemoveAccentsOfChar(c);
    if !IsCombiningMark(c) {
      var b := BaseLetter(c);
      assert b != '\U{130}' by {
        if c != '\U{111}' && c != '\U{110}' {
          var d := Decompose(c);
          DecomposeShape(c);
          if d == [c] {
            assert c != '\U{130}' by { assert Decompose('\U{130}') == "I\U{307}"; }
          }
        }
      }
      assert ToLowerCase([b]) == [SimpleLower(b)] + ToLowerCase([]);
    }
  }

  /** The steps before `trim()` work character by character. */
  lemma {:induction false} BeforeTrimIsCharwise(s: string)
    ensures BeforeTrim(s) == SlugImages(s)
  {
    if s != [] {
      assert s == [s[0]] + s[1..];
      BeforeTrimConcat([s[0]], s[1..]);
      BeforeTrimOfChar(s[0]);
      BeforeTrimIsCharwise(s[1..]);
    }
  }

  /** Outside leading or trailing white space, `\\s+` becomes one hyphen: two white-space-free
      words around one white-space character are joined by `-`. */
  lemma WhitespaceToHyphensJoinsWords(a: string, w: char, b: string)
    requires a != [] && NoWhitespace(a) && IsJsWhitespace(w) && NoWhitespace(b)
    ensures WhitespaceToHyphens(a + [w] + b, false) == a + "-" + b
  {
    assert a + [w] + b == a + ([w] + b);
    WhitespaceToHyphensAfterWord(a, [w] + b, false);
    assert ([w] + b)[1..] == b;
    WhitespaceToHyphensWithoutWhitespace(b, true);
  }

  /** A white-space-free word at the front is copied as it is. */
  lemma {:induction false} WhitespaceToHyphensAfterWord(a: string, rest: string, afterRun: bool)
    requires a != [] && NoWhitespace(a)
    ensures WhitespaceToHyphens(a + rest, afterRun) == a + WhitespaceToHyphens(rest, false)
  {
    assert (a + rest)[0] == a[0];
    assert (a + rest)[1..] == a[1..] + rest;
    if |a| > 1 {
      WhitespaceToHyphensAfterWord(a[1..], rest, false);
    } else {
      assert a[1..] + rest == rest;
    }
  }

  /** Slug characters and white space pass through the steps before `trim()` unchanged. */
  lemma {:induction false} BeforeTrimOfSlugText(s: string)
    requires SlugCharsOrWhitespace(s)
    ensures BeforeTrim(s) == s
  {
    BeforeTrimIsCharwise(s);
    SlugImagesOfSlugText(s);
  }

  lemma {:induction false} SlugImagesOfSlugText(s: string)
    requires SlugCharsOrWhitespace(s)
    ensures SlugImages(s) == s
  {
    if s != [] {
      SlugImagesOfSlugText(s[1..]);
      SlugImageOfSlugChar(s[0]);
    }
  }

  lemma SlugImageOfSlugChar(c: char)
    requires IsSlugChar(c) || IsJsWhitespace(c)
    ensures SlugImage(c) == [c]
  {
    assert BaseLetter(c) == c;
  }

  /** An upper-case ASCII letter contributes its lower-case form. */
  lemma SlugImageOfUpperAscii(c: char)
    requires 'A' <= c <= 'Z'
    ensures SlugImage(c) == [(c as int + 32) as char]
  {
    assert BaseLetter(c) == c;
  }
}
