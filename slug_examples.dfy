/** Worked examples of `generateSlug` from src/lib/utils.ts, each computed word by word with
    the character-wise description of the steps before `trim()`. */
module SlugExamples {
  import opened UnicodeTables
  import opened JsString
  import opened Utils

  /** "Văn Chương" becomes "van-chuong": the breve and the horns are dropped. */
  lemma SlugOfVanChuong(title: string)
    requires title == "V\U{103}n Ch\U{1B0}\U{1A1}ng"
    ensures GenerateSlug(title) == "van-chuong"
  {
    BeforeTrimOfVanChuong(title);
    HyphensOfVanChuong(BeforeTrim(title));
  }

  lemma BeforeTrimOfVanChuong(title: string)
    requires title == "V\U{103}n Ch\U{1B0}\U{1A1}ng"
    ensures BeforeTrim(title) == "van" + " " + "chuong"
  {
    var van, chuong := title[..3], title[4..];
    assert title == van + " " + chuong;
    SlugImagesOfVan(van);
    SlugImagesOfChuong(chuong);
    BeforeTrimAroundSpace(van, chuong);
  }

  /** Two words separated by a space go through the steps before `trim()` separately. */
  lemma BeforeTrimAroundSpace(a: string, b: string)
    ensures BeforeTrim(a + " " + b) == SlugImages(a) + " " + SlugImages(b)
  {
    BeforeTrimIsCharwise(a + " " + b);
    SlugImagesConcat(a + " ", b);
    SlugImagesConcat(a, " ");
    SlugImagesOfSpace();
  }

  lemma SlugImagesOfSpace()
    ensures SlugImages(" ") == " "
  {
    SlugImageOfSlugChar(' ');
    assert SlugImages(" ") == SlugImage(' ') + SlugImages([]);
  }

  lemma HyphensOfVanChuong(words: string)
    requires words == "van" + " " + "chuong"
    ensures CollapseHyphens(WhitespaceToHyphens(Trim(words), false), false) == "van-chuong"
  {
    TrimOfNonBlankEnds(words);
    WhitespaceToHyphensJoinsWords("van", ' ', "chuong");
    assert "van" + "-" + "chuong" == "van-chuong";
    CollapseHyphensWithoutDoubleHyphen("van-chuong", false);
  }

  /** Each character of "Văn" gives one letter. */
  lemma SlugImagesOfVan(w: string)
    requires |w| == 3 && w[0] == 'V' && w[1] == '\U{103}' && w[2] == 'n'
    ensures SlugImages(w) == "van"
  {
    SlugImagesOfThree(w);
    SlugImageOfUpperAscii('V');
    SlugImageOfAccented();
    SlugImageOfSlugChar('n');
  }

  /** Each character of "Chương" gives one letter. */
  lemma SlugImagesOfChuong(w: string)
    requires |w| == 6 && w[0] == 'C' && w[1] == 'h' && w[2] == '\U{1B0}' && w[3] == '\U{1A1}'
             && w[4] == 'n' && w[5] == 'g'
    ensures SlugImages(w) == "chuong"
  {
    var chu, ong := w[..3], w[3..];
    assert w == chu + ong;
    SlugImagesConcat(chu, ong);
    SlugImagesOfThree(chu);
    SlugImagesOfThree(ong);
    SlugImageOfUpperAscii('C');
    SlugImageOfSlugChar('h');
    SlugImageOfAccented();
    SlugImageOfSlugChar('n');
    SlugImageOfSlugChar('g');
  }

  lemma SlugImagesOfThree(w: string)
    requires |w| == 3
    ensures SlugImages(w) == SlugImage(w[0]) + SlugImage(w[1]) + SlugImage(w[2])
  {
    assert SlugImages(w[2..]) == SlugImage(w[2]) + SlugImages(w[3..]);
    assert SlugImages(w[1..]) == SlugImage(w[1]) + SlugImages(w[2..]);
  }

  lemma SlugImageOfAccented()
    ensures SlugImage('\U{103}') == "a"
    ensures SlugImage('\U{1B0}') == "u"
    ensures SlugImage('\U{1A1}') == "o"
  {
    assert Decompose('\U{103}') == "a\U{306}";
    assert Decompose('\U{1B0}') == "u\U{31B}";
    assert Decompose('\U{1A1}') == "o\U{31B}";
  }

  /** A hyphen at the edge is kept: "abc -" becomes "abc-". */
  lemma SlugKeepsEdgeHyphen(title: string)
    requires title == "abc -"
    ensures GenerateSlug(title) == "abc-"
  {
    BeforeTrimOfSlugText(title);
    TrimOfNonBlankEnds(title);
    assert title == "abc" + [' '] + "-";
    WhitespaceToHyphensJoinsWords("abc", ' ', "-");
    assert "abc" + "-" + "-" == "abc--";
    CollapseOfEdgeHyphen();
  }

  lemma CollapseOfEdgeHyphen()
    ensures CollapseHyphens("abc--", false) == "abc-"
  {
  }
}
