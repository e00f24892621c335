/** The editor's font-size extension (src/lib/tiptap-extensions/font-size.ts): a `fontSize`
    attribute on the `textStyle` mark, its HTML form, and the commands that set and clear
    it. */
module FontSize {
  import opened Common
  import opened JsString
  import Seqs

  /** `FONT_SIZES`, the sizes the toolbar offers; the commands do not consult it. */
  const FontSizes: seq<string> := ["12px", "14px", "16px", "18px", "20px", "24px", "30px"]
  const StylePrefix: string := "font-size: "

  type Attributes = map<string, string>

  predicate IsQuote(c: char) {
    c == '\'' || c == '"'
  }

  predicate NotQuote(c: char) {
    !IsQuote(c)
  }

  /** `parseHTML`: the element's `font-size` with every run of quotes removed. */
  function ParseHTML(styleFontSize: string): (r: string)
    ensures forall i :: 0 <= i < |r| ==> !IsQuote(r[i])
    ensures Seqs.IsSubsequence(r, styleFontSize)
  {
    Seqs.FilterIsSubsequence(styleFontSize, NotQuote);
    Seqs.FilterSatisfies(styleFontSize, NotQuote);
    Seqs.Filter(styleFontSize, NotQuote)
  }

  /** Only quotes are removed: a size without quotes is read as it is. */
  lemma ParseHTMLKeepsUnquoted(s: string)
    requires forall i :: 0 <= i < |s| ==> !IsQuote(s[i])
    ensures ParseHTML(s) == s
  {
    Seqs.FilterKeepsAll(s, NotQuote);
  }

  /** `renderHTML`: nothing for a missing or empty size, otherwise one `style` declaration. */
  function RenderHTML(fontSize: Option<string>): (attrs: Attributes)
    ensures attrs.Keys <= {"style"}
    ensures !Truthy(fontSize) <==> "style" !in attrs
  {
    if !Truthy(fontSize) then map[] else map["style" := StylePrefix + fontSize.value]
  }

  /** `element.style.fontSize`: the text of the element's `font-size` declaration, or '' when
      its style has none. */
  function StyleFontSize(attrs: Attributes): (r: string)
    ensures "style" !in attrs ==> r == ""
    ensures "style" in attrs && StartsWith(attrs["style"], StylePrefix) ==>
      attrs["style"] == StylePrefix + r
  {
    if "style" in attrs && StartsWith(attrs["style"], StylePrefix) then
      var style := attrs["style"];
      assert style == style[..|StylePrefix|] + style[|StylePrefix|..];
      style[|StylePrefix|..]
    else ""
  }

  /** A size without quotes survives rendering and reading back; a missing or empty size is
      rendered as no style and reads back as '', which renders as no style again. */
  lemma RenderParseRoundTrip(size: string)
    requires size != "" && forall i :: 0 <= i < |size| ==> !IsQuote(size[i])
    ensures StyleFontSize(RenderHTML(Some(size))) == size
    ensures ParseHTML(StyleFontSize(RenderHTML(Some(size)))) == size
    ensures ParseHTML(StyleFontSize(RenderHTML(None))) == ""
    ensures RenderHTML(Some(ParseHTML(StyleFontSize(RenderHTML(None))))) == RenderHTML(None)
  {
    var style := StylePrefix + size;
    assert style[..|StylePrefix|] == StylePrefix;
    assert style[|StylePrefix|..] == size;
    ParseHTMLKeepsUnquoted(size);
    ParseHTMLKeepsUnquoted("");
  }

  /** The `textStyle` mark: its font size (`null` by default) and its other non-null
      attributes. */
  datatype TextStyle = TextStyle(fontSize: Option<string>, others: Attributes)

  /** `setFontSize`: any string is stored, listed in `FONT_SIZES` or not. */
  function SetFontSize(mark: TextStyle, fontSize: string): (r: TextStyle)
    ensures r.fontSize == Some(fontSize) && r.others == mark.others
  {
    mark.(fontSize := Some(fontSize))
  }

  /** `unsetFontSize`: the size goes back to `null`, and a mark left with no attribute at all
      is removed (`removeEmptyTextStyle`). */
  function UnsetFontSize(mark: TextStyle): (r: Option<TextStyle>)
    ensures r.None? <==> mark.others == map[]
    ensures r.Some? ==> r.value == TextStyle(None, mark.others)
  {
    if mark.others == map[] then None else Some(mark.(fontSize := None))
  }

  /** A size outside the list is stored all the same. */
  lemma SetFontSizeIgnoresList(mark: TextStyle)
    ensures "13px" !in FontSizes && SetFontSize(mark, "13px").fontSize == Some("13px")
  {
  }

  /** Setting and then unsetting leaves no size behind. */
  lemma UnsetAfterSet(mark: TextStyle, size: string)
    ensures var r := UnsetFontSize(SetFontSize(mark, size));
      r.Some? ==> r.value.fontSize.None? && r.value.others == mark.others
  {
  }
}
