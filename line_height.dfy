/** The editor's line-height extension (src/lib/tiptap-extensions/line-height.ts): a global
    `lineHeight` attribute on headings and paragraphs, its HTML form, and the commands that
    set and reset it. */
module LineHeight {
  import opened Common
  import opened JsString

  /** `LINE_HEIGHTS` */
  const LineHeights: seq<string> := ["1", "1.5", "2", "2.5"]
  const DefaultLineHeight: string := "1.5"
  /** The node types the attribute applies to. */
  const Types: seq<string> := ["heading", "paragraph"]
  const StylePrefix: string := "line-height: "

  /** An HTML element's attributes, by name. */
  type Attributes = map<string, string>

  /** `renderHTML`: nothing for the default value, otherwise one `style` declaration. */
  function RenderHTML(lineHeight: string): (attrs: Attributes)
    ensures attrs.Keys <= {"style"}
    ensures lineHeight == DefaultLineHeight <==> "style" !in attrs
  {
    if lineHeight == DefaultLineHeight then map[] else map["style" := StylePrefix + lineHeight]
  }

  /** `element.style.lineHeight`: the text of the element's `line-height` declaration, or ''
      when its style has none. */
  function ParseHTML(attrs: Attributes): (r: string)
    ensures "style" !in attrs ==> r == ""
    ensures "style" in attrs && StartsWith(attrs["style"], StylePrefix) ==>
      attrs["style"] == StylePrefix + r
  {
    if "style" in attrs && StartsWith(attrs["style"], StylePrefix) then
      var style := attrs["style"];
      assert style == style[..|StylePrefix|] + style[|StylePrefix|..];
      style[|StylePrefix|..]
    else ""
  }

  /** Rendering and reading back gives any value other than the default again; the default
      is rendered as no style at all, so it reads back as ''. */
  lemma ParseRenderRoundTrip(lineHeight: string)
    ensures lineHeight != DefaultLineHeight ==> ParseHTML(RenderHTML(lineHeight)) == lineHeight
    ensures ParseHTML(RenderHTML(DefaultLineHeight)) == ""
  {
    if lineHeight != DefaultLineHeight {
      var style := StylePrefix + lineHeight;
      assert style[..|StylePrefix|] == StylePrefix;
      assert style[|StylePrefix|..] == lineHeight;
    }
  }

  /** A default value does not survive a reload: read back as '', it renders as the empty
      declaration "line-height: ". */
  lemma DefaultIsLostOnReload()
    ensures RenderHTML(ParseHTML(RenderHTML(DefaultLineHeight))) == map["style" := "line-height: "]
  {
    ParseRenderRoundTrip(DefaultLineHeight);
    assert "" != DefaultLineHeight;
    assert StylePrefix + "" == "line-height: ";
  }

  /** For any value other than the default the element gets exactly the style
      "line-height: " followed by the value. */
  lemma RenderNonDefault(lineHeight: string)
    requires lineHeight != DefaultLineHeight
    ensures RenderHTML(lineHeight) == map["style" := "line-height: " + lineHeight]
  {
  }

  /** A node of the selection, with its type and its `lineHeight` attribute. */
  datatype Node = Node(nodeType: string, lineHeight: string)

  /** What `updateAttributes(type, { lineHeight })` over every type in `Types` does to the
      selected nodes. */
  function Update(nodes: seq<Node>, lineHeight: string): (r: seq<Node>)
    ensures |r| == |nodes|
    ensures forall i :: 0 <= i < |r| ==> r[i].nodeType == nodes[i].nodeType
    ensures forall i :: 0 <= i < |r| ==>
      r[i].lineHeight == if nodes[i].nodeType in Types then lineHeight else nodes[i].lineHeight
  {
    if nodes == [] then []
    else
      var n := nodes[0];
      [if n.nodeType in Types then n.(lineHeight := lineHeight) else n] + Update(nodes[1..], lineHeight)
  }

  /** `setLineHeight`: a value outside `LINE_HEIGHTS` is refused and changes nothing;
      otherwise every selected heading and paragraph takes it. */
  function SetLineHeight(nodes: seq<Node>, lineHeight: string): (r: (bool, seq<Node>))
    ensures !r.0 <==> lineHeight !in LineHeights
    ensures !r.0 ==> r.1 == nodes
    ensures r.0 ==> r.1 == Update(nodes, lineHeight)
  {
    if lineHeight !in LineHeights then (false, nodes) else (true, Update(nodes, lineHeight))
  }

  /** `unsetLineHeight`: headings and paragraphs go back to the default, other nodes keep
      theirs. */
  function UnsetLineHeight(nodes: seq<Node>): (r: seq<Node>)
    ensures |r| == |nodes|
    ensures forall i :: 0 <= i < |r| ==>
      r[i] == if nodes[i].nodeType in Types then nodes[i].(lineHeight := DefaultLineHeight) else nodes[i]
  {
    Update(nodes, DefaultLineHeight)
  }

  /** Whatever the commands do, a heading or paragraph only ever holds a listed line height
      once it held one; other nodes are never touched. */
  lemma CommandsKeepListedValues(nodes: seq<Node>, lineHeight: string)
    requires forall i :: 0 <= i < |nodes| && nodes[i].nodeType in Types ==> nodes[i].lineHeight in LineHeights
    ensures var r := SetLineHeight(nodes, lineHeight).1;
      forall i :: 0 <= i < |r| && r[i].nodeType in Types ==> r[i].lineHeight in LineHeights
    ensures var r := UnsetLineHeight(nodes);
      forall i :: 0 <= i < |r| && r[i].nodeType in Types ==> r[i].lineHeight in LineHeights
  {
  }
}
