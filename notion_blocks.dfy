/** The block renderer of the Notion page view
    (app/libs/components/ui/NotionBlocks.tsx): the block and rich-text object
    model it consumes, the markup tree it produces, the inline rich-text
    composition (`RichText`), the language heuristic (`detectLanguage`) and
    the per-type dispatch (`renderBlock`). The list-grouping pass
    (`renderBlocks`) is in module ListGrouping. */
module NotionBlocks {
  import opened Wrappers

  // ---------------------------------------------------------------------
  // Input: Notion rich text and blocks
  // ---------------------------------------------------------------------

  /** The five independent style flags of a rich-text span. */
  datatype Annotations = Annotations(
    bold: bool, italic: bool, strikethrough: bool, underline: bool, code: bool)

  const NoAnnotations := Annotations(false, false, false, false, false)

  /** One rich-text span: its plain text, an optional link target and its flags. */
  datatype RichTextItem = RichTextItem(plainText: string, href: Option<string>, annotations: Annotations)

  /** Where an image block's picture lives: a URL given by the author
      (`external`) or a file uploaded to Notion (`file`). */
  datatype ImageFile = External(externalUrl: string) | File(fileUrl: string)

  /** The block types the renderer knows; every other type (and a partial
      block object without a type) is `Unsupported`. */
  datatype Block =
    | Paragraph(richText: seq<RichTextItem>)
    | Heading1(richText: seq<RichTextItem>)
    | Heading2(richText: seq<RichTextItem>)
    | Heading3(richText: seq<RichTextItem>)
    | BulletedListItem(richText: seq<RichTextItem>)
    | NumberedListItem(richText: seq<RichTextItem>)
    | Code(richText: seq<RichTextItem>)
    | Image(image: ImageFile, caption: Option<seq<RichTextItem>>)
    | Quote(richText: seq<RichTextItem>)
    | Unsupported(blockType: string)
  {
    /** The kind of list this block belongs to, if it is a list item. */
    function ListKindOf(): (k: Option<ListKind>)
      ensures k == Some(Bulleted) <==> BulletedListItem?
      ensures k == Some(Numbered) <==> NumberedListItem?
    {
      match this
      case BulletedListItem(_) => Some(Bulleted)
      case NumberedListItem(_) => Some(Numbered)
      case _ => None
    }
  }

  datatype ListKind = Bulleted | Numbered

  // ---------------------------------------------------------------------
  // Output: the rendered markup tree (element kinds and children only)
  // ---------------------------------------------------------------------

  datatype Node =
    | Text(text: string)
    | Strong(inner: Node)
    | Em(inner: Node)
    | Del(inner: Node)
    | U(inner: Node)
    | InlineCode(inner: Node)
    | Link(href: string, text: string)
    | P(lang: string, children: seq<Node>)
    | H1(children: seq<Node>)
    | H2(children: seq<Node>)
    | H3(children: seq<Node>)
    | Li(children: seq<Node>)
    /** `<pre><code>` holding raw code text */
    | Pre(text: string)
    /** `<figure><img src alt/>` and an optional `<figcaption>` */
    | Figure(src: string, alt: string, caption: Option<string>)
    | Blockquote(children: seq<Node>)
    | Ul(items: seq<Node>)
    | Ol(items: seq<Node>)
    | Div(child: Node)

  // ---------------------------------------------------------------------
  // Inline rich-text composition (RichText)
  // ---------------------------------------------------------------------

  /** The inline style wrappers, listed innermost first. */
  datatype Style = Bold | Italic | Strikethrough | Underline | CodeStyle

  /** Nesting depth of a style: a wrapper of lower rank sits inside one of higher rank. */
  function Rank(s: Style): nat
  {
    match s
    case Bold => 0
    case Italic => 1
    case Strikethrough => 2
    case Underline => 3
    case CodeStyle => 4
  }

  predicate HasFlag(a: Annotations, s: Style)
  {
    match s
    case Bold => a.bold
    case Italic => a.italic
    case Strikethrough => a.strikethrough
    case Underline => a.underline
    case CodeStyle => a.code
  }

  /** The style `s` if its flag is set, else nothing. */
  function Flag(on: bool, s: Style): seq<Style>
  {
    if on then [s] else []
  }

  /** The styles a span asks for, innermost first: one per set flag. */
  function Styles(a: Annotations): seq<Style>
  {
    Flag(a.bold, Bold) + Flag(a.italic, Italic) + Flag(a.strikethrough, Strikethrough)
    + Flag(a.underline, Underline) + Flag(a.code, CodeStyle)
  }

  /** Styles strictly ordered by rank, innermost first. */
  predicate RankSorted(ss: seq<Style>)
  {
    forall i, j :: 0 <= i < j < |ss| ==> Rank(ss[i]) < Rank(ss[j])
  }

  /** Every style of `ss` ranks below `r`. */
  predicate RanksBelow(ss: seq<Style>, r: nat)
  {
    forall i :: 0 <= i < |ss| ==> Rank(ss[i]) < r
  }

  /** Appending a style, if set, to sorted styles that all rank below it
      keeps them sorted. */
  lemma SortedSnoc(ss: seq<Style>, on: bool, s: Style)
    requires RankSorted(ss) && RanksBelow(ss, Rank(s))
    ensures RankSorted(ss + Flag(on, s)) && RanksBelow(ss + Flag(on, s), Rank(s) + 1)
  {
    var all := ss + Flag(on, s);
    forall i | 0 <= i < |all|
      ensures all[i] == if i < |ss| then ss[i] else s
    {
    }
  }

  lemma StylesSorted(a: Annotations)
    ensures RankSorted(Styles(a))
  {
    var s1 := Flag(a.bold, Bold);
    assert RankSorted(s1) && RanksBelow(s1, 1);
    SortedSnoc(s1, a.italic, Italic);
    var s2 := s1 + Flag(a.italic, Italic);
    SortedSnoc(s2, a.strikethrough, Strikethrough);
    var s3 := s2 + Flag(a.strikethrough, Strikethrough);
    SortedSnoc(s3, a.underline, Underline);
    var s4 := s3 + Flag(a.underline, Underline);
    SortedSnoc(s4, a.code, CodeStyle);
  }

  lemma StylesMembers(a: Annotations)
    ensures forall s :: s in Styles(a) <==> HasFlag(a, s)
  {
  }

  function Wrap(n: Node, s: Style): Node
  {
    match s
    case Bold => Strong(n)
    case Italic => Em(n)
    case Strikethrough => Del(n)
    case Underline => U(n)
    case CodeStyle => InlineCode(n)
  }

  /** Wraps `n` in each style of `ss`, the first style innermost. */
  function WrapAll(n: Node, ss: seq<Style>): Node
    decreases |ss|
  {
    if ss == [] then n else WrapAll(Wrap(n, ss[0]), ss[1..])
  }

  /** A link target counts only when it is a non-empty string (JavaScript truthiness). */
  predicate HasLink(t: RichTextItem)
  {
    t.href.Some? && t.href.value != ""
  }

  /** What `RichText` renders for one span. */
  function RenderRichText(t: RichTextItem): Node
  {
    if HasLink(t) then Link(t.href.value, t.plainText)
    else WrapAll(Text(t.plainText), Styles(t.annotations))
  }

  /** `RichText` as the source writes it: the rendered content is rebound
      once per set flag, bold first and code last; a link returns early. */
  method RichText(t: RichTextItem) returns (content: Node)
    ensures content == RenderRichText(t)
  {
    content := Text(t.plainText);
    if t.href.Some? && t.href.value != "" {
      content := Link(t.href.value, t.plainText);
      return;
    }
    if t.annotations.bold {
      content := Strong(content);
    }
    if t.annotations.italic {
      content := Em(content);
    }
    if t.annotations.strikethrough {
      content := Del(content);
    }
    if t.annotations.underline {
      content := U(content);
    }
    if t.annotations.code {
      content := InlineCode(content);
    }
    StylesInOrder(Text(t.plainText), t.annotations);
  }

  /** `n` wrapped in the style `s` when `on` is set. */
  function Apply(n: Node, on: bool, s: Style): Node
  {
    if on then Wrap(n, s) else n
  }

  /** Applying a flag's style, if set, wraps the content once more. */
  lemma WrapFlag(n: Node, ss: seq<Style>, on: bool, s: Style)
    ensures WrapAll(n, ss + Flag(on, s)) == Apply(WrapAll(n, ss), on, s)
  {
    if on {
      WrapAllSnoc(n, ss, s);
    } else {
      assert ss + Flag(on, s) == ss;
    }
  }

  /** Wrapping in the styles a span asks for is applying its five flags one
      after the other, bold first and code last. */
  lemma StylesInOrder(n: Node, a: Annotations)
    ensures WrapAll(n, Styles(a)) ==
      Apply(Apply(Apply(Apply(Apply(n, a.bold, Bold), a.italic, Italic), a.strikethrough, Strikethrough),
                  a.underline, Underline), a.code, CodeStyle)
  {
    var s1 := Flag(a.bold, Bold);
    var s2 := s1 + Flag(a.italic, Italic);
    var s3 := s2 + Flag(a.strikethrough, Strikethrough);
    var s4 := s3 + Flag(a.underline, Underline);
    WrapFlag(n, [], a.bold, Bold);
    assert [] + s1 == s1;
    WrapFlag(n, s1, a.italic, Italic);
    WrapFlag(n, s2, a.strikethrough, Strikethrough);
    WrapFlag(n, s3, a.underline, Underline);
    WrapFlag(n, s4, a.code, CodeStyle);
  }

  lemma {:induction false} WrapAllSnoc(n: Node, ss: seq<Style>, s: Style)
    ensures WrapAll(n, ss + [s]) == Wrap(WrapAll(n, ss), s)
    decreases |ss|
  {
    if ss == [] {
      assert [] + [s] == [s];
    } else {
      assert (ss + [s])[1..] == ss[1..] + [s];
      WrapAllSnoc(Wrap(n, ss[0]), ss[1..], s);
    }
  }

  /** The style wrappers around a node, read from the inside out. */
  function Layers(n: Node): seq<Style>
  {
    match n
    case Strong(i) => Layers(i) + [Bold]
    case Em(i) => Layers(i) + [Italic]
    case Del(i) => Layers(i) + [Strikethrough]
    case U(i) => Layers(i) + [Underline]
    case InlineCode(i) => Layers(i) + [CodeStyle]
    case _ => []
  }

  /** The node inside all style wrappers. */
  function Core(n: Node): Node
  {
    match n
    case Strong(i) => Core(i)
    case Em(i) => Core(i)
    case Del(i) => Core(i)
    case U(i) => Core(i)
    case InlineCode(i) => Core(i)
    case _ => n
  }

  /** The text a reader sees in an inline node. */
  function InlineText(n: Node): string
  {
    match n
    case Text(s) => s
    case Link(_, s) => s
    case Strong(i) => InlineText(i)
    case Em(i) => InlineText(i)
    case Del(i) => InlineText(i)
    case U(i) => InlineText(i)
    case InlineCode(i) => InlineText(i)
    case _ => ""
  }

  lemma {:induction false} WrapAllShape(s: string, ss: seq<Style>)
    ensures Layers(WrapAll(Text(s), ss)) == ss
    ensures Core(WrapAll(Text(s), ss)) == Text(s)
    ensures InlineText(WrapAll(Text(s), ss)) == s
    decreases |ss|
  {
    if ss != [] {
      var init, last := ss[..|ss| - 1], ss[|ss| - 1];
      assert ss == init + [last];
      WrapAllSnoc(Text(s), init, last);
      WrapAllShape(s, init);
    }
  }

  /** A span with a link renders as a link around its plain text, whatever
      its flags say. */
  lemma LinkIgnoresAnnotations(t: RichTextItem, a: Annotations)
    requires HasLink(t)
    ensures RenderRichText(t) == Link(t.href.value, t.plainText)
    ensures RenderRichText(t.(annotations := a)) == RenderRichText(t.(annotations := NoAnnotations))
  {
  }

  /** Without a link, the wrappers are exactly the set flags, bold innermost,
      then italic, strikethrough, underline, and code outermost, around the
      bare plain text. */
  lemma StyleNesting(t: RichTextItem)
    requires !HasLink(t)
    ensures Core(RenderRichText(t)) == Text(t.plainText)
    ensures forall s :: s in Layers(RenderRichText(t)) <==> HasFlag(t.annotations, s)
    ensures forall i, j :: 0 <= i < j < |Layers(RenderRichText(t))| ==>
              Rank(Layers(RenderRichText(t))[i]) < Rank(Layers(RenderRichText(t))[j])
  {
    WrapAllShape(t.plainText, Styles(t.annotations));
    StylesMembers(t.annotations);
    StylesSorted(t.annotations);
  }

  /** A span without link and flags is its bare text. */
  lemma PlainSpanIsBareText(t: RichTextItem)
    requires !HasLink(t) && t.annotations == NoAnnotations
    ensures RenderRichText(t) == Text(t.plainText)
  {
  }

  /** Rendering never changes the words of a span. */
  lemma RichTextKeepsText(t: RichTextItem)
    ensures InlineText(RenderRichText(t)) == t.plainText
  {
    if !HasLink(t) {
      WrapAllShape(t.plainText, Styles(t.annotations));
    }
  }

  function RenderSpans(rt: seq<RichTextItem>): (r: seq<Node>)
    ensures |r| == |rt|
  {
    seq(|rt|, i requires 0 <= i < |rt| => RenderRichText(rt[i]))
  }

  // ---------------------------------------------------------------------
  // Plain text and the language heuristic (detectLanguage)
  // ---------------------------------------------------------------------

  /** The plain texts of the spans joined with no separator. */
  function PlainText(rt: seq<RichTextItem>): string
  {
    if rt == [] then "" else rt[0].plainText + PlainText(rt[1..])
  }

  lemma {:induction false} PlainTextAppend(a: seq<RichTextItem>, b: seq<RichTextItem>)
    ensures PlainText(a + b) == PlainText(a) + PlainText(b)
    decreases |a|
  {
    if a != [] {
      assert (a + b)[0] == a[0];
      assert (a + b)[1..] == a[1..] + b;
      PlainTextAppend(a[1..], b);
      calc {
        PlainText(a + b);
        (a + b)[0].plainText + PlainText((a + b)[1..]);
        a[0].plainText + (PlainText(a[1..]) + PlainText(b));
        (a[0].plainText + PlainText(a[1..])) + PlainText(b);
      }
    } else {
      assert a + b == b;
    }
  }

  /** The code point belongs to CJK punctuation (U+3000-U+303F), Hiragana
      (U+3040-U+309F), Katakana (U+30A0-U+30FF) or the CJK ideographs
      U+4E00-U+9FAF. */
  predicate IsJapaneseChar(c: char)
  {
    || (0x3000 <= c as int <= 0x303F)
    || (0x3040 <= c as int <= 0x309F)
    || (0x30A0 <= c as int <= 0x30FF)
    || (0x4E00 <= c as int <= 0x9FAF)
  }

  /** Some code point of `s` is Japanese. */
  predicate HasJapanese(s: string)
  {
    exists i :: 0 <= i < |s| && IsJapaneseChar(s[i])
  }

  /** The regular-expression test of `detectLanguage`, as a scan of the text. */
  function ContainsJapanese(s: string): (b: bool)
    ensures b <==> HasJapanese(s)
  {
    if s == [] then false
    else if IsJapaneseChar(s[0]) then true
    else
      var rest := ContainsJapanese(s[1..]);
      assert forall i :: 1 <= i < |s| ==> s[i] == s[1..][i - 1];
      rest
  }

  /** `"ja"` when the joined text has a Japanese code point, otherwise `"en"`. */
  function DetectLanguage(rt: seq<RichTextItem>): (lang: string)
    ensures lang == "ja" || lang == "en"
    ensures lang == "ja" <==> HasJapanese(PlainText(rt))
  {
    if ContainsJapanese(PlainText(rt)) then "ja" else assert "en"[0] != "ja"[0]; "en"
  }

  /** Text made only of ASCII characters is classified as English. */
  lemma AsciiIsEnglish(rt: seq<RichTextItem>)
    requires forall i :: 0 <= i < |PlainText(rt)| ==> PlainText(rt)[i] as int < 128
    ensures DetectLanguage(rt) == "en"
  {
  }

  /** One Japanese code point anywhere makes the text Japanese, whatever surrounds it. */
  lemma {:induction false} DetectLanguageSplit(a: seq<RichTextItem>, b: seq<RichTextItem>)
    ensures DetectLanguage(a + b) == "ja" <==> DetectLanguage(a) == "ja" || DetectLanguage(b) == "ja"
  {
    PlainTextAppend(a, b);
    var s, x, y := PlainText(a + b), PlainText(a), PlainText(b);
    assert forall i :: 0 <= i < |x| ==> s[i] == x[i];
    assert forall i :: 0 <= i < |y| ==> s[|x| + i] == y[i];
    if DetectLanguage(a + b) == "ja" {
      var i :| 0 <= i < |s| && IsJapaneseChar(s[i]);
      if i >= |x| {
        assert IsJapaneseChar(y[i - |x|]);
      }
    }
  }

  // ---------------------------------------------------------------------
  // Per-type dispatch (renderBlock)
  // ---------------------------------------------------------------------

  /** The URL of an image: the external one or the uploaded file's. */
  function ImageUrl(f: ImageFile): string
  {
    match f
    case External(url) => url
    case File(url) => url
  }

  /** What `renderBlock` returns for one block: `None` stands for `null`. */
  function RenderBlock(b: Block): (r: Option<Node>)
    ensures r.None? <==> b.Unsupported?
    ensures b.ListKindOf().Some? ==> r.Some? && r.value.Li? && |r.value.children| == |b.richText|
    ensures r.Some? && r.value.H1? <==> b.Heading1?
    ensures r.Some? && r.value.H2? <==> b.Heading2?
    ensures r.Some? && r.value.H3? <==> b.Heading3?
    ensures r.Some? && r.value.Li? <==> b.ListKindOf().Some?
    ensures r.Some? && r.value.Pre? <==> b.Code?
    ensures r.Some? && r.value.Figure? <==> b.Image?
    ensures r.Some? && r.value.Blockquote? <==> b.Quote?
    ensures b.Image? ==> r.Some? && r.value.Figure? && r.value.src == ImageUrl(b.image)
    ensures b.Image? ==> (r.value.caption.Some? <==> b.caption.Some? && |b.caption.value| > 0)
    ensures b.Image? && r.value.caption.Some? ==> r.value.caption.value == PlainText(b.caption.value)
    ensures b.Image? ==> r.value.alt == if b.caption.Some? then PlainText(b.caption.value) else ""
  {
    match b
    case Paragraph(rt) => Some(P(DetectLanguage(rt), RenderSpans(rt)))
    case Heading1(rt) => Some(H1(RenderSpans(rt)))
    case Heading2(rt) => Some(H2(RenderSpans(rt)))
    case Heading3(rt) => Some(H3(RenderSpans(rt)))
    case BulletedListItem(rt) => Some(Li(RenderSpans(rt)))
    case NumberedListItem(rt) => Some(Li(RenderSpans(rt)))
    case Code(rt) => Some(Pre(PlainText(rt)))
    case Image(f, caption) =>
      var alt := if caption.Some? then PlainText(caption.value) else "";
      var figcaption := if caption.Some? && |caption.value| > 0 then Some(PlainText(caption.value)) else None;
      Some(Figure(ImageUrl(f), alt, figcaption))
    case Quote(rt) => Some(Blockquote(RenderSpans(rt)))
    case Unsupported(_) => None
  }

  /** A code block shows the joined plain text verbatim: links and flags of
      its spans make no difference. */
  lemma CodeIgnoresStyling(rt1: seq<RichTextItem>, rt2: seq<RichTextItem>)
    requires |rt1| == |rt2|
    requires forall i :: 0 <= i < |rt1| ==> rt1[i].plainText == rt2[i].plainText
    ensures RenderBlock(Code(rt1)) == RenderBlock(Code(rt2)) == Some(Pre(PlainText(rt1)))
  {
    PlainTextPointwise(rt1, rt2);
  }

  lemma {:induction false} PlainTextPointwise(rt1: seq<RichTextItem>, rt2: seq<RichTextItem>)
    requires |rt1| == |rt2|
    requires forall i :: 0 <= i < |rt1| ==> rt1[i].plainText == rt2[i].plainText
    ensures PlainText(rt1) == PlainText(rt2)
    decreases |rt1|
  {
    if rt1 != [] {
      PlainTextPointwise(rt1[1..], rt2[1..]);
    }
  }

  /** The paragraph is the only block type tagged with a language, and the
      tag is computed from the paragraph's own text. */
  lemma ParagraphLanguage(b: Block)
    ensures RenderBlock(b).Some? && RenderBlock(b).value.P? <==> b.Paragraph?
    ensures b.Paragraph? ==> RenderBlock(b).value.lang == DetectLanguage(b.richText)
  {
  }

  /** Text-bearing blocks render one inline node per span, each the span's
      `RichText` rendering; a block without spans renders with no children. */
  lemma TextBlockChildren(b: Block)
    requires b.Paragraph? || b.Heading1? || b.Heading2? || b.Heading3? || b.Quote?
          || b.BulletedListItem? || b.NumberedListItem?
    ensures |RenderBlock(b).value.children| == |b.richText|
    ensures forall i :: 0 <= i < |b.richText| ==> RenderBlock(b).value.children[i] == RenderRichText(b.richText[i])
  {
  }

  /** An image's `src` is the URL of whichever source variant it has: the
      external URL or the uploaded file's URL. */
  lemma ImageSource(f: ImageFile, caption: Option<seq<RichTextItem>>)
    ensures f.External? ==> RenderBlock(Image(f, caption)).value.src == f.externalUrl
    ensures f.File? ==> RenderBlock(Image(f, caption)).value.src == f.fileUrl
  {
  }
}
