/**
 * Synthesis of sample block markup (class SampleContent): the sample
 * blocks for a block name, their serialisation as block-comment markup and
 * the merge of the `is-style-{variation}` class.
 */
module SampleContent {
  import opened Php
  import opened Wp
  import DynamicContext

  // ---------------------------------------------------------------- data

  /** A scalar attribute value as the samples use them. */
  datatype Value = Str(s: string) | Int(i: int) | Bool(b: bool)

  /** The keys of an attribute array. */
  function Keys(a: seq<(string, Value)>): set<string> {
    if a == [] then {} else {a[0].0} + Keys(a[1..])
  }

  predicate DistinctKeys(a: seq<(string, Value)>) {
    a == [] || (a[0].0 !in Keys(a[1..]) && DistinctKeys(a[1..]))
  }

  /** A PHP associative array of block attributes, in insertion order. */
  type Attrs = a: seq<(string, Value)> | DistinctKeys(a) witness []

  /** One sample block: its optional `attrs` and optional `content`. */
  datatype Block = Block(attrs: Option<Attrs>, content: Option<string>)

  /** The hooks sample synthesis calls: the `wp_vrt_block_content` filter
      (None when it leaves the non-array default), the
      `wp_vrt_block_attributes` filter applied to `[]`, and `wp_json_encode`. */
  datatype ContentHooks = ContentHooks(
    blockContent: (string, Option<string>) -> Option<seq<Block>>,
    blockAttributes: (string, Option<string>) -> Attrs,
    jsonEncode: Attrs -> string)

  // ------------------------------------------------------ attribute arrays

  /** `$attrs[$key] ?? null` */
  function LookupAttr(a: seq<(string, Value)>, key: string): (r: Option<Value>)
    ensures r.Some? <==> key in Keys(a)
  {
    if a == [] then None
    else if a[0].0 == key then Some(a[0].1)
    else LookupAttr(a[1..], key)
  }

  /** `$attrs[$key] = $v`: overwrites in place, or appends a new key. */
  function SetAttr(a: Attrs, key: string, v: Value): (r: Attrs)
    ensures LookupAttr(r, key) == Some(v)
    ensures forall k :: k != key ==> LookupAttr(r, k) == LookupAttr(a, k)
    ensures Keys(r) == Keys(a) + {key}
    ensures key in Keys(a) ==> |r| == |a|
    ensures key !in Keys(a) ==> r == a + [(key, v)]
  {
    if a == [] then
      assert [(key, v)][1..] == [];
      [(key, v)]
    else if a[0].0 == key then
      assert ([(key, v)] + a[1..])[1..] == a[1..];
      [(key, v)] + a[1..]
    else
      var rest := SetAttr(a[1..], key, v);
      assert ([a[0]] + rest)[1..] == rest;
      assert a[0].0 !in Keys(rest);
      [a[0]] + rest
  }

  /** `(string) ($attrs['className'] ?? '')` as `merge_class_name` receives it. */
  function ClassNameOf(a: Attrs): string {
    match LookupAttr(a, "className")
    case None => ""
    case Some(Str(s)) => s
    case Some(Int(i)) => IntToString(i)
    case Some(Bool(b)) => if b then "1" else ""
  }

  // -------------------------------------------------------- class merging

  /** `merge_class_name`: the trimmed existing classes, with `add` appended
      unless it already occurs in them as a substring. */
  function MergeClassName(existing: string, add: string): (r: string)
    ensures Trim(existing, Whitespace) == "" ==> r == add
    ensures Trim(existing, Whitespace) != "" && Contains(Trim(existing, Whitespace), add) ==>
      r == Trim(existing, Whitespace)
    ensures Trim(existing, Whitespace) != "" && !Contains(Trim(existing, Whitespace), add) ==>
      r == Trim(existing, Whitespace) + " " + add
    ensures Contains(r, add)
    ensures Contains(r, Trim(existing, Whitespace))
    ensures |r| <= |Trim(existing, Whitespace)| + 1 + |add|
  {
    var e := Trim(existing, Whitespace);
    if e == "" then
      ContainsItself(add);
      assert OccursAt(add, e, 0);
      add
    else if Contains(e, add) then
      ContainsItself(e);
      e
    else
      ContainsSuffix(e + " ", add);
      assert e + " " + add == e + " " + add + "";
      ContainsInfix("", e, " " + add);
      assert "" + e + (" " + add) == e + " " + add;
      e + " " + add
  }

  /** Merging the same class twice changes nothing more, provided the
      class carries no whitespace at either end. */
  lemma MergeClassNameIdempotent(existing: string, add: string)
    requires Trim(add, Whitespace) == add
    ensures MergeClassName(MergeClassName(existing, add), add) == MergeClassName(existing, add)
  {
    var e := Trim(existing, Whitespace);
    if e == "" {
      assert MergeClassName(existing, add) == add;
      if add != "" {
        ContainsItself(add);
      }
    } else if Contains(e, add) {
      assert MergeClassName(existing, add) == e;
      TrimIdempotent(existing, Whitespace);
    } else {
      var m := e + " " + add;
      assert MergeClassName(existing, add) == m;
      assert add != "" by {
        assert OccursAt(e, "", 0);
      }
      TrimEnds(existing, Whitespace);
      TrimEnds(add, Whitespace);
      assert m[0] == e[0];
      assert m[|m| - 1] == add[|add| - 1];
      TrimNoop(m, Whitespace);
      ContainsSuffix(e + " ", add);
    }
  }

  /** A class with trailing whitespace is not merged idempotently. */
  lemma MergeClassNameTrailingSpace()
    ensures MergeClassName("", "x ") == "x "
    ensures MergeClassName(MergeClassName("", "x "), "x ") == "x x "
  {
    assert MergeClassName("", "x ") == "x ";
    assert "x "[0] == 'x' && 'x' !in Whitespace;
    assert TrimLeft("x ", Whitespace) == "x ";
    assert TrimRight("x", Whitespace) == "x";
    assert TrimRight("x ", Whitespace) == "x";
    assert Trim("x ", Whitespace) == "x";
    assert !Contains("x", "x ");
  }

  /** The style class for a variation. */
  function StyleClass(variation: string): string {
    "is-style-" + variation
  }

  /** The attributes a block is serialised with: `attrs ?? []`, plus the
      merged style class when the variation is truthy. */
  function PreparedAttrs(b: Block, variation: Option<string>): Attrs {
    var attrs := Coalesce(b.attrs, []);
    if TruthyOpt(variation) then
      SetAttr(attrs, "className", Str(MergeClassName(ClassNameOf(attrs), StyleClass(variation.value))))
    else attrs
  }

  /** With a truthy variation every block gets a `className` holding the
      style class, while every other attribute is left as it was. */
  lemma PreparedAttrsStyleClass(b: Block, variation: Option<string>)
    requires TruthyOpt(variation)
    ensures var a := PreparedAttrs(b, variation);
      && a != []
      && LookupAttr(a, "className").Some? && LookupAttr(a, "className").value.Str?
      && Contains(LookupAttr(a, "className").value.s, StyleClass(variation.value))
      && forall k :: k != "className" ==> LookupAttr(a, k) == LookupAttr(Coalesce(b.attrs, []), k)
  {
  }

  /** Without a truthy variation the attributes are passed through. */
  lemma PreparedAttrsNoVariation(b: Block, variation: Option<string>)
    requires !TruthyOpt(variation)
    ensures PreparedAttrs(b, variation) == (if b.attrs.Some? then b.attrs.value else [])
  {
  }

  // --------------------------------------------------------- serialisation

  /** The ` {json}` part of the opening comment: present only when the
      JSON text is truthy, and never computed for empty attributes. */
  function JsonSegment(hooks: ContentHooks, attrs: Attrs): string {
    var json := if attrs == [] then "" else hooks.jsonEncode(attrs);
    if Truthy(json) then " " + json else ""
  }

  /** The JSON segment is omitted exactly when the attributes are empty,
      for an encoder that never yields a falsy text. */
  lemma JsonSegmentOmittedIff(hooks: ContentHooks, attrs: Attrs)
    requires forall a: Attrs :: a != [] ==> Truthy(hooks.jsonEncode(a))
    ensures JsonSegment(hooks, attrs) == "" <==> attrs == []
  {
  }

  /** The markup of one block. */
  function BlockMarkup(hooks: ContentHooks, name: string, variation: Option<string>, b: Block): string {
    "<!-- wp:" + name + JsonSegment(hooks, PreparedAttrs(b, variation)) + " -->\n"
      + Coalesce(b.content, "") + "\n"
      + "<!-- /wp:" + name + " -->\n\n"
  }

  /** The markup of each block, in order. */
  function BlockMarkups(hooks: ContentHooks, name: string, variation: Option<string>, blocks: seq<Block>): (r: seq<string>)
    ensures |r| == |blocks|
  {
    seq(|blocks|, i requires 0 <= i < |blocks| => BlockMarkup(hooks, name, variation, blocks[i]))
  }

  /** The markup of a list of blocks, block after block. */
  function Markup(hooks: ContentHooks, name: string, variation: Option<string>, blocks: seq<Block>): string {
    Concat(BlockMarkups(hooks, name, variation, blocks))
  }

  /** Serialisation is the in-order concatenation of the blocks' markup. */
  lemma MarkupAppend(hooks: ContentHooks, name: string, variation: Option<string>, xs: seq<Block>, ys: seq<Block>)
    ensures Markup(hooks, name, variation, xs + ys) == Markup(hooks, name, variation, xs) + Markup(hooks, name, variation, ys)
  {
    assert BlockMarkups(hooks, name, variation, xs + ys)
        == BlockMarkups(hooks, name, variation, xs) + BlockMarkups(hooks, name, variation, ys);
    ConcatAppend(BlockMarkups(hooks, name, variation, xs), BlockMarkups(hooks, name, variation, ys));
  }

  lemma MarkupSnoc(hooks: ContentHooks, name: string, variation: Option<string>, xs: seq<Block>, b: Block)
    ensures Markup(hooks, name, variation, xs + [b]) == Markup(hooks, name, variation, xs) + BlockMarkup(hooks, name, variation, b)
  {
    assert BlockMarkups(hooks, name, variation, xs + [b])
        == BlockMarkups(hooks, name, variation, xs) + [BlockMarkup(hooks, name, variation, b)];
    ConcatSnoc(BlockMarkups(hooks, name, variation, xs), BlockMarkup(hooks, name, variation, b));
  }

  lemma MarkupPrefixStep(hooks: ContentHooks, name: string, variation: Option<string>, blocks: seq<Block>, i: nat)
    requires i < |blocks|
    ensures Markup(hooks, name, variation, blocks[..i + 1])
         == Markup(hooks, name, variation, blocks[..i]) + BlockMarkup(hooks, name, variation, blocks[i])
  {
    assert blocks[..i + 1] == blocks[..i] + [blocks[i]];
    MarkupSnoc(hooks, name, variation, blocks[..i], blocks[i]);
  }

  /** Every block contributes its opening comment, content and closing comment. */
  lemma MarkupSingle(hooks: ContentHooks, name: string, variation: Option<string>, b: Block)
    ensures StartsWith(Markup(hooks, name, variation, [b]), "<!-- wp:" + name)
    ensures EndsWith(Markup(hooks, name, variation, [b]), "<!-- /wp:" + name + " -->\n\n")
  {
    var m := Markup(hooks, name, variation, [b]);
    MarkupSnoc(hooks, name, variation, [], b);
    assert [] + [b] == [b];
    assert m == BlockMarkup(hooks, name, variation, b);
    var prefix := "<!-- wp:" + name;
    assert m == prefix + m[|prefix|..];
    StartsWithConcat(prefix, m[|prefix|..]);
    var suffix := "<!-- /wp:" + name + " -->\n\n";
    assert m == m[..|m| - |suffix|] + suffix;
    EndsWithConcat(m[..|m| - |suffix|], suffix);
  }

  /** Markup is empty exactly when there are no blocks. */
  lemma MarkupEmptyIff(hooks: ContentHooks, name: string, variation: Option<string>, blocks: seq<Block>)
    ensures Markup(hooks, name, variation, blocks) == "" <==> blocks == []
  {
    var ms := BlockMarkups(hooks, name, variation, blocks);
    ConcatEmptyIff(ms);
    if blocks != [] {
      assert ms[0] != "";
    }
  }

  // ----------------------------------------------------- sample sources

  /** One `core/heading` sample. */
  function HeadingBlock(level: nat): Block {
    var n := NatToString(level);
    assert "level" != "content";
    Block(A([("level", Int(level)), ("content", Str("Heading Level " + n))]),
          Some("<h" + n + ">Heading Level " + n + "</h" + n + ">"))
  }

  /** The six `core/heading` samples, built by the `for` loop over levels. */
  method HeadingBlocks() returns (headings: seq<Block>)
    ensures |headings| == 6
    ensures forall i :: 0 <= i < 6 ==> headings[i] == HeadingBlock(i + 1)
  {
    headings := [];
    var level := 1;
    while level <= 6
      invariant 1 <= level <= 7
      invariant |headings| == level - 1
      invariant forall i :: 0 <= i < |headings| ==> headings[i] == HeadingBlock(i + 1)
    {
      headings := headings + [HeadingBlock(level)];
      level := level + 1;
    }
  }

  /** The heading samples as a value, for the specification functions. */
  function HeadingSamples(): seq<Block> {
    [HeadingBlock(1), HeadingBlock(2), HeadingBlock(3), HeadingBlock(4), HeadingBlock(5), HeadingBlock(6)]
  }

  /** Attribute arrays written as literals. */
  function A(pairs: seq<(string, Value)>): Option<Attrs>
    requires DistinctKeys(pairs)
  {
    Some(pairs)
  }

  /** The literal samples of the `switch`, `core/heading` excepted. */
  function BuiltInSample(name: string): (r: Option<seq<Block>>)
    ensures r.Some? ==> |r.value| >= 1
  {
    match name
    case "core/paragraph" => Some(ParagraphSamples())
    case "core/list" => Some(ListSamples())
    case "core/quote" => Some(QuoteSamples())
    case "core/pullquote" => Some(PullquoteSamples())
    case "core/button" => Some(ButtonSamples())
    case "core/buttons" => Some(ButtonsSamples())
    case "core/separator" => Some(SeparatorSamples())
    case "core/spacer" => Some(SpacerSamples())
    case "core/group" => Some(GroupSamples())
    case "core/columns" => Some(ColumnsSamples())
    case "core/column" => Some(ColumnSamples())
    case "core/row" => Some(RowSamples())
    case "core/stack" => Some(StackSamples())
    case "core/image" => Some(ImageSamples())
    case "core/gallery" => Some(GallerySamples())
    case "core/cover" => Some(CoverSamples())
    case "core/audio" => Some(AudioSamples())
    case "core/video" => Some(VideoSamples())
    case _ => None
  }

  // The longer texts of the samples, named so that they stay out of
  // the proofs that only need the shape of the sample lists.
  const CenteredParagraphHtml := "<p class=\"has-text-align-center\">This is a centered paragraph.</p>"
  const UnorderedListHtml := "<ul><li>First unordered list item</li><li>Second item with more text</li><li>Third item</li></ul>"
  const OrderedListHtml := "<ol><li>First ordered list item</li><li>Second item</li><li>Third item</li></ol>"
  const QuoteValue := "This is a sample quote demonstrating the blockquote styling."
  const QuoteHtml := "<blockquote class=\"wp-block-quote\"><p>This is a sample quote demonstrating the blockquote styling.</p><cite>Citation Source</cite></blockquote>"
  const PullquoteValue := "This is a pull quote example to test styling."
  const PullquoteHtml := "<figure class=\"wp-block-pullquote\"><blockquote><p>This is a pull quote example to test styling.</p><cite>Citation Source</cite></blockquote></figure>"
  const ButtonHtml := "<div class=\"wp-block-button\"><a class=\"wp-block-button__link wp-element-button\" href=\"#\">Default Button</a></div>"
  const ButtonsHtml := "<div class=\"wp-block-buttons\"><div class=\"wp-block-button\"><a class=\"wp-block-button__link wp-element-button\" href=\"#\">Primary</a></div><div class=\"wp-block-button is-style-outline\"><a class=\"wp-block-button__link wp-element-button\" href=\"#\">Outline</a></div></div>"
  const SpacerHtml := "<div style=\"height:48px\" aria-hidden=\"true\" class=\"wp-block-spacer\"></div>"
  const GroupHtml := "<div class=\"wp-block-group\"><p>Group block with inner content.</p></div>"
  const ColumnOneHtml := "<div class=\"wp-block-column\"><p>Column one content.</p></div>"
  const ColumnTwoHtml := "<div class=\"wp-block-column\"><p>Column two content.</p></div>"
  const ColumnHtml := "<div class=\"wp-block-column\"><p>Standalone column content.</p></div>"
  const RowItemOneHtml := "<div class=\"wp-block-group\"><p>Row item one.</p></div>"
  const RowItemTwoHtml := "<div class=\"wp-block-group\"><p>Row item two.</p></div>"
  const StackItemOneHtml := "<div class=\"wp-block-group\"><p>Stack item one.</p></div>"
  const StackItemTwoHtml := "<div class=\"wp-block-group\"><p>Stack item two.</p></div>"
  const ImageUrl := "https://via.placeholder.com/800x600/cccccc/666666?text=Sample+Image"
  const ImageHtml := "<figure class=\"wp-block-image\"><img src=\"https://via.placeholder.com/800x600/cccccc/666666?text=Sample+Image\" alt=\"Sample image for visual testing\" /><figcaption>This is a sample image caption</figcaption></figure>"
  const GalleryHtml := "<figure class=\"wp-block-gallery\"><figure class=\"wp-block-image\"><img src=\"https://via.placeholder.com/400x300/3498db/ffffff?text=Image+1\" alt=\"Gallery image 1\" /></figure><figure class=\"wp-block-image\"><img src=\"https://via.placeholder.com/400x300/e74c3c/ffffff?text=Image+2\" alt=\"Gallery image 2\" /></figure><figure class=\"wp-block-image\"><img src=\"https://via.placeholder.com/400x300/2ecc71/ffffff?text=Image+3\" alt=\"Gallery image 3\" /></figure></figure>"
  const CoverUrl := "https://via.placeholder.com/1200x600/34495e/ffffff?text=Cover+Background"
  const CoverHtml := "<div class=\"wp-block-cover\"><span aria-hidden=\"true\" class=\"wp-block-cover__background has-background-dim\"></span><img class=\"wp-block-cover__image-background\" alt=\"\" src=\"https://via.placeholder.com/1200x600/34495e/ffffff?text=Cover+Background\" data-object-fit=\"cover\"/><div class=\"wp-block-cover__inner-container\"><h2>Cover Block Title</h2><p>Sample content inside cover block.</p></div></div>"
  const AudioHtml := "<figure class=\"wp-block-audio\"><audio controls src=\"https://via.placeholder.com/audio.mp3\"></audio></figure>"
  const VideoHtml := "<figure class=\"wp-block-video\"><video controls src=\"https://via.placeholder.com/video.mp4\"></video></figure>"

  const MediumParagraphText := "This is a medium-length paragraph that demonstrates text wrapping, line height, and overall typography styles applied by the theme. It should contain enough content to span multiple lines on most viewport sizes."

  function ParagraphSamples(): seq<Block> {
    [
      Block(A([("content", Str("This is a short paragraph."))]),
            Some("<p>This is a short paragraph.</p>")),
      Block(A([("content", Str(MediumParagraphText))]),
            Some("<p>" + MediumParagraphText + "</p>")),
      Block(A([("align", Str("center"))]),
            Some(CenteredParagraphHtml))]
  }

  function ListSamples(): seq<Block> {
    [
      Block(A([("ordered", Bool(false))]),
            Some(UnorderedListHtml)),
      Block(A([("ordered", Bool(true))]),
            Some(OrderedListHtml))]
  }

  function QuoteSamples(): seq<Block> {
    [
      Block(A([("value", Str(QuoteValue)), ("citation", Str("Citation Source"))]),
            Some(QuoteHtml))]
  }

  function PullquoteSamples(): seq<Block> {
    [
      Block(A([("value", Str(PullquoteValue)), ("citation", Str("Citation Source"))]),
            Some(PullquoteHtml))]
  }

  function ButtonSamples(): seq<Block> {
    [
      Block(A([("text", Str("Default Button"))]),
            Some(ButtonHtml))]
  }

  function ButtonsSamples(): seq<Block> {
    [
      Block(None,
            Some(ButtonsHtml))]
  }

  function SeparatorSamples(): seq<Block> {
    [
      Block(None, Some("<hr class=\"wp-block-separator\" />"))]
  }

  function SpacerSamples(): seq<Block> {
    [
      Block(A([("height", Str("48px"))]),
            Some(SpacerHtml))]
  }

  function GroupSamples(): seq<Block> {
    [
      Block(None, Some(GroupHtml))]
  }

  function ColumnsSamples(): seq<Block> {
    [
      Block(None,
            Some("<div class=\"wp-block-columns\">"
                 + ColumnOneHtml
                 + ColumnTwoHtml
                 + "</div>"))]
  }

  function ColumnSamples(): seq<Block> {
    [
      Block(None, Some(ColumnHtml))]
  }

  function RowSamples(): seq<Block> {
    [
      Block(None,
            Some("<div class=\"wp-block-row\">"
                 + RowItemOneHtml
                 + RowItemTwoHtml
                 + "</div>"))]
  }

  function StackSamples(): seq<Block> {
    [
      Block(None,
            Some("<div class=\"wp-block-stack\">"
                 + StackItemOneHtml
                 + StackItemTwoHtml
                 + "</div>"))]
  }

  function ImageSamples(): seq<Block> {
    [
      assert DistinctKeys([("caption", Str("This is a sample image caption"))]);
      assert DistinctKeys([("alt", Str("Sample image for visual testing")),
               ("caption", Str("This is a sample image caption"))]);
      Block(A([("url", Str(ImageUrl)),
               ("alt", Str("Sample image for visual testing")),
               ("caption", Str("This is a sample image caption"))]),
            Some(ImageHtml))]
  }

  function GallerySamples(): seq<Block> {
    [
      Block(None,
            Some(GalleryHtml))]
  }

  function CoverSamples(): seq<Block> {
    [
      Block(A([("url", Str(CoverUrl)), ("dimRatio", Int(50))]),
            Some(CoverHtml))]
  }

  function AudioSamples(): seq<Block> {
    [
      Block(A([("src", Str("https://via.placeholder.com/audio.mp3"))]),
            Some(AudioHtml))]
  }

  function VideoSamples(): seq<Block> {
    [
      Block(A([("src", Str("https://via.placeholder.com/video.mp4"))]),
            Some(VideoHtml))]
  }

  /** The single block an unknown, non-dynamic name falls back to. */
  const FallbackBlocks: seq<Block> := [Block(None, Some(""))]

  /** `get_block_content`: the override filter, then a dynamic block's
      attribute-only placeholder, then the built-in samples, then the
      fallback. Only an override can yield no block at all. */
  function BlockContent(env: BlockEnv, hooks: ContentHooks, name: string, variation: Option<string>): (r: seq<Block>)
    ensures r == [] <==> hooks.blockContent(name, variation) == Some([])
  {
    var custom := hooks.blockContent(name, variation);
    if custom.Some? then custom.value
    else if DynamicContext.IsDynamicBlock(env, name) then [Block(Some(hooks.blockAttributes(name, variation)), None)]
    else if name == "core/heading" then HeadingSamples()
    else if BuiltInSample(name).Some? then BuiltInSample(name).value
    else FallbackBlocks
  }

  /** The override filter is returned verbatim and wins over everything. */
  lemma OverrideWins(env: BlockEnv, hooks: ContentHooks, name: string, variation: Option<string>)
    requires hooks.blockContent(name, variation).Some?
    ensures BlockContent(env, hooks, name, variation) == hooks.blockContent(name, variation).value
  {
  }

  /** A dynamic block not overridden gets one block with the filtered
      attributes and no content, even if a built-in sample exists. */
  lemma DynamicPlaceholder(env: BlockEnv, hooks: ContentHooks, name: string, variation: Option<string>)
    requires hooks.blockContent(name, variation).None?
    requires DynamicContext.IsDynamicBlock(env, name)
    ensures BlockContent(env, hooks, name, variation) == [Block(Some(hooks.blockAttributes(name, variation)), None)]
  {
  }

  /** An unknown, non-dynamic, non-overridden name yields one empty block. */
  lemma UnknownBlockFallback(env: BlockEnv, hooks: ContentHooks, name: string, variation: Option<string>)
    requires hooks.blockContent(name, variation).None?
    requires !DynamicContext.IsDynamicBlock(env, name)
    requires name != "core/heading" && BuiltInSample(name).None?
    ensures BlockContent(env, hooks, name, variation) == [Block(None, Some(""))]
  {
  }

  /** `core/heading` yields six blocks, levels 1 to 6 ascending. */
  lemma HeadingSamplesLevels(env: BlockEnv, hooks: ContentHooks, variation: Option<string>)
    requires hooks.blockContent("core/heading", variation).None?
    requires !DynamicContext.IsDynamicBlock(env, "core/heading")
    ensures var r := BlockContent(env, hooks, "core/heading", variation);
      |r| == 6 &&
      forall i :: 0 <= i < 6 ==>
        var n := NatToString(i + 1);
        r[i].content == Some("<h" + n + ">Heading Level " + n + "</h" + n + ">") &&
        r[i].attrs.Some? && LookupAttr(r[i].attrs.value, "level") == Some(Int(i + 1))
  {
    var r := BlockContent(env, hooks, "core/heading", variation);
    assert r == HeadingSamples();
    forall i | 0 <= i < 6
      ensures var n := NatToString(i + 1);
        r[i].content == Some("<h" + n + ">Heading Level " + n + "</h" + n + ">") &&
        r[i].attrs.Some? && LookupAttr(r[i].attrs.value, "level") == Some(Int(i + 1))
    {
      assert r[i] == HeadingBlock(i + 1);
      HeadingBlockLevel(i + 1);
    }
  }

  lemma HeadingBlockLevel(level: nat)
    ensures HeadingBlock(level).attrs.Some?
    ensures LookupAttr(HeadingBlock(level).attrs.value, "level") == Some(Int(level))
  {
  }

  /** `get_block_content` */
  method GetBlockContent(env: BlockEnv, hooks: ContentHooks, name: string, variation: Option<string>)
    returns (blocks: seq<Block>)
    ensures blocks == BlockContent(env, hooks, name, variation)
  {
    var custom := hooks.blockContent(name, variation);
    if custom.Some? {
      return custom.value;
    }
    if DynamicContext.IsDynamicBlock(env, name) {
      return [Block(Some(hooks.blockAttributes(name, variation)), None)];
    }
    if name == "core/heading" {
      blocks := HeadingBlocks();
      assert blocks == HeadingSamples();
      return;
    }
    var sample := BuiltInSample(name);
    if sample.Some? {
      return sample.value;
    }
    return FallbackBlocks;
  }

  /** Appending one block's markup piece by piece appends its `BlockMarkup`. */
  lemma SerializeStep(before: string, name: string, segment: string, content: string)
    ensures before + "<!-- wp:" + name + segment + " -->\n" + content + "\n" + "<!-- /wp:" + name + " -->\n\n"
         == before + ("<!-- wp:" + name + segment + " -->\n" + content + "\n" + "<!-- /wp:" + name + " -->\n\n")
  {
  }

  /** The body of the `foreach` in `generate_block_markup`: appends one
      block's opening comment, content and closing comment to `markup`. */
  method AppendBlockMarkup(hooks: ContentHooks, name: string, variation: Option<string>, b: Block, markup: string)
    returns (result: string)
    ensures result == markup + BlockMarkup(hooks, name, variation, b)
  {
    var attrs: Attrs := if b.attrs.Some? then b.attrs.value else [];
    if TruthyOpt(variation) {
      attrs := SetAttr(attrs, "className", Str(MergeClassName(ClassNameOf(attrs), "is-style-" + variation.value)));
    }
    var attrsJson := if attrs == [] then "" else hooks.jsonEncode(attrs);
    var content := if b.content.Some? then b.content.value else "";
    result := markup + "<!-- wp:" + name;
    if Truthy(attrsJson) {
      result := result + " " + attrsJson;
    }
    assert attrs == PreparedAttrs(b, variation);
    assert result == markup + "<!-- wp:" + name + JsonSegment(hooks, attrs);
    result := result + " -->\n";
    result := result + content + "\n";
    result := result + "<!-- /wp:" + name + " -->\n\n";
    SerializeStep(markup, name, JsonSegment(hooks, attrs), content);
  }

  /** `generate_block_markup`: serialises the sample blocks one after the
      other; the result is empty exactly when an override yields no block. */
  method GenerateBlockMarkup(env: BlockEnv, hooks: ContentHooks, name: string, variation: Option<string>)
    returns (markup: string)
    ensures markup == Markup(hooks, name, variation, BlockContent(env, hooks, name, variation))
    ensures markup == "" <==> hooks.blockContent(name, variation) == Some([])
  {
    var blocks := GetBlockContent(env, hooks, name, variation);
    MarkupEmptyIff(hooks, name, variation, blocks);
    if blocks == [] {
      return "";
    }
    markup := "";
    var i := 0;
    while i < |blocks|
      invariant 0 <= i <= |blocks|
      invariant markup == Markup(hooks, name, variation, blocks[..i])
    {
      MarkupPrefixStep(hooks, name, variation, blocks, i);
      markup := AppendBlockMarkup(hooks, name, variation, blocks[i], markup);
      i := i + 1;
    }
    assert blocks[..i] == blocks;
  }
}
