/**
 * The HTML document a VRT page serves (class Renderer): a fixed skeleton,
 * meta tags naming the item, the style layers and the expanded content.
 * The document is a list of segments appended in order; a page is their
 * concatenation.
 */
module Renderer {
  import opened Php
  import StyleCollector

  /** What `render` reads from WordPress: the style host, `do_blocks`, the
      `wp_head` and `wp_footer` output, the blog's language and charset, the
      escaping functions and the `wp_vrt_html_output` filter. */
  datatype RenderHost = RenderHost(
    styleHost: StyleCollector.StyleHost,
    doBlocks: string -> string,
    headOutput: string,
    footerOutput: string,
    language: string,
    charset: string,
    escAttr: string -> string,
    escHtml: string -> string,
    sanitizeHtmlClass: string -> string,
    outputFilter: (string, string, string, Option<string>) -> string)

  const Doctype: string := "<!DOCTYPE html>\n"
  const Closing: string := "</body>\n</html>"
  const ViewportMeta: string := "<meta name=\"viewport\" content=\"width=device-width, initial-scale=1.0\">\n"

  /** `sprintf('WP VRT: %s - %s', $type, $slug)` */
  function Title(typ: string, slug: string): string {
    "WP VRT: " + typ + " - " + slug
  }

  function MetaTag(host: RenderHost, name: string, value: string): string {
    "<meta name=\"" + name + "\" content=\"" + host.escAttr(value) + "\">\n"
  }

  /** The optional variation meta tag: present exactly for a truthy variation. */
  function VariationSegments(host: RenderHost, variation: Option<string>): (r: seq<string>)
    ensures |r| <= 1
    ensures r != [] <==> TruthyOpt(variation)
    ensures r != [] ==> r == [MetaTag(host, "wp-vrt-variation", variation.value)]
  {
    if TruthyOpt(variation) then [MetaTag(host, "wp-vrt-variation", variation.value)] else []
  }

  /** Everything up to the item's meta tags. */
  function OpeningSegments(host: RenderHost, typ: string, slug: string, variation: Option<string>): (r: seq<string>)
    ensures |r| >= 8 && r[0] == Doctype
  {
    [ Doctype,
      "<html lang=\"" + host.escAttr(host.language) + "\" class=\"wp-vrt-html\">",
      "\n<head>\n",
      "<meta charset=\"" + host.escAttr(host.charset) + "\">\n",
      ViewportMeta,
      "<title>" + host.escHtml(Title(typ, slug)) + "</title>\n",
      MetaTag(host, "wp-vrt-type", typ),
      MetaTag(host, "wp-vrt-slug", slug)
    ] + VariationSegments(host, variation)
  }

  /** The layers as (key, stylesheet) pairs, in the order of `LayerKeys`. */
  function LayerEntries(styles: StyleCollector.Layers): (r: seq<(string, string)>)
    ensures |r| == 5
    ensures forall i :: 0 <= i < 5 ==> r[i].0 == StyleCollector.LayerKeys[i]
  {
    [ ("theme-json-variables", styles.themeJsonVariables),
      ("global-styles", styles.globalStyles),
      ("block-library", styles.blockLibrary),
      ("theme-stylesheet", styles.themeStylesheet),
      ("block-specific", styles.blockSpecific) ]
  }

  function StyleBlock(layer: (string, string)): string {
    "<style id=\"wp-vrt-" + layer.0 + "\">\n" + layer.1 + "\n</style>\n"
  }

  predicate NonEmptyLayer(layer: (string, string)) {
    Truthy(layer.1)
  }

  /** One `<style>` block per non-empty layer, in layer order. */
  function StyleSegments(styles: StyleCollector.Layers): seq<string> {
    Map(StyleBlock, Filter(NonEmptyLayer, LayerEntries(styles)))
  }

  /** No style block without stylesheets; all five when every layer has one. */
  lemma StyleSegmentsCount(styles: StyleCollector.Layers)
    ensures (forall i :: 0 <= i < 5 ==> !Truthy(LayerEntries(styles)[i].1)) ==> StyleSegments(styles) == []
    ensures (forall i :: 0 <= i < 5 ==> Truthy(LayerEntries(styles)[i].1)) ==>
      StyleSegments(styles) == Map(StyleBlock, LayerEntries(styles))
  {
    var es := LayerEntries(styles);
    if forall i :: 0 <= i < 5 ==> !Truthy(es[i].1) {
      FilterNone(es);
    }
    if forall i :: 0 <= i < 5 ==> Truthy(es[i].1) {
      FilterAll(es);
    }
  }

  lemma {:induction false} FilterNone(es: seq<(string, string)>)
    requires forall i :: 0 <= i < |es| ==> !NonEmptyLayer(es[i])
    ensures Filter(NonEmptyLayer, es) == []
  {
    if es != [] {
      FilterNone(es[1..]);
    }
  }

  lemma {:induction false} FilterAll(es: seq<(string, string)>)
    requires forall i :: 0 <= i < |es| ==> NonEmptyLayer(es[i])
    ensures Filter(NonEmptyLayer, es) == es
  {
    if es != [] {
      FilterAll(es[1..]);
      assert [es[0]] + es[1..] == es;
    }
  }

  /** The head output, then `</head>`. */
  function HeadEndSegments(host: RenderHost): (r: seq<string>)
    ensures |r| >= 1 && r[|r| - 1] == "</head>\n"
  {
    (if host.headOutput != "" then [host.headOutput + "\n"] else []) + ["</head>\n"]
  }

  /** `implode(' ', ['wp-vrt-body', 'wp-vrt-' . sanitize_html_class($type)])` */
  function BodyClasses(host: RenderHost, typ: string): string {
    "wp-vrt-body wp-vrt-" + host.sanitizeHtmlClass(typ)
  }

  /** The body: its tag, the content in the site-blocks wrapper, the footer
      output and the closing tags. */
  function BodySegments(host: RenderHost, typ: string, slug: string, content: string): (r: seq<string>)
    ensures |r| >= 1 && r[|r| - 1] == Closing
  {
    [ "<body class=\"" + host.escAttr(BodyClasses(host, typ)) + "\" data-wp-vrt-slug=\"" + host.escAttr(slug) + "\">",
      "\n<div class=\"wp-site-blocks\">\n",
      host.doBlocks(content) + "\n",
      "</div>\n"
    ] + (if host.footerOutput != "" then [host.footerOutput + "\n"] else []) + [Closing]
  }

  /** All segments of the page for the given layers. */
  function Segments(host: RenderHost, typ: string, slug: string, variation: Option<string>, content: string,
                    styles: StyleCollector.Layers): seq<string> {
    OpeningSegments(host, typ, slug, variation) + StyleSegments(styles) + HeadEndSegments(host) + BodySegments(host, typ, slug, content)
  }

  /** The page before the output filter, with the layers the collector yields. */
  function Document(host: RenderHost, typ: string, slug: string, variation: Option<string>, content: string): string {
    var styles := host.styleHost.collectedFilter(StyleCollector.CollectedLayers(host.styleHost));
    Concat(Segments(host, typ, slug, variation, content, styles))
  }

  lemma {:induction false} FrameOfParts(o: seq<string>, m: seq<string>, b: seq<string>)
    requires |o| >= 1 && |b| >= 1
    ensures StartsWith(Concat(o + m + b), o[0])
    ensures EndsWith(Concat(o + m + b), b[|b| - 1])
  {
    var segs := o + m + b;
    ConcatAppend([o[0]], segs[1..]);
    assert [o[0]] + segs[1..] == segs;
    ConcatSnoc([], o[0]);
    StartsWithConcat(o[0], Concat(segs[1..]));
    ConcatSnoc(segs[..|segs| - 1], b[|b| - 1]);
    assert segs[..|segs| - 1] + [b[|b| - 1]] == segs;
    EndsWithConcat(Concat(segs[..|segs| - 1]), b[|b| - 1]);
  }

  /** The document opens with the doctype and closes the body and the html element. */
  lemma DocumentFrame(host: RenderHost, typ: string, slug: string, variation: Option<string>, content: string)
    ensures StartsWith(Document(host, typ, slug, variation, content), Doctype)
    ensures EndsWith(Document(host, typ, slug, variation, content), Closing)
  {
    var styles := host.styleHost.collectedFilter(StyleCollector.CollectedLayers(host.styleHost));
    var o := OpeningSegments(host, typ, slug, variation);
    var b := BodySegments(host, typ, slug, content);
    var m := StyleSegments(styles) + HeadEndSegments(host);
    assert Segments(host, typ, slug, variation, content, styles) == o + m + b;
    FrameOfParts(o, m, b);
  }

  /** The type and slug meta tags are always there, the variation tag
      exactly for a truthy variation, and the title names the item. */
  lemma DocumentMeta(host: RenderHost, typ: string, slug: string, variation: Option<string>, content: string)
    ensures var o := OpeningSegments(host, typ, slug, variation);
      && o[5] == "<title>" + host.escHtml("WP VRT: " + typ + " - " + slug) + "</title>\n"
      && o[6] == MetaTag(host, "wp-vrt-type", typ)
      && o[7] == MetaTag(host, "wp-vrt-slug", slug)
      && (|o| == 9 <==> TruthyOpt(variation))
      && (|o| == 9 ==> o[8] == MetaTag(host, "wp-vrt-variation", variation.value))
      && |o| >= 8
  {
  }

  /** The head output comes right before `</head>`. */
  lemma HeadOutputBeforeHeadEnd(host: RenderHost, typ: string, slug: string, variation: Option<string>, content: string)
    requires host.headOutput != ""
    ensures Contains(Document(host, typ, slug, variation, content), host.headOutput + "\n" + "</head>\n")
  {
    var styles := host.styleHost.collectedFilter(StyleCollector.CollectedLayers(host.styleHost));
    var a := OpeningSegments(host, typ, slug, variation) + StyleSegments(styles);
    var h := HeadEndSegments(host);
    assert h == [host.headOutput + "\n", "</head>\n"];
    ConcatPair(host.headOutput + "\n", "</head>\n");
    ConcatInfix(a, h, BodySegments(host, typ, slug, content));
  }

  /** The expanded content sits in the site-blocks wrapper. */
  lemma ContentInWrapper(host: RenderHost, typ: string, slug: string, variation: Option<string>, content: string)
    ensures Contains(Document(host, typ, slug, variation, content), "\n<div class=\"wp-site-blocks\">\n" + host.doBlocks(content) + "\n")
  {
    var styles := host.styleHost.collectedFilter(StyleCollector.CollectedLayers(host.styleHost));
    var a := OpeningSegments(host, typ, slug, variation) + StyleSegments(styles) + HeadEndSegments(host);
    var b := BodySegments(host, typ, slug, content);
    var w := b[1..3];
    assert w == ["\n<div class=\"wp-site-blocks\">\n", host.doBlocks(content) + "\n"];
    ConcatPair("\n<div class=\"wp-site-blocks\">\n", host.doBlocks(content) + "\n");
    assert Segments(host, typ, slug, variation, content, styles) == a + b;
    assert a + b == (a + [b[0]]) + w + b[3..];
    assert Concat(w) == "\n<div class=\"wp-site-blocks\">\n" + host.doBlocks(content) + "\n";
    ConcatInfix(a + [b[0]], w, b[3..]);
    assert Document(host, typ, slug, variation, content) == Concat(a + b);
  }

  // ------------------------------------------------------------ rendering

  /** Appends segments to a page under construction. */
  method AppendSegments(html: string, segs: seq<string>) returns (r: string)
    ensures r == html + Concat(segs)
  {
    r := html;
    var i := 0;
    while i < |segs|
      invariant 0 <= i <= |segs|
      invariant r == html + Concat(segs[..i])
    {
      ConcatSnoc(segs[..i], segs[i]);
      assert segs[..i + 1] == segs[..i] + [segs[i]];
      r := r + segs[i];
      i := i + 1;
    }
    assert segs[..i] == segs;
  }

  /** The style blocks of `render`, one `if` per layer. */
  method RenderStyles(styles: StyleCollector.Layers) returns (css: string)
    ensures css == Concat(StyleSegments(styles))
  {
    var entries := LayerEntries(styles);
    css := "";
    ghost var kept: seq<(string, string)> := [];
    var i := 0;
    while i < |entries|
      invariant 0 <= i <= |entries|
      invariant kept == Filter(NonEmptyLayer, entries[..i])
      invariant css == Concat(Map(StyleBlock, kept))
    {
      var layer := entries[i];
      FilterSnoc(NonEmptyLayer, entries[..i], layer);
      assert entries[..i + 1] == entries[..i] + [layer];
      if Truthy(layer.1) {
        MapSnoc(StyleBlock, kept, layer);
        ConcatSnoc(Map(StyleBlock, kept), StyleBlock(layer));
        css := css + ("<style id=\"wp-vrt-" + layer.0 + "\">\n" + layer.1 + "\n</style>\n");
        kept := kept + [layer];
      }
      i := i + 1;
    }
    assert entries[..i] == entries;
  }

  lemma Concat4(o: seq<string>, s: seq<string>, h: seq<string>, b: seq<string>)
    ensures Concat(o + s + h + b) == Concat(o) + Concat(s) + Concat(h) + Concat(b)
  {
    ConcatAppend(o + s + h, b);
    ConcatAppend(o + s, h);
    ConcatAppend(o, s);
  }

  /** `render` */
  method Render(host: RenderHost, typ: string, slug: string, variation: Option<string>, content: string) returns (html: string)
    ensures html == host.outputFilter(Document(host, typ, slug, variation, content), typ, slug, variation)
  {
    var styles := StyleCollector.CollectAllStyles(host.styleHost);
    var opening := OpeningSegments(host, typ, slug, variation);
    html := AppendSegments("", opening);
    assert html == Concat(opening);
    var css := RenderStyles(styles);
    html := html + css;
    var headEnd := HeadEndSegments(host);
    html := AppendSegments(html, headEnd);
    var body := BodySegments(host, typ, slug, content);
    html := AppendSegments(html, body);
    Concat4(opening, StyleSegments(styles), headEnd, body);
    assert Segments(host, typ, slug, variation, content, styles) == opening + StyleSegments(styles) + headEnd + body;
    ghost var doc := Concat(Segments(host, typ, slug, variation, content, styles));
    assert html == doc;
    assert doc == Document(host, typ, slug, variation, content);
    html := host.outputFilter(html, typ, slug, variation);
  }
}
