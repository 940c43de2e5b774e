/**
 * The discovery endpoint `GET /wp-json/wp-vrt/v1/discover` (class
 * DiscoveryApi): a manifest of every listed item with the VRT URL that
 * renders it.
 */
module DiscoveryApi {
  import opened Php
  import Wp
  import BlockRegistry
  import PatternRegistry
  import TemplateRegistry
  import ScenarioRegistry
  import VirtualPages

  /** `isset($_GET['include_disabled']) && $_GET['include_disabled'] !== '0'` */
  function IncludeDisabled(param: Option<string>): (r: bool)
    ensures r <==> param.Some? && param.value != "0"
  {
    param.Some? && param.value != "0"
  }

  /** The manifest depends on the parameter only through `IncludeDisabled`:
      a missing parameter and `'0'` give the manifest without disabled
      items, and every other value gives the same manifest as `'1'`. */
  lemma IncludeDisabledChoosesListings(host: DiscoveryHost, param: Option<string>)
    ensures param.None? || param == Some("0") ==> Discover(host, param) == Discover(host, None)
    ensures param.Some? && param.value != "0" ==> Discover(host, param) == Discover(host, Some("1"))
    ensures Discover(host, Some("0")) == Discover(host, None)
  {
    assert IncludeDisabled(Some("0")) == IncludeDisabled(None);
    if param.Some? && param.value != "0" {
      assert IncludeDisabled(param) == IncludeDisabled(Some("1"));
    } else {
      assert IncludeDisabled(param) == IncludeDisabled(None);
    }
  }

  /** The VRT URL of an item of a type. */
  function ItemUrl(typ: string, slug: string): string {
    "/wp-vrt/" + typ + "/" + slug
  }

  // ----------------------------------------------------------- manifest

  datatype VariationItem = VariationItem(name: string, caption: string, url: string)

  datatype BlockItem = BlockItem(name: string, title: string, url: string, variations: seq<VariationItem>, disabled: bool)

  datatype PatternItem = PatternItem(name: string, title: string, url: string, categories: seq<string>,
                                     disabled: bool, isDynamic: bool)

  datatype TemplateItem = TemplateItem(slug: string, title: string, url: string, disabled: bool, isDynamic: bool)

  datatype PartItem = PartItem(slug: string, title: string, area: Option<string>, url: string,
                               disabled: bool, isDynamic: bool)

  datatype ScenarioItem = ScenarioItem(slug: string, title: string, description: Option<string>, url: string,
                                       disabled: bool)

  /** `items`: the five lists, each present even when empty. */
  datatype Items = Items(
    blocks: seq<BlockItem>,
    patterns: seq<PatternItem>,
    templateParts: seq<PartItem>,
    templates: seq<TemplateItem>,
    scenarios: seq<ScenarioItem>)

  datatype Manifest = Manifest(baseUrl: string, timestamp: string, items: Items)

  /** What the endpoint reads: the registries, the output filters of their
      listings, `home_url` and the current time as `gmdate('c')` formats it. */
  datatype DiscoveryHost = DiscoveryHost(
    blocks: BlockRegistry.BlockHost,
    patterns: PatternRegistry.PatternHost,
    templates: TemplateRegistry.TemplateHost,
    scenarios: ScenarioRegistry.ScenarioHost,
    blocksFilter: seq<BlockRegistry.BlockEntry> -> seq<BlockRegistry.BlockEntry>,
    patternsFilter: seq<PatternRegistry.PatternEntry> -> seq<PatternRegistry.PatternEntry>,
    templatesFilter: seq<TemplateRegistry.Item> -> seq<TemplateRegistry.Item>,
    partsFilter: seq<TemplateRegistry.Item> -> seq<TemplateRegistry.Item>,
    scenariosFilter: seq<ScenarioRegistry.ScenarioItem> -> seq<ScenarioRegistry.ScenarioItem>,
    homeUrl: string -> string,
    now: string)

  function VariationItemFor(slug: string, v: BlockRegistry.Variation): VariationItem {
    VariationItem(v.name, v.caption, ItemUrl("block", slug) + "/" + v.name)
  }

  function VariationItemOf(slug: string): BlockRegistry.Variation -> VariationItem {
    v => VariationItemFor(slug, v)
  }

  /** A block's item: its URL, and one URL per variation, in registry order. */
  function BlockItemFor(e: BlockRegistry.BlockEntry): (r: BlockItem)
    ensures r.name == e.name && r.title == e.title && r.disabled == e.disabled
    ensures r.url == "/wp-vrt/block/" + e.slug
    ensures |r.variations| == |e.variations|
    ensures forall j :: 0 <= j < |e.variations| ==>
      && r.variations[j].name == e.variations[j].name
      && r.variations[j].caption == e.variations[j].caption
      && r.variations[j].url == r.url + "/" + e.variations[j].name
  {
    BlockItem(e.name, e.title, ItemUrl("block", e.slug), Map(VariationItemOf(e.slug), e.variations), e.disabled)
  }

  function PatternItemFor(e: PatternRegistry.PatternEntry): (r: PatternItem)
    ensures r.url == "/wp-vrt/pattern/" + e.slug
  {
    PatternItem(e.name, e.title, ItemUrl("pattern", e.slug), e.categories, e.disabled, e.isDynamic)
  }

  function TemplateItemFor(e: TemplateRegistry.Item): (r: TemplateItem)
    ensures r.url == "/wp-vrt/template/" + e.slug
  {
    TemplateItem(e.slug, e.title, ItemUrl("template", e.slug), e.disabled, e.isDynamic)
  }

  /** A part's item; an entry without an area reports null. */
  function PartItemFor(e: TemplateRegistry.Item): (r: PartItem)
    ensures r.url == "/wp-vrt/template-part/" + e.slug
  {
    PartItem(e.slug, e.title, if e.PartItem? then e.area else None, ItemUrl("template-part", e.slug),
             e.disabled, e.isDynamic)
  }

  /** A scenario's item; scenarios carry no `disabled` flag, so it is false. */
  function ScenarioItemFor(e: ScenarioRegistry.ScenarioItem): (r: ScenarioItem)
    ensures r.url == "/wp-vrt/scenario/" + e.slug && !r.disabled
  {
    ScenarioItem(e.slug, e.title, e.description, ItemUrl("scenario", e.slug), false)
  }

  /** The block listing as the endpoint receives it. */
  function Blocks(host: DiscoveryHost, inc: bool): seq<BlockRegistry.BlockEntry> {
    host.blocksFilter(BlockRegistry.DiscoverableBlocks(host.blocks, inc))
  }

  function Patterns(host: DiscoveryHost, inc: bool): seq<PatternRegistry.PatternEntry> {
    host.patternsFilter(PatternRegistry.DiscoverablePatterns(host.patterns, inc))
  }

  function Templates(host: DiscoveryHost, inc: bool): seq<TemplateRegistry.Item> {
    host.templatesFilter(TemplateRegistry.Discoverable(host.templates, TemplateRegistry.WholeTemplate, inc))
  }

  function Parts(host: DiscoveryHost, inc: bool): seq<TemplateRegistry.Item> {
    host.partsFilter(TemplateRegistry.Discoverable(host.templates, TemplateRegistry.TemplatePart, inc))
  }

  /** The scenario listing takes no `include_disabled`: the argument the
      endpoint passes is ignored. */
  function Scenarios(host: DiscoveryHost): seq<ScenarioRegistry.ScenarioItem> {
    host.scenariosFilter(ScenarioRegistry.DiscoverableScenarios(host.scenarios))
  }

  /** The response of `handle_discover`. */
  function Discover(host: DiscoveryHost, param: Option<string>): Manifest {
    var inc := IncludeDisabled(param);
    Manifest(host.homeUrl("/wp-vrt"), host.now, Items(
      Map(BlockItemFor, Blocks(host, inc)),
      Map(PatternItemFor, Patterns(host, inc)),
      Map(PartItemFor, Parts(host, inc)),
      Map(TemplateItemFor, Templates(host, inc)),
      Map(ScenarioItemFor, Scenarios(host))))
  }

  /** Each list of the manifest follows its listing item by item, in order;
      the scenario list does not depend on `include_disabled`. */
  lemma DiscoverFollowsListings(host: DiscoveryHost, param: Option<string>)
    ensures var m := Discover(host, param); var inc := IncludeDisabled(param);
      && |m.items.blocks| == |Blocks(host, inc)|
      && |m.items.patterns| == |Patterns(host, inc)|
      && |m.items.templates| == |Templates(host, inc)|
      && |m.items.templateParts| == |Parts(host, inc)|
      && |m.items.scenarios| == |Scenarios(host)|
      && (forall i :: 0 <= i < |Blocks(host, inc)| ==> m.items.blocks[i] == BlockItemFor(Blocks(host, inc)[i]))
      && (forall i :: 0 <= i < |Patterns(host, inc)| ==>
            m.items.patterns[i].name == Patterns(host, inc)[i].name &&
            m.items.patterns[i].url == ItemUrl("pattern", Patterns(host, inc)[i].slug))
      && (forall i :: 0 <= i < |Templates(host, inc)| ==>
            m.items.templates[i].slug == Templates(host, inc)[i].slug &&
            m.items.templates[i].url == ItemUrl("template", Templates(host, inc)[i].slug))
      && (forall i :: 0 <= i < |Parts(host, inc)| ==>
            m.items.templateParts[i].slug == Parts(host, inc)[i].slug &&
            m.items.templateParts[i].url == ItemUrl("template-part", Parts(host, inc)[i].slug))
      && (forall i :: 0 <= i < |Scenarios(host)| ==>
            m.items.scenarios[i].slug == Scenarios(host)[i].slug && !m.items.scenarios[i].disabled)
    ensures Discover(host, param).items.scenarios == Discover(host, None).items.scenarios
  {
  }

  /** Without `include_disabled`, and with listing filters that change
      nothing, no item of the manifest is disabled. */
  lemma DiscoverWithoutDisabled(host: DiscoveryHost, param: Option<string>)
    requires !IncludeDisabled(param)
    requires forall bs :: host.blocksFilter(bs) == bs
    requires forall ps :: host.patternsFilter(ps) == ps
    requires forall ts :: host.templatesFilter(ts) == ts
    requires forall ts :: host.partsFilter(ts) == ts
    ensures var m := Discover(host, param);
      && (forall b :: b in m.items.blocks ==> !b.disabled)
      && (forall p :: p in m.items.patterns ==> !p.disabled)
      && (forall t :: t in m.items.templates ==> !t.disabled)
      && (forall t :: t in m.items.templateParts ==> !t.disabled)
      && (forall s :: s in m.items.scenarios ==> !s.disabled)
  {
    NoDisabledBlocks(host);
    NoDisabledPatterns(host);
    NoDisabledTemplates(host, TemplateRegistry.WholeTemplate);
    NoDisabledTemplates(host, TemplateRegistry.TemplatePart);
  }

  lemma NoDisabledBlocks(host: DiscoveryHost)
    requires forall bs :: host.blocksFilter(bs) == bs
    ensures forall b :: b in Map(BlockItemFor, Blocks(host, false)) ==> !b.disabled
  {
    var es := Blocks(host, false);
    BlockRegistry.DiscoverableBlocksShape(host.blocks, false);
    forall b | b in Map(BlockItemFor, es) ensures !b.disabled {
      var i :| 0 <= i < |es| && Map(BlockItemFor, es)[i] == b;
      assert es[i] in es;
    }
  }

  lemma NoDisabledPatterns(host: DiscoveryHost)
    requires forall ps :: host.patternsFilter(ps) == ps
    ensures forall p :: p in Map(PatternItemFor, Patterns(host, false)) ==> !p.disabled
  {
    var es := Patterns(host, false);
    PatternRegistry.DiscoverablePatternsShape(host.patterns, false);
    forall p | p in Map(PatternItemFor, es) ensures !p.disabled {
      var i :| 0 <= i < |es| && Map(PatternItemFor, es)[i] == p;
      assert es[i] in es;
    }
  }

  lemma NoDisabledTemplates(host: DiscoveryHost, k: TemplateRegistry.Kind)
    requires forall ts :: host.templatesFilter(ts) == ts
    requires forall ts :: host.partsFilter(ts) == ts
    ensures k == TemplateRegistry.WholeTemplate ==>
      forall t :: t in Map(TemplateItemFor, Templates(host, false)) ==> !t.disabled
    ensures k == TemplateRegistry.TemplatePart ==>
      forall t :: t in Map(PartItemFor, Parts(host, false)) ==> !t.disabled
  {
    var es := TemplateRegistry.Discoverable(host.templates, k, false);
    TemplateRegistry.DiscoverableShape(host.templates, k, false);
    if k == TemplateRegistry.WholeTemplate {
      assert es == Templates(host, false);
      forall t | t in Map(TemplateItemFor, es) ensures !t.disabled {
        var i :| 0 <= i < |es| && Map(TemplateItemFor, es)[i] == t;
        assert es[i] in es;
      }
    } else {
      assert es == Parts(host, false);
      forall t | t in Map(PartItemFor, es) ensures !t.disabled {
        var i :| 0 <= i < |es| && Map(PartItemFor, es)[i] == t;
        assert es[i] in es;
      }
    }
  }

  // ------------------------------------------------------------- routing

  /** An item URL is served by the virtual pages: the rewrite rule captures
      the type and the slug, when the slug is a single path segment. */
  lemma ItemUrlRoutes(typ: string, slug: string)
    requires typ in VirtualPages.AllowedTypes
    requires slug != "" && '/' !in slug
    ensures ItemUrl(typ, slug)[0] == '/'
    ensures VirtualPages.RewriteRule(ItemUrl(typ, slug)[1..]) == Some((typ, slug, ""))
  {
    assert ItemUrl(typ, slug)[1..] == "wp-vrt/" + typ + "/" + slug;
    assert '/' !in typ;
    VirtualPages.RewriteRuleShortForm(typ, slug);
  }

  /** A listed block's URL names its slug, and each variation URL adds the
      variation, which the page then renders with. */
  lemma BlockUrlsRoute(host: BlockRegistry.BlockHost, inc: bool, e: BlockRegistry.BlockEntry, j: nat)
    requires e in BlockRegistry.DiscoverableBlocks(host, inc) && e.name != ""
    requires j < |e.variations| && '/' !in e.variations[j].name
    ensures VirtualPages.RewriteRule(BlockItemFor(e).url[1..]) == Some(("block", e.slug, ""))
    ensures VirtualPages.RewriteRule(BlockItemFor(e).variations[j].url[1..]) == Some(("block", e.slug, e.variations[j].name))
  {
    BlockRegistry.DiscoverableBlocksShape(host, inc);
    assert e.slug == Wp.NameToSlug(e.name);
    EntryUrlsRoute(e, j);
  }

  lemma EntryUrlsRoute(e: BlockRegistry.BlockEntry, j: nat)
    requires e.slug != "" && '/' !in e.slug
    requires j < |e.variations| && '/' !in e.variations[j].name
    ensures VirtualPages.RewriteRule(BlockItemFor(e).url[1..]) == Some(("block", e.slug, ""))
    ensures VirtualPages.RewriteRule(BlockItemFor(e).variations[j].url[1..]) == Some(("block", e.slug, e.variations[j].name))
  {
    ItemUrlRoutes("block", e.slug);
    var r := BlockItemFor(e);
    assert r.variations[j].url[1..] == "wp-vrt/" + "block" + "/" + e.slug + "/" + e.variations[j].name;
    VirtualPages.RewriteRuleLongForm("block", e.slug, e.variations[j].name);
  }

  // -------------------------------------------------------------- handler

  method VariationItems(slug: string, vs: seq<BlockRegistry.Variation>) returns (items: seq<VariationItem>)
    ensures items == Map(VariationItemOf(slug), vs)
  {
    items := [];
    var i := 0;
    while i < |vs|
      invariant 0 <= i <= |vs|
      invariant items == Map(VariationItemOf(slug), vs[..i])
    {
      assert ItemUrl("block", slug) == "/wp-vrt/block/" + slug;
      MapSnoc(VariationItemOf(slug), vs[..i], vs[i]);
      assert vs[..i + 1] == vs[..i] + [vs[i]];
      items := items + [VariationItem(vs[i].name, vs[i].caption, "/wp-vrt/block/" + slug + "/" + vs[i].name)];
      i := i + 1;
    }
    assert vs[..i] == vs;
  }

  method BlockItems(blocks: seq<BlockRegistry.BlockEntry>) returns (items: seq<BlockItem>)
    ensures items == Map(BlockItemFor, blocks)
  {
    items := [];
    var i := 0;
    while i < |blocks|
      invariant 0 <= i <= |blocks|
      invariant items == Map(BlockItemFor, blocks[..i])
    {
      var block := blocks[i];
      var variations := VariationItems(block.slug, block.variations);
      BlockItemsStep(blocks, i, variations);
      items := items + [BlockItem(block.name, block.title, "/wp-vrt/block/" + block.slug, variations, block.disabled)];
      i := i + 1;
    }
    assert blocks[..i] == blocks;
  }

  /** One turn of the `foreach` over blocks appends the block's item. */
  lemma BlockItemsStep(blocks: seq<BlockRegistry.BlockEntry>, i: nat, variations: seq<VariationItem>)
    requires i < |blocks|
    requires variations == Map(VariationItemOf(blocks[i].slug), blocks[i].variations)
    ensures Map(BlockItemFor, blocks[..i + 1]) == Map(BlockItemFor, blocks[..i])
      + [BlockItem(blocks[i].name, blocks[i].title, "/wp-vrt/block/" + blocks[i].slug, variations, blocks[i].disabled)]
  {
    var block := blocks[i];
    MapSnoc(BlockItemFor, blocks[..i], block);
    assert blocks[..i + 1] == blocks[..i] + [block];
    assert ItemUrl("block", block.slug) == "/wp-vrt/block/" + block.slug;
  }

  method PatternItems(patterns: seq<PatternRegistry.PatternEntry>) returns (items: seq<PatternItem>)
    ensures items == Map(PatternItemFor, patterns)
  {
    items := [];
    var i := 0;
    while i < |patterns|
      invariant 0 <= i <= |patterns|
      invariant items == Map(PatternItemFor, patterns[..i])
    {
      var p := patterns[i];
      MapSnoc(PatternItemFor, patterns[..i], p);
      assert patterns[..i + 1] == patterns[..i] + [p];
      items := items + [PatternItem(p.name, p.title, "/wp-vrt/pattern/" + p.slug, p.categories, p.disabled, p.isDynamic)];
      i := i + 1;
    }
    assert patterns[..i] == patterns;
  }

  method TemplateItems(templates: seq<TemplateRegistry.Item>) returns (items: seq<TemplateItem>)
    ensures items == Map(TemplateItemFor, templates)
  {
    items := [];
    var i := 0;
    while i < |templates|
      invariant 0 <= i <= |templates|
      invariant items == Map(TemplateItemFor, templates[..i])
    {
      var t := templates[i];
      MapSnoc(TemplateItemFor, templates[..i], t);
      assert templates[..i + 1] == templates[..i] + [t];
      items := items + [TemplateItem(t.slug, t.title, "/wp-vrt/template/" + t.slug, t.disabled, t.isDynamic)];
      i := i + 1;
    }
    assert templates[..i] == templates;
  }

  method PartItems(parts: seq<TemplateRegistry.Item>) returns (items: seq<PartItem>)
    ensures items == Map(PartItemFor, parts)
  {
    items := [];
    var i := 0;
    while i < |parts|
      invariant 0 <= i <= |parts|
      invariant items == Map(PartItemFor, parts[..i])
    {
      var t := parts[i];
      MapSnoc(PartItemFor, parts[..i], t);
      assert parts[..i + 1] == parts[..i] + [t];
      var area := if t.PartItem? then t.area else None;
      items := items + [PartItem(t.slug, t.title, area, "/wp-vrt/template-part/" + t.slug, t.disabled, t.isDynamic)];
      i := i + 1;
    }
    assert parts[..i] == parts;
  }

  method ScenarioItems(scenarios: seq<ScenarioRegistry.ScenarioItem>) returns (items: seq<ScenarioItem>)
    ensures items == Map(ScenarioItemFor, scenarios)
  {
    items := [];
    var i := 0;
    while i < |scenarios|
      invariant 0 <= i <= |scenarios|
      invariant items == Map(ScenarioItemFor, scenarios[..i])
    {
      var s := scenarios[i];
      MapSnoc(ScenarioItemFor, scenarios[..i], s);
      assert scenarios[..i + 1] == scenarios[..i] + [s];
      items := items + [ScenarioItem(s.slug, s.title, s.description, "/wp-vrt/scenario/" + s.slug, false)];
      i := i + 1;
    }
    assert scenarios[..i] == scenarios;
  }

  /** `handle_discover` */
  method HandleDiscover(host: DiscoveryHost, param: Option<string>) returns (m: Manifest)
    ensures m == Discover(host, param)
  {
    var inc := param.Some? && param.value != "0";
    var blocks := BlockRegistry.GetDiscoverableBlocks(host.blocks, inc);
    var blockItems := BlockItems(host.blocksFilter(blocks));
    var patterns := PatternRegistry.GetDiscoverablePatterns(host.patterns, inc);
    var patternItems := PatternItems(host.patternsFilter(patterns));
    var templates := TemplateRegistry.GetDiscoverable(host.templates, TemplateRegistry.WholeTemplate, inc);
    var templateItems := TemplateItems(host.templatesFilter(templates));
    var parts := TemplateRegistry.GetDiscoverable(host.templates, TemplateRegistry.TemplatePart, inc);
    var partItems := PartItems(host.partsFilter(parts));
    var scenarios := ScenarioRegistry.GetDiscoverableScenarios(host.scenarios);
    var scenarioItems := ScenarioItems(host.scenariosFilter(scenarios));
    m := Manifest(host.homeUrl("/wp-vrt"), host.now, Items(blockItems, patternItems, partItems, templateItems, scenarioItems));
  }
}
