/**
 * The data behind the Tools > WP VRT screen (class AdminPage): every
 * listed item as a labelled link to its VRT page, the block families as
 * groups, and a count per listing.
 */
module AdminPage {
  import opened Php
  import BlockRegistry
  import PatternRegistry
  import TemplateRegistry
  import ScenarioRegistry
  import DiscoveryApi

  /** A link of the screen; `isDynamic` is None where the entry has no such key. */
  datatype PageItem = PageItem(text: string, url: string, isDynamic: Option<bool>)

  /** A block family with the links of its listed blocks. */
  datatype Group = Group(title: string, description: string, items: seq<PageItem>)

  /** One tab; only the Blocks section has `groups`. */
  datatype Section = Section(title: string, description: string, groups: Option<seq<Group>>, items: seq<PageItem>)

  datatype Stat = Stat(name: string, count: nat)

  /** `window.wpVrtAdminData` */
  datatype PageData = PageData(baseUrl: string, discoveryUrl: string, stats: seq<Stat>, sections: seq<Section>)

  /** The listings the screen is built from. */
  datatype Listings = Listings(
    blocks: seq<BlockRegistry.BlockEntry>,
    families: seq<BlockRegistry.Family>,
    patterns: seq<PatternRegistry.PatternEntry>,
    templates: seq<TemplateRegistry.Item>,
    parts: seq<TemplateRegistry.Item>,
    scenarios: seq<ScenarioRegistry.ScenarioItem>)

  /** The listings the screen reads: those the discovery endpoint receives
      (after their output filters), with `include_disabled` off. */
  function ListingsOf(host: DiscoveryApi.DiscoveryHost): Listings {
    Listings(
      DiscoveryApi.Blocks(host, false),
      BlockRegistry.BlockFamilies(host.blocks),
      DiscoveryApi.Patterns(host, false),
      DiscoveryApi.Templates(host, false),
      DiscoveryApi.Parts(host, false),
      DiscoveryApi.Scenarios(host))
  }

  // -------------------------------------------------------------- blocks

  /** A block's link: its title, pointing at `/block/{slug}`. */
  function BlockLink(base: string, b: BlockRegistry.BlockEntry): PageItem {
    PageItem(b.title, base + "/block/" + b.slug, None)
  }

  /** A variation's link: `Title - Label`, pointing at `/block/{slug}/{name}`. */
  function VariationLink(base: string, b: BlockRegistry.BlockEntry): BlockRegistry.Variation -> PageItem {
    (v: BlockRegistry.Variation) => PageItem(b.title + " - " + v.caption, base + "/block/" + b.slug + "/" + v.name, None)
  }

  /** A block's links: its own, then one per variation, in order. */
  function BlockLinks(base: string, b: BlockRegistry.BlockEntry): (r: seq<PageItem>)
    ensures |r| == 1 + |b.variations|
  {
    [BlockLink(base, b)] + Map(VariationLink(base, b), b.variations)
  }

  /** The Blocks section's items: every block's links, block after block. */
  function BlockItems(base: string, bs: seq<BlockRegistry.BlockEntry>): seq<PageItem> {
    if bs == [] then [] else BlockItems(base, bs[..|bs| - 1]) + BlockLinks(base, bs[|bs| - 1])
  }

  /** The number of links of a list of blocks: 1 + |variations| each. */
  function LinkCount(bs: seq<BlockRegistry.BlockEntry>): nat {
    if bs == [] then 0 else LinkCount(bs[..|bs| - 1]) + 1 + |bs[|bs| - 1].variations|
  }

  /** Each block yields one link and one per variation, so there are at
      least as many links as blocks. */
  lemma {:induction false} BlockItemsCount(base: string, bs: seq<BlockRegistry.BlockEntry>)
    ensures |BlockItems(base, bs)| == LinkCount(bs) >= |bs|
  {
    if bs != [] {
      BlockItemsCount(base, bs[..|bs| - 1]);
    }
  }

  /** Every link of the Blocks section is a block's own link or the link of
      one of its variations. */
  lemma {:induction false} BlockItemsFrom(base: string, bs: seq<BlockRegistry.BlockEntry>, it: PageItem)
    requires it in BlockItems(base, bs)
    ensures exists b :: b in bs && (it == BlockLink(base, b) || exists v :: v in b.variations && it == VariationLink(base, b)(v))
  {
    var init := bs[..|bs| - 1];
    var b := bs[|bs| - 1];
    assert b in bs;
    if it in BlockItems(base, init) {
      BlockItemsFrom(base, init, it);
      var b' :| b' in init && (it == BlockLink(base, b') || exists v :: v in b'.variations && it == VariationLink(base, b')(v));
      assert b' in bs;
    } else {
      assert it in BlockLinks(base, b);
      if it != BlockLink(base, b) {
        var m := Map(VariationLink(base, b), b.variations);
        assert it in m;
        var j :| 0 <= j < |m| && m[j] == it;
        assert b.variations[j] in b.variations;
      }
    }
  }

  // ------------------------------------------------------------ families

  /** `$blocks[$name]`: the listed block of that name (names are unique). */
  function FindBlock(bs: seq<BlockRegistry.BlockEntry>, name: string): (r: Option<BlockRegistry.BlockEntry>)
    ensures r.Some? <==> exists b :: b in bs && b.name == name
    ensures r.Some? ==> r.value in bs && r.value.name == name
  {
    if bs == [] then None
    else if bs[0].name == name then Some(bs[0])
    else
      var r := FindBlock(bs[1..], name);
      assert forall b :: b in bs[1..] ==> b in bs;
      assert forall b :: b in bs && b != bs[0] ==> b in bs[1..];
      r
  }

  /** A family's links: one per member that is a listed block, in member order. */
  function FamilyLinks(base: string, bs: seq<BlockRegistry.BlockEntry>, names: seq<string>): (r: seq<PageItem>)
    ensures |r| <= |names|
    ensures forall it :: it in r ==> exists b :: b in bs && it == BlockLink(base, b)
  {
    if names == [] then []
    else
      var init := FamilyLinks(base, bs, names[..|names| - 1]);
      match FindBlock(bs, names[|names| - 1])
      case Some(b) => init + [BlockLink(base, b)]
      case None => init
  }

  /** A member of a family that is a listed block gives the family a link. */
  lemma {:induction false} FamilyLinksNonEmpty(base: string, bs: seq<BlockRegistry.BlockEntry>, names: seq<string>, name: string)
    requires name in names && FindBlock(bs, name).Some?
    ensures FamilyLinks(base, bs, names) != []
  {
    var last := names[|names| - 1];
    if FindBlock(bs, last).None? {
      assert name in names[..|names| - 1] by {
        assert names == names[..|names| - 1] + [last];
      }
      FamilyLinksNonEmpty(base, bs, names[..|names| - 1], name);
    }
  }

  /** A family's group, or nothing when none of its members is listed. */
  function FamilyGroup(base: string, bs: seq<BlockRegistry.BlockEntry>, f: BlockRegistry.Family): seq<Group> {
    var links := FamilyLinks(base, bs, f.blocks);
    if links == [] then [] else [Group(f.title, f.description, links)]
  }

  /** The Blocks section's groups, family after family. */
  function FamilyGroups(base: string, bs: seq<BlockRegistry.BlockEntry>, fs: seq<BlockRegistry.Family>): (r: seq<Group>)
    ensures |r| <= |fs|
  {
    if fs == [] then [] else FamilyGroups(base, bs, fs[..|fs| - 1]) + FamilyGroup(base, bs, fs[|fs| - 1])
  }

  /** Groups are never empty, and each holds only links of listed blocks. */
  lemma {:induction false} FamilyGroupsListed(base: string, bs: seq<BlockRegistry.BlockEntry>, fs: seq<BlockRegistry.Family>)
    ensures forall g :: g in FamilyGroups(base, bs, fs) ==>
      g.items != [] && forall it :: it in g.items ==> exists b :: b in bs && it == BlockLink(base, b)
  {
    if fs != [] {
      FamilyGroupsListed(base, bs, fs[..|fs| - 1]);
    }
  }

  /** A family with at least one listed member keeps its title and
      description as a group. */
  lemma {:induction false} FamilyGroupKept(base: string, bs: seq<BlockRegistry.BlockEntry>, fs: seq<BlockRegistry.Family>, k: nat, name: string)
    requires k < |fs| && name in fs[k].blocks && FindBlock(bs, name).Some?
    ensures exists g :: g in FamilyGroups(base, bs, fs) && g.title == fs[k].title && g.description == fs[k].description
  {
    var init := fs[..|fs| - 1];
    if k == |fs| - 1 {
      FamilyLinksNonEmpty(base, bs, fs[k].blocks, name);
      var g := Group(fs[k].title, fs[k].description, FamilyLinks(base, bs, fs[k].blocks));
      assert g in FamilyGroup(base, bs, fs[k]);
    } else {
      assert init[k] == fs[k];
      FamilyGroupKept(base, bs, init, k, name);
    }
  }

  // ------------------------------------------------- the other listings

  function PatternLink(base: string): PatternRegistry.PatternEntry -> PageItem {
    (p: PatternRegistry.PatternEntry) => PageItem(p.title, base + "/pattern/" + p.slug, Some(p.isDynamic))
  }

  function TemplateLink(base: string): TemplateRegistry.Item -> PageItem {
    (t: TemplateRegistry.Item) => PageItem(t.title, base + "/template/" + t.slug, Some(t.isDynamic))
  }

  /** A part's label: its title, followed by ` (area)` when the area is not empty. */
  function PartLabel(title: string, area: Option<string>): (r: string)
    ensures StartsWith(r, title)
    ensures r != title <==> TruthyOpt(area)
    ensures TruthyOpt(area) ==> EndsWith(r, " (" + area.value + ")")
  {
    if TruthyOpt(area) then
      var suffix := " (" + area.value + ")";
      StartsWithConcat(title, suffix);
      EndsWithConcat(title, suffix);
      assert |title + suffix| > |title|;
      title + suffix
    else
      StartsWithConcat(title, []);
      assert title + [] == title;
      title
  }

  function PartLink(base: string): TemplateRegistry.Item -> PageItem {
    (t: TemplateRegistry.Item) =>
      PageItem(PartLabel(t.title, if t.PartItem? then t.area else None), base + "/template-part/" + t.slug, Some(t.isDynamic))
  }

  function ScenarioLink(base: string): ScenarioRegistry.ScenarioItem -> PageItem {
    (s: ScenarioRegistry.ScenarioItem) => PageItem(s.title, base + "/scenario/" + s.slug, None)
  }

  // ---------------------------------------------------------- page data

  /** `get_page_data` from the listings and the two URLs. */
  function PageDataFor(base: string, discoveryUrl: string, l: Listings): PageData {
    PageData(
      base,
      discoveryUrl,
      [Stat("Blocks", |l.blocks|), Stat("Patterns", |l.patterns|), Stat("Templates", |l.templates|),
       Stat("Template Parts", |l.parts|), Stat("Scenarios", |l.scenarios|)],
      [Section("Blocks", "All registered blocks including variations.",
               Some(FamilyGroups(base, l.blocks, l.families)), BlockItems(base, l.blocks)),
       Section("Patterns", "Theme and core patterns.", None, Map(PatternLink(base), l.patterns)),
       Section("Templates", "Site templates for block themes.", None, Map(TemplateLink(base), l.templates)),
       Section("Template Parts", "Reusable template fragments.", None, Map(PartLink(base), l.parts)),
       Section("Scenarios", "Custom scenarios registered by themes/plugins.", None, Map(ScenarioLink(base), l.scenarios))])
  }

  /** The screen's data for a site. */
  function PageDataOf(host: DiscoveryApi.DiscoveryHost): PageData {
    PageDataFor(host.homeUrl("/wp-vrt"), host.homeUrl("/wp-json/wp-vrt/v1/discover"), ListingsOf(host))
  }

  /** The stats and the sections come in the same order under the same
      names; each count is its listing's size, which is the number of links
      of every section but Blocks, where variations add links. */
  lemma StatsMatchSections(base: string, discoveryUrl: string, l: Listings)
    ensures var d := PageDataFor(base, discoveryUrl, l);
      && |d.stats| == |d.sections| == 5
      && (forall i :: 0 <= i < 5 ==> d.stats[i].name == d.sections[i].title)
      && (forall i :: 1 <= i < 5 ==> d.stats[i].count == |d.sections[i].items|)
      && d.stats[0].count == |l.blocks| <= |d.sections[0].items|
      && d.sections[0].groups.Some? && (forall i :: 1 <= i < 5 ==> d.sections[i].groups.None?)
  {
    BlockItemsCount(base, l.blocks);
  }

  /** Patterns, templates and parts report their entry's dynamic flag;
      block and scenario links carry none. */
  lemma DynamicFlags(base: string, discoveryUrl: string, l: Listings)
    ensures var d := PageDataFor(base, discoveryUrl, l);
      && (forall i :: 0 <= i < |l.patterns| ==> d.sections[1].items[i].isDynamic == Some(l.patterns[i].isDynamic))
      && (forall i :: 0 <= i < |l.templates| ==> d.sections[2].items[i].isDynamic == Some(l.templates[i].isDynamic))
      && (forall i :: 0 <= i < |l.parts| ==> d.sections[3].items[i].isDynamic == Some(l.parts[i].isDynamic))
      && (forall it :: it in d.sections[0].items ==> it.isDynamic.None?)
      && (forall it :: it in d.sections[4].items ==> it.isDynamic.None?)
  {
    var d := PageDataFor(base, discoveryUrl, l);
    forall it | it in d.sections[0].items
      ensures it.isDynamic.None?
    {
      BlockItemsFrom(base, l.blocks, it);
    }
  }

  /** Where `home_url($path)` is the home address followed by the path,
      a block's link and its variations' links point at the VRT pages the
      discovery manifest lists for that block. */
  lemma BlockUrl(home: string, b: BlockRegistry.BlockEntry)
    ensures var base := home + "/wp-vrt"; var item := DiscoveryApi.BlockItemFor(b);
      && BlockLink(base, b).url == home + item.url
      && forall j :: 0 <= j < |b.variations| ==>
           VariationLink(base, b)(b.variations[j]).url == home + item.variations[j].url
  {
    var base := home + "/wp-vrt";
    var item := DiscoveryApi.BlockItemFor(b);
    forall j | 0 <= j < |b.variations|
      ensures VariationLink(base, b)(b.variations[j]).url == home + item.variations[j].url
    {
      assert item.variations[j].url == item.url + "/" + b.variations[j].name;
    }
  }

  lemma PatternUrl(home: string, p: PatternRegistry.PatternEntry)
    ensures PatternLink(home + "/wp-vrt")(p).url == home + DiscoveryApi.PatternItemFor(p).url
  {
  }

  lemma TemplateUrl(home: string, t: TemplateRegistry.Item)
    ensures TemplateLink(home + "/wp-vrt")(t).url == home + DiscoveryApi.TemplateItemFor(t).url
  {
  }

  lemma PartUrl(home: string, t: TemplateRegistry.Item)
    ensures PartLink(home + "/wp-vrt")(t).url == home + DiscoveryApi.PartItemFor(t).url
  {
  }

  lemma ScenarioUrl(home: string, s: ScenarioRegistry.ScenarioItem)
    ensures ScenarioLink(home + "/wp-vrt")(s).url == home + DiscoveryApi.ScenarioItemFor(s).url
  {
  }

  /** The manifest without a query parameter maps the same listings. */
  lemma ManifestLists(host: DiscoveryApi.DiscoveryHost)
    ensures var m := DiscoveryApi.Discover(host, None); var l := ListingsOf(host);
      && m.baseUrl == host.homeUrl("/wp-vrt")
      && m.items.patterns == Map(DiscoveryApi.PatternItemFor, l.patterns)
      && m.items.templates == Map(DiscoveryApi.TemplateItemFor, l.templates)
      && m.items.templateParts == Map(DiscoveryApi.PartItemFor, l.parts)
      && m.items.scenarios == Map(DiscoveryApi.ScenarioItemFor, l.scenarios)
  {
    assert !DiscoveryApi.IncludeDisabled(None);
  }

  /** Links that each point at the home address followed by an item's URL
      do so list-wide. */
  lemma MappedUrls<T, I>(home: string, link: T -> PageItem, item: T -> I, url: I -> string, xs: seq<T>)
    requires forall x :: link(x).url == home + url(item(x))
    ensures |Map(link, xs)| == |Map(item, xs)|
    ensures forall i :: 0 <= i < |xs| ==> Map(link, xs)[i].url == home + url(Map(item, xs)[i])
  {
  }

  /** Where the screen's base URL is the home address followed by
      `/wp-vrt` (as `home_url` gives it), every tab after Blocks links, entry
      by entry, to the manifest item of the same entry. */
  lemma TabUrls(home: string, l: Listings)
    ensures var base := home + "/wp-vrt";
      && (forall i :: 0 <= i < |l.patterns| ==>
            Map(PatternLink(base), l.patterns)[i].url == home + Map(DiscoveryApi.PatternItemFor, l.patterns)[i].url)
      && (forall i :: 0 <= i < |l.templates| ==>
            Map(TemplateLink(base), l.templates)[i].url == home + Map(DiscoveryApi.TemplateItemFor, l.templates)[i].url)
      && (forall i :: 0 <= i < |l.parts| ==>
            Map(PartLink(base), l.parts)[i].url == home + Map(DiscoveryApi.PartItemFor, l.parts)[i].url)
      && (forall i :: 0 <= i < |l.scenarios| ==>
            Map(ScenarioLink(base), l.scenarios)[i].url == home + Map(DiscoveryApi.ScenarioItemFor, l.scenarios)[i].url)
  {
    var base := home + "/wp-vrt";
    forall x ensures PatternLink(base)(x).url == home + DiscoveryApi.PatternItemFor(x).url {
      PatternUrl(home, x);
    }
    MappedUrls(home, PatternLink(base), DiscoveryApi.PatternItemFor, (it: DiscoveryApi.PatternItem) => it.url, l.patterns);
    forall x ensures TemplateLink(base)(x).url == home + DiscoveryApi.TemplateItemFor(x).url {
      TemplateUrl(home, x);
    }
    MappedUrls(home, TemplateLink(base), DiscoveryApi.TemplateItemFor, (it: DiscoveryApi.TemplateItem) => it.url, l.templates);
    forall x ensures PartLink(base)(x).url == home + DiscoveryApi.PartItemFor(x).url {
      PartUrl(home, x);
    }
    MappedUrls(home, PartLink(base), DiscoveryApi.PartItemFor, (it: DiscoveryApi.PartItem) => it.url, l.parts);
    forall x ensures ScenarioLink(base)(x).url == home + DiscoveryApi.ScenarioItemFor(x).url {
      ScenarioUrl(home, x);
    }
    MappedUrls(home, ScenarioLink(base), DiscoveryApi.ScenarioItemFor, (it: DiscoveryApi.ScenarioItem) => it.url, l.scenarios);
  }

  // ------------------------------------------------------------ methods

  /** `get_page_data`: reads the listings, then builds the links. */
  method GetPageData(host: DiscoveryApi.DiscoveryHost) returns (data: PageData)
    ensures data == PageDataOf(host)
  {
    var blocks := BlockRegistry.GetDiscoverableBlocks(host.blocks, false);
    blocks := host.blocksFilter(blocks);
    var families := BlockRegistry.GetBlockFamilies(host.blocks);
    var patterns := PatternRegistry.GetDiscoverablePatterns(host.patterns, false);
    patterns := host.patternsFilter(patterns);
    var templates := TemplateRegistry.GetDiscoverable(host.templates, TemplateRegistry.WholeTemplate, false);
    templates := host.templatesFilter(templates);
    var parts := TemplateRegistry.GetDiscoverable(host.templates, TemplateRegistry.TemplatePart, false);
    parts := host.partsFilter(parts);
    var scenarios := ScenarioRegistry.GetDiscoverableScenarios(host.scenarios);
    scenarios := host.scenariosFilter(scenarios);
    var base := host.homeUrl("/wp-vrt");
    var discoveryUrl := host.homeUrl("/wp-json/wp-vrt/v1/discover");
    data := BuildPageData(base, discoveryUrl, Listings(blocks, families, patterns, templates, parts, scenarios));
  }

  method BuildPageData(base: string, discoveryUrl: string, l: Listings) returns (data: PageData)
    ensures data == PageDataFor(base, discoveryUrl, l)
  {
    var blockItems := CollectBlockItems(base, l.blocks);
    var familyItems := CollectFamilyItems(base, l.blocks, l.families);
    var patternItems := CollectLinks(PatternLink(base), l.patterns);
    var templateItems := CollectLinks(TemplateLink(base), l.templates);
    var partItems := CollectLinks(PartLink(base), l.parts);
    var scenarioItems := CollectLinks(ScenarioLink(base), l.scenarios);
    data := PageData(
      base,
      discoveryUrl,
      [Stat("Blocks", |l.blocks|), Stat("Patterns", |l.patterns|), Stat("Templates", |l.templates|),
       Stat("Template Parts", |l.parts|), Stat("Scenarios", |l.scenarios|)],
      [Section("Blocks", "All registered blocks including variations.", Some(familyItems), blockItems),
       Section("Patterns", "Theme and core patterns.", None, patternItems),
       Section("Templates", "Site templates for block themes.", None, templateItems),
       Section("Template Parts", "Reusable template fragments.", None, partItems),
       Section("Scenarios", "Custom scenarios registered by themes/plugins.", None, scenarioItems)]);
  }

  /** The `$block_items` loop, with its inner loop over variations. */
  method CollectBlockItems(base: string, bs: seq<BlockRegistry.BlockEntry>) returns (items: seq<PageItem>)
    ensures items == BlockItems(base, bs)
  {
    items := [];
    var i := 0;
    while i < |bs|
      invariant 0 <= i <= |bs|
      invariant items == BlockItems(base, bs[..i])
    {
      var block := bs[i];
      ghost var done := items;
      items := items + [BlockLink(base, block)];
      var j := 0;
      while j < |block.variations|
        invariant 0 <= j <= |block.variations|
        invariant items == done + [BlockLink(base, block)] + Map(VariationLink(base, block), block.variations[..j])
      {
        MapSnoc(VariationLink(base, block), block.variations[..j], block.variations[j]);
        assert block.variations[..j + 1] == block.variations[..j] + [block.variations[j]];
        items := items + [VariationLink(base, block)(block.variations[j])];
        j := j + 1;
      }
      assert block.variations[..j] == block.variations;
      AppendAssoc(done, [BlockLink(base, block)], Map(VariationLink(base, block), block.variations));
      assert bs[..i + 1][..i] == bs[..i];
      i := i + 1;
    }
    assert bs[..i] == bs;
  }

  /** The `$family_items` loop: members that are not listed blocks are
      skipped, and so are families left without links. */
  method CollectFamilyItems(base: string, bs: seq<BlockRegistry.BlockEntry>, fs: seq<BlockRegistry.Family>)
    returns (groups: seq<Group>)
    ensures groups == FamilyGroups(base, bs, fs)
  {
    groups := [];
    var i := 0;
    while i < |fs|
      invariant 0 <= i <= |fs|
      invariant groups == FamilyGroups(base, bs, fs[..i])
    {
      var family := fs[i];
      var items := [];
      var j := 0;
      while j < |family.blocks|
        invariant 0 <= j <= |family.blocks|
        invariant items == FamilyLinks(base, bs, family.blocks[..j])
      {
        var name := family.blocks[j];
        assert family.blocks[..j + 1][..j] == family.blocks[..j];
        j := j + 1;
        var found := FindBlock(bs, name);
        if found.None? {
          continue;
        }
        items := items + [BlockLink(base, found.value)];
      }
      assert family.blocks[..j] == family.blocks;
      assert fs[..i + 1][..i] == fs[..i];
      i := i + 1;
      if items == [] {
        assert groups + [] == groups;
        continue;
      }
      groups := groups + [Group(family.title, family.description, items)];
    }
    assert fs[..i] == fs;
  }

  /** One of the other loops: a link per entry, in order. */
  method CollectLinks<T>(f: T -> PageItem, xs: seq<T>) returns (items: seq<PageItem>)
    ensures items == Map(f, xs)
  {
    items := [];
    var i := 0;
    while i < |xs|
      invariant 0 <= i <= |xs|
      invariant items == Map(f, xs[..i])
    {
      MapSnoc(f, xs[..i], xs[i]);
      assert xs[..i + 1] == xs[..i] + [xs[i]];
      items := items + [f(xs[i])];
      i := i + 1;
    }
    assert xs[..i] == xs;
  }
}
