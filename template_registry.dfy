/**
 * The template catalogue (class TemplateRegistry): block templates and
 * template parts as the site's `get_block_templates` returns them.
 */
module TemplateRegistry {
  import opened Php
  import opened Wp
  import DynamicContext

  /** A `WP_Block_Template`: missing `title`, `content` or `area` are None. */
  datatype Template = Template(slug: string, title: Option<string>, content: Option<string>, area: Option<string>)

  /** The two kinds of template the catalogue serves. */
  datatype Kind = WholeTemplate | TemplatePart

  /** The post type passed to `get_block_templates`. */
  function PostType(k: Kind): string {
    match k
    case WholeTemplate => "wp_template"
    case TemplatePart => "wp_template_part"
  }

  /** The item type passed to the enablement filters. */
  function ItemType(k: Kind): string {
    match k
    case WholeTemplate => "template"
    case TemplatePart => "template-part"
  }

  /** What the registry reads from WordPress: `get_block_templates([], $type)`. */
  datatype TemplateHost = TemplateHost(
    env: BlockEnv,
    filters: EnableFilters,
    getBlockTemplates: string -> seq<Template>)

  function Templates(host: TemplateHost, k: Kind): seq<Template> {
    host.getBlockTemplates(PostType(k))
  }

  // ------------------------------------------------------------ enablement

  /** `is_template_enabled`: `wp_vrt_is_item_enabled`, then the filter of
      the item's own kind. */
  predicate IsTemplateEnabled(filters: EnableFilters, itemType: string, t: Template) {
    var enabled := filters.isItemEnabled(true, itemType, t.slug);
    if itemType == "template" then filters.templateEnabled(enabled, t.slug)
    else filters.templatePartEnabled(enabled, t.slug)
  }

  /** Templates go through `wp_vrt_template_enabled` only and parts through
      `wp_vrt_template_part_enabled` only. */
  lemma TemplateEnabledChain(filters: EnableFilters, t: Template)
    ensures IsTemplateEnabled(filters, ItemType(WholeTemplate), t) ==
      filters.templateEnabled(filters.isItemEnabled(true, "template", t.slug), t.slug)
    ensures IsTemplateEnabled(filters, ItemType(TemplatePart), t) ==
      filters.templatePartEnabled(filters.isItemEnabled(true, "template-part", t.slug), t.slug)
  {
    assert ItemType(TemplatePart) != "template";
  }

  lemma TemplateEnabledWithoutFilters(filters: EnableFilters, k: Kind, t: Template)
    requires NoEnableCallbacks(filters)
    ensures IsTemplateEnabled(filters, ItemType(k), t)
  {
  }

  // ---------------------------------------------------------------- lookup

  /** The position of the first template with the slug. */
  function FirstWithSlug(ts: seq<Template>, slug: string): (r: Option<nat>)
    ensures r.Some? ==> r.value < |ts| && ts[r.value].slug == slug
    ensures r.Some? ==> forall j :: 0 <= j < r.value ==> ts[j].slug != slug
    ensures r.None? ==> forall j :: 0 <= j < |ts| ==> ts[j].slug != slug
  {
    if ts == [] then None
    else if ts[0].slug == slug then Some(0)
    else
      var rest := FirstWithSlug(ts[1..], slug);
      if rest.Some? then Some(rest.value + 1) else None
  }

  /** `get_template_by_slug`: nothing for the empty slug, otherwise the
      first template of the kind with that slug. */
  function TemplateBySlug(host: TemplateHost, slug: string, k: Kind): (r: Option<Template>)
    ensures r.Some? ==> r.value.slug == slug && r.value in Templates(host, k)
    ensures slug == "" ==> r.None?
    ensures slug != "" && (exists t :: t in Templates(host, k) && t.slug == slug) ==> r.Some?
  {
    if slug == "" then None
    else
      var ts := Templates(host, k);
      var i := FirstWithSlug(ts, slug);
      if i.Some? then Some(ts[i.value]) else None
  }

  method GetTemplateBySlug(host: TemplateHost, slug: string, k: Kind) returns (r: Option<Template>)
    ensures r == TemplateBySlug(host, slug, k)
  {
    if slug == "" {
      return None;
    }
    var ts := host.getBlockTemplates(PostType(k));
    var i := 0;
    while i < |ts|
      invariant 0 <= i <= |ts|
      invariant forall j :: 0 <= j < i ==> ts[j].slug != slug
    {
      if ts[i].slug == slug {
        return Some(ts[i]);
      }
      i := i + 1;
    }
    return None;
  }

  /** `get_template_content` (whole templates) and `get_template_part_content`
      (parts): None when no template has the slug or its content is empty. */
  function TemplateContent(host: TemplateHost, slug: string, k: Kind): (r: Option<string>)
    ensures r.Some? ==> Truthy(r.value)
    ensures r.Some? <==> (var t := TemplateBySlug(host, slug, k); t.Some? && TruthyOpt(t.value.content))
    ensures r.Some? ==> exists t :: t in Templates(host, k) && t.slug == slug && t.content == r
  {
    var t := TemplateBySlug(host, slug, k);
    if t.None? || !TruthyOpt(t.value.content) then None else t.value.content
  }

  /** The enable filters play no part in a template's content. */
  lemma TemplateContentIgnoresFilters(host: TemplateHost, f: EnableFilters, slug: string, k: Kind)
    ensures TemplateContent(host.(filters := f), slug, k) == TemplateContent(host, slug, k)
  {
    assert Templates(host.(filters := f), k) == Templates(host, k);
  }

  method GetTemplateContent(host: TemplateHost, slug: string, k: Kind) returns (r: Option<string>)
    ensures r == TemplateContent(host, slug, k)
  {
    var template := GetTemplateBySlug(host, slug, k);
    if template.None? || !TruthyOpt(template.value.content) {
      return None;
    }
    r := Some(template.value.content.value);
  }

  // --------------------------------------------------------------- listing

  /** One entry of `get_discoverable_templates` or of
      `get_discoverable_template_parts` (which also reports the area). */
  datatype Item =
    | TemplateItem(slug: string, title: string, isDynamic: bool, disabled: bool)
    | PartItem(slug: string, title: string, area: Option<string>, isDynamic: bool, disabled: bool)

  /** Empty content is never parsed for dynamic blocks. */
  function IsDynamicContent(env: BlockEnv, content: Option<string>): (r: bool)
    ensures !TruthyOpt(content) ==> !r
  {
    if TruthyOpt(content) then DynamicContext.ContentHasDynamicBlocks(env, content.value) else false
  }

  function ItemFor(host: TemplateHost, k: Kind, t: Template): Item {
    var title := Coalesce(t.title, t.slug);
    var isDynamic := IsDynamicContent(host.env, t.content);
    var disabled := !IsTemplateEnabled(host.filters, ItemType(k), t);
    match k
    case WholeTemplate => TemplateItem(t.slug, title, isDynamic, disabled)
    case TemplatePart => PartItem(t.slug, title, t.area, isDynamic, disabled)
  }

  function ItemOf(host: TemplateHost, k: Kind): Template -> Item {
    t => ItemFor(host, k, t)
  }

  predicate Listed(host: TemplateHost, k: Kind, includeDisabled: bool, t: Template) {
    includeDisabled || IsTemplateEnabled(host.filters, ItemType(k), t)
  }

  function ListedIn(host: TemplateHost, k: Kind, includeDisabled: bool): Template -> bool {
    t => Listed(host, k, includeDisabled, t)
  }

  /** The listing of one kind, before its output filter. */
  function Discoverable(host: TemplateHost, k: Kind, includeDisabled: bool): seq<Item> {
    Map(ItemOf(host, k), Filter(ListedIn(host, k, includeDisabled), Templates(host, k)))
  }

  /** Each item describes a template of the kind: the matching constructor,
      the title defaulting to the slug, a part's area as the host has it,
      no dynamic flag without content, and no disabled item unless asked for. */
  lemma DiscoverableShape(host: TemplateHost, k: Kind, includeDisabled: bool)
    ensures forall e :: e in Discoverable(host, k, includeDisabled) ==>
      && (k == WholeTemplate <==> e.TemplateItem?)
      && (!includeDisabled ==> !e.disabled)
      && exists t :: (t in Templates(host, k) && e.slug == t.slug && e.title == Coalesce(t.title, t.slug)
           && (e.PartItem? ==> e.area == t.area) && (!TruthyOpt(t.content) ==> !e.isDynamic))
  {
    var kept := Filter(ListedIn(host, k, includeDisabled), Templates(host, k));
    forall e | e in Discoverable(host, k, includeDisabled)
      ensures (k == WholeTemplate <==> e.TemplateItem?) && (!includeDisabled ==> !e.disabled)
      ensures exists t :: (t in Templates(host, k) && e.slug == t.slug && e.title == Coalesce(t.title, t.slug)
        && (e.PartItem? ==> e.area == t.area) && (!TruthyOpt(t.content) ==> !e.isDynamic))
    {
      var i :| 0 <= i < |kept| && Discoverable(host, k, includeDisabled)[i] == e;
      var t := kept[i];
      assert t in kept;
      assert ListedIn(host, k, includeDisabled)(t);
      assert e == ItemFor(host, k, t);
    }
  }

  predicate NotDisabled(e: Item) {
    !e.disabled
  }

  /** The listing without disabled templates is the full listing with the
      disabled items removed, in host order. */
  lemma DiscoverableWithoutDisabled(host: TemplateHost, k: Kind)
    ensures Discoverable(host, k, false) == Filter(NotDisabled, Discoverable(host, k, true))
  {
    MapFilterCommute(ItemOf(host, k), ListedIn(host, k, false), ListedIn(host, k, true), NotDisabled, Templates(host, k));
  }

  /** Every listed template is found again by its slug, unless the slug is empty. */
  lemma ListedTemplateFound(host: TemplateHost, k: Kind, includeDisabled: bool, e: Item)
    requires e in Discoverable(host, k, includeDisabled) && e.slug != ""
    ensures TemplateBySlug(host, e.slug, k).Some?
  {
    DiscoverableShape(host, k, includeDisabled);
  }

  /** The item a listing loop appends. */
  method MakeItem(host: TemplateHost, k: Kind, t: Template, enabled: bool) returns (item: Item)
    requires enabled == IsTemplateEnabled(host.filters, ItemType(k), t)
    ensures item == ItemFor(host, k, t)
  {
    var title := if t.title.Some? then t.title.value else t.slug;
    var isDynamic := if TruthyOpt(t.content) then DynamicContext.ContentHasDynamicBlocks(host.env, t.content.value) else false;
    if k == WholeTemplate {
      item := TemplateItem(t.slug, title, isDynamic, !enabled);
    } else {
      item := PartItem(t.slug, title, t.area, isDynamic, !enabled);
    }
  }

  /** `get_discoverable_templates` (whole templates) and
      `get_discoverable_template_parts` (parts). */
  method GetDiscoverable(host: TemplateHost, k: Kind, includeDisabled: bool) returns (items: seq<Item>)
    ensures items == Discoverable(host, k, includeDisabled)
  {
    var ts := host.getBlockTemplates(PostType(k));
    items := [];
    ghost var kept: seq<Template> := [];
    var i := 0;
    while i < |ts|
      invariant 0 <= i <= |ts|
      invariant kept == Filter(ListedIn(host, k, includeDisabled), ts[..i])
      invariant items == Map(ItemOf(host, k), kept)
    {
      var t := ts[i];
      FilterSnoc(ListedIn(host, k, includeDisabled), ts[..i], t);
      assert ts[..i + 1] == ts[..i] + [t];
      var enabled := IsTemplateEnabled(host.filters, ItemType(k), t);
      if enabled || includeDisabled {
        var item := MakeItem(host, k, t, enabled);
        MapSnoc(ItemOf(host, k), kept, t);
        items := items + [item];
        kept := kept + [t];
      }
      i := i + 1;
    }
    assert ts[..i] == ts;
  }
}
