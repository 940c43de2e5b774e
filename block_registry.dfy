/**
 * The block catalogue (class BlockRegistry): slugs of block names, the
 * allowlist/denylist support policy, slug resolution, listing with
 * enablement, style variations and block families.
 */
module BlockRegistry {
  import opened Php
  import opened Wp
  import SampleContent

  // ---------------------------------------------------------------- host

  /** The values of the `wp_vrt_block_allowlist` and `wp_vrt_block_denylist`
      filters; None stands for a filter result that is not an array. */
  datatype SupportLists = SupportLists(allowlist: Option<seq<string>>, denylist: Option<seq<string>>)

  /** An item of a family's `blocks` array: a block name, or some non-string value. */
  datatype Member = Name(name: string) | NotString

  /** A family as `wp_vrt_block_families` may return it: every key optional
      (None), `blocks` None also when it is not an array. */
  datatype RawFamily = RawFamily(title: Option<string>, description: Option<string>, blocks: Option<seq<Member>>)

  /** What the registry reads from WordPress. */
  datatype BlockHost = BlockHost(
    env: BlockEnv,
    hooks: SampleContent.ContentHooks,
    lists: SupportLists,
    filters: EnableFilters,
    stylesRegistryLoaded: bool,
    stylesFor: string -> seq<BlockStyle>,
    familiesFilter: seq<RawFamily> -> seq<RawFamily>)

  // ------------------------------------------------------- names, support

  /** `is_supported_block`: a non-empty allowlist decides alone; otherwise
      a block is supported unless the denylist names it. */
  predicate IsSupported(lists: SupportLists, name: string) {
    if lists.allowlist.Some? && lists.allowlist.value != [] then name in lists.allowlist.value
    else !(lists.denylist.Some? && name in lists.denylist.value)
  }

  /** With a non-empty allowlist the denylist is ignored. */
  lemma AllowlistOverridesDenylist(allow: seq<string>, deny1: Option<seq<string>>, deny2: Option<seq<string>>, name: string)
    requires allow != []
    ensures IsSupported(SupportLists(Some(allow), deny1), name) == IsSupported(SupportLists(Some(allow), deny2), name)
    ensures IsSupported(SupportLists(Some(allow), deny1), name) <==> name in allow
  {
  }

  /** With no allowlist, exactly the names outside the denylist are supported. */
  lemma DenylistAlone(allow: Option<seq<string>>, deny: seq<string>, name: string)
    requires allow.None? || allow == Some([])
    ensures IsSupported(SupportLists(allow, Some(deny)), name) <==> name !in deny
  {
  }

  /** `is_block_enabled`: `wp_vrt_is_item_enabled`, then `wp_vrt_block_enabled`. */
  predicate IsBlockEnabled(filters: EnableFilters, name: string) {
    filters.blockEnabled(filters.isItemEnabled(true, "block", name), name)
  }

  lemma BlockEnabledWithoutFilters(filters: EnableFilters, name: string)
    requires NoEnableCallbacks(filters)
    ensures IsBlockEnabled(filters, name)
  {
  }

  // ------------------------------------------------------ slug resolution

  /** Whether a registered name answers a slug lookup. */
  predicate Resolves(lists: SupportLists, name: string, slug: string) {
    IsSupported(lists, name) && NameToSlug(name) == slug
  }

  /** The position of the first registered block that answers the slug. */
  function FirstResolving(types: seq<BlockType>, lists: SupportLists, slug: string): (r: Option<nat>)
    ensures r.Some? ==> r.value < |types| && Resolves(lists, types[r.value].name, slug)
    ensures r.Some? ==> forall j :: 0 <= j < r.value ==> !Resolves(lists, types[j].name, slug)
    ensures r.None? ==> forall j :: 0 <= j < |types| ==> !Resolves(lists, types[j].name, slug)
  {
    if types == [] then None
    else if Resolves(lists, types[0].name, slug) then Some(0)
    else
      var rest := FirstResolving(types[1..], lists, slug);
      if rest.Some? then Some(rest.value + 1) else None
  }

  /** The block name a slug resolves to. */
  function NameFromSlug(types: seq<BlockType>, lists: SupportLists, slug: string): Option<string> {
    var i := FirstResolving(types, lists, slug);
    if i.Some? then Some(types[i.value].name) else None
  }

  /** `get_block_name_from_slug`: the first supported registered name, in
      registry order, whose slug is `slug`. */
  method GetBlockNameFromSlug(types: seq<BlockType>, lists: SupportLists, slug: string) returns (r: Option<string>)
    ensures r == NameFromSlug(types, lists, slug)
  {
    var i := 0;
    while i < |types|
      invariant 0 <= i <= |types|
      invariant forall j :: 0 <= j < i ==> !Resolves(lists, types[j].name, slug)
    {
      var name := types[i].name;
      if IsSupported(lists, name) && NameToSlug(name) == slug {
        return Some(name);
      }
      i := i + 1;
    }
    return None;
  }

  /** A supported block whose slug no other registered block shares is
      found again from its slug. */
  lemma SlugRoundTrip(types: BlockTypes, lists: SupportLists, k: nat)
    requires k < |types| && IsSupported(lists, types[k].name)
    requires forall j :: 0 <= j < |types| && j != k ==> NameToSlug(types[j].name) != NameToSlug(types[k].name)
    ensures NameFromSlug(types, lists, NameToSlug(types[k].name)) == Some(types[k].name)
  {
  }

  // ------------------------------------------------------ block content

  /** `BlockRegistry::get_block_content` */
  function BlockContentFor(host: BlockHost, slug: string, variation: Option<string>): (r: Option<string>)
    ensures r.Some? ==> r.value != ""
  {
    var name := NameFromSlug(host.env.types, host.lists, slug);
    if name.None? || !Truthy(name.value) then None
    else
      var markup := SampleContent.Markup(host.hooks, name.value, variation,
        SampleContent.BlockContent(host.env, host.hooks, name.value, variation));
      if markup != "" then Some(markup) else None
  }

  /** The enable filters play no part in a block's content. */
  lemma BlockContentIgnoresFilters(host: BlockHost, f: EnableFilters, slug: string, variation: Option<string>)
    ensures BlockContentFor(host.(filters := f), slug, variation) == BlockContentFor(host, slug, variation)
  {
  }

  /** Block content is missing exactly when the slug does not resolve to a
      truthy name or the content filter yields no block; enablement plays no part. */
  lemma BlockContentMissingIff(host: BlockHost, slug: string, variation: Option<string>)
    ensures var name := NameFromSlug(host.env.types, host.lists, slug);
      BlockContentFor(host, slug, variation).None? <==>
        (name.None? || !Truthy(name.value) || host.hooks.blockContent(name.value, variation) == Some([]))
  {
    var name := NameFromSlug(host.env.types, host.lists, slug);
    if name.Some? && Truthy(name.value) {
      SampleContent.MarkupEmptyIff(host.hooks, name.value, variation,
        SampleContent.BlockContent(host.env, host.hooks, name.value, variation));
    }
  }

  method GetBlockContent(host: BlockHost, slug: string, variation: Option<string>) returns (r: Option<string>)
    ensures r == BlockContentFor(host, slug, variation)
  {
    var name := GetBlockNameFromSlug(host.env.types, host.lists, slug);
    if name.None? || !Truthy(name.value) {
      return None;
    }
    var markup := SampleContent.GenerateBlockMarkup(host.env, host.hooks, name.value, variation);
    r := if markup != "" then Some(markup) else None;
  }

  // ------------------------------------------------------------ variations

  /** One entry of a block's `variations`. */
  datatype Variation = Variation(name: string, caption: string)

  predicate HasName(s: BlockStyle) {
    Truthy(s.name)
  }

  function ToVariation(s: BlockStyle): Variation {
    Variation(s.name, Coalesce(s.styleLabel, s.name))
  }

  function ToVariations(styles: seq<BlockStyle>): (r: seq<Variation>)
    ensures |r| == |styles|
  {
    seq(|styles|, i requires 0 <= i < |styles| => ToVariation(styles[i]))
  }

  lemma ToVariationsSnoc(styles: seq<BlockStyle>, s: BlockStyle)
    ensures ToVariations(styles + [s]) == ToVariations(styles) + [ToVariation(s)]
  {
  }

  /** `get_block_variations` (before its output filter): the styles with a
      truthy name, in registry order, the label defaulting to the name. */
  function Variations(host: BlockHost, blockName: string): (r: seq<Variation>)
    ensures forall i :: 0 <= i < |r| ==> Truthy(r[i].name)
  {
    if host.stylesRegistryLoaded then
      var kept := Filter(HasName, host.stylesFor(blockName));
      assert forall i :: 0 <= i < |kept| ==> kept[i] in kept;
      ToVariations(kept)
    else []
  }

  /** Without the styles registry there are no variations; with it, one per named style. */
  lemma VariationsCount(host: BlockHost, blockName: string)
    ensures !host.stylesRegistryLoaded ==> Variations(host, blockName) == []
    ensures host.stylesRegistryLoaded ==>
      |Variations(host, blockName)| == |Filter(HasName, host.stylesFor(blockName))| <= |host.stylesFor(blockName)|
  {
  }

  method GetBlockVariations(host: BlockHost, blockName: string) returns (variations: seq<Variation>)
    ensures variations == Variations(host, blockName)
  {
    variations := [];
    if host.stylesRegistryLoaded {
      var styles := host.stylesFor(blockName);
      ghost var kept: seq<BlockStyle> := [];
      var i := 0;
      while i < |styles|
        invariant 0 <= i <= |styles|
        invariant kept == Filter(HasName, styles[..i])
        invariant variations == ToVariations(kept)
      {
        var style := styles[i];
        FilterSnoc(HasName, styles[..i], style);
        assert styles[..i + 1] == styles[..i] + [style];
        if !Truthy(style.name) {
          i := i + 1;
          continue;
        }
        ToVariationsSnoc(kept, style);
        variations := variations + [Variation(style.name, if style.styleLabel.Some? then style.styleLabel.value else style.name)];
        kept := kept + [style];
        i := i + 1;
      }
      assert styles[..i] == styles;
    }
  }

  // ------------------------------------------------------------- listing

  /** One entry of `get_discoverable_blocks`. */
  datatype BlockEntry = BlockEntry(name: string, title: string, slug: string, variations: seq<Variation>, disabled: bool)

  predicate Listed(host: BlockHost, includeDisabled: bool, t: BlockType) {
    IsSupported(host.lists, t.name) && (includeDisabled || IsBlockEnabled(host.filters, t.name))
  }

  function ListedIn(host: BlockHost, includeDisabled: bool): BlockType -> bool {
    t => Listed(host, includeDisabled, t)
  }

  function EntryFor(host: BlockHost, t: BlockType): BlockEntry {
    BlockEntry(t.name, Coalesce(t.title, t.name), NameToSlug(t.name), Variations(host, t.name),
               !IsBlockEnabled(host.filters, t.name))
  }

  function EntriesFor(host: BlockHost, ts: seq<BlockType>): (r: seq<BlockEntry>)
    ensures |r| == |ts|
  {
    seq(|ts|, i requires 0 <= i < |ts| => EntryFor(host, ts[i]))
  }

  /** `get_discoverable_blocks` before its output filter. */
  function DiscoverableBlocks(host: BlockHost, includeDisabled: bool): seq<BlockEntry> {
    EntriesFor(host, Filter(ListedIn(host, includeDisabled), host.env.types))
  }

  /** Every listed block is supported and titled by its title or name; with
      `include_disabled` off no entry is disabled. */
  lemma DiscoverableBlocksShape(host: BlockHost, includeDisabled: bool)
    ensures forall e :: e in DiscoverableBlocks(host, includeDisabled) ==>
      && IsSupported(host.lists, e.name)
      && e.slug == NameToSlug(e.name)
      && (exists t :: t in host.env.types && t.name == e.name && e.title == Coalesce(t.title, t.name))
      && (!includeDisabled ==> !e.disabled)
  {
    var kept := Filter(ListedIn(host, includeDisabled), host.env.types);
    forall e | e in DiscoverableBlocks(host, includeDisabled)
      ensures IsSupported(host.lists, e.name)
      ensures exists t :: t in host.env.types && t.name == e.name && e.title == Coalesce(t.title, t.name)
      ensures !includeDisabled ==> !e.disabled
    {
      var i :| 0 <= i < |kept| && EntryFor(host, kept[i]) == e;
      assert kept[i] in kept;
      assert ListedIn(host, includeDisabled)(kept[i]);
    }
  }

  predicate NotDisabled(e: BlockEntry) {
    !e.disabled
  }

  lemma {:induction false} EntriesFilterCommute(host: BlockHost, ts: seq<BlockType>)
    ensures EntriesFor(host, Filter(ListedIn(host, false), ts)) == Filter(NotDisabled, EntriesFor(host, Filter(ListedIn(host, true), ts)))
  {
    if ts != [] {
      EntriesFilterCommute(host, ts[1..]);
      var t := ts[0];
      var restT := Filter(ListedIn(host, true), ts[1..]);
      var restF := Filter(ListedIn(host, false), ts[1..]);
      assert ts == [t] + ts[1..];
      if ListedIn(host, true)(t) {
        EntriesCons(host, t, restT);
        var e := EntryFor(host, t);
        assert ([e] + EntriesFor(host, restT))[1..] == EntriesFor(host, restT);
        if ListedIn(host, false)(t) {
          EntriesCons(host, t, restF);
        }
      }
    }
  }

  lemma EntriesCons(host: BlockHost, t: BlockType, ts: seq<BlockType>)
    ensures EntriesFor(host, [t] + ts) == [EntryFor(host, t)] + EntriesFor(host, ts)
  {
  }

  /** The listing without disabled blocks is the full listing with the
      disabled entries removed, in the same order. */
  lemma DiscoverableWithoutDisabled(host: BlockHost)
    ensures DiscoverableBlocks(host, false) == Filter(NotDisabled, DiscoverableBlocks(host, true))
  {
    EntriesFilterCommute(host, host.env.types);
  }

  lemma {:induction false} FilterKeepsDistinctNames(keep: BlockType -> bool, ts: seq<BlockType>)
    requires DistinctBlockNames(ts)
    ensures DistinctBlockNames(Filter(keep, ts))
  {
    if ts != [] {
      assert DistinctBlockNames(ts[1..]) by {
        forall i, j | 0 <= i < j < |ts[1..]| ensures ts[1..][i].name != ts[1..][j].name {
          assert ts[1..][i] == ts[i + 1] && ts[1..][j] == ts[j + 1];
        }
      }
      FilterKeepsDistinctNames(keep, ts[1..]);
      var rest := Filter(keep, ts[1..]);
      if keep(ts[0]) {
        forall j | 0 <= j < |rest| ensures rest[j].name != ts[0].name {
          assert rest[j] in ts[1..];
          var k :| 0 <= k < |ts[1..]| && ts[1..][k] == rest[j];
          assert ts[k + 1] == rest[j];
        }
        var r := [ts[0]] + rest;
        forall i, j | 0 <= i < j < |r| ensures r[i].name != r[j].name {
          if i > 0 {
            assert r[i] == rest[i - 1] && r[j] == rest[j - 1];
          } else {
            assert r[j] == rest[j - 1];
          }
        }
      }
    }
  }

  /** The listing is keyed by block name: no name appears twice. */
  lemma DiscoverableNamesDistinct(host: BlockHost, includeDisabled: bool)
    ensures var d := DiscoverableBlocks(host, includeDisabled);
      forall i, j :: 0 <= i < j < |d| ==> d[i].name != d[j].name
  {
    var kept := Filter(ListedIn(host, includeDisabled), host.env.types);
    FilterKeepsDistinctNames(ListedIn(host, includeDisabled), host.env.types);
    var d := DiscoverableBlocks(host, includeDisabled);
    forall i, j | 0 <= i < j < |d| ensures d[i].name != d[j].name {
      assert d[i].name == kept[i].name && d[j].name == kept[j].name;
    }
  }

  lemma EntriesSnoc(host: BlockHost, ts: seq<BlockType>, t: BlockType)
    ensures EntriesFor(host, ts + [t]) == EntriesFor(host, ts) + [EntryFor(host, t)]
  {
  }

  /** The entry `get_discoverable_blocks` builds for a listed block. */
  method MakeEntry(host: BlockHost, t: BlockType, enabled: bool) returns (entry: BlockEntry)
    requires enabled == IsBlockEnabled(host.filters, t.name)
    ensures entry == EntryFor(host, t)
  {
    var variations := GetBlockVariations(host, t.name);
    entry := BlockEntry(t.name, if t.title.Some? then t.title.value else t.name,
                        NameToSlug(t.name), variations, !enabled);
  }

  /** `get_discoverable_blocks` */
  method GetDiscoverableBlocks(host: BlockHost, includeDisabled: bool) returns (blocks: seq<BlockEntry>)
    ensures blocks == DiscoverableBlocks(host, includeDisabled)
  {
    var types := host.env.types;
    blocks := [];
    ghost var kept: seq<BlockType> := [];
    var i := 0;
    while i < |types|
      invariant 0 <= i <= |types|
      invariant kept == Filter(ListedIn(host, includeDisabled), types[..i])
      invariant blocks == EntriesFor(host, kept)
    {
      var t := types[i];
      FilterSnoc(ListedIn(host, includeDisabled), types[..i], t);
      assert types[..i + 1] == types[..i] + [t];
      if IsSupported(host.lists, t.name) {
        var enabled := IsBlockEnabled(host.filters, t.name);
        if enabled || includeDisabled {
          var entry := MakeEntry(host, t, enabled);
          EntriesSnoc(host, kept, t);
          blocks := blocks + [entry];
          kept := kept + [t];
        }
      }
      i := i + 1;
    }
    assert types[..i] == types;
  }

  // -------------------------------------------------------------- families

  /** Whether a family's `blocks` array holds the name (an empty or non-array
      `blocks` holds nothing). */
  predicate HasMember(f: RawFamily, name: string) {
    f.blocks.Some? && Name(name) in f.blocks.value
  }

  /** The position of the first family holding `parent`. */
  function FirstFamilyWith(families: seq<RawFamily>, parent: string): (r: Option<nat>)
    ensures r.Some? ==> r.value < |families| && HasMember(families[r.value], parent)
    ensures r.Some? ==> forall j :: 0 <= j < r.value ==> !HasMember(families[j], parent)
    ensures r.None? ==> forall j :: 0 <= j < |families| ==> !HasMember(families[j], parent)
  {
    if families == [] then None
    else if HasMember(families[0], parent) then Some(0)
    else
      var rest := FirstFamilyWith(families[1..], parent);
      if rest.Some? then Some(rest.value + 1) else None
  }

  /** The family with `child` appended to its blocks unless already present. */
  function WithChild(f: RawFamily, child: string): (r: RawFamily)
    requires f.blocks.Some?
    ensures r.title == f.title && r.description == f.description && r.blocks.Some?
    ensures forall m :: m in f.blocks.value ==> m in r.blocks.value
    ensures Name(child) in r.blocks.value
  {
    if Name(child) in f.blocks.value then f else f.(blocks := Some(f.blocks.value + [Name(child)]))
  }

  /** The family `add_family_member` creates for a parent no family holds. */
  function NewFamily(parent: string, child: string): RawFamily {
    RawFamily(Some(parent), Some("Auto-grouped blocks for " + parent + "."), Some([Name(parent), Name(child)]))
  }

  /** `add_family_member` */
  function AddMember(families: seq<RawFamily>, parent: string, child: string): (r: seq<RawFamily>)
    ensures |families| <= |r| <= |families| + 1
    ensures exists i :: 0 <= i < |r| && HasMember(r[i], parent) && HasMember(r[i], child)
  {
    var k := FirstFamilyWith(families, parent);
    if k.Some? then
      var r := families[k.value := WithChild(families[k.value], child)];
      assert HasMember(r[k.value], parent) && HasMember(r[k.value], child);
      r
    else
      var r := families + [NewFamily(parent, child)];
      assert HasMember(r[|families|], parent) && HasMember(r[|families|], child);
      r
  }

  /** Only the first family holding the parent changes, and only by gaining
      the child; when no family holds the parent, a new one is appended. */
  lemma AddMemberChanges(families: seq<RawFamily>, parent: string, child: string)
    ensures var r := AddMember(families, parent, child);
      match FirstFamilyWith(families, parent)
      case Some(k) =>
        |r| == |families| && r[k] == WithChild(families[k], child) &&
        forall j :: 0 <= j < |families| && j != k ==> r[j] == families[j]
      case None => r == families + [NewFamily(parent, child)]
  {
  }

  /** Adding the same member twice is the same as adding it once. */
  lemma AddMemberIdempotent(families: seq<RawFamily>, parent: string, child: string)
    ensures AddMember(AddMember(families, parent, child), parent, child) == AddMember(families, parent, child)
  {
    var r := AddMember(families, parent, child);
    match FirstFamilyWith(families, parent)
    case Some(k) =>
      var k2 := FirstFamilyWith(r, parent);
      assert HasMember(r[k], parent);
      assert forall j :: 0 <= j < k ==> r[j] == families[j];
      assert k2 == Some(k);
      assert r[k := WithChild(r[k], child)] == r;
    case None =>
      var n := |families|;
      assert forall j :: 0 <= j < n ==> r[j] == families[j];
      assert HasMember(r[n], parent);
      assert FirstFamilyWith(r, parent) == Some(n);
      assert Name(child) in r[n].blocks.value;
      assert r[n := WithChild(r[n], child)] == r;
  }

  /** Whether some family holds both names. */
  predicate Together(families: seq<RawFamily>, a: string, b: string) {
    exists i :: 0 <= i < |families| && HasMember(families[i], a) && HasMember(families[i], b)
  }

  /** Adding a member keeps every pair that already shared a family. */
  lemma AddMemberKeepsTogether(families: seq<RawFamily>, parent: string, child: string, a: string, b: string)
    requires Together(families, a, b)
    ensures Together(AddMember(families, parent, child), a, b)
  {
    var i :| 0 <= i < |families| && HasMember(families[i], a) && HasMember(families[i], b);
    var r := AddMember(families, parent, child);
    AddMemberChanges(families, parent, child);
    assert HasMember(r[i], a) && HasMember(r[i], b);
  }

  /** `add_family_member` for each parent in turn. */
  function AddParents(families: seq<RawFamily>, child: string, parents: seq<string>): seq<RawFamily> {
    if parents == [] then families
    else AddMember(AddParents(families, child, parents[..|parents| - 1]), parents[|parents| - 1], child)
  }

  /** The `foreach` over the registry in `get_block_families`. */
  function AddRegistered(families: seq<RawFamily>, lists: SupportLists, types: seq<BlockType>): seq<RawFamily> {
    if types == [] then families
    else
      var r := AddRegistered(families, lists, types[..|types| - 1]);
      var t := types[|types| - 1];
      if IsSupported(lists, t.name) && t.parent != [] then AddParents(r, t.name, t.parent) else r
  }

  lemma {:induction false} AddParentsKeepsTogether(families: seq<RawFamily>, child: string, parents: seq<string>, a: string, b: string)
    requires Together(families, a, b)
    ensures Together(AddParents(families, child, parents), a, b)
    decreases |parents|
  {
    if parents != [] {
      AddParentsKeepsTogether(families, child, parents[..|parents| - 1], a, b);
      AddMemberKeepsTogether(AddParents(families, child, parents[..|parents| - 1]), parents[|parents| - 1], child, a, b);
    }
  }

  lemma {:induction false} AddParentsJoins(families: seq<RawFamily>, child: string, parents: seq<string>, p: string)
    requires p in parents
    ensures Together(AddParents(families, child, parents), p, child)
    decreases |parents|
  {
    var init := parents[..|parents| - 1];
    var last := parents[|parents| - 1];
    if p == last {
      var r := AddMember(AddParents(families, child, init), last, child);
      var i :| 0 <= i < |r| && HasMember(r[i], last) && HasMember(r[i], child);
    } else {
      assert parents == init + [last];
      assert p in init;
      AddParentsJoins(families, child, init, p);
      AddMemberKeepsTogether(AddParents(families, child, init), last, child, p, child);
    }
  }

  lemma {:induction false} AddRegisteredKeepsTogether(families: seq<RawFamily>, lists: SupportLists, types: seq<BlockType>, a: string, b: string)
    requires Together(families, a, b)
    ensures Together(AddRegistered(families, lists, types), a, b)
    decreases |types|
  {
    if types != [] {
      AddRegisteredKeepsTogether(families, lists, types[..|types| - 1], a, b);
      var t := types[|types| - 1];
      if IsSupported(lists, t.name) && t.parent != [] {
        AddParentsKeepsTogether(AddRegistered(families, lists, types[..|types| - 1]), t.name, t.parent, a, b);
      }
    }
  }

  /** Every supported registered block ends up in a family with each parent it declares. */
  lemma {:induction false} AddRegisteredJoins(families: seq<RawFamily>, lists: SupportLists, types: seq<BlockType>, k: nat, p: string)
    requires k < |types| && IsSupported(lists, types[k].name) && p in types[k].parent
    ensures Together(AddRegistered(families, lists, types), p, types[k].name)
    decreases |types|
  {
    var init := types[..|types| - 1];
    var t := types[|types| - 1];
    if k == |types| - 1 {
      AddParentsJoins(AddRegistered(families, lists, init), t.name, t.parent, p);
    } else {
      assert init[k] == types[k];
      AddRegisteredJoins(families, lists, init, k, p);
      if IsSupported(lists, t.name) && t.parent != [] {
        AddParentsKeepsTogether(AddRegistered(families, lists, init), t.name, t.parent, p, types[k].name);
      }
    }
  }

  /** `add_family_member` as written: a scan for the first family holding
      the parent, then an append in place or a new family. */
  method AddFamilyMember(families: seq<RawFamily>, parent: string, child: string) returns (r: seq<RawFamily>)
    ensures r == AddMember(families, parent, child)
  {
    var index := 0;
    while index < |families|
      invariant 0 <= index <= |families|
      invariant forall j :: 0 <= j < index ==> !HasMember(families[j], parent)
    {
      var family := families[index];
      if family.blocks.None? || family.blocks.value == [] {
        index := index + 1;
        continue;
      }
      if Name(parent) in family.blocks.value {
        r := families;
        if Name(child) !in family.blocks.value {
          r := r[index := family.(blocks := Some(family.blocks.value + [Name(child)]))];
        }
        return;
      }
      index := index + 1;
    }
    r := families + [RawFamily(Some(parent), Some("Auto-grouped blocks for " + parent + "."), Some([Name(parent), Name(child)]))];
  }

  // ---------------------------------------------------------- normalising

  /** A family as the catalogue reports it. */
  datatype Family = Family(title: string, description: string, blocks: seq<string>)

  /** `array_filter($blocks, 'is_string')` */
  function Strings(ms: seq<Member>): (r: seq<string>)
    ensures forall x :: x in r <==> Name(x) in ms
  {
    if ms == [] then []
    else
      var rest := Strings(ms[1..]);
      assert forall m :: m in ms <==> m == ms[0] || m in ms[1..];
      if ms[0].Name? then [ms[0].name] + rest else rest
  }

  predicate Distinct(xs: seq<string>) {
    forall i, j :: 0 <= i < j < |xs| ==> xs[i] != xs[j]
  }

  /** `array_values(array_unique($xs))`: the first occurrence of each value, in order. */
  function Unique(xs: seq<string>): (r: seq<string>)
    ensures Distinct(r)
    ensures forall x :: x in r <==> x in xs
    ensures |r| <= |xs|
  {
    if xs == [] then []
    else
      var u := Unique(xs[..|xs| - 1]);
      var last := xs[|xs| - 1];
      assert forall x :: x in xs <==> x in xs[..|xs| - 1] || x == last by {
        assert xs == xs[..|xs| - 1] + [last];
      }
      if last in u then u else u + [last]
  }

  /** `r` lists values in the order of their first occurrences in `xs`:
      wherever a later value of `r` occurs in `xs`, each earlier one has
      already occurred. */
  ghost predicate FirstOccurrenceOrder(xs: seq<string>, r: seq<string>) {
    forall i, j, k :: 0 <= i < j < |r| && 0 <= k < |xs| && xs[k] == r[j] ==> r[i] in xs[..k]
  }

  /** `array_unique` keeps the first occurrence of each value, in order. */
  lemma {:induction false} UniqueFirstOccurrences(xs: seq<string>)
    ensures FirstOccurrenceOrder(xs, Unique(xs))
  {
    if xs != [] {
      var init := xs[..|xs| - 1];
      var last := xs[|xs| - 1];
      var u := Unique(init);
      var r := Unique(xs);
      UniqueFirstOccurrences(init);
      assert r == (if last in u then u else u + [last]);
      forall i, j, k | 0 <= i < j < |r| && 0 <= k < |xs| && xs[k] == r[j]
        ensures r[i] in xs[..k]
      {
        assert r[i] == u[i] && r[i] in init;
        if k == |xs| - 1 {
          assert xs[..k] == init;
        } else if j < |u| {
          assert r[j] == u[j] && init[k] == xs[k];
          assert init[..k] == xs[..k];
        }
      }
    }
  }

  /** A list without repetitions is left as it is. */
  lemma {:induction false} UniqueOfDistinct(xs: seq<string>)
    requires Distinct(xs)
    ensures Unique(xs) == xs
  {
    if xs != [] {
      var init := xs[..|xs| - 1];
      assert Distinct(init);
      UniqueOfDistinct(init);
      assert xs[|xs| - 1] !in init;
      assert init + [xs[|xs| - 1]] == xs;
    }
  }

  /** What `normalize_families` makes of one family. */
  function NormalizedFamily(f: RawFamily): Option<Family> {
    if f.blocks.None? || f.blocks.value == [] then None
    else
      var names := Unique(Strings(f.blocks.value));
      if names == [] then None
      else Some(Family(Coalesce(f.title, "Block Family"), Coalesce(f.description, ""), names))
  }

  /** A family is kept exactly when it has a string member; the title
      defaults to `Block Family` and the description to empty; the members
      are its string members, each once, in the order of their first
      occurrence. */
  lemma NormalizedFamilyShape(f: RawFamily)
    ensures var r := NormalizedFamily(f);
      && (r.Some? <==> f.blocks.Some? && exists x :: Name(x) in f.blocks.value)
      && (r.Some? ==>
           && r.value.title == (if f.title.Some? then f.title.value else "Block Family")
           && r.value.description == (if f.description.Some? then f.description.value else "")
           && (forall x :: x in r.value.blocks <==> Name(x) in f.blocks.value)
           && r.value.blocks != [] && Distinct(r.value.blocks)
           && FirstOccurrenceOrder(Strings(f.blocks.value), r.value.blocks))
  {
    if f.blocks.Some? && f.blocks.value != [] {
      var names := Unique(Strings(f.blocks.value));
      UniqueFirstOccurrences(Strings(f.blocks.value));
      assert names == [] ==> forall x :: Name(x) !in f.blocks.value;
      assert names != [] ==> names[0] in names;
    }
  }

  /** `normalize_families`: only string members, each once, and no family
      left without members. */
  function Normalize(families: seq<RawFamily>): (r: seq<Family>)
    ensures |r| <= |families|
    ensures forall i :: 0 <= i < |r| ==> r[i].blocks != [] && Distinct(r[i].blocks)
  {
    if families == [] then []
    else
      var init := Normalize(families[..|families| - 1]);
      NormalizedFamilyShape(families[|families| - 1]);
      match NormalizedFamily(families[|families| - 1])
      case Some(f) => init + [f]
      case None => init
  }

  /** Families are normalised one by one and stay in their order. */
  lemma {:induction false} NormalizeAppend(xs: seq<RawFamily>, ys: seq<RawFamily>)
    ensures Normalize(xs + ys) == Normalize(xs) + Normalize(ys)
    decreases |ys|
  {
    if ys == [] {
      assert xs + ys == xs;
    } else {
      var init := ys[..|ys| - 1];
      var last := ys[|ys| - 1];
      NormalizeAppend(xs, init);
      assert (xs + ys)[..|xs + ys| - 1] == xs + init;
      assert (xs + ys)[|xs + ys| - 1] == last;
      match NormalizedFamily(last)
      case Some(f) =>
        assert Normalize(xs) + Normalize(init) + [f] == Normalize(xs) + (Normalize(init) + [f]);
      case None =>
    }
  }

  /** One family is kept, normalised, or dropped. */
  lemma NormalizeSingle(f: RawFamily)
    ensures Normalize([f]) == if NormalizedFamily(f).Some? then [NormalizedFamily(f).value] else []
  {
    assert [f][..0] == [];
  }

  /** Names sharing a raw family still share a normalised one. */
  lemma {:induction false} NormalizeKeepsTogether(families: seq<RawFamily>, a: string, b: string)
    requires Together(families, a, b)
    ensures exists f :: f in Normalize(families) && a in f.blocks && b in f.blocks
    decreases |families|
  {
    var init := families[..|families| - 1];
    var last := families[|families| - 1];
    var i :| 0 <= i < |families| && HasMember(families[i], a) && HasMember(families[i], b);
    if i == |families| - 1 {
      var f := NormalizedFamily(last);
      NormalizedFamilyShape(last);
      assert a in Strings(last.blocks.value);
      assert f.Some? && a in f.value.blocks && b in f.value.blocks;
      assert f.value in Normalize(families);
    } else {
      assert init[i] == families[i];
      NormalizeKeepsTogether(init, a, b);
      var f :| f in Normalize(init) && a in f.blocks && b in f.blocks;
      assert f in Normalize(families);
    }
  }

  /** Normalising one more family of a prefix appends its normalised form, if kept. */
  lemma NormalizePrefixStep(families: seq<RawFamily>, i: nat)
    requires i < |families|
    ensures Normalize(families[..i + 1]) ==
      Normalize(families[..i]) + (if NormalizedFamily(families[i]).Some? then [NormalizedFamily(families[i]).value] else [])
  {
    assert families[..i + 1] == families[..i] + [families[i]];
    NormalizeAppend(families[..i], [families[i]]);
    NormalizeSingle(families[i]);
  }

  method NormalizeFamilies(families: seq<RawFamily>) returns (normalized: seq<Family>)
    ensures normalized == Normalize(families)
  {
    normalized := [];
    var i := 0;
    while i < |families|
      invariant 0 <= i <= |families|
      invariant normalized == Normalize(families[..i])
    {
      var family := families[i];
      NormalizePrefixStep(families, i);
      if family.blocks.None? || family.blocks.value == [] {
        i := i + 1;
        continue;
      }
      var blocks := Unique(Strings(family.blocks.value));
      if blocks == [] {
        i := i + 1;
        continue;
      }
      normalized := normalized + [Family(
        if family.title.Some? then family.title.value else "Block Family",
        if family.description.Some? then family.description.value else "",
        blocks)];
      i := i + 1;
    }
    assert families[..i] == families;
  }

  /** `get_default_families` */
  function DefaultFamilies(): seq<RawFamily> {
    [
      RawFamily(Some("Columns"), Some("Columns work with Column child blocks."),
                Some([Name("core/columns"), Name("core/column")])),
      RawFamily(Some("Buttons"), Some("Buttons container with Button items."),
                Some([Name("core/buttons"), Name("core/button")])),
      RawFamily(Some("Gallery"), Some("Gallery uses Image items."),
                Some([Name("core/gallery"), Name("core/image")])),
      RawFamily(Some("Navigation"), Some("Navigation is composed of link and submenu blocks."),
                Some([Name("core/navigation"), Name("core/navigation-link"), Name("core/navigation-submenu")]))
    ]
  }

  /** `get_block_families` */
  function BlockFamilies(host: BlockHost): seq<Family> {
    Normalize(AddRegistered(host.familiesFilter(DefaultFamilies()), host.lists, host.env.types))
  }

  /** Each supported block joins every parent it declares in one family. */
  lemma BlockFamiliesJoinParents(host: BlockHost, k: nat, p: string)
    requires k < |host.env.types| && IsSupported(host.lists, host.env.types[k].name)
    requires p in host.env.types[k].parent
    ensures exists f :: f in BlockFamilies(host) && p in f.blocks && host.env.types[k].name in f.blocks
  {
    var raw := AddRegistered(host.familiesFilter(DefaultFamilies()), host.lists, host.env.types);
    AddRegisteredJoins(host.familiesFilter(DefaultFamilies()), host.lists, host.env.types, k, p);
    NormalizeKeepsTogether(raw, p, host.env.types[k].name);
  }

  /** Families the filter supplies (or the defaults) keep their pairs of members. */
  lemma BlockFamiliesKeepFiltered(host: BlockHost, a: string, b: string)
    requires Together(host.familiesFilter(DefaultFamilies()), a, b)
    ensures exists f :: f in BlockFamilies(host) && a in f.blocks && b in f.blocks
  {
    AddRegisteredKeepsTogether(host.familiesFilter(DefaultFamilies()), host.lists, host.env.types, a, b);
    NormalizeKeepsTogether(AddRegistered(host.familiesFilter(DefaultFamilies()), host.lists, host.env.types), a, b);
  }

  method GetBlockFamilies(host: BlockHost) returns (families: seq<Family>)
    ensures families == BlockFamilies(host)
  {
    var raw := DefaultFamilies();
    raw := host.familiesFilter(raw);
    ghost var start := raw;
    var types := host.env.types;
    var i := 0;
    while i < |types|
      invariant 0 <= i <= |types|
      invariant raw == AddRegistered(start, host.lists, types[..i])
    {
      var t := types[i];
      assert types[..i + 1][..i] == types[..i];
      if !IsSupported(host.lists, t.name) {
        i := i + 1;
        continue;
      }
      if t.parent != [] {
        ghost var before := raw;
        var j := 0;
        while j < |t.parent|
          invariant 0 <= j <= |t.parent|
          invariant raw == AddParents(before, t.name, t.parent[..j])
        {
          assert t.parent[..j + 1][..j] == t.parent[..j];
          raw := AddFamilyMember(raw, t.parent[j], t.name);
          j := j + 1;
        }
        assert t.parent[..j] == t.parent;
      }
      i := i + 1;
    }
    assert types[..i] == types;
    families := NormalizeFamilies(raw);
  }
}
