/**
 * The records the plugin reads from its WordPress host. Host calls are not
 * modelled: what they return is supplied as data (a registry becomes a
 * sequence in registration order, a filter becomes a function value).
 */
module Wp {
  import opened Php

  /** A registered block type (`WP_Block_Type`): its name, optional title,
      the parents it declares (an absent or non-array `parent` is `[]`) and
      whether it has a `render_callback`. */
  datatype BlockType = BlockType(
    name: string,
    title: Option<string>,
    parent: seq<string>,
    hasRenderCallback: bool)

  predicate DistinctBlockNames(ts: seq<BlockType>) {
    forall i, j :: 0 <= i < j < |ts| ==> ts[i].name != ts[j].name
  }

  /** `WP_Block_Type_Registry::get_all_registered()`: keyed by block name,
      so no name occurs twice; the order is registration order. */
  type BlockTypes = ts: seq<BlockType> | DistinctBlockNames(ts) witness []

  /** One node of the tree `parse_blocks` returns; a null `blockName`
      (freeform HTML) is the empty string. */
  datatype ParsedBlock = ParsedBlock(blockName: string, innerBlocks: seq<ParsedBlock>)

  /** What block-level code needs from the host: whether the block type
      registry class is loaded, its registered types, `parse_blocks`, and the
      `wp_vrt_is_dynamic_block` filter (applied to the default verdict). */
  datatype BlockEnv = BlockEnv(
    registryLoaded: bool,
    types: BlockTypes,
    parse: string -> seq<ParsedBlock>,
    dynamicFilter: (bool, string) -> bool)

  /** A block style of `WP_Block_Styles_Registry`; a missing name is "". */
  datatype BlockStyle = BlockStyle(name: string, styleLabel: Option<string>)

  /** The enablement filter chain. Every filter receives the verdict so far
      and the item's type and identifier (the item object itself is not
      passed on in this model). */
  datatype EnableFilters = EnableFilters(
    isItemEnabled: (bool, string, string) -> bool,  // wp_vrt_is_item_enabled
    blockEnabled: (bool, string) -> bool,           // wp_vrt_block_enabled
    patternEnabled: (bool, string) -> bool,         // wp_vrt_pattern_enabled
    templateEnabled: (bool, string) -> bool,        // wp_vrt_template_enabled
    templatePartEnabled: (bool, string) -> bool)    // wp_vrt_template_part_enabled

  /** The filter chain with no callbacks registered: every item is enabled. */
  ghost predicate NoEnableCallbacks(f: EnableFilters) {
    && (forall e, t, n :: f.isItemEnabled(e, t, n) == e)
    && (forall e, n :: f.blockEnabled(e, n) == e)
    && (forall e, n :: f.patternEnabled(e, n) == e)
    && (forall e, n :: f.templateEnabled(e, n) == e)
    && (forall e, n :: f.templatePartEnabled(e, n) == e)
  }

  /** `block_name_to_slug` and `pattern_name_to_slug`: every `/` becomes `-`. */
  function NameToSlug(name: string): (slug: string)
    ensures |slug| == |name| && '/' !in slug
    ensures forall i :: 0 <= i < |name| ==> slug[i] == (if name[i] == '/' then '-' else name[i])
  {
    ReplaceChar(name, '/', '-')
  }

  /** A slug is its own slug. */
  lemma NameToSlugIdempotent(name: string)
    ensures NameToSlug(NameToSlug(name)) == NameToSlug(name)
  {
  }

  /** Distinct names can share a slug, so resolution must pick one. */
  lemma SlugsCollide()
    ensures NameToSlug("a/b") == NameToSlug("a-b") == "a-b"
  {
    assert NameToSlug("a/b") == "a-b";
    assert NameToSlug("a-b") == "a-b";
  }
}
