# wp-vrt core in Dafny

wp-vrt is a WordPress plugin for visual regression testing. It serves a
standalone HTML page for every block, block pattern, template, template part
and scenario, under `/wp-vrt/{type}/{slug}[/{variation}]`. It lists these
pages in a discovery manifest (`/wp-json/wp-vrt/v1/discover`), in a wp-admin
page and through a WP-CLI command that takes a screenshot of each page.

This project models the plugin's catalogue-and-render pipeline, one Dafny
module per PHP class under `includes/`, and proves what that code promises:

- `SampleContent`: sample blocks for a block name, serialised as
  block-comment markup, with the `is-style-{variation}` class merged in.
- `BlockRegistry`, `PatternRegistry`, `TemplateRegistry`, `ScenarioRegistry`:
  - name-to-slug mapping and first-match slug resolution;
  - the allowlist/denylist support policy and the enable-filter chain;
  - the discoverable listings;
  - the registered-before-stored pattern merge;
  - block families;
  - scenario filtering.
- `DynamicContext`: the recursive dynamic-block search, and the
  `setup`/`reset`/`create_temporary_post` state machine. It is a class over
  a `Globals` object that holds `$wp_query`, `$wp_the_query`, `$post` and the
  posts table.
- `VirtualPages`:
  - the rewrite rule and request-URI parsing;
  - the `handle_request` decision: not handled, 400, 404 or a page;
  - the `load_content` dispatch;
  - the context reset that runs even when rendering throws.
- `Renderer`: the HTML document skeleton, its meta tags and the five style
  layers in fixed order.
- `StyleCollector`: the style layer map, block-library concatenation,
  style-handle content and URL-to-path prefix mapping.
- `DiscoveryApi`: the manifest built by `handle_discover`.
- `RestPatternFilters`: the editor's block-pattern listing without
  VRT-category patterns.
- `Cli`: `snapshot_slug`, `join_url`, the types list, `collect_items`, the
  HTTPS-to-HTTP retry in `fetch_discovery`, and the skip-on-failure loop of
  `generate_snapshots`.
- `AdminPage`: the data that `get_page_data` hands to the admin UI.

Two support modules stand in for the host:

- `Php` models the PHP built-ins the code relies on: truthiness,
  `empty()`, `??`, `trim`/`ltrim`/`rtrim`, `explode`, `implode`,
  `str_contains`, `str_replace` of one character, `strtolower`,
  `array_filter` and `array_map`.
- `Wp` holds the host WordPress records: block types, the enable filters,
  and `block_name_to_slug`.

WordPress itself is an input. Registries are sequences of records. Filters
(`apply_filters`) are function-typed fields of host records: the output of
each listing filter is an arbitrary function of its input. Host calls such as
`parse_blocks`, `do_blocks`, `wp_json_encode`, the `esc_*` functions,
`wp_parse_url`, `home_url`, `wp_remote_get` and the screenshot runner are
also function parameters.

Points where the code's behaviour is easy to misread:

- **Enablement**: whether an item is enabled is only the answer of the
  `wp_vrt_is_item_enabled` filter chain (includes/class-block-registry.php:123,
  includes/class-pattern-registry.php:179, includes/class-template-registry.php:81).
  The admin script posts `wp_vrt_toggle_item` (src/admin-page.js:19), but no
  PHP handler for it exists under `includes/`, so the filters are abstract
  predicates and nothing persists a disabled set.
- **Sample synthesis**: `get_block_content` tries the `wp_vrt_block_content`
  override, then the dynamic-block shell, then the built-in samples
  (includes/class-sample-content.php:37-249). An unknown block falls back to
  one block with empty content (lines 244-248).
- **Class merging**: `merge_class_name` de-duplicates by substring, not by
  token (includes/class-sample-content.php:251-262).
- **Scenario discovery**: the discovery endpoint passes `$include_disabled`
  to `get_discoverable_scenarios` (includes/class-discovery-api.php:89),
  which takes no parameter (includes/class-scenario-registry.php:10). The
  model ignores the extra argument, as PHP does.

## Model

| member | source | states |
|---|---|---|
| Wp.NameToSlug | includes/class-block-registry.php:84-86 | the slug has the name's length, holds no `/`, and has `-` exactly where the name had `/` |
| Wp.NameToSlugIdempotent | includes/class-pattern-registry.php:148-150 | slugging a slug changes nothing |
| Wp.SlugsCollide | includes/class-block-registry.php:84-86 | the mapping is not injective: `a/b` and `a-b` share the slug `a-b` |
| SampleContent.SetAttr | includes/class-sample-content.php:18-21 | after `$attrs[key] = v` the key reads `v`, every other key is unchanged, and a new key is appended at the end |
| SampleContent.MergeClassName | includes/class-sample-content.php:251-262 | with a blank existing list the result is `add`; when the trimmed list already contains `add` it is that trimmed list; otherwise it is the trimmed list, a space and `add`; so it always contains `add` and the trimmed list |
| SampleContent.MergeClassNameIdempotent | includes/class-sample-content.php:251-262 | for an `add` without surrounding whitespace, merging the same class twice equals merging it once |
| SampleContent.MergeClassNameTrailingSpace | includes/class-sample-content.php:251-262 | counterexample: with `add == "x "` a second merge yields `"x x "`, so idempotence needs the precondition above |
| SampleContent.PreparedAttrsStyleClass | includes/class-sample-content.php:18-21 | with a truthy variation the attributes are non-empty, `className` is a string containing `is-style-{variation}`, and no other attribute changes |
| SampleContent.PreparedAttrsNoVariation | includes/class-sample-content.php:18-21 | without a truthy variation the block's own attributes (or `[]`) are used unchanged |
| SampleContent.JsonSegmentOmittedIff | includes/class-sample-content.php:22-28 | when the encoder gives a truthy string for any non-empty array, the JSON segment is omitted exactly when the attributes are empty |
| SampleContent.BlockMarkups | includes/class-sample-content.php:17-32 | one markup piece per sample block |
| SampleContent.MarkupAppend | includes/class-sample-content.php:16-32 | the markup of a list of blocks is the concatenation, in order, of the markup of its parts |
| SampleContent.MarkupSingle | includes/class-sample-content.php:25-31 | one block's markup opens with `<!-- wp:NAME` and ends with `<!-- /wp:NAME -->` and a blank line |
| SampleContent.MarkupEmptyIff | includes/class-sample-content.php:12-32 | the markup is empty exactly when the block list is empty |
| SampleContent.HeadingBlocks | includes/class-sample-content.php:70-81 | the heading loop builds six blocks, the i-th being the level-(i+1) heading |
| SampleContent.BuiltInSample | includes/class-sample-content.php:49-242 | every built-in sample has at least one block |
| SampleContent.BlockContent | includes/class-sample-content.php:37-249 | the sample list is empty only when the override filter returns `[]` |
| SampleContent.OverrideWins | includes/class-sample-content.php:38-41 | an array from `wp_vrt_block_content` is returned verbatim, before every other source |
| SampleContent.DynamicPlaceholder | includes/class-sample-content.php:43-47 | without an override, a dynamic block gets one block holding only the filtered attributes |
| SampleContent.UnknownBlockFallback | includes/class-sample-content.php:244-248 | an unknown, non-dynamic block name without an override gets one block with empty content |
| SampleContent.HeadingSamplesLevels | includes/class-sample-content.php:70-81 | `core/heading` yields six blocks, levels 1..6 ascending, with content `<hN>Heading Level N</hN>` |
| SampleContent.GetBlockContent | includes/class-sample-content.php:37-249 | the method returns the sample list `BlockContent` specifies |
| SampleContent.AppendBlockMarkup | includes/class-sample-content.php:18-31 | one loop step appends exactly that block's markup |
| SampleContent.GenerateBlockMarkup | includes/class-sample-content.php:10-35 | the markup is the in-order serialisation of the sample blocks, and is `''` exactly when the override filter returned `[]` |
| DynamicContext.LookupBlockType | includes/class-dynamic-context.php:110-116 | a found block type is registered under that name; none is found only when no type has that name |
| DynamicContext.IsDynamicWithoutFilter | includes/class-dynamic-context.php:105-120 | with an identity filter, a block is dynamic exactly when its name is non-empty, the registry exists, and its registered type has a render callback |
| DynamicContext.ContainsDynamicBlockIff | includes/class-dynamic-context.php:90-103 | the search finds a dynamic block exactly when some node at any depth has a non-empty, dynamic block name |
| DynamicContext.NestedDynamicBlockDetected | includes/class-dynamic-context.php:90-103 | a dynamic block three levels down is detected |
| DynamicContext.ContentHasDynamicBlocks | includes/class-dynamic-context.php:77-84 | empty content has no dynamic blocks; otherwise the answer is the tree search over the parsed blocks |
| DynamicContext.Globals.constructor | includes/class-dynamic-context.php:37-39 | the globals start unset, over a valid posts table |
| DynamicContext.DynamicContext.constructor | includes/class-dynamic-context.php:9-13 | a new context has saved nothing and owns no temporary post |
| DynamicContext.DynamicContext.CreateTemporaryPost | includes/class-dynamic-context.php:122-141 | without a post type nothing changes; otherwise a fresh post is inserted under the next id, and only then is its id recorded |
| DynamicContext.DynamicContext.Setup | includes/class-dynamic-context.php:15-54 | it prefers the filtered post, then the latest post, then a temporary one; with none it touches no global; otherwise it saves the three prior globals, points both queries at a query for the chosen post, and sets `$post` to the post that query finds, as `the_post` does |
| DynamicContext.DynamicContext.Reset | includes/class-dynamic-context.php:56-75 | each query global is restored only when its saved value is set; `$post` is the saved post if set, else unchanged, and then `wp_reset_postdata` replaces it by the restored global query's post when there is one; the temporary post is deleted and forgotten, so a second reset deletes nothing |
| BlockRegistry.AllowlistOverridesDenylist | includes/class-block-registry.php:106-119 | with a non-empty allowlist, a block is supported exactly when listed, whatever the denylist |
| BlockRegistry.DenylistAlone | includes/class-block-registry.php:106-119 | with no (or an empty) allowlist, a block is supported exactly when it is not on the denylist |
| BlockRegistry.BlockEnabledWithoutFilters | includes/class-block-registry.php:121-126 | with no callbacks on the enable filters every block is enabled |
| BlockRegistry.FirstResolving | includes/class-block-registry.php:70-82 | the index found is the first supported registered block whose slug matches; none is found only when no block matches |
| BlockRegistry.GetBlockNameFromSlug | includes/class-block-registry.php:70-82 | the loop returns the first supported registered name, in registry order, whose slug is the input, or null |
| BlockRegistry.SlugRoundTrip | includes/class-block-registry.php:70-86 | a supported block whose slug no other block shares is found again from its slug |
| BlockRegistry.BlockContentFor | includes/class-block-registry.php:16-24 | found content is never `''` |
| BlockRegistry.BlockContentMissingIff | includes/class-block-registry.php:16-24 | the content is null exactly when the slug does not resolve or the override filter returned `[]`; enablement is not consulted |
| BlockRegistry.GetBlockContent | includes/class-block-registry.php:16-24 | the method returns the content `BlockContentFor` specifies |
| BlockRegistry.ToVariations | includes/class-block-registry.php:92-100 | one variation per kept style |
| BlockRegistry.Variations | includes/class-block-registry.php:88-104 | every variation has a truthy name |
| BlockRegistry.VariationsCount | includes/class-block-registry.php:88-104 | without a styles registry there are no variations; otherwise one per style with a non-empty name |
| BlockRegistry.GetBlockVariations | includes/class-block-registry.php:88-104 | the loop returns the variations `Variations` specifies, in registry order |
| BlockRegistry.EntriesFor | includes/class-block-registry.php:29-45 | one entry per listed block |
| BlockRegistry.DiscoverableBlocksShape | includes/class-block-registry.php:26-48 | every entry is a supported registered block, with its slug and its title defaulting to its name; without `include_disabled` none is disabled |
| BlockRegistry.EntriesFilterCommute | includes/class-block-registry.php:26-48 | listing without `include_disabled` equals listing with it and dropping the disabled entries |
| BlockRegistry.DiscoverableWithoutDisabled | includes/class-block-registry.php:26-48 | the listing without disabled blocks is the full listing minus its disabled entries, in order |
| BlockRegistry.DiscoverableNamesDistinct | includes/class-block-registry.php:26-48 | no block name is listed twice |
| BlockRegistry.MakeEntry | includes/class-block-registry.php:34-44 | one loop step builds the entry `EntryFor` specifies |
| BlockRegistry.GetDiscoverableBlocks | includes/class-block-registry.php:26-48 | the loop returns the listing `DiscoverableBlocks` specifies |
| BlockRegistry.FirstFamilyWith | includes/class-block-registry.php:154-165 | the index found is the first family holding the parent; none is found only when no family holds it |
| BlockRegistry.WithChild | includes/class-block-registry.php:159-163 | the family keeps its title, description and members, and now holds the child |
| BlockRegistry.AddMember | includes/class-block-registry.php:153-174 | the family count grows by at most one, and some family holds both parent and child |
| BlockRegistry.AddMemberChanges | includes/class-block-registry.php:153-174 | only the first family holding the parent changes, gaining the child; with no such family a new family of parent and child is appended |
| BlockRegistry.AddMemberIdempotent | includes/class-block-registry.php:153-174 | adding the same member twice equals adding it once |
| BlockRegistry.AddMemberKeepsTogether | includes/class-block-registry.php:153-174 | two blocks that shared a family still share one afterwards |
| BlockRegistry.AddParentsKeepsTogether | includes/class-block-registry.php:60-64 | adding a block under its parents keeps earlier pairs together |
| BlockRegistry.AddParentsJoins | includes/class-block-registry.php:60-64 | every parent of a block ends in a family with it |
| BlockRegistry.AddRegisteredKeepsTogether | includes/class-block-registry.php:55-65 | the loop over registered blocks keeps the default pairs together |
| BlockRegistry.AddRegisteredJoins | includes/class-block-registry.php:55-65 | every supported block ends in a family with each of its parents |
| BlockRegistry.AddFamilyMember | includes/class-block-registry.php:153-174 | the loop yields the families `AddMember` specifies |
| BlockRegistry.Strings | includes/class-block-registry.php:183 | exactly the string members are kept |
| BlockRegistry.Unique | includes/class-block-registry.php:183 | the result has no duplicates, has the same elements as its input, and is no longer |
| BlockRegistry.UniqueFirstOccurrences | includes/class-block-registry.php:183 | `array_unique` keeps first occurrences: every value of the result occurs in the input only after all values listed before it have occurred |
| BlockRegistry.Normalize | includes/class-block-registry.php:176-196 | there are no more families than before, and every family is non-empty and duplicate-free |
| BlockRegistry.NormalizedFamilyShape | includes/class-block-registry.php:178-192 | a family is kept exactly when it lists a string member; its title defaults to `Block Family` and its description to `''`; its members are exactly its string members, without duplicates, in the order of their first occurrence |
| BlockRegistry.NormalizeAppend | includes/class-block-registry.php:177-193 | families are normalised one at a time and keep their order: normalising two lists joined is joining their normalised lists |
| BlockRegistry.NormalizeSingle | includes/class-block-registry.php:177-193 | a single family becomes its normalised form, or nothing when it is dropped |
| BlockRegistry.NormalizeKeepsTogether | includes/class-block-registry.php:176-196 | two string members of one family stay together after normalisation |
| BlockRegistry.NormalizeFamilies | includes/class-block-registry.php:176-196 | the loop yields the families `Normalize` specifies |
| BlockRegistry.BlockFamiliesJoinParents | includes/class-block-registry.php:50-68 | every supported block shares a final family with each of its parents |
| BlockRegistry.BlockFamiliesKeepFiltered | includes/class-block-registry.php:50-68 | two blocks the families filter put together stay together |
| BlockRegistry.GetBlockFamilies | includes/class-block-registry.php:50-68 | the method returns the families `BlockFamilies` specifies |
| PatternRegistry.StoredPostTypes | includes/class-pattern-registry.php:100-110 | `wp_block_pattern` and `wp_block` are queried exactly when those post types exist |
| PatternRegistry.StoredName | includes/class-pattern-registry.php:122-125 | the name is never empty; it is `post_name` when that is a non-empty string, else `pattern-{ID}` |
| PatternRegistry.StoredPattern | includes/class-pattern-registry.php:121-143 | a stored pattern is named `user/` followed by its stored name; its title is the post title, or the stored name when the title is empty; it carries the post content and the term slugs |
| PatternRegistry.StoredPatternsOf | includes/class-pattern-registry.php:120-143 | one pattern per kept post |
| PatternRegistry.StoredPatternsShape | includes/class-pattern-registry.php:99-146 | every stored pattern is shaped from a fetched post that passes the post-type-or-category test |
| PatternRegistry.NoStoredWithoutPostTypes | includes/class-pattern-registry.php:100-110 | with neither post type registered there are no stored patterns |
| PatternRegistry.GetStoredPatterns | includes/class-pattern-registry.php:99-146 | the loop returns the patterns `StoredPatterns` specifies |
| PatternRegistry.PatternEnabledWithoutFilters | includes/class-pattern-registry.php:177-182 | with no callbacks on the enable filters every pattern is enabled |
| PatternRegistry.FirstWithSlug | includes/class-pattern-registry.php:78-94 | the index found is the first pattern whose slug matches; none is found only when no pattern matches |
| PatternRegistry.PatternBySlug | includes/class-pattern-registry.php:72-97 | a found pattern has that slug and is registered or stored; without the registry class nothing is found |
| PatternRegistry.RegisteredPatternWins | includes/class-pattern-registry.php:72-97 | a registered match is found, and it is a registered pattern no later than the given one; stored patterns are not consulted |
| PatternRegistry.FindWithSlug | includes/class-pattern-registry.php:78-94 | the loop returns the first match `FirstWithSlug` specifies |
| PatternRegistry.GetPatternBySlug | includes/class-pattern-registry.php:72-97 | the method returns the pattern `PatternBySlug` specifies |
| PatternRegistry.PatternContent | includes/class-pattern-registry.php:12-19 | content is null when nothing is found or the content is empty; found content is truthy |
| PatternRegistry.GetPatternContent | includes/class-pattern-registry.php:12-19 | the method returns the content `PatternContent` specifies |
| PatternRegistry.EntryFor | includes/class-pattern-registry.php:32-44 | the entry keeps the name, slugs it, defaults the title to the name, is never dynamic with empty content, and is disabled exactly when not enabled |
| PatternRegistry.IndexOfName | includes/class-pattern-registry.php:51-53 | a found index holds that name; none is found only when no entry has it |
| PatternRegistry.Put | includes/class-pattern-registry.php:37-44 | writing an entry under its name keeps names distinct, adds the entry and keeps the entries of other names |
| PatternRegistry.RegisteredPass | includes/class-pattern-registry.php:28-45 | the registered pass lists each name once, and only listed, non-empty-named patterns |
| PatternRegistry.RegisteredPassNames | includes/class-pattern-registry.php:28-45 | every registered pattern with a non-empty name that is enabled, or listed anyway under `include_disabled`, has an entry under its name |
| PatternRegistry.RegisteredPassLastWins | includes/class-pattern-registry.php:37-44 | `$patterns[$name] = …` overwrites: the last listed registered pattern of a name keeps exactly its own entry |
| PatternRegistry.StoredPass | includes/class-pattern-registry.php:47-67 | the stored pass keeps what came before, and appends only stored patterns whose name is not yet present |
| PatternRegistry.StoredPassNames | includes/class-pattern-registry.php:47-67 | every listed stored pattern has an entry under its name, either taken before or appended by the pass |
| PatternRegistry.StoredPassFirstWins | includes/class-pattern-registry.php:47-67 | the first listed stored pattern of a name not yet present is appended with exactly its entry, since `isset` skips later ones |
| PatternRegistry.DiscoverablePatternsShape | includes/class-pattern-registry.php:21-70 | names are unique and truthy; without the registry class the list is empty; without `include_disabled` none is disabled; every entry comes from a registered or stored pattern; conversely every listed registered or stored pattern has an entry under its name, the last registered pattern of a name is listed as it is, and so is the first stored pattern of a name no listed registered pattern has |
| PatternRegistry.RegisteredListedFirst | includes/class-pattern-registry.php:28-67 | registered patterns are listed first, and no stored entry repeats a registered name |
| PatternRegistry.MakeEntry | includes/class-pattern-registry.php:32-44 | one loop step builds the entry `EntryFor` specifies |
| PatternRegistry.ListRegistered | includes/class-pattern-registry.php:28-45 | the loop returns the entries `RegisteredPass` specifies |
| PatternRegistry.ListStored | includes/class-pattern-registry.php:47-67 | the loop returns the entries `StoredPass` specifies |
| PatternRegistry.GetDiscoverablePatterns | includes/class-pattern-registry.php:21-70 | the method returns the listing `DiscoverablePatterns` specifies |
| PatternRegistry.NamedPatternFound | includes/class-pattern-registry.php:72-97 | every registered or stored pattern with a truthy name is found from its slug |
| PatternRegistry.ListedPatternFound | includes/class-pattern-registry.php:21-97 | every listed pattern is found from its slug |
| TemplateRegistry.TemplateEnabledChain | includes/class-template-registry.php:79-86 | enablement applies `wp_vrt_is_item_enabled` first, then the template or template-part filter |
| TemplateRegistry.TemplateEnabledWithoutFilters | includes/class-template-registry.php:79-86 | with no callbacks every template and part is enabled |
| TemplateRegistry.FirstWithSlug | includes/class-template-registry.php:70-74 | the index found is the first template with that slug; none is found only when no template has it |
| TemplateRegistry.TemplateBySlug | includes/class-template-registry.php:65-77 | an empty slug finds nothing; any template with the slug makes the lookup succeed; a found template has that slug |
| TemplateRegistry.GetTemplateBySlug | includes/class-template-registry.php:65-77 | the loop returns the template `TemplateBySlug` specifies |
| TemplateRegistry.TemplateContent | includes/class-template-registry.php:10-26 | content is found exactly when the template is found and its content is non-empty; it is that template's content |
| TemplateRegistry.GetTemplateContent | includes/class-template-registry.php:10-26 | the method returns the content `TemplateContent` specifies |
| TemplateRegistry.IsDynamicContent | includes/class-template-registry.php:88-111 | empty content is never dynamic |
| TemplateRegistry.DiscoverableShape | includes/class-template-registry.php:28-63 | every item comes from a host template of its kind, with its slug, its title defaulting to the slug and its area; without `include_disabled` none is disabled |
| TemplateRegistry.DiscoverableWithoutDisabled | includes/class-template-registry.php:28-63 | the listing without disabled items is the full listing minus its disabled items, in host order |
| TemplateRegistry.ListedTemplateFound | includes/class-template-registry.php:28-77 | every listed item with a non-empty slug is found from that slug |
| TemplateRegistry.MakeItem | includes/class-template-registry.php:31-59 | one loop step builds the item `ItemFor` specifies |
| TemplateRegistry.GetDiscoverable | includes/class-template-registry.php:28-63 | the loop returns the listing `Discoverable` specifies |
| ScenarioRegistry.Scenarios | includes/class-scenario-registry.php:39-52 | a non-array filter result gives no scenarios; its kept entries are exactly the array entries with non-empty content |
| ScenarioRegistry.GetScenarios | includes/class-scenario-registry.php:39-52 | the loop returns the scenarios `Scenarios` specifies |
| ScenarioRegistry.IndexOf | includes/class-scenario-registry.php:27-30 | a found index has that key; none is found only when the key is absent |
| ScenarioRegistry.ScenarioContentIff | includes/class-scenario-registry.php:25-37 | content is found exactly when a kept scenario has the slug, and it is that scenario's content as text |
| ScenarioRegistry.CallableContentInvoked | includes/class-scenario-registry.php:31-36 | callable content yields what the callable outputs |
| ScenarioRegistry.GetScenarioContent | includes/class-scenario-registry.php:25-37 | the method returns the content `ScenarioContent` specifies |
| ScenarioRegistry.DiscoverableScenarios | includes/class-scenario-registry.php:10-23 | one item per array scenario, in the order of the listing: its slug, its title or else its slug, and its description as given |
| ScenarioRegistry.ListedScenarioHasContent | includes/class-scenario-registry.php:10-37 | every listed scenario has content, and no two items share a slug |
| ScenarioRegistry.GetDiscoverableScenarios | includes/class-scenario-registry.php:10-23 | the loop returns the items `DiscoverableScenarios` specifies |
| VirtualPages.RegisterQueryVars | includes/class-virtual-pages.php:20-25 | the three plugin query vars are appended after the existing ones |
| VirtualPages.RewriteRule | includes/class-virtual-pages.php:32-36 | a match has a non-empty type and slug, and no captured part holds `/` |
| VirtualPages.RewriteRuleShortForm | includes/class-virtual-pages.php:32-36 | `wp-vrt/{type}/{slug}` maps to the type, the slug and an empty variation |
| VirtualPages.RewriteRuleLongForm | includes/class-virtual-pages.php:32-36 | `wp-vrt/{type}/{slug}/{variation}`, with or without a trailing slash, maps to all three |
| VirtualPages.ParseRequestUri | includes/class-virtual-pages.php:94-119 | a parse needs a truthy request URI, and yields segments without `/` |
| VirtualPages.ParsePath | includes/class-virtual-pages.php:104-118 | the parsed segments hold no `/` |
| VirtualPages.ParseRequestUriShortForm | includes/class-virtual-pages.php:94-119 | `/wp-vrt/{type}/{slug}/` parses to the type, the slug and no variation |
| VirtualPages.ParsePathShortForm | includes/class-virtual-pages.php:104-118 | a three-segment path gives no variation |
| VirtualPages.ParseRequestUriLongForm | includes/class-virtual-pages.php:94-119 | `/wp-vrt/{type}/{slug}/{variation}/` parses to all three |
| VirtualPages.ParsePathLongForm | includes/class-virtual-pages.php:104-118 | a four-segment path gives the fourth segment as the variation |
| VirtualPages.ParsePathIgnoresExtraSegments | includes/class-virtual-pages.php:109-118 | segments after the fourth are ignored |
| VirtualPages.ParsePathNeedsSlug | includes/class-virtual-pages.php:109-112 | a path with fewer than three segments does not parse |
| VirtualPages.ParseRequestUriForeign | includes/class-virtual-pages.php:104-107 | a path that does not start with `wp-vrt/` is not handled |
| VirtualPages.LoadContent | includes/class-virtual-pages.php:121-152 | an empty slug or an unknown type gives null; each type dispatches to its own registry lookup |
| VirtualPages.GetContent | includes/class-virtual-pages.php:121-152 | the method returns the content `LoadContent` specifies |
| VirtualPages.LoadContentIgnoresEnablement | includes/class-virtual-pages.php:121-152 | the enable filters do not affect which content is served |
| VirtualPages.NormalizeVariation | includes/class-virtual-pages.php:54 | a missing or empty variation becomes null; any other is kept |
| VirtualPages.NotHandledIff | includes/class-virtual-pages.php:40-52 | the request is left to WordPress exactly when the type query var is falsy and the URI does not parse |
| VirtualPages.BadRequestBeforeLookup | includes/class-virtual-pages.php:56-59 | an unknown type gives 400, whatever the registries hold |
| VirtualPages.EmptySlugNotFound | includes/class-virtual-pages.php:61-64 | a known type with an empty slug gives 404 |
| VirtualPages.PageServed | includes/class-virtual-pages.php:39-92 | a page is served exactly when content is found and rendering does not throw; it is the filtered rendered document |
| VirtualPages.RewrittenEmptyVariationDropped | includes/class-virtual-pages.php:32-54 | a rewritten short URL sets an empty variation, which is then read as no variation |
| VirtualPages.RenderOrThrow | includes/class-virtual-pages.php:80-82 | the outcome is the rendered page, or the thrown error |
| VirtualPages.RenderInContext | includes/class-virtual-pages.php:74-87 | even when rendering throws: the posts table comes back unchanged, every query global that was set is restored, and `$post` ends as the restored global query's post when it has one, else as the saved post |
| VirtualPages.ResolveTarget | includes/class-virtual-pages.php:40-52 | the query-var triple is used when the type is truthy, else the URI fallback |
| VirtualPages.HandleRequest | includes/class-virtual-pages.php:39-92 | the outcome is the one `RequestOutcome` specifies; set query globals are restored, `$post` ends as `wp_reset_postdata` leaves it, and the posts table is unchanged; without dynamic blocks no global changes |
| Renderer.VariationSegments | includes/class-renderer.php:28-30 | the variation meta tag is emitted exactly when the variation is truthy |
| Renderer.OpeningSegments | includes/class-renderer.php:20-30 | the document starts with the doctype and has at least eight opening pieces |
| Renderer.LayerEntries | includes/class-renderer.php:32-51 | five layers, in the fixed order of the layer keys |
| Renderer.StyleSegmentsCount | includes/class-renderer.php:32-51 | with every layer empty no style block is emitted; with every layer non-empty all five are, in order |
| Renderer.HeadEndSegments | includes/class-renderer.php:53-57 | the head part ends with `</head>` |
| Renderer.BodySegments | includes/class-renderer.php:59-72 | the body part ends with the closing `</body></html>` |
| Renderer.FrameOfParts | includes/class-renderer.php:20-72 | a concatenation starts with its first piece and ends with its last |
| Renderer.DocumentFrame | includes/class-renderer.php:20-72 | before the output filter the document starts with `<!DOCTYPE html>` and ends with `</body>\n</html>` |
| Renderer.DocumentMeta | includes/class-renderer.php:18-30 | the title is `WP VRT: {type} - {slug}`, the type and slug meta tags always follow, and the variation tag appears exactly when the variation is truthy |
| Renderer.HeadOutputBeforeHeadEnd | includes/class-renderer.php:53-57 | non-empty head output sits immediately before `</head>` |
| Renderer.ContentInWrapper | includes/class-renderer.php:63-66 | the expanded content is wrapped in `<div class="wp-site-blocks">` |
| Renderer.RenderStyles | includes/class-renderer.php:32-51 | the style loop emits the style blocks `StyleSegments` specifies |
| Renderer.Render | includes/class-renderer.php:10-75 | the result is the output filter applied to the assembled document |
| StyleCollector.CollapseSlashes | includes/class-style-collector.php:96 | collapsing repeated slashes never lengthens a path |
| StyleCollector.CollapseSlashesNoop | includes/class-style-collector.php:96 | a path without `//` is unchanged |
| StyleCollector.NormalizePathNoop | includes/class-style-collector.php:96 | a path already in normal form is unchanged |
| StyleCollector.NormalizePathDoubledSlash | includes/class-style-collector.php:96 | normalising drops the extra slash of a doubled separator |
| StyleCollector.MapUrlToPath | includes/class-style-collector.php:90-114 | the corrected mapping: a URL without a path maps to null, and the includes directory is joined with a separator |
| StyleCollector.MapUrlToPathAsWritten | includes/class-style-collector.php:90-114 | the mapping as written: a URL without a path maps to null; the branches are stated by `MapUrlToPathOrder` |
| StyleCollector.MapUrlToPathOrder | includes/class-style-collector.php:90-114 | as written, a path maps exactly when the includes, content or site prefix matches; includes is tried first, then content, then site; the rest of the path goes after `ABSPATH . WPINC`, the content directory or `ABSPATH` respectively, and is normalised |
| StyleCollector.IncludesMappingAgreesWithSite | includes/class-style-collector.php:101-111 | with the corrected separator, the includes branch maps a file to the same place the site branch would |
| StyleCollector.IncludesBranch | includes/class-style-collector.php:101-102 | in the includes branch, the code as written joins `ABSPATH . WPINC . rest`; the corrected mapping puts a `/` after WPINC |
| StyleCollector.IncludesSeparatorMissing | includes/class-style-collector.php:101-102 | counterexample: `/wp-includes/css/x.css` maps to `/srv/wp/wp-includescss/x.css` as written, and to `/srv/wp/wp-includes/css/x.css` when corrected |
| StyleCollector.StyleHandleContent | includes/class-style-collector.php:64-88 | an unregistered handle, or one asked for before styles exist, gives `''` |
| StyleCollector.StyleHandleContentParts | includes/class-style-collector.php:64-88 | when `src` maps, as written, to a file that reads, the content is that file followed by the inline part; otherwise it is the inline part alone; it ends with the `after` entries joined by newlines, and with neither it is `''` |
| StyleCollector.GetStyleHandleContent | includes/class-style-collector.php:64-88 | the method returns the content `StyleHandleContent` specifies |
| StyleCollector.IncludesStylesheetNotRead | includes/class-style-collector.php:73-79 | consequence of the includes bug: a stylesheet under `/wp-includes/` contributes only its inline part, though the corrected mapping finds its file |
| StyleCollector.BlockLibraryStyles | includes/class-style-collector.php:36-53 | `''` without the host function; otherwise each of the two library handles' content, in order, each followed by a newline |
| StyleCollector.CollectBlockLibraryStyles | includes/class-style-collector.php:36-53 | the loop returns the styles `BlockLibraryStyles` specifies |
| StyleCollector.CollectedLayers | includes/class-style-collector.php:10-34 | `block-specific` is never written; `theme-json-variables` is the merged theme JSON's stylesheet when the resolver class exists and yields one, else `''`; `global-styles` is `wp_get_global_stylesheet()` when that function exists, else `''`; block-library and theme come from their collectors |
| StyleCollector.CollectAllStyles | includes/class-style-collector.php:10-34 | the result is the filter applied to the collected layers |
| DiscoveryApi.IncludeDisabledChoosesListings | includes/class-discovery-api.php:22-23 | the response for a missing `include_disabled` equals that for `'0'`, and every other value gives the same response as `'1'` |
| DiscoveryApi.BlockItemFor | includes/class-discovery-api.php:35-49 | a block item keeps name, title and disabled flag, has URL `/wp-vrt/block/{slug}`, and one variation item per variation with URL `/wp-vrt/block/{slug}/{name}` |
| DiscoveryApi.PatternItemFor | includes/class-discovery-api.php:56-63 | the pattern URL is `/wp-vrt/pattern/{slug}` |
| DiscoveryApi.TemplateItemFor | includes/class-discovery-api.php:68-74 | the template URL is `/wp-vrt/template/{slug}` |
| DiscoveryApi.PartItemFor | includes/class-discovery-api.php:79-86 | the part URL is `/wp-vrt/template-part/{slug}` |
| DiscoveryApi.ScenarioItemFor | includes/class-discovery-api.php:91-97 | the scenario URL is `/wp-vrt/scenario/{slug}`, and a scenario is never disabled |
| DiscoveryApi.DiscoverFollowsListings | includes/class-discovery-api.php:34-98 | each of the five arrays has its listing's length and order, item by item; scenarios do not depend on the parameter |
| DiscoveryApi.DiscoverWithoutDisabled | includes/class-discovery-api.php:22-107 | with identity listing filters and no `include_disabled`, no item in the manifest is disabled |
| DiscoveryApi.NoDisabledBlocks | includes/class-discovery-api.php:34-52 | with an identity filter, no listed block is disabled |
| DiscoveryApi.NoDisabledPatterns | includes/class-discovery-api.php:54-64 | with an identity filter, no listed pattern is disabled |
| DiscoveryApi.NoDisabledTemplates | includes/class-discovery-api.php:66-87 | with identity filters, no listed template or part is disabled |
| DiscoveryApi.ItemUrlRoutes | includes/class-discovery-api.php:59-95 | every item URL is routed, by the plugin's own rewrite rule, back to its type and slug |
| DiscoveryApi.BlockUrlsRoute | includes/class-discovery-api.php:34-52 | block and variation URLs route back to the block's slug and the variation's name |
| DiscoveryApi.VariationItems | includes/class-discovery-api.php:43-49 | the loop yields one variation item per variation, in order |
| DiscoveryApi.BlockItems | includes/class-discovery-api.php:34-52 | the loop yields one block item per listed block, in order |
| DiscoveryApi.PatternItems | includes/class-discovery-api.php:54-64 | the loop yields one item per listed pattern, in order |
| DiscoveryApi.TemplateItems | includes/class-discovery-api.php:66-75 | the loop yields one item per listed template, in order |
| DiscoveryApi.PartItems | includes/class-discovery-api.php:77-87 | the loop yields one item per listed part, in order |
| DiscoveryApi.ScenarioItems | includes/class-discovery-api.php:89-98 | the loop yields one item per listed scenario, in order |
| DiscoveryApi.HandleDiscover | includes/class-discovery-api.php:22-107 | the method returns the manifest `Discover` specifies |
| RestPatternFilters.PatternIsAllowedIff | includes/class-rest-pattern-filters.php:48-59 | a pattern is refused exactly when its categories array holds `visual-regression-testing` |
| RestPatternFilters.FilterBlockPatterns | includes/class-rest-pattern-filters.php:14-36 | a REST response stays a REST response, and anything else passes through |
| RestPatternFilters.FilterOnlyEditorListings | includes/class-rest-pattern-filters.php:14-46 | the response changes only for a list answering an edit-context request for `/wp/v2/block-patterns...` |
| RestPatternFilters.FilteredListing | includes/class-rest-pattern-filters.php:32-59 | the result is exactly the input minus VRT-category patterns; non-arrays and non-array categories are kept; with nothing to drop it is the input |
| RestPatternFilters.FilterIdempotent | includes/class-rest-pattern-filters.php:14-36 | filtering twice equals filtering once |
| Cli.CollapseRuns | includes/class-cli.php:216 | the result holds only `[a-z0-9-]` and no `--` |
| Cli.SnapshotSlug | includes/class-cli.php:214-218 | the slug holds only `[a-z0-9-]`, has no `--`, and does not start or end with `-` |
| Cli.SnapshotSlugIdempotent | includes/class-cli.php:214-218 | slugging a slug changes nothing |
| Cli.SnapshotSlugKeepsLettersAndDigits | includes/class-cli.php:214-218 | the slug keeps, in order, exactly the letters and digits of the lowercased input |
| Cli.CollapseRunsKeeps | includes/class-cli.php:216 | collapsing runs keeps every letter and digit, in order |
| Cli.JoinUrlPath | includes/class-cli.php:201-212 | an absolute `http(s)://` path is returned unchanged; every result ends with the path |
| Cli.JoinUrlOnce | includes/class-cli.php:206-211 | a base ending in `/wp-vrt/` and a path starting with `/wp-vrt/` give `/wp-vrt/` once |
| Cli.WantedTypes | includes/class-cli.php:63 | every requested type is non-empty and free of `,` |
| Cli.WantedTypesTrimmed | includes/class-cli.php:63 | every requested type is already trimmed |
| Cli.SnapshotOptions | includes/class-cli.php:44-49 | defaults: width 1200, height 800, the default types, `node`, and `{content dir}/wp-vrt-snapshots` |
| Cli.WantedTypesCons | includes/class-cli.php:63 | splitting on `,` handles the first item and then the rest |
| Cli.WantedTypesSingle | includes/class-cli.php:63 | one item gives its trimmed value, or nothing when blank |
| Cli.Prefix | includes/class-cli.php:119-169 | each kind's snapshot prefix is file-name safe and ends with `-` |
| Cli.PrefixesDistinct | includes/class-cli.php:119-169 | no snapshot name carries the prefixes of two kinds |
| Cli.EntrySnapshot | includes/class-cli.php:119-169 | an entry keeps its URL and gets a safe name with its kind's prefix |
| Cli.Group | includes/class-cli.php:119-133 | a block contributes its base entry, then one entry per variation, in order |
| Cli.BlocksCount | includes/class-cli.php:119-133 | the block section has one entry per block plus one per variation |
| Cli.BlocksKind | includes/class-cli.php:119-133 | every block-section entry is named `block-...` |
| Cli.PatternSnapshot | includes/class-cli.php:135-142 | a pattern entry keeps its URL |
| Cli.TemplateSnapshot | includes/class-cli.php:144-151 | a template entry keeps its URL |
| Cli.PartSnapshot | includes/class-cli.php:153-160 | a part entry, read from `template_parts`, keeps its URL |
| Cli.ScenarioSnapshot | includes/class-cli.php:162-169 | a scenario entry keeps its URL |
| Cli.CollectedNames | includes/class-cli.php:116-172 | every collected entry has a safe name, and its kind was requested |
| Cli.CollectedCount | includes/class-cli.php:116-172 | the collected count is the sum of the requested sections' sizes |
| Cli.CollectItemsIgnoresTypeOrder | includes/class-cli.php:116-172 | the output order is fixed (blocks, patterns, templates, parts, scenarios), whatever order the types were given in |
| Cli.CollectItemsOf | includes/class-cli.php:116-172 | the loops return the entries `CollectItems` specifies |
| Cli.FetchDiscovery | includes/class-cli.php:88-114 | the endpoint is tried first; one retry over `http://` happens exactly when an `https://` fetch failed; a body comes from an attempted address |
| Cli.RetryKeepsAddress | includes/class-cli.php:93-98 | the retry changes only the scheme |
| Cli.SnapshotEvent | includes/class-cli.php:74-84 | an item is saved exactly when the runner exits 0, at `{dir}/{name}.png`; otherwise a warning names its URL |
| Cli.SaveSnapshots | includes/class-cli.php:73-85 | the loop yields one event per item, in order; a failure does not stop it |
| Cli.SnapshotsRunEvents | includes/class-cli.php:43-86 | a run that reaches the loop has items, and saves only inside the output directory under safe names |
| Cli.SavedInDir | includes/class-cli.php:73-85 | every saved path is `{dir}/{safe name}.png` |
| Cli.NameSafe | includes/class-cli.php:116-172 | every collected snapshot name is safe |
| Cli.GenerateSnapshots | includes/class-cli.php:43-86 | the command's outcome is the one `SnapshotsRun` specifies |
| AdminPage.BlockLinks | includes/class-admin-page.php:117-130 | a block gives one link, then one per variation |
| AdminPage.BlockItemsCount | includes/class-admin-page.php:117-130 | the block tab has one item per block plus one per variation, so at least as many items as blocks |
| AdminPage.BlockItemsFrom | includes/class-admin-page.php:117-130 | every item links a listed block, or one of its variations labelled `Title - Label` with URL `.../block/{slug}/{name}` |
| AdminPage.FindBlock | includes/class-admin-page.php:136-141 | a block is found exactly when one of that name is listed, and the found block has that name |
| AdminPage.FamilyLinks | includes/class-admin-page.php:134-143 | a family has no more links than members, and every link is to a listed block |
| AdminPage.FamilyLinksNonEmpty | includes/class-admin-page.php:134-147 | a family with a listed member has at least one link |
| AdminPage.FamilyGroups | includes/class-admin-page.php:132-154 | there are no more groups than families |
| AdminPage.FamilyGroupsListed | includes/class-admin-page.php:132-154 | every group is non-empty, and holds only links to listed blocks |
| AdminPage.FamilyGroupKept | includes/class-admin-page.php:132-154 | a family with a listed member gets a group with its title and description |
| AdminPage.PartLabel | includes/class-admin-page.php:176-179 | the label starts with the title, and gains ` (area)` exactly when the area is non-empty |
| AdminPage.StatsMatchSections | includes/class-admin-page.php:195-233 | five stats, one per section in the fixed order, with matching labels; each count is its section's size, except that the block count is the number of blocks; only Blocks has groups |
| AdminPage.DynamicFlags | includes/class-admin-page.php:156-185 | pattern, template and part items carry their listing's `isDynamic`; block and scenario items carry none |
| AdminPage.BlockUrl | includes/class-admin-page.php:117-130 | block and variation links are the home URL followed by the manifest's URLs |
| AdminPage.PatternUrl | includes/class-admin-page.php:156-163 | a pattern link is the home URL followed by the manifest's URL |
| AdminPage.TemplateUrl | includes/class-admin-page.php:165-172 | a template link is the home URL followed by the manifest's URL |
| AdminPage.PartUrl | includes/class-admin-page.php:174-185 | a part link is the home URL followed by the manifest's URL |
| AdminPage.ScenarioUrl | includes/class-admin-page.php:187-193 | a scenario link is the home URL followed by the manifest's URL |
| AdminPage.ManifestLists | includes/class-admin-page.php:106-112 | the admin page and the manifest (without `include_disabled`) are built from the same listings and base URL |
| AdminPage.TabUrls | includes/class-admin-page.php:156-193 | each tab's i-th link is the home URL followed by the i-th manifest URL |
| AdminPage.GetPageData | includes/class-admin-page.php:105-234 | the method returns the page data `PageDataOf` specifies |
| AdminPage.BuildPageData | includes/class-admin-page.php:114-233 | the loops build the page data `PageDataFor` specifies |
| AdminPage.CollectBlockItems | includes/class-admin-page.php:117-130 | the nested loop yields the items `BlockItems` specifies |
| AdminPage.CollectFamilyItems | includes/class-admin-page.php:132-154 | the nested loop, with its skips, yields the groups `FamilyGroups` specifies |

## Left out

- I/O and host calls are function parameters:
  - `wp_remote_get`, `json_decode`, `proc_open`, `file_get_contents`/`file_exists`;
  - `get_posts`, `wp_insert_post`, `wp_delete_post`;
  - `parse_blocks`, `do_blocks`, `wp_json_encode`, `wp_parse_url`, `home_url`, the `esc_*` functions and `sanitize_html_class`.
- `wp_head`/`wp_footer` output capture: the captured text is an input to rendering.
- Whatever `get_posts` returns, and in what order, is taken as given.
- The enable filters see only the item type and identifier, not the whole item array passed as the filter's last argument.
- Listing filters (`wp_vrt_discoverable_*`, `wp_vrt_block_families`, `wp_vrt_collected_styles`) are arbitrary functions of their input. The collected-styles filter cannot add new keys, because the layer map is a record of five fields.
- StyleCollector.CollectedLayers: the `wp_common_block_scripts_and_styles` call has no modelled effect.
- The unused `$dynamic_blocks` arrays in the pattern and template registries have no effect on the result and are not modelled.
- BlockRegistry.GetBlockVariations: the `wp_vrt_block_variations` output filter is taken as identity.
- Scenario keys are strings only; PHP integer keys are not modelled.
- DiscoveryApi.HandleDiscover: the `timestamp` (`gmdate('c')`, a clock read) is the host's `now` string, and the HTTP status 200 is implicit.
- VirtualPages.HandleRequest:
  - the `error_log` debug lines are not modelled;
  - `status_header`, `header`, `echo`, `exit` and `wp_die` become the returned outcome;
  - rendering does not read the globals the context set up;
  - an exception from `render` is a flag of the host.
- Cli:
  - the runner is an abstract function of the argument vector, replacing `run_process`, `run_node` and its shell escaping;
  - `run_tests` and `init` are not modelled;
  - every manifest item is taken to carry its `url`; missing names and slugs fall back as the code's `??` chains say;
  - `(int)` casts of width and height take integers as given.
- Cli.FetchDiscovery: the https check is the `https://` prefix, and `set_url_scheme(..., 'http')` is `http://` followed by the rest of the address.
- Cli.WantedTypes: what the default types string splits into is not proved.
- AdminPage:
  - when a filtered block listing repeats a block name, a family links to the first listed block;
  - the `?? false` default of `isDynamic` is never reached, because every listing sets it;
  - `init`, `register_page`, `enqueue_assets`, `render_page` and `get_inline_styles` are not modelled (menu registration, the script bundle and inline CSS).
- SampleContent.MergeClassNameIdempotent: proved only for an `add` without surrounding whitespace; the MergeClassNameTrailingSpace counterexample shows why.
- The React admin UI (`src/admin-page.js`), `assets/cli/screenshot.mjs` and the `wp-vrt.php` bootstrap are not part of this model. The denylist set in `wp-vrt.php` is the `deny` input of the support policy.
- DynamicContext: a `WP_Query` is its id, its post type and the post it finds; the query's other arguments and state (`post_status => any`, the loop counter, `setup_postdata`'s `$id`, `$authordata` and page globals) are not modelled, and `FindPost` finds a post of that id and type in any status.
- DynamicContext.DynamicContext.Reset: `wp_reset_postdata` is modelled only by what it does to `$post`.
- Concurrency and persistence of WordPress state are out of scope.

## Findings

| source | as written | input that shows it | evidently intended | confidence | as-written member | corrected member |
|---|---|---|---|---|---|---|
| includes/class-style-collector.php:101-102 | the includes branch builds `ABSPATH . WPINC . substr($path, strlen($includes_path))`, and the left-over part has no leading `/` because the includes path ends in `/` | includes path `/wp-includes/`, `ABSPATH` `/srv/wp/`, URL path `/wp-includes/css/x.css` gives `/srv/wp/wp-includescss/x.css` | `ABSPATH . WPINC . '/' . rest`, which is `/srv/wp/wp-includes/css/x.css`, the file the site branch would also find | high, not executed | StyleCollector.MapUrlToPathAsWritten, StyleCollector.IncludesSeparatorMissing | StyleCollector.MapUrlToPath, StyleCollector.IncludesMappingAgreesWithSite |

The style pipeline (`FileContent`, `GetStyleHandleContent`, and the collected layers built from them) reads stylesheets through the mapping as written, as the plugin does. `IncludesStylesheetNotRead` states the effect: a core stylesheet under `/wp-includes/` contributes only its inline part. The corrected mapping `MapUrlToPath` is stated beside it and agrees with the site branch (`IncludesMappingAgreesWithSite`).
