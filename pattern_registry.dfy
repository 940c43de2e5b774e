/**
 * The pattern catalogue (class PatternRegistry): patterns of the block
 * patterns registry merged with patterns stored as posts, slug lookup and
 * pattern content.
 */
module PatternRegistry {
  import opened Php
  import opened Wp
  import DynamicContext

  /** `PatternRegistry::VRT_CATEGORY` */
  const VrtCategory: string := "visual-regression-testing"

  /** A pattern record. A missing or non-string `name` is ""; the other keys
      are None when missing. */
  datatype Pattern = Pattern(name: string, title: Option<string>, content: Option<string>, categories: Option<seq<string>>)

  /** A post of type `wp_block_pattern` or `wp_block` as `get_posts` returns
      it. `postName` is None when it is not a string; `terms` is None when
      `wp_get_object_terms` fails. */
  datatype StoredPost = StoredPost(
    id: nat,
    postName: Option<string>,
    postTitle: string,
    postContent: string,
    postType: string,
    terms: Option<seq<string>>)

  /** What the pattern registry reads from WordPress: whether the patterns
      registry class exists and what it holds, which of the two post types
      exist, and `get_posts` for a list of post types. */
  datatype PatternHost = PatternHost(
    env: BlockEnv,
    filters: EnableFilters,
    registryLoaded: bool,
    registered: seq<Pattern>,
    patternTypeExists: bool,
    blockTypeExists: bool,
    getPosts: seq<string> -> seq<StoredPost>)

  // -------------------------------------------------------- stored patterns

  /** The post types `get_stored_patterns` queries. */
  function StoredPostTypes(host: PatternHost): (r: seq<string>)
    ensures "wp_block_pattern" in r <==> host.patternTypeExists
    ensures "wp_block" in r <==> host.blockTypeExists
  {
    (if host.patternTypeExists then ["wp_block_pattern"] else []) + (if host.blockTypeExists then ["wp_block"] else [])
  }

  /** The post name, or `pattern-{ID}` when it is missing or empty. */
  function StoredName(p: StoredPost): (r: string)
    ensures r != ""
    ensures p.postName.Some? && p.postName.value != "" ==> r == p.postName.value
    ensures !(p.postName.Some? && p.postName.value != "") ==> r == "pattern-" + NatToString(p.id)
  {
    if p.postName.Some? && p.postName.value != "" then p.postName.value else "pattern-" + NatToString(p.id)
  }

  function TermSlugs(p: StoredPost): seq<string> {
    if p.terms.Some? then p.terms.value else []
  }

  /** A stored post is offered as a pattern when it is a pattern post or has
      a pattern category. */
  predicate ShouldInclude(p: StoredPost) {
    p.postType == "wp_block_pattern" || TermSlugs(p) != []
  }

  /** The record `get_stored_patterns` builds for a post. */
  function StoredPattern(p: StoredPost): (r: Pattern)
    ensures StartsWith(r.name, "user/") && Truthy(r.name)
    ensures r.name == "user/" + StoredName(p)
    ensures r.title.Some? && r.title.value != ""
    ensures r.title == Some(if p.postTitle != "" then p.postTitle else StoredName(p))
    ensures r.content == Some(p.postContent) && r.categories == Some(TermSlugs(p))
  {
    var name := StoredName(p);
    assert ("user/" + name)[..5] == "user/";
    Pattern("user/" + name, Some(if p.postTitle != "" then p.postTitle else name), Some(p.postContent), Some(TermSlugs(p)))
  }

  function StoredPatternsOf(posts: seq<StoredPost>): (r: seq<Pattern>)
    ensures |r| == |posts|
  {
    seq(|posts|, i requires 0 <= i < |posts| => StoredPattern(posts[i]))
  }

  /** `get_stored_patterns` */
  function StoredPatterns(host: PatternHost): seq<Pattern> {
    var types := StoredPostTypes(host);
    if types == [] then [] else StoredPatternsOf(Filter(ShouldInclude, host.getPosts(types)))
  }

  /** Every stored pattern comes from a post that is included, and carries a
      `user/` name. */
  lemma StoredPatternsShape(host: PatternHost)
    ensures forall q :: q in StoredPatterns(host) ==>
      StartsWith(q.name, "user/") &&
      exists p :: p in host.getPosts(StoredPostTypes(host)) && ShouldInclude(p) && q == StoredPattern(p)
  {
    var types := StoredPostTypes(host);
    if types != [] {
      var kept := Filter(ShouldInclude, host.getPosts(types));
      forall q | q in StoredPatterns(host)
        ensures exists p :: p in host.getPosts(types) && ShouldInclude(p) && q == StoredPattern(p)
      {
        var i :| 0 <= i < |kept| && StoredPatternsOf(kept)[i] == q;
        assert kept[i] in kept;
      }
    }
  }

  /** Without either post type no stored pattern exists. */
  lemma NoStoredWithoutPostTypes(host: PatternHost)
    requires !host.patternTypeExists && !host.blockTypeExists
    ensures StoredPatterns(host) == []
  {
  }

  lemma StoredPatternsSnoc(ps: seq<StoredPost>, p: StoredPost)
    ensures StoredPatternsOf(ps + [p]) == StoredPatternsOf(ps) + [StoredPattern(p)]
  {
  }

  method GetStoredPatterns(host: PatternHost) returns (patterns: seq<Pattern>)
    ensures patterns == StoredPatterns(host)
  {
    var postTypes: seq<string> := [];
    if host.patternTypeExists {
      postTypes := postTypes + ["wp_block_pattern"];
    }
    if host.blockTypeExists {
      postTypes := postTypes + ["wp_block"];
    }
    assert postTypes == StoredPostTypes(host);
    if postTypes == [] {
      return [];
    }
    var posts := host.getPosts(postTypes);
    patterns := [];
    ghost var kept: seq<StoredPost> := [];
    var i := 0;
    while i < |posts|
      invariant 0 <= i <= |posts|
      invariant kept == Filter(ShouldInclude, posts[..i])
      invariant patterns == StoredPatternsOf(kept)
    {
      var post := posts[i];
      FilterSnoc(ShouldInclude, posts[..i], post);
      assert posts[..i + 1] == posts[..i] + [post];
      var postName := if post.postName.Some? && post.postName.value != "" then post.postName.value
                      else "pattern-" + NatToString(post.id);
      var categories := if post.terms.Some? then post.terms.value else [];
      if post.postType == "wp_block_pattern" || categories != [] {
        StoredPatternsSnoc(kept, post);
        patterns := patterns + [Pattern("user/" + postName, Some(if post.postTitle != "" then post.postTitle else postName),
                                        Some(post.postContent), Some(categories))];
        kept := kept + [post];
      }
      i := i + 1;
    }
    assert posts[..i] == posts;
  }

  // ------------------------------------------------------------- lookup

  /** `is_pattern_enabled` */
  predicate IsPatternEnabled(filters: EnableFilters, p: Pattern) {
    filters.patternEnabled(filters.isItemEnabled(true, "pattern", p.name), p.name)
  }

  lemma PatternEnabledWithoutFilters(filters: EnableFilters, p: Pattern)
    requires NoEnableCallbacks(filters)
    ensures IsPatternEnabled(filters, p)
  {
  }

  predicate SlugMatches(p: Pattern, slug: string) {
    Truthy(p.name) && NameToSlug(p.name) == slug
  }

  /** The position of the first named pattern whose slug is `slug`. */
  function FirstWithSlug(ps: seq<Pattern>, slug: string): (r: Option<nat>)
    ensures r.Some? ==> r.value < |ps| && SlugMatches(ps[r.value], slug)
    ensures r.Some? ==> forall j :: 0 <= j < r.value ==> !SlugMatches(ps[j], slug)
    ensures r.None? ==> forall j :: 0 <= j < |ps| ==> !SlugMatches(ps[j], slug)
  {
    if ps == [] then None
    else if SlugMatches(ps[0], slug) then Some(0)
    else
      var rest := FirstWithSlug(ps[1..], slug);
      if rest.Some? then Some(rest.value + 1) else None
  }

  /** `get_pattern_by_slug`: registered patterns are searched before stored
      ones; nothing is found without the patterns registry. */
  function PatternBySlug(host: PatternHost, slug: string): (r: Option<Pattern>)
    ensures r.Some? ==> SlugMatches(r.value, slug)
    ensures r.Some? ==> r.value in host.registered || r.value in StoredPatterns(host)
    ensures !host.registryLoaded ==> r.None?
  {
    if !host.registryLoaded then None
    else
      var i := FirstWithSlug(host.registered, slug);
      if i.Some? then Some(host.registered[i.value])
      else
        var stored := StoredPatterns(host);
        var j := FirstWithSlug(stored, slug);
        if j.Some? then Some(stored[j.value]) else None
  }

  /** A registered pattern answering the slug hides every stored pattern. */
  lemma RegisteredPatternWins(host: PatternHost, slug: string, k: nat)
    requires host.registryLoaded && k < |host.registered| && SlugMatches(host.registered[k], slug)
    ensures PatternBySlug(host, slug).Some?
    ensures exists i :: 0 <= i <= k && PatternBySlug(host, slug) == Some(host.registered[i])
  {
    var i := FirstWithSlug(host.registered, slug);
    assert i.Some? && i.value <= k;
  }

  method FindWithSlug(ps: seq<Pattern>, slug: string) returns (r: Option<Pattern>)
    ensures r == (var i := FirstWithSlug(ps, slug); if i.Some? then Some(ps[i.value]) else None)
  {
    var i := 0;
    while i < |ps|
      invariant 0 <= i <= |ps|
      invariant forall j :: 0 <= j < i ==> !SlugMatches(ps[j], slug)
    {
      var pattern := ps[i];
      if Truthy(pattern.name) && NameToSlug(pattern.name) == slug {
        return Some(pattern);
      }
      i := i + 1;
    }
    return None;
  }

  method GetPatternBySlug(host: PatternHost, slug: string) returns (r: Option<Pattern>)
    ensures r == PatternBySlug(host, slug)
  {
    if !host.registryLoaded {
      return None;
    }
    r := FindWithSlug(host.registered, slug);
    if r.Some? {
      return;
    }
    var stored := GetStoredPatterns(host);
    r := FindWithSlug(stored, slug);
  }

  /** `get_pattern_content`: None when no pattern answers the slug or its
      content is empty. */
  function PatternContent(host: PatternHost, slug: string): (r: Option<string>)
    ensures r.Some? ==> Truthy(r.value)
    ensures PatternBySlug(host, slug).None? ==> r.None?
    ensures PatternBySlug(host, slug).Some? ==> r == (var c := PatternBySlug(host, slug).value.content; if TruthyOpt(c) then c else None)
  {
    var p := PatternBySlug(host, slug);
    if p.None? || !TruthyOpt(p.value.content) then None else Some(p.value.content.value)
  }

  /** The enable filters play no part in a pattern's content. */
  lemma PatternContentIgnoresFilters(host: PatternHost, f: EnableFilters, slug: string)
    ensures PatternContent(host.(filters := f), slug) == PatternContent(host, slug)
  {
    assert StoredPatterns(host.(filters := f)) == StoredPatterns(host);
    assert PatternBySlug(host.(filters := f), slug) == PatternBySlug(host, slug);
  }

  method GetPatternContent(host: PatternHost, slug: string) returns (r: Option<string>)
    ensures r == PatternContent(host, slug)
  {
    var pattern := GetPatternBySlug(host, slug);
    if pattern.None? || !TruthyOpt(pattern.value.content) {
      return None;
    }
    r := Some(pattern.value.content.value);
  }

  // ------------------------------------------------------------- listing

  /** One entry of `get_discoverable_patterns`. */
  datatype PatternEntry = PatternEntry(
    name: string,
    title: string,
    slug: string,
    categories: seq<string>,
    isDynamic: bool,
    disabled: bool)

  /** The entry built for a pattern; empty content is never dynamic. */
  function EntryFor(host: PatternHost, p: Pattern): (e: PatternEntry)
    ensures e.name == p.name && e.slug == NameToSlug(p.name)
    ensures e.title == Coalesce(p.title, p.name)
    ensures Coalesce(p.content, "") == "" ==> !e.isDynamic
    ensures e.disabled <==> !IsPatternEnabled(host.filters, p)
  {
    var content := Coalesce(p.content, "");
    PatternEntry(p.name, Coalesce(p.title, p.name), NameToSlug(p.name), Coalesce(p.categories, []),
                 if content != "" then DynamicContext.ContentHasDynamicBlocks(host.env, content) else false,
                 !IsPatternEnabled(host.filters, p))
  }

  predicate Listed(host: PatternHost, includeDisabled: bool, p: Pattern) {
    Truthy(p.name) && (includeDisabled || IsPatternEnabled(host.filters, p))
  }

  predicate DistinctNames(es: seq<PatternEntry>) {
    forall i, j :: 0 <= i < j < |es| ==> es[i].name != es[j].name
  }

  /** The position of the entry keyed `name`. */
  function IndexOfName(es: seq<PatternEntry>, name: string): (r: Option<nat>)
    ensures r.Some? ==> r.value < |es| && es[r.value].name == name
    ensures r.None? ==> forall j :: 0 <= j < |es| ==> es[j].name != name
  {
    if es == [] then None
    else if es[0].name == name then Some(0)
    else
      var rest := IndexOfName(es[1..], name);
      if rest.Some? then Some(rest.value + 1) else None
  }

  /** `$patterns[$name] = $entry` on a PHP array: an existing key keeps its
      position and gets the new value; a new key goes last. */
  function Put(es: seq<PatternEntry>, e: PatternEntry): (r: seq<PatternEntry>)
    ensures DistinctNames(es) ==> DistinctNames(r)
    ensures e in r
    ensures forall x :: x in r ==> x == e || x in es
    ensures forall x :: x in es && x.name != e.name ==> x in r
  {
    var i := IndexOfName(es, e.name);
    if i.Some? then
      var r := es[i.value := e];
      assert r[i.value] == e;
      assert forall k :: 0 <= k < |es| && k != i.value ==> r[k] == es[k];
      r
    else es + [e]
  }

  /** The first loop of `get_discoverable_patterns`, over the registry. */
  function RegisteredPass(host: PatternHost, includeDisabled: bool, ps: seq<Pattern>): (r: seq<PatternEntry>)
    ensures DistinctNames(r)
    ensures forall e :: e in r ==> exists p :: p in ps && Listed(host, includeDisabled, p) && e == EntryFor(host, p)
  {
    if ps == [] then []
    else
      var init := ps[..|ps| - 1];
      var p := ps[|ps| - 1];
      var acc := RegisteredPass(host, includeDisabled, init);
      assert forall x :: x in init ==> x in ps;
      if Listed(host, includeDisabled, p) then Put(acc, EntryFor(host, p)) else acc
  }

  /** The second loop, over stored patterns: a name already listed is skipped. */
  function StoredPass(host: PatternHost, includeDisabled: bool, acc: seq<PatternEntry>, ps: seq<Pattern>): (r: seq<PatternEntry>)
    ensures DistinctNames(acc) ==> DistinctNames(r)
    ensures |acc| <= |r| && r[..|acc|] == acc
    ensures forall j :: |acc| <= j < |r| ==>
      IndexOfName(acc, r[j].name).None? &&
      exists p :: p in ps && Listed(host, includeDisabled, p) && r[j] == EntryFor(host, p)
  {
    if ps == [] then acc
    else
      var init := ps[..|ps| - 1];
      var p := ps[|ps| - 1];
      var r := StoredPass(host, includeDisabled, acc, init);
      var extend := Listed(host, includeDisabled, p) && IndexOfName(r, p.name).None?;
      var res := if extend then r + [EntryFor(host, p)] else r;
      assert res[..|r|] == r;
      assert res[..|acc|] == acc;
      forall j | |acc| <= j < |res|
        ensures IndexOfName(acc, res[j].name).None?
        ensures exists x :: x in ps && Listed(host, includeDisabled, x) && res[j] == EntryFor(host, x)
      {
        if j < |r| {
          assert res[j] == r[j];
          var x :| x in init && Listed(host, includeDisabled, x) && r[j] == EntryFor(host, x);
          assert x in ps;
        } else {
          assert res[j] == EntryFor(host, p) && p in ps;
          forall k | 0 <= k < |acc| ensures acc[k].name != p.name {
            assert r[k] == acc[k];
          }
        }
      }
      assert DistinctNames(acc) ==> DistinctNames(res) by {
        if DistinctNames(acc) && extend {
          forall a, b | 0 <= a < b < |res| ensures res[a].name != res[b].name {
            if b == |r| { assert res[a] == r[a]; }
            else { assert res[a] == r[a] && res[b] == r[b]; }
          }
        }
      }
      res
  }

  /** `ps[i]` is listed and no later listed pattern of `ps` has its name. */
  ghost predicate LastListed(host: PatternHost, includeDisabled: bool, ps: seq<Pattern>, i: nat)
    requires i < |ps|
  {
    Listed(host, includeDisabled, ps[i]) &&
    forall k :: i < k < |ps| && Listed(host, includeDisabled, ps[k]) ==> ps[k].name != ps[i].name
  }

  /** `ps[i]` is listed and no earlier listed pattern of `ps` has its name. */
  ghost predicate FirstListed(host: PatternHost, includeDisabled: bool, ps: seq<Pattern>, i: nat)
    requires i < |ps|
  {
    Listed(host, includeDisabled, ps[i]) &&
    forall k :: 0 <= k < i && Listed(host, includeDisabled, ps[k]) ==> ps[k].name != ps[i].name
  }

  /** Every listed registered pattern has an entry under its name. */
  lemma {:induction false} RegisteredPassNames(host: PatternHost, includeDisabled: bool, ps: seq<Pattern>, p: Pattern)
    requires p in ps && Listed(host, includeDisabled, p)
    ensures exists e :: e in RegisteredPass(host, includeDisabled, ps) && e.name == p.name
  {
    var init := ps[..|ps| - 1];
    var last := ps[|ps| - 1];
    assert ps == init + [last];
    var acc := RegisteredPass(host, includeDisabled, init);
    if p == last {
      assert EntryFor(host, p) in RegisteredPass(host, includeDisabled, ps);
    } else {
      assert p in init;
      RegisteredPassNames(host, includeDisabled, init, p);
      var e :| e in acc && e.name == p.name;
      if Listed(host, includeDisabled, last) && EntryFor(host, last).name == p.name {
        assert EntryFor(host, last) in RegisteredPass(host, includeDisabled, ps);
      } else {
        assert e in RegisteredPass(host, includeDisabled, ps);
      }
    }
  }

  /** The last listed registered pattern of a name is the one whose entry
      stays: `$patterns[$name] = …` overwrites earlier ones. */
  lemma {:induction false} RegisteredPassLastWins(host: PatternHost, includeDisabled: bool, ps: seq<Pattern>, i: nat)
    requires i < |ps| && LastListed(host, includeDisabled, ps, i)
    ensures EntryFor(host, ps[i]) in RegisteredPass(host, includeDisabled, ps)
  {
    var init := ps[..|ps| - 1];
    var last := ps[|ps| - 1];
    if i < |ps| - 1 {
      assert init[i] == ps[i];
      RegisteredPassLastWins(host, includeDisabled, init, i);
    }
  }

  /** A listed stored pattern has an entry under its name, whether the
      registered pass or an earlier stored pattern took the name first. */
  lemma {:induction false} StoredPassNames(host: PatternHost, includeDisabled: bool, acc: seq<PatternEntry>, ps: seq<Pattern>, p: Pattern)
    requires p in ps && Listed(host, includeDisabled, p)
    ensures exists e :: e in StoredPass(host, includeDisabled, acc, ps) && e.name == p.name
  {
    var init := ps[..|ps| - 1];
    var last := ps[|ps| - 1];
    assert ps == init + [last];
    var r := StoredPass(host, includeDisabled, acc, init);
    var d := StoredPass(host, includeDisabled, acc, ps);
    assert forall x :: x in r ==> x in d;
    if p == last {
      var i := IndexOfName(r, p.name);
      if i.Some? {
        assert r[i.value] in d;
      } else {
        assert EntryFor(host, p) in d;
      }
    } else {
      assert p in init;
      StoredPassNames(host, includeDisabled, acc, init, p);
    }
  }

  /** A name neither the accumulator nor any listed pattern of `ps` has is
      still free after the stored pass. */
  lemma StoredPassNameFree(host: PatternHost, includeDisabled: bool, acc: seq<PatternEntry>, ps: seq<Pattern>, name: string)
    requires IndexOfName(acc, name).None?
    requires forall x :: x in ps && Listed(host, includeDisabled, x) ==> x.name != name
    ensures IndexOfName(StoredPass(host, includeDisabled, acc, ps), name).None?
  {
    var r := StoredPass(host, includeDisabled, acc, ps);
    forall j | 0 <= j < |r|
      ensures r[j].name != name
    {
      if j < |acc| {
        assert r[j] == r[..|acc|][j];
      }
    }
  }

  /** The first listed stored pattern of a name not yet taken is appended. */
  lemma {:induction false} StoredPassFirstWins(host: PatternHost, includeDisabled: bool, acc: seq<PatternEntry>, ps: seq<Pattern>, i: nat)
    requires i < |ps| && FirstListed(host, includeDisabled, ps, i) && IndexOfName(acc, ps[i].name).None?
    ensures EntryFor(host, ps[i]) in StoredPass(host, includeDisabled, acc, ps)
  {
    var init := ps[..|ps| - 1];
    var r := StoredPass(host, includeDisabled, acc, init);
    if i < |ps| - 1 {
      assert init[i] == ps[i];
      StoredPassFirstWins(host, includeDisabled, acc, init, i);
      assert EntryFor(host, ps[i]) in r;
    } else {
      forall x | x in init && Listed(host, includeDisabled, x)
        ensures x.name != ps[i].name
      {
        var k :| 0 <= k < |init| && init[k] == x;
        assert ps[k] == x;
      }
      StoredPassNameFree(host, includeDisabled, acc, init, ps[i].name);
    }
  }

  /** `get_discoverable_patterns`, before its output filter. */
  function DiscoverablePatterns(host: PatternHost, includeDisabled: bool): seq<PatternEntry> {
    if !host.registryLoaded then []
    else StoredPass(host, includeDisabled, RegisteredPass(host, includeDisabled, host.registered), StoredPatterns(host))
  }

  /** No listed registered pattern is named `name`. */
  ghost predicate Unshadowed(host: PatternHost, includeDisabled: bool, name: string) {
    forall q :: q in host.registered && Listed(host, includeDisabled, q) ==> q.name != name
  }

  /** Names in the listing are unique; every entry is a listed pattern of
      the registry or of the stored posts; with `include_disabled` off no
      entry is disabled; and nothing is listed without the registry.
      Conversely, with the registry every listed pattern has an entry under
      its name: the last registered one of a name, and the first stored one
      of a name no listed registered pattern has, with exactly its entry. */
  lemma DiscoverablePatternsShape(host: PatternHost, includeDisabled: bool)
    ensures var d := DiscoverablePatterns(host, includeDisabled);
      && DistinctNames(d)
      && (!host.registryLoaded ==> d == [])
      && (forall e :: e in d ==>
           && Truthy(e.name)
           && (!includeDisabled ==> !e.disabled)
           && exists p :: (p in host.registered || p in StoredPatterns(host)) && e == EntryFor(host, p))
      && (host.registryLoaded ==>
           forall p :: (p in host.registered || p in StoredPatterns(host)) && Listed(host, includeDisabled, p) ==>
             exists e :: e in d && e.name == p.name)
      && (host.registryLoaded ==>
           forall i :: 0 <= i < |host.registered| && LastListed(host, includeDisabled, host.registered, i) ==>
             EntryFor(host, host.registered[i]) in d)
      && (host.registryLoaded ==>
           forall i :: (0 <= i < |StoredPatterns(host)| && FirstListed(host, includeDisabled, StoredPatterns(host), i) &&
                        Unshadowed(host, includeDisabled, StoredPatterns(host)[i].name)) ==>
             EntryFor(host, StoredPatterns(host)[i]) in d)
  {
    DiscoverablePatternsSound(host, includeDisabled);
    if host.registryLoaded {
      DiscoverablePatternsNames(host, includeDisabled);
      DiscoverableRegisteredEntries(host, includeDisabled);
      DiscoverableStoredEntries(host, includeDisabled);
    }
  }

  /** Every entry comes from a listed pattern, and names are unique. */
  lemma DiscoverablePatternsSound(host: PatternHost, includeDisabled: bool)
    ensures var d := DiscoverablePatterns(host, includeDisabled);
      && DistinctNames(d)
      && (!host.registryLoaded ==> d == [])
      && forall e :: e in d ==>
           && Truthy(e.name)
           && (!includeDisabled ==> !e.disabled)
           && exists p :: (p in host.registered || p in StoredPatterns(host)) && e == EntryFor(host, p)
  {
    if host.registryLoaded {
      var reg := RegisteredPass(host, includeDisabled, host.registered);
      var d := DiscoverablePatterns(host, includeDisabled);
      forall e | e in d
        ensures Truthy(e.name) && (!includeDisabled ==> !e.disabled)
        ensures exists p :: (p in host.registered || p in StoredPatterns(host)) && e == EntryFor(host, p)
      {
        var j :| 0 <= j < |d| && d[j] == e;
        if j < |reg| {
          assert d[j] == reg[j];
          assert e in reg;
        }
      }
    }
  }

  /** The registered pass survives into the listing. */
  lemma RegisteredInListing(host: PatternHost, includeDisabled: bool)
    requires host.registryLoaded
    ensures forall x :: x in RegisteredPass(host, includeDisabled, host.registered) ==> x in DiscoverablePatterns(host, includeDisabled)
  {
    var reg := RegisteredPass(host, includeDisabled, host.registered);
    var d := DiscoverablePatterns(host, includeDisabled);
    forall x | x in reg ensures x in d {
      var k :| 0 <= k < |reg| && reg[k] == x;
      assert d[..|reg|][k] == x;
    }
  }

  /** Every listed pattern has an entry under its name. */
  lemma DiscoverablePatternsNames(host: PatternHost, includeDisabled: bool)
    requires host.registryLoaded
    ensures forall p :: (p in host.registered || p in StoredPatterns(host)) && Listed(host, includeDisabled, p) ==>
      exists e :: e in DiscoverablePatterns(host, includeDisabled) && e.name == p.name
  {
    var reg := RegisteredPass(host, includeDisabled, host.registered);
    RegisteredInListing(host, includeDisabled);
    forall p | (p in host.registered || p in StoredPatterns(host)) && Listed(host, includeDisabled, p)
      ensures exists e :: e in DiscoverablePatterns(host, includeDisabled) && e.name == p.name
    {
      if p in host.registered {
        RegisteredPassNames(host, includeDisabled, host.registered, p);
      } else {
        StoredPassNames(host, includeDisabled, reg, StoredPatterns(host), p);
      }
    }
  }

  /** The last listed registered pattern of each name is listed as it is. */
  lemma DiscoverableRegisteredEntries(host: PatternHost, includeDisabled: bool)
    requires host.registryLoaded
    ensures forall i :: 0 <= i < |host.registered| && LastListed(host, includeDisabled, host.registered, i) ==>
      EntryFor(host, host.registered[i]) in DiscoverablePatterns(host, includeDisabled)
  {
    RegisteredInListing(host, includeDisabled);
    forall i | 0 <= i < |host.registered| && LastListed(host, includeDisabled, host.registered, i)
      ensures EntryFor(host, host.registered[i]) in RegisteredPass(host, includeDisabled, host.registered)
    {
      RegisteredPassLastWins(host, includeDisabled, host.registered, i);
    }
  }

  /** The first listed stored pattern of each name no listed registered
      pattern has is listed as it is. */
  lemma DiscoverableStoredEntries(host: PatternHost, includeDisabled: bool)
    requires host.registryLoaded
    ensures forall i :: (0 <= i < |StoredPatterns(host)| && FirstListed(host, includeDisabled, StoredPatterns(host), i) &&
                         Unshadowed(host, includeDisabled, StoredPatterns(host)[i].name)) ==>
      EntryFor(host, StoredPatterns(host)[i]) in DiscoverablePatterns(host, includeDisabled)
  {
    var reg := RegisteredPass(host, includeDisabled, host.registered);
    var st := StoredPatterns(host);
    forall i | 0 <= i < |st| && FirstListed(host, includeDisabled, st, i) && Unshadowed(host, includeDisabled, st[i].name)
      ensures EntryFor(host, st[i]) in DiscoverablePatterns(host, includeDisabled)
    {
      forall j | 0 <= j < |reg| ensures reg[j].name != st[i].name {
        assert reg[j] in reg;
      }
      StoredPassFirstWins(host, includeDisabled, reg, st, i);
    }
  }

  /** Registered patterns come first; a stored pattern is listed only under
      a name no listed registered pattern has. */
  lemma RegisteredListedFirst(host: PatternHost, includeDisabled: bool)
    requires host.registryLoaded
    ensures var reg := RegisteredPass(host, includeDisabled, host.registered);
      var d := DiscoverablePatterns(host, includeDisabled);
      && d[..|reg|] == reg
      && forall j, k :: |reg| <= j < |d| && 0 <= k < |reg| ==> d[j].name != reg[k].name
  {
  }

  /** The entry `get_discoverable_patterns` builds. */
  method MakeEntry(host: PatternHost, p: Pattern, enabled: bool) returns (e: PatternEntry)
    requires enabled == IsPatternEnabled(host.filters, p)
    ensures e == EntryFor(host, p)
  {
    var content := if p.content.Some? then p.content.value else "";
    var isDynamic := if content != "" then DynamicContext.ContentHasDynamicBlocks(host.env, content) else false;
    e := PatternEntry(p.name, if p.title.Some? then p.title.value else p.name, NameToSlug(p.name),
                      if p.categories.Some? then p.categories.value else [], isDynamic, !enabled);
  }

  /** The first loop of `get_discoverable_patterns`. */
  method ListRegistered(host: PatternHost, includeDisabled: bool) returns (patterns: seq<PatternEntry>)
    ensures patterns == RegisteredPass(host, includeDisabled, host.registered)
  {
    patterns := [];
    var registered := host.registered;
    var i := 0;
    while i < |registered|
      invariant 0 <= i <= |registered|
      invariant patterns == RegisteredPass(host, includeDisabled, registered[..i])
    {
      var pattern := registered[i];
      assert registered[..i + 1][..i] == registered[..i];
      if Truthy(pattern.name) {
        var enabled := IsPatternEnabled(host.filters, pattern);
        if enabled || includeDisabled {
          var entry := MakeEntry(host, pattern, enabled);
          patterns := Put(patterns, entry);
        }
      }
      i := i + 1;
    }
    assert registered[..i] == registered;
  }

  /** The second loop of `get_discoverable_patterns`. */
  method ListStored(host: PatternHost, includeDisabled: bool, start: seq<PatternEntry>, stored: seq<Pattern>)
    returns (patterns: seq<PatternEntry>)
    ensures patterns == StoredPass(host, includeDisabled, start, stored)
  {
    patterns := start;
    var i := 0;
    while i < |stored|
      invariant 0 <= i <= |stored|
      invariant patterns == StoredPass(host, includeDisabled, start, stored[..i])
    {
      var pattern := stored[i];
      assert stored[..i + 1][..i] == stored[..i];
      if Truthy(pattern.name) && IndexOfName(patterns, pattern.name).None? {
        var enabled := IsPatternEnabled(host.filters, pattern);
        if enabled || includeDisabled {
          var entry := MakeEntry(host, pattern, enabled);
          patterns := patterns + [entry];
        }
      }
      i := i + 1;
    }
    assert stored[..i] == stored;
  }

  /** `get_discoverable_patterns` */
  method GetDiscoverablePatterns(host: PatternHost, includeDisabled: bool) returns (patterns: seq<PatternEntry>)
    ensures patterns == DiscoverablePatterns(host, includeDisabled)
  {
    if !host.registryLoaded {
      return [];
    }
    patterns := ListRegistered(host, includeDisabled);
    var stored := GetStoredPatterns(host);
    patterns := ListStored(host, includeDisabled, patterns, stored);
  }

  /** A named pattern of the registry or of the stored posts is found from its slug. */
  lemma NamedPatternFound(host: PatternHost, p: Pattern)
    requires host.registryLoaded && Truthy(p.name)
    requires p in host.registered || p in StoredPatterns(host)
    ensures PatternBySlug(host, NameToSlug(p.name)).Some?
  {
    var slug := NameToSlug(p.name);
    if p in host.registered {
      var k :| 0 <= k < |host.registered| && host.registered[k] == p;
      RegisteredPatternWins(host, slug, k);
    } else {
      var stored := StoredPatterns(host);
      var k :| 0 <= k < |stored| && stored[k] == p;
      assert SlugMatches(stored[k], slug);
      assert FirstWithSlug(stored, slug).Some?;
    }
  }

  /** Every listed pattern is found again from its slug. */
  lemma ListedPatternFound(host: PatternHost, includeDisabled: bool, e: PatternEntry)
    requires e in DiscoverablePatterns(host, includeDisabled)
    ensures PatternBySlug(host, e.slug).Some?
  {
    DiscoverablePatternsShape(host, includeDisabled);
    var p :| (p in host.registered || p in StoredPatterns(host)) && e == EntryFor(host, p);
    NamedPatternFound(host, p);
  }
}
