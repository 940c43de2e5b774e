/**
 * The VRT front end (class VirtualPages): a request for
 * `/wp-vrt/{type}/{slug}[/{variation}]` is answered with the rendered item,
 * a 400 for an unknown type or a 404 for an unknown item.
 */
module VirtualPages {
  import opened Php
  import BlockRegistry
  import PatternRegistry
  import TemplateRegistry
  import ScenarioRegistry
  import DynamicContext
  import Renderer
  import Wp

  const QueryType: string := "wp_vrt_type"
  const QuerySlug: string := "wp_vrt_slug"
  const QueryVariation: string := "wp_vrt_variation"

  /** `register_query_vars`: the three VRT variables are appended, in order. */
  function RegisterQueryVars(vars: seq<string>): (r: seq<string>)
    ensures |r| == |vars| + 3 && r[..|vars|] == vars
    ensures r[|vars|] == QueryType && r[|vars| + 1] == QuerySlug && r[|vars| + 2] == QueryVariation
  {
    vars + [QueryType, QuerySlug, QueryVariation]
  }

  // --------------------------------------------------------- rewrite rule

  /** The rewrite rule `^wp-vrt/([^/]+)/([^/]+)/?([^/]*)/?$` on a request
      path: the captured type, slug and (possibly empty) variation. */
  function RewriteRule(path: string): (r: Option<(string, string, string)>)
    ensures r.Some? ==> r.value.0 != "" && r.value.1 != ""
    ensures r.Some? ==> '/' !in r.value.0 && '/' !in r.value.1 && '/' !in r.value.2
  {
    if !StartsWith(path, "wp-vrt/") then None
    else
      var parts := Split(path[7..], '/');
      if |parts| < 2 || |parts| > 4 || parts[0] == "" || parts[1] == "" then None
      else if |parts| == 2 then Some((parts[0], parts[1], ""))
      else if |parts| == 3 then Some((parts[0], parts[1], parts[2]))
      else if parts[3] == "" then Some((parts[0], parts[1], parts[2]))
      else None
  }

  /** `a/b` split at its one slash. */
  lemma SplitTwo(a: string, b: string)
    requires '/' !in a && '/' !in b
    ensures Split(a + "/" + b, '/') == [a, b]
  {
    SplitCons(a, b, '/');
    SplitNoSeparator(b, '/');
  }

  lemma SplitThree(a: string, b: string, c: string)
    requires '/' !in a && '/' !in b && '/' !in c
    ensures Split(a + "/" + b + "/" + c, '/') == [a, b, c]
  {
    assert a + "/" + b + "/" + c == a + ['/'] + (b + "/" + c);
    SplitCons(a, b + "/" + c, '/');
    SplitTwo(b, c);
  }

  /** The rule captures `type` and `slug` from `wp-vrt/{type}/{slug}`,
      with an empty variation. */
  lemma RewriteRuleShortForm(t: string, s: string)
    requires t != "" && s != "" && '/' !in t && '/' !in s
    ensures RewriteRule("wp-vrt/" + t + "/" + s) == Some((t, s, ""))
  {
    var p := "wp-vrt/" + t + "/" + s;
    assert p[..7] == "wp-vrt/";
    assert p[7..] == t + "/" + s;
    SplitTwo(t, s);
  }

  /** The rule captures the variation from `wp-vrt/{type}/{slug}/{variation}`,
      with or without a trailing slash. */
  lemma RewriteRuleLongForm(t: string, s: string, v: string)
    requires t != "" && s != "" && '/' !in t && '/' !in s && '/' !in v
    ensures RewriteRule("wp-vrt/" + t + "/" + s + "/" + v) == Some((t, s, v))
    ensures RewriteRule("wp-vrt/" + t + "/" + s + "/" + v + "/") == Some((t, s, v))
  {
    var p2 := "wp-vrt/" + t + "/" + s + "/" + v;
    assert p2[..7] == "wp-vrt/";
    assert p2[7..] == t + "/" + s + "/" + v;
    SplitThree(t, s, v);
    var p3 := p2 + "/";
    var rest := t + "/" + s + "/" + v + "/";
    assert p3[..7] == "wp-vrt/";
    assert p3[7..] == rest;
    assert rest == t + ['/'] + (s + "/" + v + "/" + "");
    SplitCons(t, s + "/" + v + "/" + "", '/');
    SplitThree(s, v, "");
  }

  // ------------------------------------------------------- URI fallback

  /** The request as `parse_request_uri` sees it: `$_SERVER['REQUEST_URI']`
      (None when unset) and the path `wp_parse_url` extracts from it. */
  datatype RequestUri = RequestUri(uri: Option<string>, parseUrlPath: string -> Option<string>)

  /** `parse_request_uri`: the second, third and (optional) fourth segment
      of a path that starts with `wp-vrt/` once trimmed of slashes. */
  function ParseRequestUri(req: RequestUri): (r: Option<(string, string, Option<string>)>)
    ensures r.Some? ==> req.uri.Some? && Truthy(req.uri.value)
    ensures r.Some? ==> '/' !in r.value.0 && '/' !in r.value.1
    ensures r.Some? && r.value.2.Some? ==> '/' !in r.value.2.value
  {
    if req.uri.None? || !Truthy(req.uri.value) then None
    else
      var path := req.parseUrlPath(req.uri.value);
      if path.None? then None else ParsePath(Trim(path.value, {'/'}))
  }

  /** Lines 105-118, on the path trimmed of slashes. */
  function ParsePath(p: string): (r: Option<(string, string, Option<string>)>)
    ensures r.Some? ==> '/' !in r.value.0 && '/' !in r.value.1
    ensures r.Some? && r.value.2.Some? ==> '/' !in r.value.2.value
  {
    if !StartsWith(p, "wp-vrt/") then None
    else
      var parts := Split(p, '/');
      if |parts| < 3 then None
      else Some((parts[1], parts[2], if |parts| > 3 then Some(parts[3]) else None))
  }

  /** Slashes around a clean path are trimmed away. */
  lemma TrimSlashes(x: string)
    requires x != [] && x[0] != '/' && x[|x| - 1] != '/'
    ensures Trim("/" + x + "/", {'/'}) == x
  {
    var s := "/" + x + "/";
    assert s[1..] == x + "/";
    TrimLeftConcat(x, "/", {'/'});
    assert (x + "/")[..|x|] == x;
    TrimRightNoop(x, {'/'});
  }

  /** A path `/wp-vrt/{type}/{slug}/` parses back to its type and slug,
      without a variation. */
  lemma ParseRequestUriShortForm(req: RequestUri, t: string, s: string)
    requires req.uri.Some? && Truthy(req.uri.value)
    requires '/' !in t && '/' !in s && s != ""
    requires req.parseUrlPath(req.uri.value) == Some("/wp-vrt/" + t + "/" + s + "/")
    ensures ParseRequestUri(req) == Some((t, s, None))
  {
    var x := "wp-vrt/" + t + "/" + s;
    assert "/wp-vrt/" + t + "/" + s + "/" == "/" + x + "/";
    TrimSlashes(x);
    ParsePathShortForm(t, s);
  }

  lemma ParsePathShortForm(t: string, s: string)
    requires '/' !in t && '/' !in s
    ensures ParsePath("wp-vrt/" + t + "/" + s) == Some((t, s, None))
  {
    var x := "wp-vrt/" + t + "/" + s;
    assert x[..7] == "wp-vrt/";
    assert x == "wp-vrt" + ['/'] + (t + "/" + s);
    SplitCons("wp-vrt", t + "/" + s, '/');
    SplitTwo(t, s);
  }

  /** A path `/wp-vrt/{type}/{slug}/{variation}/` yields the variation too. */
  lemma ParseRequestUriLongForm(req: RequestUri, t: string, s: string, v: string)
    requires req.uri.Some? && Truthy(req.uri.value)
    requires '/' !in t && '/' !in s && '/' !in v && v != ""
    requires req.parseUrlPath(req.uri.value) == Some("/wp-vrt/" + t + "/" + s + "/" + v + "/")
    ensures ParseRequestUri(req) == Some((t, s, Some(v)))
  {
    var x := "wp-vrt/" + t + "/" + s + "/" + v;
    assert "/wp-vrt/" + t + "/" + s + "/" + v + "/" == "/" + x + "/";
    TrimSlashes(x);
    ParsePathLongForm(t, s, v);
  }

  lemma ParsePathLongForm(t: string, s: string, v: string)
    requires '/' !in t && '/' !in s && '/' !in v
    ensures ParsePath("wp-vrt/" + t + "/" + s + "/" + v) == Some((t, s, Some(v)))
  {
    var x := "wp-vrt/" + t + "/" + s + "/" + v;
    assert x[..7] == "wp-vrt/";
    assert x == "wp-vrt" + ['/'] + (t + "/" + s + "/" + v);
    SplitCons("wp-vrt", t + "/" + s + "/" + v, '/');
    SplitThree(t, s, v);
  }

  /** Segments after the variation are ignored. */
  lemma ParsePathIgnoresExtraSegments(t: string, s: string, v: string, rest: string)
    requires '/' !in t && '/' !in s && '/' !in v
    ensures ParsePath("wp-vrt/" + t + "/" + s + "/" + v + "/" + rest) == Some((t, s, Some(v)))
  {
    var x := "wp-vrt/" + t + "/" + s + "/" + v + "/" + rest;
    assert x[..7] == "wp-vrt/";
    assert x == "wp-vrt" + ['/'] + (t + ['/'] + (s + ['/'] + (v + ['/'] + rest)));
    SplitCons(v, rest, '/');
    SplitCons(s, v + ['/'] + rest, '/');
    SplitCons(t, s + ['/'] + (v + ['/'] + rest), '/');
    SplitCons("wp-vrt", t + ['/'] + (s + ['/'] + (v + ['/'] + rest)), '/');
  }

  /** `wp-vrt/{type}` alone has too few segments. */
  lemma ParsePathNeedsSlug(t: string)
    requires '/' !in t
    ensures ParsePath("wp-vrt/" + t).None?
  {
    var x := "wp-vrt/" + t;
    assert x == "wp-vrt" + ['/'] + t;
    SplitCons("wp-vrt", t, '/');
    SplitNoSeparator(t, '/');
  }

  /** A path outside `wp-vrt/` is not a VRT request. */
  lemma ParseRequestUriForeign(req: RequestUri)
    requires req.uri.Some? && req.parseUrlPath(req.uri.value).Some?
    requires !StartsWith(Trim(req.parseUrlPath(req.uri.value).value, {'/'}), "wp-vrt/")
    ensures ParseRequestUri(req).None?
  {
  }

  // --------------------------------------------------------------- lookup

  const AllowedTypes: seq<string> := ["block", "pattern", "template", "template-part", "scenario"]

  /** Everything a request reaches: the registries, the renderer, the query
      variables (`get_query_var` yields "" for an unset one; a variation that
      is not a string is None), the request URI, what `setup` finds and
      whether `render` throws. */
  datatype PageHost = PageHost(
    blocks: BlockRegistry.BlockHost,
    patterns: PatternRegistry.PatternHost,
    templates: TemplateRegistry.TemplateHost,
    scenarios: ScenarioRegistry.ScenarioHost,
    render: Renderer.RenderHost,
    queryType: string,
    querySlug: string,
    queryVariation: Option<string>,
    request: RequestUri,
    setupInput: DynamicContext.SetupInput,
    renderThrows: bool)

  /** `load_content`: a dispatch on the type that never consults enablement. */
  function LoadContent(host: PageHost, typ: string, slug: string, variation: Option<string>): (r: Option<string>)
    ensures r.Some? ==> slug != "" && typ in AllowedTypes
    ensures slug != "" && typ == "block" ==> r == BlockRegistry.BlockContentFor(host.blocks, slug, variation)
    ensures slug != "" && typ == "pattern" ==> r == PatternRegistry.PatternContent(host.patterns, slug)
    ensures slug != "" && typ == "template" ==>
      r == TemplateRegistry.TemplateContent(host.templates, slug, TemplateRegistry.WholeTemplate)
    ensures slug != "" && typ == "template-part" ==>
      r == TemplateRegistry.TemplateContent(host.templates, slug, TemplateRegistry.TemplatePart)
    ensures slug != "" && typ == "scenario" ==> r == ScenarioRegistry.ScenarioContent(host.scenarios, slug)
  {
    if slug == "" then None
    else if typ == "block" then BlockRegistry.BlockContentFor(host.blocks, slug, variation)
    else if typ == "pattern" then PatternRegistry.PatternContent(host.patterns, slug)
    else if typ == "template" then TemplateRegistry.TemplateContent(host.templates, slug, TemplateRegistry.WholeTemplate)
    else if typ == "template-part" then TemplateRegistry.TemplateContent(host.templates, slug, TemplateRegistry.TemplatePart)
    else if typ == "scenario" then ScenarioRegistry.ScenarioContent(host.scenarios, slug)
    else None
  }

  method GetContent(host: PageHost, typ: string, slug: string, variation: Option<string>) returns (r: Option<string>)
    ensures r == LoadContent(host, typ, slug, variation)
  {
    if slug == "" {
      return None;
    }
    if typ == "block" {
      r := BlockRegistry.GetBlockContent(host.blocks, slug, variation);
    } else if typ == "pattern" {
      r := PatternRegistry.GetPatternContent(host.patterns, slug);
    } else if typ == "template" {
      r := TemplateRegistry.GetTemplateContent(host.templates, slug, TemplateRegistry.WholeTemplate);
    } else if typ == "template-part" {
      r := TemplateRegistry.GetTemplateContent(host.templates, slug, TemplateRegistry.TemplatePart);
    } else if typ == "scenario" {
      r := ScenarioRegistry.GetScenarioContent(host.scenarios, slug);
    } else {
      r := None;
    }
  }

  /** Content loaded with different enablement filters is the same:
      a disabled item is still served. */
  lemma LoadContentIgnoresEnablement(host: PageHost, f: Wp.EnableFilters, typ: string, slug: string, variation: Option<string>)
    ensures LoadContent(host.(blocks := host.blocks.(filters := f), patterns := host.patterns.(filters := f),
                              templates := host.templates.(filters := f)), typ, slug, variation)
         == LoadContent(host, typ, slug, variation)
  {
    var h := host.(blocks := host.blocks.(filters := f), patterns := host.patterns.(filters := f),
                   templates := host.templates.(filters := f));
    if slug != "" {
      if typ == "block" {
        BlockRegistry.BlockContentIgnoresFilters(host.blocks, f, slug, variation);
      } else if typ == "pattern" {
        PatternRegistry.PatternContentIgnoresFilters(host.patterns, f, slug);
      } else if typ == "template" {
        TemplateRegistry.TemplateContentIgnoresFilters(host.templates, f, slug, TemplateRegistry.WholeTemplate);
      } else if typ == "template-part" {
        TemplateRegistry.TemplateContentIgnoresFilters(host.templates, f, slug, TemplateRegistry.TemplatePart);
      }
    }
  }

  // ------------------------------------------------------------- handling

  /** The answer to a request. */
  datatype Outcome =
    | NotHandled
    | BadRequest
    | NotFound
    | RenderFailed
    | Page(html: string)

  /** Lines 40-52 of `handle_request`: the query variables when the type is
      truthy, the URI fallback otherwise. */
  function Target(host: PageHost): Option<(string, string, Option<string>)> {
    if Truthy(host.queryType) then Some((host.queryType, host.querySlug, host.queryVariation))
    else ParseRequestUri(host.request)
  }

  /** `is_string($variation) && $variation !== '' ? $variation : null` */
  function NormalizeVariation(v: Option<string>): (r: Option<string>)
    ensures r.None? <==> v.None? || v.value == ""
    ensures r.Some? ==> r == v
  {
    if v.Some? && v.value != "" then v else None
  }

  /** The content `handle_request` renders, if it gets that far. */
  function RequestContent(host: PageHost): Option<string> {
    var t := Target(host);
    if t.None? || t.value.0 !in AllowedTypes then None
    else LoadContent(host, t.value.0, t.value.1, NormalizeVariation(t.value.2))
  }

  /** Whether `handle_request` sets a dynamic context up around the render. */
  predicate NeedsContext(host: PageHost) {
    var c := RequestContent(host);
    c.Some? && DynamicContext.ContentHasDynamicBlocks(host.blocks.env, c.value)
  }

  /** The answer once content is loaded: the filtered document, unless
      the render throws. */
  function RenderResult(host: PageHost, typ: string, slug: string, variation: Option<string>, content: string): Outcome {
    if host.renderThrows then RenderFailed
    else Page(host.render.outputFilter(Renderer.Document(host.render, typ, slug, variation, content), typ, slug, variation))
  }

  /** `handle_request`'s answer. */
  function RequestOutcome(host: PageHost): Outcome {
    var t := Target(host);
    if t.None? then NotHandled
    else if t.value.0 !in AllowedTypes then BadRequest
    else
      var variation := NormalizeVariation(t.value.2);
      var content := LoadContent(host, t.value.0, t.value.1, variation);
      if content.None? then NotFound
      else RenderResult(host, t.value.0, t.value.1, variation, content.value)
  }

  /** A request the query variables do not name and whose URI is not a VRT
      path is left to WordPress. */
  lemma NotHandledIff(host: PageHost)
    ensures RequestOutcome(host) == NotHandled <==> !Truthy(host.queryType) && ParseRequestUri(host.request).None?
  {
  }

  /** An unknown type is refused before any lookup: the answer does not
      depend on the registries. */
  lemma BadRequestBeforeLookup(host: PageHost, other: PageHost)
    requires Target(host).Some? && Target(host).value.0 !in AllowedTypes
    requires other.queryType == host.queryType && other.querySlug == host.querySlug
    requires other.queryVariation == host.queryVariation && other.request == host.request
    ensures RequestOutcome(host) == BadRequest && RequestOutcome(other) == BadRequest
  {
  }

  /** A known type with an empty slug is a 404, whatever the registries hold. */
  lemma EmptySlugNotFound(host: PageHost)
    requires Target(host).Some? && Target(host).value.0 in AllowedTypes && Target(host).value.1 == ""
    ensures RequestOutcome(host) == NotFound
  {
  }

  /** A page is served exactly when a known type names content and the
      render completes; it is the rendered document of that content, with
      an empty variation dropped. */
  lemma PageServed(host: PageHost)
    ensures RequestOutcome(host).Page? <==> RequestContent(host).Some? && !host.renderThrows
    ensures RequestOutcome(host).Page? ==>
      var t := Target(host).value;
      && t.1 != ""
      && RequestOutcome(host).html == host.render.outputFilter(
           Renderer.Document(host.render, t.0, t.1, NormalizeVariation(t.2), RequestContent(host).value),
           t.0, t.1, NormalizeVariation(t.2))
  {
  }

  /** A URL the rewrite rule matches with an empty variation is rendered
      without one. */
  lemma RewrittenEmptyVariationDropped(host: PageHost, t: string, s: string)
    requires Truthy(t) && s != "" && '/' !in t && '/' !in s
    requires host.queryVariation.Some?
    requires RewriteRule("wp-vrt/" + t + "/" + s) == Some((host.queryType, host.querySlug, host.queryVariation.value))
    ensures Target(host) == Some((t, s, Some(""))) && NormalizeVariation(Target(host).value.2).None?
  {
    RewriteRuleShortForm(t, s);
  }

  /** The render, or the exception it throws. */
  method RenderOrThrow(host: PageHost, typ: string, slug: string, variation: Option<string>, content: string)
    returns (out: Outcome)
    ensures out == RenderResult(host, typ, slug, variation, content)
  {
    if host.renderThrows {
      out := RenderFailed;
    } else {
      var html := Renderer.Render(host.render, typ, slug, variation, content);
      out := Page(html);
    }
  }

  /** Lines 75-87: a dynamic context around the render, reset in `finally`.
      The queries that were set are restored; `$post` then follows the
      restored main query's post, or is restored itself when that query has
      none; the temporary post, if one was made, is deleted. */
  method RenderInContext(host: PageHost, g: DynamicContext.Globals, typ: string, slug: string,
                         variation: Option<string>, content: string) returns (out: Outcome)
    requires g.Valid()
    modifies g
    ensures g.Valid()
    ensures out == RenderResult(host, typ, slug, variation, content)
    ensures g.posts == old(g.posts)
    ensures old(g.wpQuery).Some? ==> g.wpQuery == old(g.wpQuery)
    ensures old(g.wpTheQuery).Some? ==> g.wpTheQuery == old(g.wpTheQuery)
    ensures old(g.wpQuery).Some? && old(g.wpQuery).value.current.Some? ==> g.post == old(g.wpQuery).value.current
    ensures old(g.wpQuery).Some? && old(g.wpQuery).value.current.None? && old(g.post).Some? ==> g.post == old(g.post)
  {
    var c := new DynamicContext.DynamicContext();
    ghost var posts0 := g.posts;
    c.Setup(g, host.setupInput);
    assert c.temporaryPostId.Some? ==>
      c.temporaryPostId.value !in posts0 && g.posts == posts0[c.temporaryPostId.value := g.posts[c.temporaryPostId.value]];
    ghost var tmp := c.temporaryPostId;
    ghost var postsMid := g.posts;
    out := RenderOrThrow(host, typ, slug, variation, content);
    c.Reset(g);
    if tmp.Some? {
      DropAdded(posts0, tmp.value, postsMid[tmp.value]);
    }
  }

  /** Deleting a post just inserted restores the table. */
  lemma DropAdded(m: map<nat, DynamicContext.Post>, k: nat, v: DynamicContext.Post)
    requires k !in m
    ensures m[k := v] - {k} == m
  {
  }

  /** Lines 40-52: the query variables, or the URI when the type is falsy. */
  method ResolveTarget(host: PageHost) returns (t: Option<(string, string, Option<string>)>)
    ensures t == Target(host)
  {
    var typ := host.queryType;
    var slug := host.querySlug;
    var variation := host.queryVariation;
    if !Truthy(typ) {
      var parsed := ParseRequestUri(host.request);
      if parsed.None? {
        return None;
      }
      typ, slug, variation := parsed.value.0, parsed.value.1, parsed.value.2;
    }
    t := Some((typ, slug, variation));
  }

  /** `handle_request`: resolves the target, loads the content, and renders
      it, inside a dynamic context when it has dynamic blocks. The queries
      that were set before the request are set again afterwards, `$post` as
      the reset leaves it, and without dynamic blocks no global changes at
      all. */
  method HandleRequest(host: PageHost, g: DynamicContext.Globals) returns (out: Outcome)
    requires g.Valid()
    modifies g
    ensures g.Valid()
    ensures out == RequestOutcome(host)
    ensures g.posts == old(g.posts)
    ensures old(g.wpQuery).Some? ==> g.wpQuery == old(g.wpQuery)
    ensures old(g.wpTheQuery).Some? ==> g.wpTheQuery == old(g.wpTheQuery)
    ensures NeedsContext(host) && old(g.wpQuery).Some? && old(g.wpQuery).value.current.Some? ==>
      g.post == old(g.wpQuery).value.current
    ensures old(g.wpQuery).Some? && old(g.wpQuery).value.current.None? && old(g.post).Some? ==> g.post == old(g.post)
    ensures !NeedsContext(host) ==>
      g.wpQuery == old(g.wpQuery) && g.wpTheQuery == old(g.wpTheQuery) && g.post == old(g.post) &&
      g.nextId == old(g.nextId)
  {
    var target := ResolveTarget(host);
    if target.None? {
      return NotHandled;
    }
    var typ, slug := target.value.0, target.value.1;
    var variation := target.value.2;
    variation := if variation.Some? && variation.value != "" then variation else None;
    if typ !in AllowedTypes {
      return BadRequest;
    }
    var content := GetContent(host, typ, slug, variation);
    assert content == RequestContent(host);
    if content.None? {
      return NotFound;
    }
    if DynamicContext.ContentHasDynamicBlocks(host.blocks.env, content.value) {
      out := RenderInContext(host, g, typ, slug, variation, content.value);
    } else {
      out := RenderOrThrow(host, typ, slug, variation, content.value);
    }
  }
}
