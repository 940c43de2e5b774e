/**
 * Hiding VRT patterns from the editor (class RestPatternFilters): the
 * `rest_post_dispatch` filter drops, from the editor's block-pattern
 * listing, every pattern in the VRT category.
 */
module RestPatternFilters {
  import opened Php
  import PatternRegistry

  /** A value inside a pattern's `categories`: a string or anything else. */
  datatype CategoryValue = Str(s: string) | OtherValue

  /** A pattern's `categories` entry: missing or null (read as `[]`), not
      an array, or an array of values. */
  datatype Categories = NoCategories | NotAnArray | CategoryList(values: seq<CategoryValue>)

  /** An element of the response data: a pattern array (with its name, for
      identification) or a value that is not an array. */
  datatype RestPattern = NotArray | PatternArray(name: Option<string>, categories: Categories)

  /** The response data: not an array, or an array (a list when its keys
      are 0, 1, ... in order). */
  datatype ResponseData = NonArrayData | ArrayData(isList: bool, items: seq<RestPattern>)

  datatype Response = NotRestResponse | RestResponse(data: ResponseData)

  /** The request: its route and its `context` parameter, None when not a string. */
  datatype Request = NotRestRequest | RestRequest(route: Option<string>, context: Option<string>)

  const PatternsRoute: string := "/wp/v2/block-patterns"

  /** `should_filter_request` */
  predicate ShouldFilterRequest(req: Request)
    requires req.RestRequest?
  {
    req.route.Some? && StartsWith(req.route.value, PatternsRoute) && req.context == Some("edit")
  }

  /** A pattern's categories name the VRT category, compared strictly. */
  predicate HasVrtCategory(p: RestPattern) {
    p.PatternArray? && p.categories.CategoryList? && Str(PatternRegistry.VrtCategory) in p.categories.values
  }

  /** `pattern_is_allowed` */
  predicate PatternIsAllowed(p: RestPattern) {
    if p.NotArray? then true
    else
      match p.categories
      case NoCategories => true  // `[]` holds no category
      case NotAnArray => true
      case CategoryList(values) => !(Str(PatternRegistry.VrtCategory) in values)
  }

  /** A pattern is refused exactly when its categories hold the VRT category. */
  lemma PatternIsAllowedIff(p: RestPattern)
    ensures PatternIsAllowed(p) <==> !HasVrtCategory(p)
  {
  }

  /** `filter_block_patterns` */
  function FilterBlockPatterns(resp: Response, req: Request): (r: Response)
    ensures r.RestResponse? <==> resp.RestResponse?
  {
    if resp.NotRestResponse? || req.NotRestRequest? then resp
    else if !ShouldFilterRequest(req) then resp
    else if resp.data.NonArrayData? || !resp.data.isList then resp
    else RestResponse(ArrayData(true, Filter(PatternIsAllowed, resp.data.items)))
  }

  /** The response changes only for a list of patterns answering the editor's
      request for `/wp/v2/block-patterns...`. */
  lemma FilterOnlyEditorListings(resp: Response, req: Request)
    requires FilterBlockPatterns(resp, req) != resp
    ensures resp.RestResponse? && resp.data.ArrayData? && resp.data.isList
    ensures req.RestRequest? && req.route.Some? && StartsWith(req.route.value, "/wp/v2/block-patterns")
    ensures req.context == Some("edit")
  {
  }

  /** The filtered listing is the input list, in order, without the patterns
      in the VRT category; elements that are not arrays and patterns whose
      categories are not an array are kept. */
  lemma FilteredListing(resp: Response, req: Request)
    requires resp.RestResponse? && resp.data.ArrayData? && resp.data.isList
    requires req.RestRequest? && ShouldFilterRequest(req)
    ensures var r := FilterBlockPatterns(resp, req);
      && r.data.ArrayData? && r.data.isList
      && (forall p :: p in r.data.items <==> p in resp.data.items && !HasVrtCategory(p))
      && |r.data.items| <= |resp.data.items|
      && (forall p :: p in resp.data.items && (p.NotArray? || p.categories.NotAnArray?) ==> p in r.data.items)
      && ((forall p :: p in resp.data.items ==> !HasVrtCategory(p)) ==> r.data.items == resp.data.items)
  {
    forall p | p in resp.data.items
      ensures PatternIsAllowed(p) <==> !HasVrtCategory(p)
    {
      PatternIsAllowedIff(p);
    }
    if forall p :: p in resp.data.items ==> !HasVrtCategory(p) {
      FilterOfAllowed(resp.data.items);
    }
  }

  /** Filtering an already filtered listing changes nothing. */
  lemma FilterIdempotent(resp: Response, req: Request)
    ensures FilterBlockPatterns(FilterBlockPatterns(resp, req), req) == FilterBlockPatterns(resp, req)
  {
    var r := FilterBlockPatterns(resp, req);
    if r != resp {
      FilterOnlyEditorListings(resp, req);
      FilterOfAllowed(r.data.items);
    }
  }

  lemma {:induction false} FilterOfAllowed(xs: seq<RestPattern>)
    requires forall p :: p in xs ==> PatternIsAllowed(p)
    ensures Filter(PatternIsAllowed, xs) == xs
  {
    if xs != [] {
      assert xs[0] in xs;
      assert forall p :: p in xs[1..] ==> p in xs;
      FilterOfAllowed(xs[1..]);
      assert [xs[0]] + xs[1..] == xs;
    }
  }
}
