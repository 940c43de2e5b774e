/**
 * Scenarios (class ScenarioRegistry): pages of markup that other code
 * registers through the `wp_vrt_register_scenarios` filter, keyed by slug.
 */
module ScenarioRegistry {
  import opened Php

  /** A scenario's `content`: missing or null, a value that is not callable
      (a string), or a callable together with the string its call casts to. */
  datatype Content = NoContent | Text(text: string) | Callable(output: string)

  /** A value of the registered array: a scenario array, or anything else. */
  datatype Scenario = NotArray | ScenarioArray(title: Option<string>, description: Option<string>, content: Content)

  predicate DistinctSlugs(ss: seq<(string, Scenario)>) {
    forall i, j :: 0 <= i < j < |ss| ==> ss[i].0 != ss[j].0
  }

  /** A PHP array keyed by slug: no slug twice, in insertion order. */
  type ScenarioMap = ss: seq<(string, Scenario)> | DistinctSlugs(ss) witness []

  /** What the registry reads from WordPress: the filter's value (None when
      it is not an array) and, for string content, whether the string names
      a callable function and what calling it yields. */
  datatype ScenarioHost = ScenarioHost(
    registered: Option<ScenarioMap>,
    isCallableName: string -> bool,
    callName: string -> string)

  /** `empty($scenario['content'])` */
  predicate EmptyContent(c: Content) {
    match c
    case NoContent => true
    case Text(s) => !Truthy(s)
    case Callable(_) => false
  }

  /** The entries `get_scenarios` keeps. */
  predicate Retained(entry: (string, Scenario)) {
    entry.1.ScenarioArray? && !EmptyContent(entry.1.content)
  }

  function Slug(entry: (string, Scenario)): string {
    entry.0
  }

  /** `get_scenarios`: the registered scenarios that are arrays with
      non-empty content, in order. */
  function Scenarios(host: ScenarioHost): (r: ScenarioMap)
    ensures forall i :: 0 <= i < |r| ==> Retained(r[i])
    ensures host.registered.None? ==> r == []
    ensures host.registered.Some? ==> forall e :: e in host.registered.value && Retained(e) ==> e in r
    ensures host.registered.Some? ==> forall e :: e in r ==> e in host.registered.value
  {
    if host.registered.None? then []
    else
      var r := Filter(Retained, host.registered.value);
      assert forall i :: 0 <= i < |r| ==> r[i] in r;
      FilterKeepsDistinct(Retained, Slug, host.registered.value);
      assert DistinctSlugs(r) by {
        forall i, j | 0 <= i < j < |r| ensures r[i].0 != r[j].0 {
          assert Slug(r[i]) != Slug(r[j]);
        }
      }
      r
  }

  /** `get_scenarios` as written: a walk that unsets the entries it rejects. */
  method GetScenarios(host: ScenarioHost) returns (scenarios: seq<(string, Scenario)>)
    ensures scenarios == Scenarios(host)
  {
    if host.registered.None? {
      return [];
    }
    var all := host.registered.value;
    scenarios := [];
    var i := 0;
    while i < |all|
      invariant 0 <= i <= |all|
      invariant scenarios == Filter(Retained, all[..i])
    {
      var entry := all[i];
      FilterSnoc(Retained, all[..i], entry);
      assert all[..i + 1] == all[..i] + [entry];
      if entry.1.ScenarioArray? && !EmptyContent(entry.1.content) {
        scenarios := scenarios + [entry];
      }
      i := i + 1;
    }
    assert all[..i] == all;
  }

  /** The position of a slug in a scenario map. */
  function IndexOf(ss: seq<(string, Scenario)>, slug: string): (r: Option<nat>)
    ensures r.Some? ==> r.value < |ss| && ss[r.value].0 == slug
    ensures r.None? ==> forall j :: 0 <= j < |ss| ==> ss[j].0 != slug
  {
    if ss == [] then None
    else if ss[0].0 == slug then Some(0)
    else
      var rest := IndexOf(ss[1..], slug);
      if rest.Some? then Some(rest.value + 1) else None
  }

  /** `(string)` of a content value, calling it when it is callable. */
  function ContentText(host: ScenarioHost, c: Content): Option<string> {
    match c
    case NoContent => None
    case Callable(output) => Some(output)
    case Text(s) => Some(if host.isCallableName(s) then host.callName(s) else s)
  }

  /** `get_scenario_content` */
  function ScenarioContent(host: ScenarioHost, slug: string): Option<string> {
    var ss := Scenarios(host);
    var i := IndexOf(ss, slug);
    if i.None? then None else ContentText(host, ss[i.value].1.content)
  }

  /** A scenario has content exactly when it was retained; its content is
      its callable's output or its text (called when it names a callable). */
  lemma ScenarioContentIff(host: ScenarioHost, slug: string)
    ensures ScenarioContent(host, slug).Some? <==> exists e :: e in Scenarios(host) && e.0 == slug
    ensures forall e :: e in Scenarios(host) && e.0 == slug ==>
      ScenarioContent(host, slug) == ContentText(host, e.1.content)
  {
    var ss := Scenarios(host);
    var i := IndexOf(ss, slug);
    forall e | e in ss && e.0 == slug
      ensures ScenarioContent(host, slug) == ContentText(host, e.1.content)
    {
      var k :| 0 <= k < |ss| && ss[k] == e;
      assert i.Some?;
      assert i.value == k;
    }
    if i.Some? {
      assert ss[i.value] in ss;
    }
  }

  /** A scenario whose content is a callable is shown with what the call returns. */
  lemma CallableContentInvoked(host: ScenarioHost, slug: string, output: string)
    requires host.registered.Some?
    requires exists t, d :: (slug, ScenarioArray(t, d, Callable(output))) in host.registered.value
    ensures ScenarioContent(host, slug) == Some(output)
  {
    var t, d :| (slug, ScenarioArray(t, d, Callable(output))) in host.registered.value;
    ScenarioContentIff(host, slug);
    assert Retained((slug, ScenarioArray(t, d, Callable(output))));
  }

  method GetScenarioContent(host: ScenarioHost, slug: string) returns (r: Option<string>)
    ensures r == ScenarioContent(host, slug)
  {
    var scenarios := GetScenarios(host);
    var i := IndexOf(scenarios, slug);
    if i.None? {
      return None;
    }
    var content := scenarios[i.value].1.content;
    if content.NoContent? {
      return None;
    }
    if content.Callable? {
      return Some(content.output);
    }
    r := Some(if host.isCallableName(content.text) then host.callName(content.text) else content.text);
  }

  // --------------------------------------------------------------- listing

  /** One entry of `get_discoverable_scenarios`. */
  datatype ScenarioItem = ScenarioItem(slug: string, title: string, description: Option<string>)

  function ItemFor(entry: (string, Scenario)): ScenarioItem
    requires entry.1.ScenarioArray?
  {
    ScenarioItem(entry.0, Coalesce(entry.1.title, entry.0), entry.1.description)
  }

  /** `get_discoverable_scenarios`, before its output filter: one item per
      retained scenario, in order; there is no enablement. */
  function DiscoverableScenarios(host: ScenarioHost): (r: seq<ScenarioItem>)
    ensures |r| == |Scenarios(host)|
    ensures forall i :: 0 <= i < |r| ==>
      var (slug, s) := Scenarios(host)[i];
      && r[i].slug == slug
      && s.ScenarioArray?
      && (s.title.Some? ==> r[i].title == s.title.value)
      && (s.title.None? ==> r[i].title == slug)
      && r[i].description == s.description
  {
    var ss := Scenarios(host);
    seq(|ss|, i requires 0 <= i < |ss| => ItemFor(ss[i]))
  }

  /** Every listed scenario has content to show, and slugs are unique. */
  lemma ListedScenarioHasContent(host: ScenarioHost, i: nat)
    requires i < |DiscoverableScenarios(host)|
    ensures ScenarioContent(host, DiscoverableScenarios(host)[i].slug).Some?
    ensures forall j :: 0 <= j < |DiscoverableScenarios(host)| && j != i ==>
      DiscoverableScenarios(host)[j].slug != DiscoverableScenarios(host)[i].slug
  {
    var ss := Scenarios(host);
    assert ss[i] in ss;
    ScenarioContentIff(host, ss[i].0);
  }

  method GetDiscoverableScenarios(host: ScenarioHost) returns (items: seq<ScenarioItem>)
    ensures items == DiscoverableScenarios(host)
  {
    var scenarios := GetScenarios(host);
    items := [];
    var i := 0;
    while i < |scenarios|
      invariant 0 <= i <= |scenarios|
      invariant |items| == i
      invariant forall j :: 0 <= j < i ==> items[j] == ItemFor(scenarios[j])
    {
      var entry := scenarios[i];
      assert scenarios[i] in scenarios;
      items := items + [ScenarioItem(entry.0, if entry.1.title.Some? then entry.1.title.value else entry.0, entry.1.description)];
      i := i + 1;
    }
  }
}
