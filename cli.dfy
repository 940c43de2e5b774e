/**
 * The `wp vrt snapshots` command (class Cli): fetches the discovery
 * manifest, picks the requested item types and runs the screenshot script
 * once per item.
 */
module Cli {
  import opened Php

  // -------------------------------------------------------- snapshot names

  /** The characters `[a-z0-9]` a snapshot name keeps. */
  predicate IsSlugChar(c: char) {
    'a' <= c <= 'z' || '0' <= c <= '9'
  }

  /** No two adjacent characters of `s` are both `-`. */
  ghost predicate NoDoubleDash(s: string) {
    forall i, j {:trigger s[i], s[j]} :: 0 <= i < j < |s| && j == i + 1 ==> !(s[i] == '-' && s[j] == '-')
  }

  /** `s` without its leading run of characters outside `[a-z0-9]`. */
  function SkipRun(s: string): (r: string)
    ensures |r| <= |s| && r == s[|s| - |r|..]
    ensures r == [] || IsSlugChar(r[0])
  {
    if s != [] && !IsSlugChar(s[0]) then
      var r := SkipRun(s[1..]);
      assert s[1..][|s| - 1 - |r|..] == s[|s| - |r|..];
      r
    else s
  }

  /** `preg_replace('/[^a-z0-9]+/', '-', $s)`: each maximal run of other
      characters becomes one `-`. */
  function CollapseRuns(s: string): (r: string)
    ensures forall i :: 0 <= i < |r| ==> IsSlugChar(r[i]) || r[i] == '-'
    ensures NoDoubleDash(r)
    ensures r != [] && r[0] == '-' ==> s != [] && !IsSlugChar(s[0])
    decreases |s|
  {
    if s == [] then []
    else if IsSlugChar(s[0]) then [s[0]] + CollapseRuns(s[1..])
    else
      var rest := SkipRun(s);
      var tail := CollapseRuns(rest);
      assert tail != [] ==> tail[0] != '-';
      "-" + tail
  }

  /** A snapshot name: only `[a-z0-9-]`, never `--`, and no `-` at either end. */
  ghost predicate IsSnapshotSlug(s: string) {
    && (forall i :: 0 <= i < |s| ==> IsSlugChar(s[i]) || s[i] == '-')
    && NoDoubleDash(s)
    && (s == [] || (s[0] != '-' && s[|s| - 1] != '-'))
  }

  /** `snapshot_slug`: lower-cases, collapses every run of other characters
      to `-` and trims `-` from both ends. */
  function SnapshotSlug(value: string): (r: string)
    ensures IsSnapshotSlug(r)
  {
    var c := CollapseRuns(Lower(value));
    TrimmedSlug(c);
    Trim(c, {'-'})
  }

  /** Trimming `-` from a string of slug characters with no `--` leaves a snapshot name. */
  lemma TrimmedSlug(c: string)
    requires forall i :: 0 <= i < |c| ==> IsSlugChar(c[i]) || c[i] == '-'
    requires NoDoubleDash(c)
    ensures IsSnapshotSlug(Trim(c, {'-'}))
  {
    var t := Trim(c, {'-'});
    TrimInside(c, {'-'});
    var a, b :| 0 <= a <= b <= |c| && t == c[a..b];
    SliceKeepsSlugChars(c, a, b);
    assert forall i :: 0 <= i < |t| ==> IsSlugChar(t[i]) || t[i] == '-';
    assert NoDoubleDash(t);
    TrimEnds(c, {'-'});
  }

  /** A slice of a string of slug characters with no `--` has the same two properties. */
  lemma SliceKeepsSlugChars(s: string, a: nat, b: nat)
    requires a <= b <= |s|
    requires forall i :: 0 <= i < |s| ==> IsSlugChar(s[i]) || s[i] == '-'
    requires NoDoubleDash(s)
    ensures forall i :: 0 <= i < b - a ==> IsSlugChar(s[a..b][i]) || s[a..b][i] == '-'
    ensures NoDoubleDash(s[a..b])
  {
    var t := s[a..b];
    forall i, j | 0 <= i < j < |t| && j == i + 1
      ensures !(t[i] == '-' && t[j] == '-')
    {
      assert t[i] == s[a + i] && t[j] == s[a + j];
    }
  }

  /** A trimmed string is a slice of the original. */
  lemma TrimInside(s: string, chars: set<char>)
    ensures exists a, b :: 0 <= a <= b <= |s| && Trim(s, chars) == s[a..b]
  {
    var l := TrimLeft(s, chars);
    var t := TrimRight(l, chars);
    assert t == s[|s| - |l|..][..|t|];
    assert t == s[|s| - |l|..|s| - |l| + |t|];
  }

  /** Every character of a snapshot name is kept by `CollapseRuns`, and a
      lone `-` stands for itself. */
  lemma {:induction false} CollapseRunsNoop(s: string)
    requires forall i :: 0 <= i < |s| ==> IsSlugChar(s[i]) || s[i] == '-'
    requires NoDoubleDash(s)
    ensures CollapseRuns(s) == s
    decreases |s|
  {
    if s != [] {
      SlugTail(s);
      if IsSlugChar(s[0]) {
        CollapseRunsNoop(s[1..]);
        assert [s[0]] + s[1..] == s;
      } else {
        var rest := s[1..];
        assert s[0] == '-';
        assert rest == [] || IsSlugChar(rest[0]) by {
          if rest != [] {
            assert !(s[0] == '-' && s[1] == '-');
          }
        }
        LoneDash(s);
        CollapseRunsNoop(rest);
        assert "-" + rest == s;
      }
    }
  }

  /** A `-` followed by a slug character, or by nothing, becomes one `-`. */
  lemma LoneDash(s: string)
    requires s != [] && !IsSlugChar(s[0])
    requires |s| == 1 || IsSlugChar(s[1])
    ensures CollapseRuns(s) == "-" + CollapseRuns(s[1..])
  {
    assert SkipRun(s[1..]) == s[1..];
    assert SkipRun(s) == s[1..];
  }

  lemma SlugTail(s: string)
    requires s != []
    requires forall i :: 0 <= i < |s| ==> IsSlugChar(s[i]) || s[i] == '-'
    requires NoDoubleDash(s)
    ensures forall i :: 0 <= i < |s[1..]| ==> IsSlugChar(s[1..][i]) || s[1..][i] == '-'
    ensures NoDoubleDash(s[1..])
  {
    var t := s[1..];
    forall i, j | 0 <= i < j < |t| && j == i + 1
      ensures !(t[i] == '-' && t[j] == '-')
    {
      assert t[i] == s[i + 1] && t[j] == s[j + 1];
    }
  }

  lemma LowerNoop(s: string)
    requires forall i :: 0 <= i < |s| ==> IsSlugChar(s[i]) || s[i] == '-'
    ensures Lower(s) == s
  {
  }

  /** `snapshot_slug` is idempotent. */
  lemma SnapshotSlugIdempotent(value: string)
    ensures SnapshotSlug(SnapshotSlug(value)) == SnapshotSlug(value)
  {
    var s := SnapshotSlug(value);
    LowerNoop(s);
    CollapseRunsNoop(s);
    TrimNoop(s, {'-'});
  }

  /** The letters and digits of a value survive in order, lower-cased;
      everything else in a snapshot name is a separator. */
  lemma SnapshotSlugKeepsLettersAndDigits(value: string)
    ensures Filter(IsSlugChar, SnapshotSlug(value)) == Filter(IsSlugChar, Lower(value))
  {
    CollapseRunsKeeps(Lower(value));
    TrimDashesKeeps(CollapseRuns(Lower(value)));
  }

  lemma TrimDashesKeeps(c: string)
    ensures Filter(IsSlugChar, Trim(c, {'-'})) == Filter(IsSlugChar, c)
  {
    TrimLeftDashesKeeps(c);
    TrimRightDashesKeeps(TrimLeft(c, {'-'}));
  }

  lemma TrimLeftDashesKeeps(c: string)
    ensures Filter(IsSlugChar, TrimLeft(c, {'-'})) == Filter(IsSlugChar, c)
  {
    var l := TrimLeft(c, {'-'});
    var a := |c| - |l|;
    assert c == c[..a] + l;
    FilterAppend(IsSlugChar, c[..a], l);
    NoSlugChars(c[..a]);
  }

  lemma TrimRightDashesKeeps(l: string)
    ensures Filter(IsSlugChar, TrimRight(l, {'-'})) == Filter(IsSlugChar, l)
  {
    var t := TrimRight(l, {'-'});
    assert l == t + l[|t|..];
    FilterAppend(IsSlugChar, t, l[|t|..]);
    NoSlugChars(l[|t|..]);
  }

  lemma {:induction false} NoSlugChars(s: string)
    requires forall i :: 0 <= i < |s| ==> s[i] == '-'
    ensures Filter(IsSlugChar, s) == []
  {
    if s != [] {
      NoSlugChars(s[1..]);
    }
  }

  lemma {:induction false} SkipRunDropsNoSlugChar(s: string)
    ensures Filter(IsSlugChar, SkipRun(s)) == Filter(IsSlugChar, s)
  {
    if s != [] && !IsSlugChar(s[0]) {
      SkipRunDropsNoSlugChar(s[1..]);
    }
  }

  lemma {:induction false} CollapseRunsKeeps(s: string)
    ensures Filter(IsSlugChar, CollapseRuns(s)) == Filter(IsSlugChar, s)
    decreases |s|
  {
    if s != [] {
      if IsSlugChar(s[0]) {
        CollapseRunsKeeps(s[1..]);
        assert ([s[0]] + CollapseRuns(s[1..]))[1..] == CollapseRuns(s[1..]);
      } else {
        var rest := SkipRun(s);
        CollapseRunsKeeps(rest);
        SkipRunDropsNoSlugChar(s);
        assert ("-" + CollapseRuns(rest))[1..] == CollapseRuns(rest);
      }
    }
  }

  // --------------------------------------------------------------- URLs

  /** `join_url`: an absolute URL is kept; otherwise the path goes after the
      base, without its trailing slashes and, for a `/wp-vrt/` path, without
      a trailing `/wp-vrt`. */
  function JoinUrl(baseUrl: string, path: string): string {
    if StartsWith(path, "http://") || StartsWith(path, "https://") then path
    else
      var b := TrimRight(baseUrl, {'/'});
      var b2 := if EndsWith(b, "/wp-vrt") && StartsWith(path, "/wp-vrt/") then b[..|b| - 7] else b;
      TrimRight(b2, {'/'}) + path
  }

  /** Absolute URLs pass through; every other joined URL ends with the path. */
  lemma JoinUrlPath(baseUrl: string, path: string)
    ensures StartsWith(path, "http://") || StartsWith(path, "https://") ==> JoinUrl(baseUrl, path) == path
    ensures EndsWith(JoinUrl(baseUrl, path), path)
  {
    if !(StartsWith(path, "http://") || StartsWith(path, "https://")) {
      var b := TrimRight(baseUrl, {'/'});
      var b2 := if EndsWith(b, "/wp-vrt") && StartsWith(path, "/wp-vrt/") then b[..|b| - 7] else b;
      EndsWithConcat(TrimRight(b2, {'/'}), path);
    } else {
      var m := |path|;
      assert path[m - m..] == path;
    }
  }

  /** The manifest's base URL (`home_url('/wp-vrt')`) joined with an item
      URL names `/wp-vrt/` once, whatever slashes follow the base. */
  lemma JoinUrlOnce(home: string, slashes: string, rest: string)
    requires home == [] || home[|home| - 1] != '/'
    requires forall i :: 0 <= i < |slashes| ==> slashes[i] == '/'
    ensures JoinUrl(home + "/wp-vrt" + slashes, "/wp-vrt/" + rest) == home + "/wp-vrt/" + rest
  {
    var path := "/wp-vrt/" + rest;
    assert !StartsWith(path, "http://") && !StartsWith(path, "https://") by {
      assert path[1] == 'w';
    }
    StartsWithConcat("/wp-vrt/", rest);
    var b := home + "/wp-vrt";
    TrimSlashesOff(b, slashes);
    EndsWithConcat(home, "/wp-vrt");
    assert b[..|b| - 7] == home;
    TrimRightNoop(home, {'/'});
    assert JoinUrl(b + slashes, path) == home + path;
    AppendAssoc(home, "/wp-vrt/", rest);
  }

  lemma {:induction false} TrimSlashesOff(s: string, slashes: string)
    requires s != [] && s[|s| - 1] != '/'
    requires forall i :: 0 <= i < |slashes| ==> slashes[i] == '/'
    ensures TrimRight(s + slashes, {'/'}) == s
    decreases |slashes|
  {
    if slashes == [] {
      assert s + slashes == s;
      TrimRightNoop(s, {'/'});
    } else {
      var t := s + slashes;
      assert t[..|t| - 1] == s + slashes[..|slashes| - 1];
      TrimSlashesOff(s, slashes[..|slashes| - 1]);
    }
  }

  // ------------------------------------------------------------- options

  const DefaultTypes: string := "blocks,patterns,templates,parts,scenarios"

  /** `array_filter(array_map('trim', explode(',', $types)))`: the requested
      types, trimmed, without blank (or `"0"`) entries. */
  function WantedTypes(types: string): (r: seq<string>)
    ensures forall t :: t in r ==> Truthy(t) && ',' !in t
  {
    Filter(Truthy, Map((t: string) => Trim(t, Whitespace), Split(types, ',')))
  }

  /** Every requested type is already trimmed. */
  lemma WantedTypesTrimmed(types: string)
    ensures forall t :: t in WantedTypes(types) ==> Trim(t, Whitespace) == t
  {
    var xs := Split(types, ',');
    var ys := Map((t: string) => Trim(t, Whitespace), xs);
    forall y | y in WantedTypes(types) ensures Trim(y, Whitespace) == y {
      assert y in ys;
      var i :| 0 <= i < |ys| && ys[i] == y;
      assert y == Trim(xs[i], Whitespace);
      TrimIdempotent(xs[i], Whitespace);
    }
  }

  /** The options `generate_snapshots` reads; missing ones are None. */
  datatype AssocArgs = AssocArgs(
    baseUrl: Option<string>,
    dir: Option<string>,
    types: Option<string>,
    width: Option<int>,
    height: Option<int>,
    node: Option<string>)

  datatype Options = Options(baseUrl: string, dir: string, types: string, width: int, height: int, node: string)

  /** The defaults: the home URL, `WP_CONTENT_DIR/wp-vrt-snapshots` (or the
      temporary directory), every type, 1200 by 800, and `node`. */
  function SnapshotOptions(args: AssocArgs, homeUrl: string, contentDir: Option<string>, tempDir: string): (o: Options)
    ensures args.width.None? ==> o.width == 1200
    ensures args.height.None? ==> o.height == 800
    ensures args.types.None? ==> o.types == DefaultTypes
    ensures args.node.None? ==> o.node == "node"
    ensures args.dir.None? && contentDir.Some? ==> o.dir == contentDir.value + "/wp-vrt-snapshots"
  {
    Options(
      Coalesce(args.baseUrl, homeUrl),
      Coalesce(args.dir, if contentDir.Some? then contentDir.value + "/wp-vrt-snapshots" else tempDir),
      Coalesce(args.types, DefaultTypes),
      Coalesce(args.width, 1200),
      Coalesce(args.height, 800),
      Coalesce(args.node, "node"))
  }

  /** The piece before the first comma becomes the first wanted type when
      it is not blank once trimmed. */
  lemma WantedTypesCons(a: string, b: string)
    requires ',' !in a
    ensures WantedTypes(a + [','] + b)
         == (if Truthy(Trim(a, Whitespace)) then [Trim(a, Whitespace)] else []) + WantedTypes(b)
  {
    SplitCons(a, b, ',');
  }

  /** A list without commas names at most one type. */
  lemma WantedTypesSingle(a: string)
    requires ',' !in a
    ensures WantedTypes(a) == if Truthy(Trim(a, Whitespace)) then [Trim(a, Whitespace)] else []
  {
    SplitNoSeparator(a, ',');
  }

  // ------------------------------------------------------- collect_items

  /** The fields of the discovery manifest's items that the command reads;
      a missing `name`/`slug` is None, missing `variations` is empty. */
  datatype CliVariation = CliVariation(url: string, name: Option<string>)
  datatype CliBlock = CliBlock(url: string, name: Option<string>, variations: seq<CliVariation>)
  datatype CliPattern = CliPattern(url: string, name: Option<string>, slug: Option<string>)
  datatype CliEntry = CliEntry(url: string, slug: Option<string>)

  /** `items` of the manifest; a missing list is empty. */
  datatype CliItems = CliItems(
    blocks: seq<CliBlock>,
    patterns: seq<CliPattern>,
    templates: seq<CliEntry>,
    templateParts: seq<CliEntry>,
    scenarios: seq<CliEntry>)

  /** One screenshot to take: a URL and a file name without extension. */
  datatype Snapshot = Snapshot(url: string, snapshot: string)

  /** A snapshot file name: a type prefix and a slug. */
  predicate SafeName(s: string) {
    forall i :: 0 <= i < |s| ==> IsSlugChar(s[i]) || s[i] == '-'
  }

  /** The five item types; `Part` is requested as `parts` and read from
      `template_parts`. */
  datatype Kind = BlockKind | PatternKind | TemplateKind | PartKind | ScenarioKind

  /** The prefix of a type's snapshot names. */
  function Prefix(k: Kind): (p: string)
    ensures SafeName(p) && |p| > 1 && p[|p| - 1] == '-'
  {
    match k
    case BlockKind => "block-"
    case PatternKind => "pattern-"
    case TemplateKind => "template-"
    case PartKind => "part-"
    case ScenarioKind => "scenario-"
  }

  /** No name carries the prefixes of two different types. */
  lemma PrefixesDistinct(s: string, k: Kind, k': Kind)
    requires StartsWith(s, Prefix(k)) && StartsWith(s, Prefix(k'))
    ensures k == k'
  {
    var p, p' := Prefix(k), Prefix(k');
    assert s[0] == p[0] && s[0] == p'[0];
    if s[0] == 'p' {
      assert s[2] == p[2] && s[2] == p'[2];
    }
  }

  /** The snapshot of one item: its URL and its type's prefix followed by
      the slug of `name`. */
  function EntrySnapshot(k: Kind, url: string, name: string): (r: Snapshot)
    ensures r.url == url && StartsWith(r.snapshot, Prefix(k)) && SafeName(r.snapshot)
  {
    var slug := SnapshotSlug(name);
    StartsWithConcat(Prefix(k), slug);
    SafeConcat(Prefix(k), slug);
    Snapshot(url, Prefix(k) + slug)
  }

  lemma SafeConcat(prefix: string, slug: string)
    requires SafeName(prefix) && IsSnapshotSlug(slug)
    ensures SafeName(prefix + slug)
  {
    forall i | 0 <= i < |prefix + slug|
      ensures IsSlugChar((prefix + slug)[i]) || (prefix + slug)[i] == '-'
    {
      if i >= |prefix| {
        assert (prefix + slug)[i] == slug[i - |prefix|];
      }
    }
  }

  /** A variation's entry, named after its block and itself. */
  function VariationSnapshot(b: CliBlock): CliVariation -> Snapshot {
    (v: CliVariation) => EntrySnapshot(BlockKind, v.url, Coalesce(b.name, "block") + "-" + Coalesce(v.name, "variation"))
  }

  /** A block's own entry, named after the block (or its URL). */
  function BlockSnapshot(b: CliBlock): Snapshot {
    EntrySnapshot(BlockKind, b.url, Coalesce(b.name, b.url))
  }

  function Variations(b: CliBlock): seq<CliVariation> {
    b.variations
  }

  /** An item's entry followed by one entry per child, in order. */
  function Group<T, C>(head: T -> Snapshot, children: T -> seq<C>, child: T -> C -> Snapshot, x: T): (r: seq<Snapshot>)
    ensures |r| == 1 + |children(x)|
    ensures r[0] == head(x)
    ensures forall i :: 0 <= i < |children(x)| ==> r[i + 1] == child(x)(children(x)[i])
  {
    [head(x)] + Map(child(x), children(x))
  }

  /** The groups of a list of items, item after item. */
  function Groups<T, C>(head: T -> Snapshot, children: T -> seq<C>, child: T -> C -> Snapshot, xs: seq<T>): seq<Snapshot> {
    if xs == [] then []
    else Groups(head, children, child, xs[..|xs| - 1]) + Group(head, children, child, xs[|xs| - 1])
  }

  /** A block's entries: its own, then one per variation, in order. */
  function BlockSnapshots(b: CliBlock): seq<Snapshot> {
    Group(BlockSnapshot, Variations, VariationSnapshot, b)
  }

  /** Every snapshot `f` makes carries the prefix of `k` and a safe name. */
  ghost predicate KindOf(k: Kind, es: seq<Snapshot>) {
    forall e :: e in es ==> StartsWith(e.snapshot, Prefix(k)) && SafeName(e.snapshot)
  }

  lemma MapKind<T>(k: Kind, f: T -> Snapshot, xs: seq<T>)
    requires forall x :: StartsWith(f(x).snapshot, Prefix(k)) && SafeName(f(x).snapshot)
    ensures KindOf(k, Map(f, xs))
  {
    forall e | e in Map(f, xs)
      ensures StartsWith(e.snapshot, Prefix(k)) && SafeName(e.snapshot)
    {
      var i :| 0 <= i < |xs| && Map(f, xs)[i] == e;
      assert e == f(xs[i]);
    }
  }

  /** The number of entries a list of blocks contributes: 1 + |variations| each. */
  function BlockEntryCount(bs: seq<CliBlock>): nat {
    if bs == [] then 0 else BlockEntryCount(bs[..|bs| - 1]) + 1 + |bs[|bs| - 1].variations|
  }

  /** The blocks section: every block's entries, block after block. */
  function BlocksSnapshots(bs: seq<CliBlock>): seq<Snapshot> {
    Groups(BlockSnapshot, Variations, VariationSnapshot, bs)
  }

  /** Each block contributes its own entry and one per variation. */
  lemma {:induction false} BlocksCount(bs: seq<CliBlock>)
    ensures |BlocksSnapshots(bs)| == BlockEntryCount(bs)
  {
    if bs != [] {
      BlocksCount(bs[..|bs| - 1]);
    }
  }

  /** Every name in the blocks section is `block-` and a slug. */
  lemma {:induction false} BlocksKind(bs: seq<CliBlock>)
    ensures KindOf(BlockKind, BlocksSnapshots(bs))
  {
    if bs != [] {
      var b := bs[|bs| - 1];
      BlocksKind(bs[..|bs| - 1]);
      MapKind(BlockKind, VariationSnapshot(b), b.variations);
    }
  }

  function PatternSnapshot(p: CliPattern): (r: Snapshot)
    ensures r.url == p.url
  {
    EntrySnapshot(PatternKind, p.url, Coalesce(p.name, Coalesce(p.slug, "pattern")))
  }

  function TemplateSnapshot(e: CliEntry): (r: Snapshot)
    ensures r.url == e.url
  {
    EntrySnapshot(TemplateKind, e.url, Coalesce(e.slug, "template"))
  }

  function PartSnapshot(e: CliEntry): (r: Snapshot)
    ensures r.url == e.url
  {
    EntrySnapshot(PartKind, e.url, Coalesce(e.slug, "part"))
  }

  function ScenarioSnapshot(e: CliEntry): (r: Snapshot)
    ensures r.url == e.url
  {
    EntrySnapshot(ScenarioKind, e.url, Coalesce(e.slug, "scenario"))
  }

  function Section<T>(wanted: bool, entries: seq<T>): seq<T> {
    if wanted then entries else []
  }

  /** `collect_items`: the requested sections, always in the order blocks,
      patterns, templates, parts (read from `template_parts`), scenarios. */
  function CollectItems(items: CliItems, types: seq<string>): seq<Snapshot> {
    Section("blocks" in types, BlocksSnapshots(items.blocks))
      + Section("patterns" in types, Map(PatternSnapshot, items.patterns))
      + Section("templates" in types, Map(TemplateSnapshot, items.templates))
      + Section("parts" in types, Map(PartSnapshot, items.templateParts))
      + Section("scenarios" in types, Map(ScenarioSnapshot, items.scenarios))
  }

  /** The type name `--types` uses for each kind. */
  function TypeName(k: Kind): string {
    match k
    case BlockKind => "blocks"
    case PatternKind => "patterns"
    case TemplateKind => "templates"
    case PartKind => "parts"
    case ScenarioKind => "scenarios"
  }

  /** Every collected entry's name holds only `[a-z0-9-]` and carries the
      prefix of a type that was requested. */
  lemma CollectedNames(items: CliItems, types: seq<string>, e: Snapshot, k: Kind)
    requires e in CollectItems(items, types) && StartsWith(e.snapshot, Prefix(k))
    ensures SafeName(e.snapshot) && TypeName(k) in types
  {
    BlocksKind(items.blocks);
    MapKind(PatternKind, PatternSnapshot, items.patterns);
    MapKind(TemplateKind, TemplateSnapshot, items.templates);
    MapKind(PartKind, PartSnapshot, items.templateParts);
    MapKind(ScenarioKind, ScenarioSnapshot, items.scenarios);
    var b := BlocksSnapshots(items.blocks);
    var p := Map(PatternSnapshot, items.patterns);
    var t := Map(TemplateSnapshot, items.templates);
    var q := Map(PartSnapshot, items.templateParts);
    var c := Map(ScenarioSnapshot, items.scenarios);
    InFive(e, Section("blocks" in types, b), Section("patterns" in types, p), Section("templates" in types, t),
      Section("parts" in types, q), Section("scenarios" in types, c));
    var owner: Kind;
    if e in Section("blocks" in types, b) {
      owner := BlockKind;
      InSection(e, "blocks" in types, b);
    } else if e in Section("patterns" in types, p) {
      owner := PatternKind;
      InSection(e, "patterns" in types, p);
    } else if e in Section("templates" in types, t) {
      owner := TemplateKind;
      InSection(e, "templates" in types, t);
    } else if e in Section("parts" in types, q) {
      owner := PartKind;
      InSection(e, "parts" in types, q);
    } else {
      owner := ScenarioKind;
      InSection(e, "scenarios" in types, c);
    }
    PrefixesDistinct(e.snapshot, k, owner);
  }

  lemma InFive<T>(e: T, b: seq<T>, p: seq<T>, t: seq<T>, q: seq<T>, c: seq<T>)
    requires e in b + p + t + q + c
    ensures e in b || e in p || e in t || e in q || e in c
  {
  }

  lemma InSection<T>(e: T, wanted: bool, xs: seq<T>)
    requires e in Section(wanted, xs)
    ensures wanted && e in xs
  {
  }

  /** Each block contributes 1 + |variations| entries and every other item
      one, for the requested types only. */
  lemma CollectedCount(items: CliItems, types: seq<string>)
    ensures |CollectItems(items, types)|
         == (if "blocks" in types then BlockEntryCount(items.blocks) else 0)
          + (if "patterns" in types then |items.patterns| else 0)
          + (if "templates" in types then |items.templates| else 0)
          + (if "parts" in types then |items.templateParts| else 0)
          + (if "scenarios" in types then |items.scenarios| else 0)
  {
    BlocksCount(items.blocks);
  }

  /** Only which types are requested matters, not their order or repeats. */
  lemma CollectItemsIgnoresTypeOrder(items: CliItems, types: seq<string>, others: seq<string>)
    requires forall t :: t in types <==> t in others
    ensures CollectItems(items, types) == CollectItems(items, others)
  {
  }

  /** `collect_items`, appending to the list as the command does. */
  method CollectItemsOf(items: CliItems, types: seq<string>) returns (collected: seq<Snapshot>)
    ensures collected == CollectItems(items, types)
  {
    collected := [];
    if "blocks" in types && items.blocks != [] {
      collected := AppendGroups(collected, BlockSnapshot, Variations, VariationSnapshot, items.blocks);
    }
    SectionOfGroups(collected, "blocks" in types, BlockSnapshot, Variations, VariationSnapshot, items.blocks);
    collected := AppendSection(collected, "patterns" in types, PatternSnapshot, items.patterns);
    collected := AppendSection(collected, "templates" in types, TemplateSnapshot, items.templates);
    collected := AppendSection(collected, "parts" in types, PartSnapshot, items.templateParts);
    collected := AppendSection(collected, "scenarios" in types, ScenarioSnapshot, items.scenarios);
  }

  /** The blocks section as the command builds it, skipped when not wanted or empty. */
  lemma SectionOfGroups<T, C>(collected: seq<Snapshot>, wanted: bool, head: T -> Snapshot, children: T -> seq<C>, child: T -> C -> Snapshot, xs: seq<T>)
    requires collected == if wanted && xs != [] then [] + Groups(head, children, child, xs) else []
    ensures collected == Section(wanted, Groups(head, children, child, xs))
  {
    if wanted && xs != [] {
      assert [] + Groups(head, children, child, xs) == Groups(head, children, child, xs);
    }
  }

  /** One of the other sections: one entry per item when the type is
      wanted and the list is not empty. */
  method AppendSection<T>(acc: seq<Snapshot>, wanted: bool, f: T -> Snapshot, xs: seq<T>) returns (r: seq<Snapshot>)
    ensures r == acc + Section(wanted, Map(f, xs))
  {
    if wanted && xs != [] {
      r := AppendMapped(acc, f, xs);
    } else {
      r := acc;
      assert acc + [] == acc;
    }
  }

  /** The blocks loop: for each item its own entry, then an inner loop
      over its children. */
  method AppendGroups<T, C>(acc: seq<Snapshot>, head: T -> Snapshot, children: T -> seq<C>, child: T -> C -> Snapshot, xs: seq<T>)
    returns (r: seq<Snapshot>)
    ensures r == acc + Groups(head, children, child, xs)
  {
    r := acc;
    var i := 0;
    while i < |xs|
      invariant 0 <= i <= |xs|
      invariant r == acc + Groups(head, children, child, xs[..i])
    {
      var x := xs[i];
      ghost var done := Groups(head, children, child, xs[..i]);
      r := r + [head(x)];
      r := AppendMapped(r, child(x), children(x));
      AppendAssoc(acc + done, [head(x)], Map(child(x), children(x)));
      AppendAssoc(acc, done, Group(head, children, child, x));
      assert xs[..i + 1][..i] == xs[..i];
      i := i + 1;
    }
    assert xs[..i] == xs;
  }

  /** One `foreach` of the other sections: an entry per item, in order. */
  method AppendMapped<T>(acc: seq<Snapshot>, f: T -> Snapshot, xs: seq<T>) returns (r: seq<Snapshot>)
    ensures r == acc + Map(f, xs)
  {
    r := acc;
    var i := 0;
    while i < |xs|
      invariant 0 <= i <= |xs|
      invariant r == acc + Map(f, xs[..i])
    {
      MapSnoc(f, xs[..i], xs[i]);
      assert xs[..i + 1] == xs[..i] + [xs[i]];
      r := r + [f(xs[i])];
      i := i + 1;
    }
    assert xs[..i] == xs;
  }

  // ---------------------------------------------------- fetch_discovery

  const DiscoverRoute: string := "/wp-json/wp-vrt/v1/discover"

  function DiscoveryEndpoint(baseUrl: string): string {
    TrimRight(baseUrl, {'/'}) + DiscoverRoute
  }

  /** The requests made and the one whose answer is used. */
  datatype Fetched = Fetched(attempts: seq<string>, endpoint: string, body: Option<string>)

  /** `fetch_discovery`'s requests: the endpoint, then, only when that failed
      and it is an `https://` URL, once more over `http://`. `get` is the
      remote GET (None for a `WP_Error`). */
  function FetchDiscovery(baseUrl: string, get: string -> Option<string>): (f: Fetched)
    ensures 1 <= |f.attempts| <= 2 && f.attempts[0] == DiscoveryEndpoint(baseUrl)
    ensures |f.attempts| == 2 <==> get(f.attempts[0]).None? && StartsWith(f.attempts[0], "https://")
    ensures |f.attempts| == 2 ==> f.attempts[1] == "http://" + f.attempts[0][8..]
    ensures f.body.Some? <==> exists a :: a in f.attempts && get(a).Some?
    ensures f.body.Some? ==> f.endpoint in f.attempts && f.body == get(f.endpoint)
    ensures f.body.None? ==> f.endpoint == f.attempts[0]
  {
    var endpoint := DiscoveryEndpoint(baseUrl);
    var first := get(endpoint);
    if first.None? && StartsWith(endpoint, "https://") then
      var httpEndpoint := "http://" + endpoint[8..];
      var second := get(httpEndpoint);
      if second.Some? then Fetched([endpoint, httpEndpoint], httpEndpoint, second)
      else Fetched([endpoint, httpEndpoint], endpoint, None)
    else Fetched([endpoint], endpoint, first)
  }

  /** The HTTP retry asks the same host and path as the HTTPS request. */
  lemma RetryKeepsAddress(baseUrl: string, get: string -> Option<string>)
    requires |FetchDiscovery(baseUrl, get).attempts| == 2
    ensures var a := FetchDiscovery(baseUrl, get).attempts;
      a[0] == "https://" + a[1][7..]
  {
    var a := FetchDiscovery(baseUrl, get).attempts;
    assert a[0][..8] == "https://";
    assert a[0] == a[0][..8] + a[0][8..];
    assert a[1][7..] == a[0][8..];
  }

  // ------------------------------------------------- generate_snapshots

  /** What the command does with one item's run. */
  datatype Event = Saved(path: string) | Failed(url: string)

  /** The screenshot run's fixed settings. */
  datatype RunConfig = RunConfig(baseUrl: string, dir: string, node: string, script: string, width: int, height: int)

  /** `rtrim($dir, '/\\') . '/' . $name . '.png'` */
  function SnapshotPath(dir: string, name: string): string {
    TrimRight(dir, {'/', '\\'}) + "/" + name + ".png"
  }

  /** The command line `run_node` gives the process (before shell quoting). */
  function NodeCommand(cfg: RunConfig, url: string, path: string): seq<string> {
    [cfg.node, cfg.script, url, path, IntToString(cfg.width), IntToString(cfg.height)]
  }

  /** One item: the exit status `run` gives for its command decides between
      a saved file and a warning. */
  function SnapshotEvent(cfg: RunConfig, run: seq<string> -> int, item: Snapshot): (e: Event)
    ensures e.Saved? <==> run(NodeCommand(cfg, JoinUrl(cfg.baseUrl, item.url), SnapshotPath(cfg.dir, item.snapshot))) == 0
    ensures e.Saved? ==> e.path == SnapshotPath(cfg.dir, item.snapshot)
    ensures e.Failed? ==> e.url == JoinUrl(cfg.baseUrl, item.url)
  {
    var url := JoinUrl(cfg.baseUrl, item.url);
    var path := SnapshotPath(cfg.dir, item.snapshot);
    if run(NodeCommand(cfg, url, path)) != 0 then Failed(url) else Saved(path)
  }

  function RunItem(cfg: RunConfig, run: seq<string> -> int): Snapshot -> Event {
    (item: Snapshot) => SnapshotEvent(cfg, run, item)
  }

  /** The loop over the items: a failure is reported and the loop goes on. */
  method SaveSnapshots(cfg: RunConfig, run: seq<string> -> int, items: seq<Snapshot>) returns (events: seq<Event>)
    ensures events == Map(RunItem(cfg, run), items)
  {
    events := [];
    var i := 0;
    while i < |items|
      invariant 0 <= i <= |items|
      invariant events == Map(RunItem(cfg, run), items[..i])
    {
      var item := items[i];
      var url := JoinUrl(cfg.baseUrl, item.url);
      var name := item.snapshot;
      var path := SnapshotPath(cfg.dir, name);
      var result := run(NodeCommand(cfg, url, path));
      MapSnoc(RunItem(cfg, run), items[..i], items[i]);
      assert items[..i + 1] == items[..i] + [items[i]];
      i := i + 1;
      if result != 0 {
        events := events + [Failed(url)];
        continue;
      }
      events := events + [Saved(path)];
    }
    assert items[..i] == items;
  }

  /** The discovery manifest as the command reads it. */
  datatype Discovery = Discovery(baseUrl: Option<string>, items: CliItems)

  /** The environment: the site's home URL, `WP_CONTENT_DIR` (None when
      undefined), the temporary directory, the plugin directory, the file
      system checks, the remote GET, `json_decode` to an array (None when
      the body is not one) and the process runner's exit status. */
  datatype CliHost = CliHost(
    homeUrl: string,
    contentDir: Option<string>,
    tempDir: string,
    pluginPath: string,
    fileExists: string -> bool,
    isDir: string -> bool,
    mkdirP: string -> bool,
    get: string -> Option<string>,
    decode: string -> Option<Discovery>,
    run: seq<string> -> int)

  /** How `wp vrt snapshots` ends: a fatal error, the "no items" warning, or
      the events of the run in order. */
  datatype SnapshotRun =
    | MissingScript(script: string)
    | DirectoryFailed(dir: string)
    | FetchFailed(endpoint: string)
    | InvalidJson(endpoint: string)
    | NoItems
    | Ran(dir: string, events: seq<Event>)

  function ScriptPath(host: CliHost): string {
    host.pluginPath + "assets/cli/screenshot.mjs"
  }

  /** `generate_snapshots` from its options to its outcome. */
  function SnapshotsRun(host: CliHost, args: AssocArgs): SnapshotRun {
    var o := SnapshotOptions(args, host.homeUrl, host.contentDir, host.tempDir);
    var script := ScriptPath(host);
    if !host.fileExists(script) then MissingScript(script)
    else if !host.isDir(o.dir) && !host.mkdirP(o.dir) then DirectoryFailed(o.dir)
    else
      var f := FetchDiscovery(o.baseUrl, host.get);
      if f.body.None? then FetchFailed(f.endpoint)
      else
        var d := host.decode(f.body.value);
        if d.None? then InvalidJson(f.endpoint)
        else
          var baseUrl := Coalesce(d.value.baseUrl, o.baseUrl);
          var items := CollectItems(d.value.items, WantedTypes(o.types));
          if items == [] then NoItems
          else
            var cfg := RunConfig(baseUrl, o.dir, o.node, script, o.width, o.height);
            Ran(o.dir, Map(RunItem(cfg, host.run), items))
  }

  /** A completed run reports one event per collected item, and every saved
      file lies directly in the snapshot directory under a name made of
      `[a-z0-9-]` and `.png`. */
  lemma SnapshotsRunEvents(host: CliHost, args: AssocArgs)
    requires SnapshotsRun(host, args).Ran?
    ensures var out := SnapshotsRun(host, args);
      && out.events != []
      && forall i :: 0 <= i < |out.events| && out.events[i].Saved? ==>
           exists name :: SafeName(name) && out.events[i].path == SnapshotPath(out.dir, name)
  {
    var o := SnapshotOptions(args, host.homeUrl, host.contentDir, host.tempDir);
    var f := FetchDiscovery(o.baseUrl, host.get);
    var d := host.decode(f.body.value);
    var types := WantedTypes(o.types);
    var items := CollectItems(d.value.items, types);
    var cfg := RunConfig(Coalesce(d.value.baseUrl, o.baseUrl), o.dir, o.node, ScriptPath(host), o.width, o.height);
    forall e | e in items
      ensures SafeName(e.snapshot)
    {
      NameSafe(d.value.items, types, e);
    }
    SavedInDir(cfg, host.run, items);
  }

  /** Each saved file of a run over safely named items is directly in the
      snapshot directory. */
  lemma SavedInDir(cfg: RunConfig, run: seq<string> -> int, items: seq<Snapshot>)
    requires forall e :: e in items ==> SafeName(e.snapshot)
    ensures var events := Map(RunItem(cfg, run), items);
      forall i :: 0 <= i < |events| && events[i].Saved? ==>
        exists name :: SafeName(name) && events[i].path == SnapshotPath(cfg.dir, name)
  {
    var events := Map(RunItem(cfg, run), items);
    forall i | 0 <= i < |events| && events[i].Saved?
      ensures exists name :: SafeName(name) && events[i].path == SnapshotPath(cfg.dir, name)
    {
      assert items[i] in items;
      assert events[i] == SnapshotEvent(cfg, run, items[i]);
    }
  }

  lemma NameSafe(items: CliItems, types: seq<string>, e: Snapshot)
    requires e in CollectItems(items, types)
    ensures SafeName(e.snapshot)
  {
    BlocksKind(items.blocks);
    MapKind(PatternKind, PatternSnapshot, items.patterns);
    MapKind(TemplateKind, TemplateSnapshot, items.templates);
    MapKind(PartKind, PartSnapshot, items.templateParts);
    MapKind(ScenarioKind, ScenarioSnapshot, items.scenarios);
  }

  /** `generate_snapshots`, step by step: check the script and the
      directory, fetch and decode the manifest, collect, then run each item. */
  method GenerateSnapshots(host: CliHost, args: AssocArgs) returns (out: SnapshotRun)
    ensures out == SnapshotsRun(host, args)
  {
    var o := SnapshotOptions(args, host.homeUrl, host.contentDir, host.tempDir);
    var script := ScriptPath(host);
    if !host.fileExists(script) {
      return MissingScript(script);
    }
    if !host.isDir(o.dir) && !host.mkdirP(o.dir) {
      return DirectoryFailed(o.dir);
    }
    var f := FetchDiscovery(o.baseUrl, host.get);
    if f.body.None? {
      return FetchFailed(f.endpoint);
    }
    var d := host.decode(f.body.value);
    if d.None? {
      return InvalidJson(f.endpoint);
    }
    var baseUrl := Coalesce(d.value.baseUrl, o.baseUrl);
    var wanted := WantedTypes(o.types);
    var items := CollectItemsOf(d.value.items, wanted);
    if items == [] {
      return NoItems;
    }
    var events := SaveSnapshots(RunConfig(baseUrl, o.dir, o.node, script, o.width, o.height), host.run, items);
    out := Ran(o.dir, events);
  }
}
