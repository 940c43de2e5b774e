/**
 * The stylesheet layers of a rendered page (class StyleCollector): theme.json
 * variables, global styles, the block library read from disk, the theme's
 * `style.css`, and a block-specific layer only the output filter fills.
 */
module StyleCollector {
  import opened Php

  /** The five layers, in the order a page emits them. */
  datatype Layers = Layers(
    themeJsonVariables: string,
    globalStyles: string,
    blockLibrary: string,
    themeStylesheet: string,
    blockSpecific: string)

  /** The keys of the layer map, in order. */
  const LayerKeys: seq<string> := ["theme-json-variables", "global-styles", "block-library", "theme-stylesheet", "block-specific"]

  /** A registered stylesheet of `$wp_styles`: its `src` and its `after`
      inline chunks (None when missing or not an array). */
  datatype StyleHandle = StyleHandle(src: string, after: Option<seq<string>>)

  /** The URL paths of `site_url()`, `content_url()`, `includes_url()` and the
      constants ABSPATH, WPINC and WP_CONTENT_DIR. */
  datatype SiteLayout = SiteLayout(
    sitePath: Option<string>,
    contentPath: Option<string>,
    includesPath: Option<string>,
    abspath: string,
    wpinc: string,
    contentDir: string)

  /** What the collector reads from WordPress and the file system. */
  datatype StyleHost = StyleHost(
    themeJsonResolverExists: bool,
    themeJsonStylesheet: Option<string>,  // None when `get_merged_data` is falsy
    globalStylesheetExists: bool,
    globalStylesheet: string,
    blockStylesExist: bool,               // `wp_common_block_scripts_and_styles` exists
    stylesLoaded: bool,                   // the `$wp_styles` global is set
    registered: map<string, StyleHandle>,
    layout: SiteLayout,
    urlPath: string -> Option<string>,    // the `path` of `wp_parse_url`, None without one
    readFile: string -> Option<string>,   // None unless the file exists and reads as a string
    stylesheetDirectory: string,
    collectedFilter: Layers -> Layers)    // wp_vrt_collected_styles

  // -------------------------------------------------------- path normalising

  predicate NoDoubledSlash(s: string) {
    forall i :: 0 <= i < |s| - 1 ==> !(s[i] == '/' && s[i + 1] == '/')
  }

  /** Every run of `/` becomes a single `/`. */
  function CollapseSlashes(t: string): (r: string)
    ensures |r| <= |t|
  {
    if t == [] then []
    else if |t| >= 2 && t[0] == '/' && t[1] == '/' then CollapseSlashes(t[1..])
    else [t[0]] + CollapseSlashes(t[1..])
  }

  lemma {:induction false} CollapseSlashesNoop(t: string)
    requires NoDoubledSlash(t)
    ensures CollapseSlashes(t) == t
  {
    if t != [] {
      assert NoDoubledSlash(t[1..]) by {
        forall i | 0 <= i < |t[1..]| - 1 ensures !(t[1..][i] == '/' && t[1..][i + 1] == '/') {
          assert t[1..][i] == t[i + 1] && t[1..][i + 1] == t[i + 2];
        }
      }
      CollapseSlashesNoop(t[1..]);
      assert !(|t| >= 2 && t[0] == '/' && t[1] == '/');
      assert [t[0]] + t[1..] == t;
    }
  }

  /** A doubled slash anywhere collapses like a single one. */
  lemma {:induction false} CollapseSlashesDoubled(u: string, y: string)
    ensures CollapseSlashes(u + "//" + y) == CollapseSlashes(u + "/" + y)
    decreases |u|
  {
    if u == [] {
      assert u + "//" + y == "/" + ("/" + y);
      assert u + "/" + y == "/" + y;
      assert ("/" + ("/" + y))[1..] == "/" + y;
    } else {
      var a := u + "//" + y;
      var b := u + "/" + y;
      assert a[1..] == u[1..] + "//" + y;
      assert b[1..] == u[1..] + "/" + y;
      CollapseSlashesDoubled(u[1..], y);
      assert a[0] == b[0] == u[0];
      assert |a| >= 2 && |b| >= 2;
      assert a[1] == b[1];
    }
  }

  /** `wp_normalize_path` for paths that are not stream URLs: backslashes
      become slashes, every run of slashes after the first character becomes
      one, and a drive letter is upper-cased. */
  function NormalizePath(s: string): string {
    NormalizeSlashes(ReplaceChar(s, '\\', '/'))
  }

  /** The part of `wp_normalize_path` after backslashes are replaced. */
  function NormalizeSlashes(t: string): string {
    var c := if t == [] then [] else [t[0]] + CollapseSlashes(t[1..]);
    if |c| >= 2 && c[1] == ':' then [UpperChar(c[0])] + c[1..] else c
  }

  /** No backslash, no doubled slash and no drive letter. */
  predicate NormalForm(s: string) {
    '\\' !in s && NoDoubledSlash(s) && !(|s| >= 2 && s[1] == ':')
  }

  /** A path in normal form already is left as it is. */
  lemma NormalizePathNoop(s: string)
    requires NormalForm(s)
    ensures NormalizePath(s) == s
  {
    var t := ReplaceChar(s, '\\', '/');
    assert t == s;
    if s != [] {
      assert NoDoubledSlash(s[1..]) by {
        forall i | 0 <= i < |s[1..]| - 1 ensures !(s[1..][i] == '/' && s[1..][i + 1] == '/') {
          assert s[1..][i] == s[i + 1] && s[1..][i + 1] == s[i + 2];
        }
      }
      CollapseSlashesNoop(s[1..]);
      assert [s[0]] + s[1..] == s;
    }
  }

  /** Joining to a directory that ends in `/` with one more `/` changes nothing. */
  lemma NormalizePathDoubledSlash(a: string, b: string)
    requires |a| >= 2 && a[|a| - 1] == '/'
    ensures NormalizePath(a + "/" + b) == NormalizePath(a + b)
  {
    var A := ReplaceChar(a, '\\', '/');
    var B := ReplaceChar(b, '\\', '/');
    ReplaceCharConcat(a + "/", b, '\\', '/');
    ReplaceCharConcat(a, "/", '\\', '/');
    ReplaceCharConcat(a, b, '\\', '/');
    assert ReplaceChar("/", '\\', '/') == "/";
    assert ReplaceChar(a + "/" + b, '\\', '/') == A + "/" + B;
    assert ReplaceChar(a + b, '\\', '/') == A + B;
    SlashesDoubled(A, B);
  }

  lemma SlashesDoubled(A: string, B: string)
    requires |A| >= 2 && A[|A| - 1] == '/'
    ensures NormalizeSlashes(A + "/" + B) == NormalizeSlashes(A + B)
  {
    var t1 := A + "/" + B;
    var t2 := A + B;
    var u := A[1..|A| - 1];
    assert A == [A[0]] + u + "/";
    assert t1[1..] == u + "//" + B;
    assert t2[1..] == u + "/" + B;
    CollapseSlashesDoubled(u, B);
    assert t1[0] == t2[0];
  }

  // ---------------------------------------------------------- URL to path

  /** The prefix tests of `map_url_to_path` on a normalised URL path, with the
      directory that replaces the includes prefix given by the caller. */
  function PrefixMap(l: SiteLayout, p: string, includesDir: string): Option<string> {
    if TruthyOpt(l.includesPath) && StartsWith(p, l.includesPath.value) then
      Some(NormalizePath(includesDir + p[|l.includesPath.value|..]))
    else if TruthyOpt(l.contentPath) && StartsWith(p, l.contentPath.value) then
      Some(NormalizePath(l.contentDir + p[|l.contentPath.value|..]))
    else if TruthyOpt(l.sitePath) && StartsWith(p, l.sitePath.value) then
      Some(NormalizePath(l.abspath + p[|l.sitePath.value|..]))
    else None
  }

  /** `map_url_to_path` as written: the includes directory is `ABSPATH . WPINC`,
      with no separator before the rest of the path. */
  function MapUrlToPathAsWritten(host: StyleHost, url: string): (r: Option<string>)
    ensures !TruthyOpt(host.urlPath(url)) ==> r.None?
  {
    var p := host.urlPath(url);
    if !TruthyOpt(p) then None
    else PrefixMap(host.layout, NormalizePath(p.value), host.layout.abspath + host.layout.wpinc)
  }

  /** The includes directory with the separator `includes_url()`'s path ends in. */
  function IncludesDir(l: SiteLayout): string {
    l.abspath + l.wpinc + "/"
  }

  /** `map_url_to_path` with the includes directory joined by a separator. */
  function MapUrlToPath(host: StyleHost, url: string): (r: Option<string>)
    ensures !TruthyOpt(host.urlPath(url)) ==> r.None?
  {
    var p := host.urlPath(url);
    if !TruthyOpt(p) then None
    else PrefixMap(host.layout, NormalizePath(p.value), IncludesDir(host.layout))
  }

  /** A URL maps to a file exactly when its path starts with one of the
      three prefixes; the includes prefix is tried first, then the content
      prefix, then the site prefix, and the matching prefix is replaced by
      its directory. */
  lemma MapUrlToPathOrder(host: StyleHost, url: string)
    ensures var p := host.urlPath(url); var l := host.layout;
      TruthyOpt(p) ==>
        var n := NormalizePath(p.value);
        var inInc := TruthyOpt(l.includesPath) && StartsWith(n, l.includesPath.value);
        var inContent := TruthyOpt(l.contentPath) && StartsWith(n, l.contentPath.value);
        var inSite := TruthyOpt(l.sitePath) && StartsWith(n, l.sitePath.value);
        && (MapUrlToPathAsWritten(host, url).Some? <==> inInc || inContent || inSite)
        && (inInc ==>
             MapUrlToPathAsWritten(host, url) == Some(NormalizePath(l.abspath + l.wpinc + n[|l.includesPath.value|..])))
        && (!inInc && inContent ==>
             MapUrlToPathAsWritten(host, url) == Some(NormalizePath(l.contentDir + n[|l.contentPath.value|..])))
        && (!inInc && !inContent && inSite ==>
             MapUrlToPathAsWritten(host, url) == Some(NormalizePath(l.abspath + n[|l.sitePath.value|..])))
  {
  }

  /** WordPress places the includes directory at `ABSPATH/WPINC` and serves it
      at the site path followed by `/WPINC/`. For a file there, the includes
      branch then names the same file as the site branch would. */
  lemma IncludesMappingAgreesWithSite(l: SiteLayout, rest: string)
    requires TruthyOpt(l.sitePath)
    requires l.includesPath == Some(l.sitePath.value + "/" + l.wpinc + "/")
    requires |l.abspath| >= 2 && l.abspath[|l.abspath| - 1] == '/'
    ensures var p := l.includesPath.value + rest;
      PrefixMap(l, p, IncludesDir(l)) == Some(NormalizePath(l.abspath + p[|l.sitePath.value|..]))
  {
    var sp := l.sitePath.value;
    var ip := l.includesPath.value;
    var p := ip + rest;
    assert StartsWith(p, ip) by { assert p[..|ip|] == ip; }
    assert Truthy(ip) by { assert |ip| > 0 && ip[|ip| - 1] == '/'; }
    assert p[|ip|..] == rest;
    assert p[|sp|..] == "/" + l.wpinc + "/" + rest;
    assert l.abspath + p[|sp|..] == l.abspath + "/" + (l.wpinc + "/" + rest);
    assert IncludesDir(l) + rest == l.abspath + (l.wpinc + "/" + rest);
    NormalizePathDoubledSlash(l.abspath, l.wpinc + "/" + rest);
  }

  /** A URL under the includes prefix: the code as written appends the rest
      of its path directly to `ABSPATH . WPINC`. */
  lemma IncludesBranch(host: StyleHost, url: string, rest: string)
    requires TruthyOpt(host.layout.includesPath) && TruthyOpt(host.urlPath(url))
    requires NormalizePath(host.urlPath(url).value) == host.layout.includesPath.value + rest
    ensures MapUrlToPathAsWritten(host, url) == Some(NormalizePath(host.layout.abspath + host.layout.wpinc + rest))
    ensures MapUrlToPath(host, url) == Some(NormalizePath(IncludesDir(host.layout) + rest))
  {
    var n := NormalizePath(host.urlPath(url).value);
    var ip := host.layout.includesPath.value;
    assert n[..|ip|] == ip;
    assert n[|ip|..] == rest;
  }

  lemma NoDoubledSlashConcat(a: string, b: string)
    requires NoDoubledSlash(a) && NoDoubledSlash(b)
    requires !(a != [] && b != [] && a[|a| - 1] == '/' && b[0] == '/')
    ensures NoDoubledSlash(a + b)
  {
    var s := a + b;
    forall i | 0 <= i < |s| - 1 ensures !(s[i] == '/' && s[i + 1] == '/') {
      if i + 1 < |a| {
        assert s[i] == a[i] && s[i + 1] == a[i + 1];
      } else if i >= |a| {
        assert s[i] == b[i - |a|] && s[i + 1] == b[i + 1 - |a|];
      } else {
        assert s[i] == a[|a| - 1] && s[i + 1] == b[0];
      }
    }
  }

  lemma ExampleStrings()
    ensures "/wp-includes/" + "css/x.css" == "/wp-includes/css/x.css"
    ensures "/srv/wp/" + "wp-includes" + "css/x.css" == "/srv/wp/wp-includescss/x.css"
    ensures "/srv/wp/" + "wp-includes" + "/" + "css/x.css" == "/srv/wp/wp-includes/css/x.css"
  {
  }

  lemma ExamplePieces()
    ensures NormalForm("/srv/wp/") && NormalForm("wp-includes") && NormalForm("css/x.css") && NormalForm("/")
  {
  }

  lemma ExampleJoins()
    ensures NormalForm("/srv/wp/" + "wp-includes" + "css/x.css")
    ensures NormalForm("/srv/wp/" + "wp-includes" + "/" + "css/x.css")
  {
    var abs, inc, rest := "/srv/wp/", "wp-includes", "css/x.css";
    ExamplePieces();
    NoDoubledSlashConcat(abs, inc);
    NoDoubledSlashConcat(abs + inc, rest);
    NoDoubledSlashConcat(abs + inc, "/");
    NoDoubledSlashConcat(abs + inc + "/", rest);
  }

  lemma ExamplePathsNormal()
    ensures NormalizePath("/wp-includes/css/x.css") == "/wp-includes/css/x.css"
    ensures NormalizePath("/srv/wp/" + "wp-includes" + "css/x.css") == "/srv/wp/" + "wp-includes" + "css/x.css"
    ensures NormalizePath("/srv/wp/" + "wp-includes" + "/" + "css/x.css") == "/srv/wp/" + "wp-includes" + "/" + "css/x.css"
  {
    NormalizePathNoop("/wp-includes/css/x.css");
    ExampleJoins();
    NormalizePathNoop("/srv/wp/" + "wp-includes" + "css/x.css");
    NormalizePathNoop("/srv/wp/" + "wp-includes" + "/" + "css/x.css");
  }

  /** A stylesheet of `wp-includes` on a site served from the root: where the
      code as written looks for it, and where the file is. */
  lemma IncludesSeparatorMissing(host: StyleHost, url: string)
    requires host.layout == SiteLayout(None, Some("/wp-content"), Some("/wp-includes/"), "/srv/wp/", "wp-includes", "/srv/wp/wp-content")
    requires host.urlPath(url) == Some("/wp-includes/css/x.css")
    ensures MapUrlToPathAsWritten(host, url) == Some("/srv/wp/wp-includescss/x.css")
    ensures MapUrlToPath(host, url) == Some("/srv/wp/wp-includes/css/x.css")
  {
    ExampleStrings();
    ExamplePathsNormal();
    IncludesBranch(host, url, "css/x.css");
  }

  /** On that site a `wp-includes` stylesheet is looked for at the joined
      path, not at the file's path: unless a file sits at the joined path,
      the handle yields only its inline chunks. */
  lemma IncludesStylesheetNotRead(host: StyleHost, handle: string)
    requires host.layout == SiteLayout(None, Some("/wp-content"), Some("/wp-includes/"), "/srv/wp/", "wp-includes", "/srv/wp/wp-content")
    requires host.stylesLoaded && handle in host.registered
    requires Truthy(host.registered[handle].src)
    requires host.urlPath(host.registered[handle].src) == Some("/wp-includes/css/x.css")
    requires host.readFile("/srv/wp/wp-includescss/x.css").None?
    ensures StyleHandleContent(host, handle) == AfterContent(host.registered[handle])
    ensures MapUrlToPath(host, host.registered[handle].src) == Some("/srv/wp/wp-includes/css/x.css")
  {
    IncludesSeparatorMissing(host, host.registered[handle].src);
  }

  // ------------------------------------------------------ handle contents

  /** `get_style_handle_content` */
  function StyleHandleContent(host: StyleHost, handle: string): (r: string)
    ensures !host.stylesLoaded || handle !in host.registered ==> r == ""
  {
    if !host.stylesLoaded || handle !in host.registered then ""
    else
      var style := host.registered[handle];
      FileContent(host, style) + AfterContent(style)
  }

  /** The file part: the contents of the file `src` maps to, if it reads. */
  function FileContent(host: StyleHost, style: StyleHandle): string {
    if !Truthy(style.src) then ""
    else
      var path := MapUrlToPathAsWritten(host, style.src);
      if !TruthyOpt(path) then ""
      else
        var contents := host.readFile(path.value);
        if contents.Some? then contents.value else ""
  }

  /** The inline part: a newline, then the `after` chunks joined by newlines. */
  function AfterContent(style: StyleHandle): string {
    if style.after.Some? && style.after.value != [] then "\n" + Join(style.after.value, "\n") else ""
  }

  /** The handle's content is its file followed by its inline chunks, and it
      is empty when neither is there. */
  lemma StyleHandleContentParts(host: StyleHost, handle: string)
    requires host.stylesLoaded && handle in host.registered
    ensures var style := host.registered[handle];
      && StartsWith(StyleHandleContent(host, handle), FileContent(host, style))
      && (style.after.Some? && style.after.value != [] ==>
            EndsWith(StyleHandleContent(host, handle), Join(style.after.value, "\n")))
      && (FileContent(host, style) == "" && !(style.after.Some? && style.after.value != []) ==>
            StyleHandleContent(host, handle) == "")
      && var path := MapUrlToPathAsWritten(host, style.src);
      var read := Truthy(style.src) && TruthyOpt(path) && host.readFile(path.value).Some?;
      && (read ==> StyleHandleContent(host, handle) == host.readFile(path.value).value + AfterContent(style))
      && (!read ==> StyleHandleContent(host, handle) == AfterContent(style))
  {
    var style := host.registered[handle];
    StartsWithConcat(FileContent(host, style), AfterContent(style));
    if style.after.Some? && style.after.value != [] {
      var j := Join(style.after.value, "\n");
      assert FileContent(host, style) + AfterContent(style) == (FileContent(host, style) + "\n") + j;
      EndsWithConcat(FileContent(host, style) + "\n", j);
    }
  }

  method GetStyleHandleContent(host: StyleHost, handle: string) returns (content: string)
    ensures content == StyleHandleContent(host, handle)
  {
    if !host.stylesLoaded || handle !in host.registered {
      return "";
    }
    var style := host.registered[handle];
    content := "";
    if Truthy(style.src) {
      var path := MapUrlToPathAsWritten(host, style.src);
      if TruthyOpt(path) {
        var fileContents := host.readFile(path.value);
        if fileContents.Some? {
          content := content + fileContents.value;
        }
      }
    }
    if style.after.Some? && style.after.value != [] {
      content := content + ("\n" + Join(style.after.value, "\n"));
    }
  }

  // -------------------------------------------------------------- layers

  const BlockLibraryHandles: seq<string> := ["wp-block-library", "wp-block-library-theme"]

  /** Each handle's content followed by a newline, in order. */
  function HandlesContent(host: StyleHost, handles: seq<string>): string {
    if handles == [] then ""
    else HandlesContent(host, handles[..|handles| - 1]) + StyleHandleContent(host, handles[|handles| - 1]) + "\n"
  }

  /** `collect_block_library_styles` */
  function BlockLibraryStyles(host: StyleHost): (r: string)
    ensures !host.blockStylesExist ==> r == ""
    ensures host.blockStylesExist ==>
      r == StyleHandleContent(host, "wp-block-library") + "\n" + StyleHandleContent(host, "wp-block-library-theme") + "\n"
  {
    if !host.blockStylesExist then ""
    else
      var first := BlockLibraryHandles[..1];
      assert first == ["wp-block-library"] && first[..0] == [];
      assert HandlesContent(host, first) == StyleHandleContent(host, "wp-block-library") + "\n";
      HandlesContent(host, BlockLibraryHandles)
  }

  method CollectBlockLibraryStyles(host: StyleHost) returns (content: string)
    ensures content == BlockLibraryStyles(host)
  {
    if !host.blockStylesExist {
      return "";
    }
    var handles := BlockLibraryHandles;
    content := "";
    var i := 0;
    while i < |handles|
      invariant 0 <= i <= |handles|
      invariant content == HandlesContent(host, handles[..i])
    {
      var c := GetStyleHandleContent(host, handles[i]);
      assert handles[..i + 1][..i] == handles[..i];
      content := content + c + "\n";
      i := i + 1;
    }
    assert handles[..i] == handles;
  }

  /** `collect_theme_stylesheet`: `style.css` of the stylesheet directory, or
      "" when it is missing or unreadable. */
  function ThemeStylesheet(host: StyleHost): string {
    var contents := host.readFile(host.stylesheetDirectory + "/style.css");
    if contents.Some? then contents.value else ""
  }

  /** The layer map `collect_all_styles` hands to its output filter. */
  function CollectedLayers(host: StyleHost): (r: Layers)
    ensures r.blockSpecific == ""
    ensures !host.themeJsonResolverExists || host.themeJsonStylesheet.None? ==> r.themeJsonVariables == ""
    ensures host.themeJsonResolverExists && host.themeJsonStylesheet.Some? ==> r.themeJsonVariables == host.themeJsonStylesheet.value
    ensures !host.globalStylesheetExists ==> r.globalStyles == ""
    ensures host.globalStylesheetExists ==> r.globalStyles == host.globalStylesheet
    ensures r.blockLibrary == BlockLibraryStyles(host)
    ensures r.themeStylesheet == ThemeStylesheet(host)
  {
    Layers(
      if host.themeJsonResolverExists && host.themeJsonStylesheet.Some? then host.themeJsonStylesheet.value else "",
      if host.globalStylesheetExists then host.globalStylesheet else "",
      BlockLibraryStyles(host),
      ThemeStylesheet(host),
      "")
  }

  /** `collect_all_styles` */
  method CollectAllStyles(host: StyleHost) returns (styles: Layers)
    ensures styles == host.collectedFilter(CollectedLayers(host))
  {
    styles := Layers("", "", "", "", "");
    if host.themeJsonResolverExists {
      if host.themeJsonStylesheet.Some? {
        styles := styles.(themeJsonVariables := host.themeJsonStylesheet.value);
      }
    }
    if host.globalStylesheetExists {
      styles := styles.(globalStyles := host.globalStylesheet);
    }
    var blockLibrary := CollectBlockLibraryStyles(host);
    styles := styles.(blockLibrary := blockLibrary);
    styles := styles.(themeStylesheet := ThemeStylesheet(host));
    styles := host.collectedFilter(styles);
  }
}
