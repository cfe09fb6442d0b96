/**
  server/static/static.go: the decisions behind serving the front end —
  placeholder substitution in index.html, the manifest, whether static
  files come from a CDN, the redirects to it, and the catch-all route.

  File-system and network reads, gin's request plumbing and JSON encoding
  are not modelled; settings (setting.GetStr) are values passed in.
 */
module Static {
  import opened Wrappers
  import opened GoStrings
  import opened StaticConfig

  // ---------------------------------------------------------------------
  // replaceStrings
  // ---------------------------------------------------------------------

  /** `order` lists every key of `keys` exactly once: one iteration order of a Go map. */
  ghost predicate IsOrdering(order: seq<string>, keys: set<string>) {
    && (forall i, j :: 0 <= i < j < |order| ==> order[i] != order[j])
    && (forall k :: k in order <==> k in keys)
  }

  /** The replacements applied one after the other in `order`, each to its first occurrence. */
  function ApplyInOrder(content: string, replacements: map<string, string>, order: seq<string>): string
    requires forall k :: k in order ==> k in replacements
  {
    if order == [] then content
    else
      var key := order[|order| - 1];
      ReplaceFirst(ApplyInOrder(content, replacements, order[..|order| - 1]), key, replacements[key])
  }

  /**
    replaceStrings: for each key of the map, in the map's (unspecified)
    iteration order, the first occurrence of the key is replaced by its
    value. `order` is the order that was taken.
   */
  method ReplaceStrings(content: string, replacements: map<string, string>) returns (r: string, ghost order: seq<string>)
    ensures IsOrdering(order, replacements.Keys)
    ensures r == ApplyInOrder(content, replacements, order)
  {
    r := content;
    order := [];
    var remaining := replacements.Keys;
    while remaining != {}
      invariant remaining <= replacements.Keys
      invariant forall k :: k in order <==> k in replacements.Keys && k !in remaining
      invariant forall i, j :: 0 <= i < j < |order| ==> order[i] != order[j]
      invariant r == ApplyInOrder(content, replacements, order)
      decreases remaining
    {
      var key :| key in remaining;
      r := ReplaceFirst(r, key, replacements[key]);
      order := order + [key];
      remaining := remaining - {key};
    }
  }

  /** Content in which no key occurs comes back unchanged, whatever the order. */
  lemma {:induction false} NoKeyUnchanged(content: string, replacements: map<string, string>, order: seq<string>)
    requires forall k :: k in order ==> k in replacements
    requires forall k :: k in replacements ==> !Contains(content, k)
    ensures ApplyInOrder(content, replacements, order) == content
    decreases |order|
  {
    if order != [] {
      NoKeyUnchanged(content, replacements, order[..|order| - 1]);
    }
  }

  // ---------------------------------------------------------------------
  // initIndex / UpdateIndex
  // ---------------------------------------------------------------------

  /** The manifest link in index.html: "/manifest.json" under the base path. */
  function ManifestPath(basePath: string): (p: string)
    ensures HasPrefix(p, basePath)
    ensures HasSuffix(p, "/manifest.json")
  {
    if basePath != "/" then basePath + "/manifest.json" else "/manifest.json"
  }

  /** For a normalised base path the link is the base path, without its trailing "/", then "/manifest.json". */
  lemma ManifestPathUnderBase(basePath: string)
    requires basePath == "/" || !HasSuffix(basePath, "/")
    ensures ManifestPath(basePath) == TrimSuffix(basePath, "/") + "/manifest.json"
  {
    if basePath == "/" {
      assert HasSuffix(basePath, "/");
    }
  }

  /** The placeholders initIndex fills from the site configuration. */
  function SiteReplacements(cfg: SiteConfig): map<string, string> {
    map[
      "cdn: undefined" := "cdn: '" + cfg.cdn + "'",
      "base_path: undefined" := "base_path: '" + cfg.basePath + "'",
      "href=\"/manifest.json\"" := "href=\"" + ManifestPath(cfg.basePath) + "\""]
  }

  /** The values UpdateIndex reads from the settings. */
  datatype Settings = Settings(
    favicon: string,
    logo: string,
    siteTitle: string,
    customizeHead: string,
    customizeBody: string,
    mainColor: string)

  /** The replacements that turn the raw index into ManageHtml. */
  function ManageReplacements(s: Settings): map<string, string> {
    map[
      "https://aslant.top/favicon.ico" := s.favicon,
      "https://res.oplist.org/logo/logo.png" := FirstLine(s.logo),
      "Loading..." := s.siteTitle,
      "main_color: undefined" := "main_color: '" + s.mainColor + "'"]
  }

  const CustomizeHeadMarker := "<!-- customize head -->"
  const CustomizeBodyMarker := "<!-- customize body -->"

  /** The replacements that turn ManageHtml into IndexHtml. */
  function CustomizeReplacements(s: Settings): map<string, string> {
    map[CustomizeHeadMarker := s.customizeHead, CustomizeBodyMarker := s.customizeBody]
  }

  /** Where initIndex takes index.html from. */
  datatype IndexSource = FetchFromCdn(url: string) | ReadFromDist

  /** A web version for which index.html is fetched from the CDN. */
  predicate IsDevWebVersion(webVersion: string) {
    webVersion == "" || webVersion == "beta" || webVersion == "dev" || webVersion == "rolling"
  }

  /**
    initIndex's choice as written: it tests the raw configured CDN, so a CDN
    set to "local" or "none" (which the site configuration turns into "")
    still sends a development build to fetch "/index.html".
   */
  function ChooseIndexSourceAsWritten(distDir: string, confCdn: string, webVersion: string, cfg: SiteConfig): (src: IndexSource)
    ensures src.FetchFromCdn? <==> distDir == "" && confCdn != "" && IsDevWebVersion(webVersion)
  {
    if distDir == "" && confCdn != "" && IsDevWebVersion(webVersion) then FetchFromCdn(cfg.cdn + "/index.html")
    else ReadFromDist
  }

  /** The as-written choice fetches "/index.html" for a development build whose CDN is "local". */
  lemma AsWrittenFetchesWithoutCdn()
    ensures var cfg := GetSiteConfig("", "local", "dev", p => p);
      cfg.cdn == "" && ChooseIndexSourceAsWritten("", "local", "dev", cfg) == FetchFromCdn("/index.html")
  {
    assert !HasSuffix("local", "/") by {
      assert "local"[4..] != "/";
    }
    AbsentWithoutFirstChar("local", VersionPlaceholder);
    assert ConfiguredCdn("local", "dev") == "local";
    assert ToLower("local") == "local";
  }

  /**
    initIndex's choice, corrected: index.html is fetched only when static
    files really come from a CDN, so the fetch never targets the local base
    path and a CDN switched off with "local" or "none" is honoured.
   */
  function ChooseIndexSource(distDir: string, confCdn: string, webVersion: string, cfg: SiteConfig): (src: IndexSource)
    ensures src.FetchFromCdn? <==> distDir == "" && confCdn != "" && IsDevWebVersion(webVersion) && UseCdn(cfg)
    ensures src.FetchFromCdn? ==> src.url == cfg.cdn + "/index.html"
    ensures src.FetchFromCdn? ==> src.url != "/index.html" && src.url != TrimSuffix(cfg.basePath, "/") + "/index.html"
  {
    if distDir == "" && confCdn != "" && IsDevWebVersion(webVersion) && UseCdn(cfg) then
      var url := cfg.cdn + "/index.html";
      assert url[..|cfg.cdn|] == cfg.cdn;
      assert (TrimSuffix(cfg.basePath, "/") + "/index.html")[..|TrimSuffix(cfg.basePath, "/")|] == TrimSuffix(cfg.basePath, "/");
      FetchFromCdn(url)
    else ReadFromDist
  }

  /** With the CDN switched off, the corrected choice always reads index.html from the dist files. */
  lemma DisabledCdnReadsDist(distDir: string, urlPath: string, confCdn: string, webVersion: string, clean: string -> string)
    requires ConfiguredCdn(confCdn, webVersion) != "" && DisablesCdn(ConfiguredCdn(confCdn, webVersion))
    ensures ChooseIndexSource(distDir, confCdn, webVersion, GetSiteConfig(urlPath, confCdn, webVersion, clean)) == ReadFromDist
  {
  }

  /** Whenever static files do come from a CDN, the corrected choice is the as-written one. */
  lemma IndexSourceAgreesUnderCdn(distDir: string, confCdn: string, webVersion: string, cfg: SiteConfig)
    requires UseCdn(cfg)
    ensures ChooseIndexSource(distDir, confCdn, webVersion, cfg) == ChooseIndexSourceAsWritten(distDir, confCdn, webVersion, cfg)
  {
  }

  /**
    The three pages the server keeps (conf.RawIndexHtml, conf.ManageHtml,
    conf.IndexHtml). The ghost orders record the map iteration orders used.
   */
  class Pages {
    var rawIndexHtml: string
    var manageHtml: string
    var indexHtml: string
    ghost var rawOrder: seq<string>
    ghost var manageOrder: seq<string>
    ghost var indexOrder: seq<string>

    /** ManageHtml and IndexHtml are the raw index rendered with the settings `s`. */
    ghost predicate RenderedWith(s: Settings)
      reads this
    {
      && IsOrdering(manageOrder, ManageReplacements(s).Keys)
      && IsOrdering(indexOrder, CustomizeReplacements(s).Keys)
      && manageHtml == ApplyInOrder(rawIndexHtml, ManageReplacements(s), manageOrder)
      && indexHtml == ApplyInOrder(manageHtml, CustomizeReplacements(s), indexOrder)
    }

    constructor ()
      ensures rawIndexHtml == "" && manageHtml == "" && indexHtml == ""
    {
      rawIndexHtml, manageHtml, indexHtml := "", "", "";
      rawOrder, manageOrder, indexOrder := [], [], [];
    }

    /**
      initIndex: take index.html from where the program decides (`load`
      stands for the fetch or the file read), fill in the site
      placeholders, then render the pages with the settings.
     */
    method InitIndex(cfg: SiteConfig, distDir: string, confCdn: string, webVersion: string,
                     load: IndexSource -> string, s: Settings)
      modifies this
      ensures IsOrdering(rawOrder, SiteReplacements(cfg).Keys)
      ensures rawIndexHtml == ApplyInOrder(load(ChooseIndexSourceAsWritten(distDir, confCdn, webVersion, cfg)), SiteReplacements(cfg), rawOrder)
      ensures RenderedWith(s)
    {
      RenderIndex(load(ChooseIndexSourceAsWritten(distDir, confCdn, webVersion, cfg)), cfg, s);
    }

    /** initIndex with the corrected choice of where index.html comes from. */
    method InitIndexCorrected(cfg: SiteConfig, distDir: string, confCdn: string, webVersion: string,
                              load: IndexSource -> string, s: Settings)
      modifies this
      ensures IsOrdering(rawOrder, SiteReplacements(cfg).Keys)
      ensures rawIndexHtml == ApplyInOrder(load(ChooseIndexSource(distDir, confCdn, webVersion, cfg)), SiteReplacements(cfg), rawOrder)
      ensures RenderedWith(s)
    {
      RenderIndex(load(ChooseIndexSource(distDir, confCdn, webVersion, cfg)), cfg, s);
    }

    /** The part of initIndex after loading: the site placeholders, then UpdateIndex. */
    method RenderIndex(raw: string, cfg: SiteConfig, s: Settings)
      modifies this
      ensures IsOrdering(rawOrder, SiteReplacements(cfg).Keys)
      ensures rawIndexHtml == ApplyInOrder(raw, SiteReplacements(cfg), rawOrder)
      ensures RenderedWith(s)
    {
      rawIndexHtml, rawOrder := ReplaceStrings(raw, SiteReplacements(cfg));
      UpdateIndex(s);
    }

    /**
      UpdateIndex: ManageHtml is the raw index with the favicon, logo,
      title and main colour filled in; IndexHtml is ManageHtml with the
      customised head and body added. The raw index is kept.
     */
    method UpdateIndex(s: Settings)
      modifies this
      ensures rawIndexHtml == old(rawIndexHtml) && rawOrder == old(rawOrder)
      ensures RenderedWith(s)
    {
      manageHtml, manageOrder := ReplaceStrings(rawIndexHtml, ManageReplacements(s));
      indexHtml, indexOrder := ReplaceStrings(manageHtml, CustomizeReplacements(s));
    }
  }

  /** Without the customisation markers, IndexHtml is ManageHtml. */
  lemma NoMarkersIndexIsManage(p: Pages, s: Settings)
    requires p.RenderedWith(s)
    requires !Contains(p.manageHtml, CustomizeHeadMarker) && !Contains(p.manageHtml, CustomizeBodyMarker)
    ensures p.indexHtml == p.manageHtml
  {
    NoKeyUnchanged(p.manageHtml, CustomizeReplacements(s), p.indexOrder);
  }

  // ---------------------------------------------------------------------
  // ManifestJSON
  // ---------------------------------------------------------------------

  datatype ManifestIcon = ManifestIcon(src: string, sizes: string, iconType: string)

  datatype Manifest = Manifest(display: string, scope: string, startUrl: string, name: string, icons: seq<ManifestIcon>)

  /** ManifestJSON: the web-app manifest for the site configuration and settings. */
  function ManifestJson(cfg: SiteConfig, siteTitle: string, logoSetting: string): (m: Manifest)
    ensures m.scope == cfg.basePath && m.startUrl == cfg.basePath
    ensures m.display == "standalone" && m.name == siteTitle
    ensures |m.icons| == 1
    ensures m.icons[0] == ManifestIcon(FirstLine(logoSetting), "512x512", "image/png")
  {
    Manifest("standalone", cfg.basePath, cfg.basePath, siteTitle,
      [ManifestIcon(FirstLine(logoSetting), "512x512", "image/png")])
  }

  /**
    For the site configuration, the manifest's scope is never empty, its
    icon is a single line, and the manifest link put into index.html lies
    inside that scope.
   */
  lemma ManifestConsistent(urlPath: string, confCdn: string, webVersion: string, clean: string -> string,
                           siteTitle: string, logoSetting: string)
    ensures var cfg := GetSiteConfig(urlPath, confCdn, webVersion, clean);
      var m := ManifestJson(cfg, siteTitle, logoSetting);
      && m.scope != ""
      && '\n' !in m.icons[0].src
      && HasPrefix(ManifestPath(cfg.basePath), m.scope)
  {
  }

  // ---------------------------------------------------------------------
  // Static: CDN or local files, redirects and the catch-all route
  // ---------------------------------------------------------------------

  /** Static files come from a CDN: one is set and it is not the local base path. */
  predicate UseCdn(cfg: SiteConfig) {
    cfg.cdn != "" && cfg.cdn != TrimSuffix(cfg.basePath, "/")
  }

  /** A CDN switched off with "local" or "none" means local files. */
  lemma DisabledCdnIsLocal(urlPath: string, confCdn: string, webVersion: string, clean: string -> string)
    requires ConfiguredCdn(confCdn, webVersion) != "" && DisablesCdn(ConfiguredCdn(confCdn, webVersion))
    ensures !UseCdn(GetSiteConfig(urlPath, confCdn, webVersion, clean))
  {
  }

  /**
    Without a configured CDN, a development build serves local files, and
    under the root base path its CDN setting is "".
   */
  lemma DevBuildIsLocal(urlPath: string, confCdn: string, webVersion: string, clean: string -> string)
    requires ConfiguredCdn(confCdn, webVersion) == "" && !IsReleaseVersion(VersionNumber(webVersion))
    ensures var cfg := GetSiteConfig(urlPath, confCdn, webVersion, clean);
      !UseCdn(cfg) && (cfg.basePath == "/" ==> cfg.cdn == "")
  {
  }

  /**
    Without a configured CDN, a release build takes its files from the
    default mirror, provided the cleaned URL path is absolute.
   */
  lemma ReleaseBuildUsesMirror(urlPath: string, confCdn: string, webVersion: string, clean: string -> string)
    requires ConfiguredCdn(confCdn, webVersion) == "" && IsReleaseVersion(VersionNumber(webVersion))
    requires urlPath != "" && clean(urlPath) != "" ==> clean(urlPath)[0] == '/'
    ensures var cfg := GetSiteConfig(urlPath, confCdn, webVersion, clean);
      UseCdn(cfg) && cfg.cdn == DefaultMirror(VersionNumber(webVersion))
  {
    var cfg := GetSiteConfig(urlPath, confCdn, webVersion, clean);
    BasePathIsAbsolute(urlPath, confCdn, webVersion, clean);
    var t := TrimSuffix(cfg.basePath, "/");
    assert t == "" || t[0] == '/';
    MirrorIsRemote(VersionNumber(webVersion));
    assert cfg.cdn[0] == "https://"[0];
  }

  /** An absolute cleaned URL path gives a base path that starts with "/". */
  lemma BasePathIsAbsolute(urlPath: string, confCdn: string, webVersion: string, clean: string -> string)
    requires urlPath != "" && clean(urlPath) != "" ==> clean(urlPath)[0] == '/'
    ensures GetSiteConfig(urlPath, confCdn, webVersion, clean).basePath[0] == '/'
  {
    if urlPath != "" {
      var cleaned := clean(urlPath);
      if cleaned != "/" && HasSuffix(cleaned, "/") {
        assert TrimSuffix(cleaned, "/")[0] == cleaned[0];
      }
    }
  }

  /** The default mirror is an https URL, never a local path. */
  lemma MirrorIsRemote(version: string)
    ensures HasPrefix(DefaultMirror(version), "https://")
  {
    var m := DefaultMirror(version);
    assert m == MirrorPrefix + (version + MirrorSuffix);
    assert m[..8] == MirrorPrefix[..8];
    assert MirrorPrefix[..8] == "https://" by {
      assert forall i :: 0 <= i < 8 ==> MirrorPrefix[i] == "https://"[i];
    }
  }

  const Folders: seq<string> := ["assets", "images", "streamer", "static"]
  const MermaidPath := "/mermaid/mermaid.min.js"
  const MermaidUrl := "https://cdn.jsdelivr.net/npm/mermaid@11/dist/mermaid.min.js"

  datatype Redirect = Redirect(status: int, location: string)

  /**
    In CDN mode, GET of a file under /<folder>/: mermaid.min.js goes (301) to
    jsDelivr, anything else (302) to the same file under the CDN.
   */
  function CdnRedirect(cdn: string, folder: string, filepath: string): (r: Redirect)
    requires folder in Folders
    ensures r.status == 301 <==> folder == "static" && filepath == MermaidPath
    ensures r.status == 301 ==> r.location == MermaidUrl
    ensures r.status != 301 ==> r.status == 302 && r.location == cdn + "/" + folder + filepath
  {
    if folder == "static" && filepath == MermaidPath then Redirect(301, MermaidUrl)
    else Redirect(302, cdn + "/" + folder + filepath)
  }

  /** No folder name is a prefix of another one. */
  lemma FoldersPrefixFree(f1: string, f2: string, rest1: string, rest2: string)
    requires f1 in Folders && f2 in Folders
    requires f1 + rest1 == f2 + rest2
    ensures f1 == f2 && rest1 == rest2
  {
    var s := f1 + rest1;
    assert |f1| >= 6 && |f2| >= 6;
    assert f1[..6] == s[..6] == f2[..6];
    assert "streamer"[..6] == "stream" && "assets"[..6] == "assets";
    assert "images"[..6] == "images" && "static"[..6] == "static";
    assert "assets"[0] == 'a' && "images"[0] == 'i' && "stream"[..3] == "str" && "static"[..3] == "sta";
    assert f1 == f2;
    assert rest1 == s[|f1|..] == rest2;
  }

  /** Different files never redirect (302) to the same CDN location. */
  lemma CdnRedirectInjective(cdn: string, f1: string, p1: string, f2: string, p2: string)
    requires f1 in Folders && f2 in Folders
    requires CdnRedirect(cdn, f1, p1).status == 302 && CdnRedirect(cdn, f2, p2).status == 302
    requires CdnRedirect(cdn, f1, p1).location == CdnRedirect(cdn, f2, p2).location
    ensures f1 == f2 && p1 == p2
  {
    var prefix := cdn + "/";
    assert prefix + f1 + p1 == prefix + (f1 + p1);
    assert prefix + f2 + p2 == prefix + (f2 + p2);
    assert f1 + p1 == (prefix + (f1 + p1))[|prefix|..];
    assert f2 + p2 == (prefix + (f2 + p2))[|prefix|..];
    FoldersPrefixFree(f1, f2, p1, p2);
  }

  /** In local mode, what the middleware does before the static file server. */
  datatype LocalAction = RedirectTo(redirect: Redirect) | Serve(longCache: bool)

  /** The request is for a file under one of the static folders. */
  predicate InStaticFolder(requestUri: string) {
    exists i :: 0 <= i < |Folders| && HasPrefix(requestUri, "/" + Folders[i] + "/")
  }

  /**
    In local mode: mermaid.min.js is redirected (301) to jsDelivr; a file
    under a static folder is served with a long cache lifetime.
   */
  function LocalStaticAction(requestUri: string): (a: LocalAction)
    ensures a.RedirectTo? <==> requestUri == "/static" + MermaidPath
    ensures a.RedirectTo? ==> a.redirect == Redirect(301, MermaidUrl)
    ensures a.Serve? ==> (a.longCache <==> InStaticFolder(requestUri))
  {
    if requestUri == "/static" + MermaidPath then RedirectTo(Redirect(301, MermaidUrl))
    else Serve(InStaticFolder(requestUri))
  }

  /**
    How a GET of `filepath` under `folder` is answered, in the mode the site
    configuration selects. `group` is the path the router group is mounted
    at ("" for the root) and `query` the raw query of the request ("" or
    starting with "?"): the CDN route sees only the path parameter, while
    the local middleware compares the whole RequestURI, group path and
    query included.
   */
  function StaticFolderAction(cfg: SiteConfig, group: string, folder: string, filepath: string, query: string): (a: LocalAction)
    requires folder in Folders
    ensures UseCdn(cfg) ==> a == RedirectTo(CdnRedirect(cfg.cdn, folder, filepath))
    ensures !UseCdn(cfg) ==> a == LocalStaticAction(group + "/" + folder + filepath + query)
  {
    if UseCdn(cfg) then RedirectTo(CdnRedirect(cfg.cdn, folder, filepath))
    else LocalStaticAction(group + "/" + folder + filepath + query)
  }

  /**
    With the routes at the root and no query, both modes send
    mermaid.min.js, and only it, to jsDelivr with a 301. With the routes at
    the root and any query, local mode serves every other file of a folder
    with the long cache lifetime. Wherever the routes are, CDN mode
    redirects every other file (302) under the CDN.
   */
  lemma StaticFolderModes(cfg: SiteConfig, group: string, folder: string, filepath: string, query: string)
    requires folder in Folders
    requires HasPrefix(filepath, "/")
    ensures var a := StaticFolderAction(cfg, group, folder, filepath, query);
      && (group == "" && query == "" ==> (a == RedirectTo(Redirect(301, MermaidUrl)) <==> folder == "static" && filepath == MermaidPath))
      && (group == "" && !UseCdn(cfg) && a.Serve? ==> a.longCache)
      && (UseCdn(cfg) && a.redirect.status != 301 ==> a.redirect.location == cfg.cdn + "/" + folder + filepath)
  {
    if group == "" {
      assert group + "/" + folder + filepath + query == "/" + folder + filepath + query;
      LocalUriInFolder(folder, filepath, query);
      if query == "" {
        MermaidUriOnly(folder, filepath);
      }
    }
  }

  /**
    Routes mounted under a group path such as "/foo" escape the middleware:
    its tests compare RequestURI with paths written from the root, so in
    local mode mermaid.min.js is not redirected and no file gets the long
    cache lifetime.
   */
  lemma GroupPathBypassesMiddleware(cfg: SiteConfig, group: string, folder: string, filepath: string, query: string)
    requires folder in Folders
    requires !UseCdn(cfg)
    requires |group| >= 2 && group[0] == '/' && group[1] != 'a' && group[1] != 'i' && group[1] != 's'
    ensures StaticFolderAction(cfg, group, folder, filepath, query) == Serve(false)
  {
    var uri := group + "/" + folder + filepath + query;
    assert uri[1] == group[1];
    assert ("/static" + MermaidPath)[1] == 's';
    forall i | 0 <= i < |Folders|
      ensures !HasPrefix(uri, "/" + Folders[i] + "/")
    {
      assert ("/" + Folders[i] + "/")[1] == Folders[i][0];
    }
  }

  /** A file under a folder, with any query, lies under that static folder. */
  lemma LocalUriInFolder(folder: string, filepath: string, query: string)
    requires folder in Folders
    requires HasPrefix(filepath, "/")
    ensures InStaticFolder("/" + folder + filepath + query)
  {
    var i :| 0 <= i < |Folders| && Folders[i] == folder;
    var uri := "/" + folder + filepath + query;
    assert HasPrefix(uri, "/" + Folders[i] + "/") by {
      assert uri == "/" + folder + "/" + (filepath[1..] + query);
    }
  }

  /** Without a query, the middleware's mermaid URI names the mermaid file of the static folder only. */
  lemma MermaidUriOnly(folder: string, filepath: string)
    requires folder in Folders
    ensures "/" + folder + filepath + "" == "/static" + MermaidPath <==> folder == "static" && filepath == MermaidPath
  {
    var uri := "/" + folder + filepath + "";
    if uri == "/static" + MermaidPath {
      assert folder + filepath == "static" + MermaidPath by {
        assert uri[1..] == folder + filepath;
        assert ("/static" + MermaidPath)[1..] == "static" + MermaidPath;
      }
      FoldersPrefixFree(folder, "static", filepath, MermaidPath);
    }
  }

  /**
    mermaid.min.js requested with a query string: the CDN route still
    redirects it to jsDelivr, but the local middleware no longer recognises
    it and serves the local copy with the long cache lifetime.
   */
  lemma MermaidWithQuery(cfg: SiteConfig, query: string)
    requires query != ""
    ensures UseCdn(cfg) ==> StaticFolderAction(cfg, "", "static", MermaidPath, query) == RedirectTo(Redirect(301, MermaidUrl))
    ensures !UseCdn(cfg) ==> StaticFolderAction(cfg, "", "static", MermaidPath, query) == Serve(true)
  {
    var uri := "/static" + MermaidPath + query;
    assert "" + "/" + "static" + MermaidPath + query == uri;
    assert |uri| > |"/static" + MermaidPath|;
    assert Folders[3] == "static";
    assert HasPrefix(uri, "/" + Folders[3] + "/") by {
      assert uri == "/static/" + (MermaidPath[1..] + query);
    }
  }

  /** What the catch-all route answers: a status and, for 200, the page. */
  datatype PageResponse = PageResponse(status: int, body: Option<string>)

  /**
    The catch-all route: 405 for any method other than GET and POST;
    otherwise 200 with ManageHtml under /@manage and IndexHtml elsewhere.
   */
  function CatchAll(requestMethod: string, path: string, manageHtml: string, indexHtml: string): (r: PageResponse)
    ensures r.status == 405 <==> requestMethod != "GET" && requestMethod != "POST"
    ensures r.status == 405 ==> r.body == None
    ensures r.status != 405 ==> r.status == 200 && r.body.Some?
    ensures r.status == 200 && HasPrefix(path, "/@manage") ==> r.body == Some(manageHtml)
    ensures r.status == 200 && !HasPrefix(path, "/@manage") ==> r.body == Some(indexHtml)
  {
    if requestMethod != "GET" && requestMethod != "POST" then PageResponse(405, None)
    else if HasPrefix(path, "/@manage") then PageResponse(200, Some(manageHtml))
    else PageResponse(200, Some(indexHtml))
  }
}
