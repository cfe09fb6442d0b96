/**
  server/static/config.go: the site configuration the front end is served
  with, the base path it lives under and the CDN its assets come from.

  conf.URL.Path, conf.Conf.Cdn and conf.WebVersion are parameters;
  utils.FixAndCleanPath is the parameter `clean`.
 */
module StaticConfig {
  import opened GoStrings

  datatype SiteConfig = SiteConfig(basePath: string, cdn: string)

  const VersionPlaceholder := "$version"
  const MirrorPrefix := "https://registry.npmmirror.com/openlist-web/"
  const MirrorSuffix := "/files/dist"

  /** The web version with one leading "v" removed. */
  function VersionNumber(webVersion: string): string {
    TrimPrefix(webVersion, "v")
  }

  /** A published front-end version, one the default mirror has. */
  predicate IsReleaseVersion(version: string) {
    version != "" && version != "dev" && version != "beta" && version != "rolling"
  }

  /** The default mirror of the front end's files for a released version. */
  function DefaultMirror(version: string): string {
    MirrorPrefix + version + MirrorSuffix
  }

  /** "local" or "none" in any letter case: the CDN is switched off. */
  predicate DisablesCdn(cdn: string) {
    ToLower(cdn) == "local" || ToLower(cdn) == "none"
  }

  /** The configured CDN with one trailing "/" trimmed and every "$version" replaced. */
  function ConfiguredCdn(confCdn: string, webVersion: string): string {
    ReplaceAll(TrimSuffix(confCdn, "/"), VersionPlaceholder, VersionNumber(webVersion))
  }

  /** getSiteConfig */
  function GetSiteConfig(urlPath: string, confCdn: string, webVersion: string, clean: string -> string): (r: SiteConfig)
    ensures r.basePath != ""
    ensures urlPath == "" ==> r.basePath == "/"
    ensures var c := ConfiguredCdn(confCdn, webVersion);
      var v := VersionNumber(webVersion);
      && (c == "" && IsReleaseVersion(v) ==> r.cdn == DefaultMirror(v))
      && (c == "" && !IsReleaseVersion(v) ==> r.cdn == TrimSuffix(r.basePath, "/"))
      && (c != "" && DisablesCdn(c) ==> r.cdn == "")
      && (c != "" && !DisablesCdn(c) ==> r.cdn == c)
  {
    var basePath :=
      if urlPath == "" then ""
      else
        var cleaned := clean(urlPath);
        if cleaned != "/" && HasSuffix(cleaned, "/") then TrimSuffix(cleaned, "/") else cleaned;
    var basePath := if basePath == "" then "/" else basePath;
    var cdn := ConfiguredCdn(confCdn, webVersion);
    var version := VersionNumber(webVersion);
    var cdn :=
      if cdn == "" then
        if IsReleaseVersion(version) then DefaultMirror(version) else TrimSuffix(basePath, "/")
      else if DisablesCdn(cdn) then ""
      else cdn;
    SiteConfig(basePath, cdn)
  }

  /**
    The base path is "/" for an empty URL path or one that cleans to "" or
    "/"; otherwise it is the cleaned path with one trailing "/" removed.
   */
  lemma BasePathShape(urlPath: string, confCdn: string, webVersion: string, clean: string -> string)
    requires urlPath != ""
    ensures var b := GetSiteConfig(urlPath, confCdn, webVersion, clean).basePath;
      var cleaned := clean(urlPath);
      && (cleaned == "" || cleaned == "/" ==> b == "/")
      && (cleaned != "/" && HasSuffix(cleaned, "/") ==> b + "/" == cleaned)
      && (cleaned != "" && !HasSuffix(cleaned, "/") ==> b == cleaned)
  {
  }

  /** A cleaned path without a doubled trailing slash yields a base path that is "/" or has no trailing "/". */
  lemma BasePathHasNoTrailingSlash(urlPath: string, confCdn: string, webVersion: string, clean: string -> string)
    requires urlPath != "" ==> !HasSuffix(clean(urlPath), "//")
    ensures var b := GetSiteConfig(urlPath, confCdn, webVersion, clean).basePath;
      b == "/" || !HasSuffix(b, "/")
  {
    if urlPath != "" {
      var cleaned := clean(urlPath);
      if cleaned != "/" && HasSuffix(cleaned, "/") {
        var b := TrimSuffix(cleaned, "/");
        if b != "" {
          assert cleaned == b + "/";
          assert cleaned[|cleaned| - 2..] == [b[|b| - 1], '/'];
        }
      }
    }
  }

  /** "local" and "none" are recognised in any mix of letter cases. */
  lemma DisablesCdnAnyCase(cdn: string)
    requires |cdn| == 5 || |cdn| == 4
    requires |cdn| == 5 ==> forall i :: 0 <= i < 5 ==> cdn[i] == "local"[i] || cdn[i] == "LOCAL"[i]
    requires |cdn| == 4 ==> forall i :: 0 <= i < 4 ==> cdn[i] == "none"[i] || cdn[i] == "NONE"[i]
    ensures DisablesCdn(cdn)
  {
    if |cdn| == 5 {
      assert forall i :: 0 <= i < 5 ==> ToLower(cdn)[i] == "local"[i];
    } else {
      assert forall i :: 0 <= i < 4 ==> ToLower(cdn)[i] == "none"[i];
    }
  }

  /**
    A CDN template with one "$version" (and no other "$") becomes the
    template with the version number in its place, after one trailing "/"
    has been trimmed.
   */
  lemma CdnVersionSubstitution(prefix: string, rest: string, webVersion: string)
    requires '$' !in prefix && '$' !in rest
    ensures ConfiguredCdn(prefix + VersionPlaceholder + rest, webVersion) ==
      prefix + VersionNumber(webVersion) + TrimSuffix(rest, "/")
  {
    var template := prefix + VersionPlaceholder + rest;
    assert TrimSuffix(template, "/") == prefix + VersionPlaceholder + TrimSuffix(rest, "/") by {
      if rest == [] {
        assert template == prefix + VersionPlaceholder;
        assert !HasSuffix(template, "/") by {
          assert template[|template| - 1] == 'n';
        }
      } else if HasSuffix(rest, "/") {
        assert HasSuffix(template, "/") by {
          assert template[|template| - 1..] == rest[|rest| - 1..];
        }
        assert template[..|template| - 1] == prefix + VersionPlaceholder + rest[..|rest| - 1];
      } else {
        assert !HasSuffix(template, "/") by {
          assert template[|template| - 1..] == rest[|rest| - 1..];
        }
      }
    }
    var trimmedRest := TrimSuffix(rest, "/");
    assert '$' !in trimmedRest by {
      assert forall i :: 0 <= i < |trimmedRest| ==> trimmedRest[i] == rest[i];
    }
    ReplaceAllSingle(prefix, VersionPlaceholder, trimmedRest, VersionNumber(webVersion));
  }
}
