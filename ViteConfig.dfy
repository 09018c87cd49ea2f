/** The build configuration's two pieces of logic: the base path the site is
    built for, and the development proxy that forwards texture requests to
    the vendor's asset server. */
module ViteConfig {
  import opened JsBuiltins
  import TableTop
  import AppRouter

  const DefaultRepositoryName: string := "marble-majesty-ui"
  const DefaultBase: string := "/" + DefaultRepositoryName + "/"

  /** `getBasePath`: the root in development; otherwise the second
      `/`-separated field of `GITHUB_REPOSITORY` between slashes when that
      variable is set (a missing field renders as "undefined"); otherwise
      the repository's own name. */
  function GetBasePath(mode: string, githubRepository: Option<string>): (base: string)
    ensures mode == "development" ==> base == "/"
    ensures mode != "development" && !Truthy(githubRepository) ==> base == DefaultBase
    ensures mode != "development" && Truthy(githubRepository) ==>
              var parts := Split(githubRepository.value, '/');
              base == "/" + (if |parts| > 1 then parts[1] else "undefined") + "/"
  {
    if mode == "development" then "/"
    else if Truthy(githubRepository) then
      var parts := Split(githubRepository.value, '/');
      "/" + (if |parts| > 1 then parts[1] else "undefined") + "/"
    else DefaultBase
  }

  /** On a CI build of `owner/repo` the site is built for `/repo/`. */
  lemma RepositoryBase(mode: string, owner: string, repo: string)
    requires mode != "development"
    requires '/' !in owner && '/' !in repo
    ensures GetBasePath(mode, Some(owner + "/" + repo)) == "/" + repo + "/"
  {
    SplitJoined(owner, repo, '/');
  }

  /** What the router makes of a base: the root when the base is the root
      or `//`, otherwise the base's single segment `name` with a leading
      slash, which normalising again keeps. */
  ghost predicate RouterSeesSegment(base: string) {
    ((base == "/" || base == "//") && AppRouter.Basename(Some(base)) == "/") ||
    exists name :: name != "" && '/' !in name && base == "/" + name + "/" &&
                   AppRouter.Basename(Some(base)) == "/" + name &&
                   AppRouter.Basename(Some("/" + name)) == "/" + name
  }

  lemma SegmentSeen(name: string)
    requires name != "" && '/' !in name
    ensures RouterSeesSegment("/" + name + "/")
  {
    AppRouter.SlashedNameBase(name);
  }

  /** Every base the build can be configured with reaches the router as the
      root or as one path segment. The root comes from development builds
      and from a repository variable with an empty second field (`//`). */
  lemma RouterAcceptsBase(mode: string, githubRepository: Option<string>)
    ensures RouterSeesSegment(GetBasePath(mode, githubRepository))
  {
    if mode == "development" {
      AppRouter.RootUnchanged();
    } else if Truthy(githubRepository) {
      RepositoryBaseSeen(githubRepository.value);
    } else {
      assert '/' !in DefaultRepositoryName;
      SegmentSeen(DefaultRepositoryName);
    }
  }

  lemma RepositoryBaseSeen(repository: string)
    ensures var parts := Split(repository, '/');
            RouterSeesSegment("/" + (if |parts| > 1 then parts[1] else "undefined") + "/")
  {
    var parts := Split(repository, '/');
    var name := if |parts| > 1 then parts[1] else "undefined";
    if name == "" {
      assert "/" + name + "/" == "//";
      assert AppRouter.Basename(Some("//")) == "/";
    } else {
      SegmentSeen(name);
    }
  }

  const ProxyPrefix: string := "/api/allinstone"
  const ProxyTarget: string := "https://www.allinstone.co.uk"
  const VendorAssetPath: string := "/assets/v-5/configurator-new"

  /** The proxy's `rewrite`: a leading `/api/allinstone` becomes the vendor's
      asset path; any other path is passed on as it is. */
  function Rewrite(path: string): (r: string)
    ensures StartsWith(path, ProxyPrefix) ==> r == VendorAssetPath + path[|ProxyPrefix|..]
    ensures !StartsWith(path, ProxyPrefix) ==> r == path
  {
    if StartsWith(path, ProxyPrefix) then VendorAssetPath + path[|ProxyPrefix|..] else path
  }

  /** Only the prefix is replaced: what follows it is kept verbatim. */
  lemma RewriteKeepsRest(rest: string)
    ensures Rewrite(ProxyPrefix + rest) == VendorAssetPath + rest
  {
    var p := ProxyPrefix + rest;
    assert p[..|ProxyPrefix|] == ProxyPrefix;
    assert p[|ProxyPrefix|..] == rest;
  }

  /** A texture requested through the development proxy is fetched from the
      very URL a production build requests directly. */
  lemma DevTextureMatchesProduction(file: string)
    ensures ProxyTarget + Rewrite(TableTop.TextureFileUrl(true, file)) == TableTop.TextureFileUrl(false, file)
  {
    var rest := TableTop.TextureDir + file;
    assert TableTop.TextureFileUrl(true, file) == ProxyPrefix + rest;
    RewriteKeepsRest(rest);
    assert TableTop.AllInStoneBase(false) == ProxyTarget + VendorAssetPath;
  }
}
