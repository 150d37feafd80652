/**
 * Manifest loading of the FlipBook component: the fetched manifest, already
 * decoded, is checked and its page file names are turned into absolute image
 * URLs under `<base>assets/pdf/pages`.
 */
module Manifest {
  import opened Wrappers
  import Text
  import Config

  /** The decoded body: either unreadable JSON or the value of its `pages` field. */
  datatype ManifestBody = Unreadable(message: string) | Parsed(pages: Option<seq<string>>)

  /** What `fetch(MANIFEST_URL)` produced. */
  datatype ManifestResponse =
    | FetchFailed(message: string)
    | Response(ok: bool, status: int, body: ManifestBody)

  const PAGES_DIR := "assets/pdf/pages"

  predicate StartsWith(s: string, prefix: string) {
    |prefix| <= |s| && s[..|prefix|] == prefix
  }

  /** `PAGES_BASE_URL`, made absolute with a leading `/` when it has none. */
  function PagesBasePath(baseUrl: string): (p: string)
    ensures |p| > 0 && p[0] == '/'
  {
    var pagesBase := Config.GetBase(baseUrl) + PAGES_DIR;
    if StartsWith(pagesBase, "/") then pagesBase else "/" + pagesBase
  }

  /** `f.replace(/^\//, '')`: drops one leading `/`. */
  function StripLeadingSlash(f: string): (r: string)
    ensures |f| > 0 && f[0] == '/' ==> r == f[1..]
    ensures (|f| == 0 || f[0] != '/') ==> r == f
  {
    if |f| > 0 && f[0] == '/' then f[1..] else f
  }

  /** The URL of one page image: origin + base path + `/` + file name, unless already absolute. */
  function PageUrl(origin: string, basePath: string, fileName: string): string {
    var path := basePath + "/" + StripLeadingSlash(fileName);
    if StartsWith(path, "http") then path else origin + path
  }

  /** `pages.map(...)`: one URL per file name, in order. */
  function PageUrls(origin: string, basePath: string, pages: seq<string>): (urls: seq<string>)
    ensures |urls| == |pages|
    ensures forall i :: 0 <= i < |pages| ==> urls[i] == PageUrl(origin, basePath, pages[i])
  {
    seq(|pages|, i requires 0 <= i < |pages| => PageUrl(origin, basePath, pages[i]))
  }

  /**
   * The outcome of a manifest load: the image URLs, or the message of the
   * error the loader throws (a failed fetch, a non-ok status, unreadable JSON,
   * or a missing or empty `pages` list).
   */
  function ResolveManifest(resp: ManifestResponse, origin: string, baseUrl: string): (r: Result<seq<string>, string>)
    ensures r.Ok? ==> resp.Response? && resp.body.Parsed? && resp.body.pages.Some? &&
                      |r.value| == |resp.body.pages.value| > 0
    ensures resp.FetchFailed? ==> r == Err(resp.message)
    ensures resp.Response? && resp.ok && resp.body.Unreadable? ==> r == Err(resp.body.message)
  {
    match resp
    case FetchFailed(message) => Err(message)
    case Response(ok, status, body) =>
      if !ok then Err("Manifest not found (" + Text.IntToString(status) + ")")
      else match body
        case Unreadable(message) => Err(message)
        case Parsed(pages) =>
          if pages.None? || |pages.value| == 0 then Err("No pages in manifest")
          else Ok(PageUrls(origin, PagesBasePath(baseUrl), pages.value))
  }

  /** The load succeeds exactly for an ok response whose `pages` list is present and non-empty. */
  lemma ResolveSucceedsExactly(resp: ManifestResponse, origin: string, baseUrl: string)
    ensures ResolveManifest(resp, origin, baseUrl).Ok? <==>
              resp.Response? && resp.ok && resp.body.Parsed? &&
              resp.body.pages.Some? && |resp.body.pages.value| > 0
    ensures resp.Response? && !resp.ok ==>
              ResolveManifest(resp, origin, baseUrl) == Err("Manifest not found (" + Text.IntToString(resp.status) + ")")
    ensures resp.Response? && resp.ok && resp.body.Parsed? &&
            (resp.body.pages.None? || resp.body.pages.value == []) ==>
              ResolveManifest(resp, origin, baseUrl) == Err("No pages in manifest")
  {
  }

  /**
   * A successful load yields one URL per file name, in order, each the origin,
   * the absolute pages path, `/`, and the file name with one leading `/` removed;
   * the file name can be read back from the URL.
   */
  lemma {:induction false} ResolvedUrls(resp: ManifestResponse, origin: string, baseUrl: string)
    requires ResolveManifest(resp, origin, baseUrl).Ok?
    ensures var urls := ResolveManifest(resp, origin, baseUrl).value;
            var pages := resp.body.pages.value;
            var prefix := origin + PagesBasePath(baseUrl) + "/";
            && |urls| == |pages|
            && forall i :: 0 <= i < |pages| ==>
                 && urls[i] == prefix + StripLeadingSlash(pages[i])
                 && urls[i][..|prefix|] == prefix
                 && urls[i][|prefix|..] == StripLeadingSlash(pages[i])
  {
    var urls := ResolveManifest(resp, origin, baseUrl).value;
    var pages := resp.body.pages.value;
    var basePath := PagesBasePath(baseUrl);
    var prefix := origin + basePath + "/";
    forall i | 0 <= i < |pages|
      ensures urls[i] == prefix + StripLeadingSlash(pages[i])
    {
      var path := basePath + "/" + StripLeadingSlash(pages[i]);
      assert path[0] == '/';
      assert !StartsWith(path, "http");
    }
  }

  /** Distinct file names (up to one leading `/`) give distinct image URLs. */
  lemma ResolvedUrlsDistinct(resp: ManifestResponse, origin: string, baseUrl: string, i: nat, j: nat)
    requires ResolveManifest(resp, origin, baseUrl).Ok?
    requires i < |resp.body.pages.value| && j < |resp.body.pages.value|
    requires StripLeadingSlash(resp.body.pages.value[i]) != StripLeadingSlash(resp.body.pages.value[j])
    ensures ResolveManifest(resp, origin, baseUrl).value[i] != ResolveManifest(resp, origin, baseUrl).value[j]
  {
    ResolvedUrls(resp, origin, baseUrl);
  }
}
