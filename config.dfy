/**
 * The URL <-> page codec of the host shell (src/config.js): the application
 * base path, reading the page number from `/page/<n>` in the location path,
 * building the path for a page, and the browser-history step that publishes it.
 */
module Config {
  import opened Wrappers
  import opened Text
  import opened JsMath

  /**
   * The application base path: the configured base URL (`/` when unset,
   * modelled as the empty string), with a `/` appended unless it already ends
   * in one.
   */
  function GetBase(baseUrl: string): (base: string)
    ensures |base| > 0 && base[|base| - 1] == '/'
    ensures baseUrl == "" ==> base == "/"
    ensures baseUrl != "" ==> |baseUrl| <= |base| <= |baseUrl| + 1 && base[..|baseUrl|] == baseUrl
    ensures baseUrl != "" && baseUrl[|baseUrl| - 1] == '/' ==> base == baseUrl
  {
    var b := if baseUrl == "" then "/" else baseUrl;
    if b[|b| - 1] == '/' then b else b + "/"
  }

  /** `/page/` followed by at least one digit starts at position i of s. */
  predicate MatchAt(s: string, i: nat) {
    i + 7 <= |s| && s[i..i + 6] == "/page/" && IsDigit(s[i + 6])
  }

  /**
   * The leftmost position at or after i where `/page/<digit>` starts: where
   * the regular expression `/\/page\/(\d+)/` matches first.
   */
  function FindPageSegment(s: string, i: nat): (r: Option<nat>)
    requires i <= |s|
    ensures r.None? ==> forall k :: i <= k <= |s| ==> !MatchAt(s, k)
    ensures r.Some? ==> i <= r.value && MatchAt(s, r.value)
    ensures r.Some? ==> forall k :: i <= k < r.value ==> !MatchAt(s, k)
    decreases |s| - i
  {
    if i == |s| then None
    else if MatchAt(s, i) then Some(i)
    else FindPageSegment(s, i + 1)
  }

  /**
   * The page a location path designates: the number after the first
   * `/page/`, at least 1; page 1 when the path has no `/page/<digits>`.
   */
  function GetPageFromUrl(pathname: string): (page: int)
    ensures page >= 1
    ensures FindPageSegment(pathname, 0).None? ==> page == 1
  {
    match FindPageSegment(pathname, 0)
    case None => 1
    case Some(j) => Max(1, ParseDecimal(DigitRun(pathname, j + 6)))
  }

  /** The page actually written to the URL: `page` clamped to [1, max(1, totalPages)]. */
  function SafePage(page: int, totalPages: int): (p: int)
    ensures 1 <= p <= Max(1, totalPages)
    ensures 1 <= page <= totalPages ==> p == page
    ensures page < 1 || totalPages < 1 ==> p == 1
    ensures 1 <= totalPages < page ==> p == totalPages
  {
    Max(1, Min(page, totalPages))
  }

  /** The base without its trailing `/`; the empty string for the root base `/`. */
  function BasePath(base: string): (bp: string)
    ensures base == "/" ==> bp == ""
    ensures base != "/" && |base| > 0 && base[|base| - 1] == '/' ==> bp + "/" == base
  {
    if base == "/" then ""
    else if |base| > 0 && base[|base| - 1] == '/' then base[..|base| - 1]
    else base
  }

  /** The absolute path that `updateUrlForPage` writes for a page. */
  function PagePath(page: int, totalPages: int, baseUrl: string): (fullPath: string)
    ensures |fullPath| > 0 && fullPath[0] == '/'
  {
    var basePath := BasePath(GetBase(baseUrl));
    var safePage := SafePage(page, totalPages);
    var path := if safePage == 1 then (if basePath == "" then "/" else basePath)
                else basePath + "/page/" + NatToString(safePage);
    if |path| > 0 && path[0] == '/' then path else "/" + path
  }

  /**
   * Page 1 is the bare base path (`/` for the root base); any other page p is
   * the base path followed by `/page/p`.
   */
  lemma PagePathShape(page: int, totalPages: int, baseUrl: string)
    requires GetBase(baseUrl)[0] == '/'
    ensures var basePath := BasePath(GetBase(baseUrl));
            var safePage := SafePage(page, totalPages);
            var fullPath := PagePath(page, totalPages, baseUrl);
            && (safePage == 1 && basePath == "" ==> fullPath == "/")
            && (safePage == 1 && basePath != "" ==> fullPath == basePath)
            && (safePage != 1 ==> fullPath == basePath + "/page/" + NatToString(safePage))
  {
    var base := GetBase(baseUrl);
    if base != "/" {
      assert BasePath(base) + "/" == base;
      assert |BasePath(base)| > 0;
      assert base[0] == (BasePath(base) + "/")[0];
    }
  }

  /** With no match in [i, j) and a match at j, the leftmost match from i is j. */
  lemma {:induction false} FindPageSegmentAt(s: string, i: nat, j: nat)
    requires i <= j <= |s|
    requires forall k :: i <= k < j ==> !MatchAt(s, k)
    requires MatchAt(s, j)
    ensures FindPageSegment(s, i) == Some(j)
    decreases j - i
  {
    if i < j {
      FindPageSegmentAt(s, i + 1, j);
    }
  }

  /**
   * A base path without `/page/<digit>` of its own gains none at its seam
   * with `/page/<digits>`: the first match is the appended segment.
   */
  lemma NoMatchBeforeSuffix(basePath: string, digits: string, k: nat)
    requires FindPageSegment(basePath, 0).None?
    requires |digits| > 0 && AllDigits(digits)
    requires k < |basePath|
    ensures !MatchAt(basePath + "/page/" + digits, k)
  {
    var suffix := "/page/" + digits;
    var s := basePath + suffix;
    assert s == basePath + "/page/" + digits;
    var n := |basePath|;
    if k + 7 <= n {
      assert s[k..k + 7] == basePath[k..k + 7];
      assert !MatchAt(basePath, k);
    } else {
      NoMatchAcrossSeam(basePath, suffix, k);
    }
  }

  /** No `/page/<digit>` starts in the last six characters before a `/page/` suffix. */
  lemma NoMatchAcrossSeam(prefix: string, suffix: string, k: nat)
    requires |suffix| >= 6 && suffix[..6] == "/page/"
    requires k < |prefix| < k + 7
    ensures !MatchAt(prefix + suffix, k)
  {
    var s := prefix + suffix;
    var n := |prefix|;
    assert s[n] == suffix[0] == '/';
    assert s[n + 1] == suffix[1] == 'p';
    var off := n - k;
    if off == 6 {
      assert !IsDigit(s[k + 6]);
    } else if off == 5 {
      assert !IsDigit(s[k + 6]);
    } else if k + 6 <= |s| {
      assert s[k..k + 6][off] == '/';
      assert "/page/"[off] != '/';
    }
  }

  /**
   * Round trip: when the base is absolute and has no `/page/<digits>` of its
   * own, reading the page back from the path written for any page p in
   * [1, totalPages] gives p.
   */
  lemma {:induction false} PageUrlRoundTrip(page: int, totalPages: int, baseUrl: string)
    requires 1 <= page <= totalPages
    requires GetBase(baseUrl)[0] == '/'
    requires FindPageSegment(BasePath(GetBase(baseUrl)), 0).None?
    ensures GetPageFromUrl(PagePath(page, totalPages, baseUrl)) == page
  {
    var basePath := BasePath(GetBase(baseUrl));
    var fullPath := PagePath(page, totalPages, baseUrl);
    PagePathShape(page, totalPages, baseUrl);
    if page == 1 {
      if basePath == "" {
        assert FindPageSegment(fullPath, 0).None?;
      }
    } else {
      var digits := NatToString(page);
      assert fullPath == basePath + "/page/" + digits;
      var n := |basePath|;
      forall k | 0 <= k < n ensures !MatchAt(fullPath, k) {
        NoMatchBeforeSuffix(basePath, digits, k);
      }
      assert fullPath[n..n + 6] == "/page/";
      assert fullPath[n + 6] == digits[0];
      FindPageSegmentAt(fullPath, 0, n);
      assert fullPath[n + 6..] == digits;
      DigitRunOfDigitSuffix(fullPath, n + 6);
      ParseNatToString(page);
    }
  }

  /** What `updateUrlForPage` does to the browser history. */
  datatype HistoryStep = Unchanged | Push(path: string) | Replace(path: string)

  /**
   * The history step for a target path: none when the current location already
   * is origin + path; otherwise a push when `push` is set, a replace when not.
   */
  function UrlStep(href: string, origin: string, fullPath: string, push: bool): (step: HistoryStep)
    ensures step.Unchanged? <==> href == origin + fullPath
    ensures step.Push? <==> href != origin + fullPath && push
    ensures step.Replace? <==> href != origin + fullPath && !push
    ensures !step.Unchanged? ==> step.path == fullPath
  {
    if href == origin + fullPath then Unchanged
    else if push then Push(fullPath)
    else Replace(fullPath)
  }

  /**
   * The browser's session history as the program sees it: the entries, the
   * current one, and the page origin. The location's href is the origin
   * followed by the current path.
   */
  class History {
    const origin: string
    var entries: seq<string>
    var pos: nat

    ghost predicate Valid()
      reads this
    {
      pos < |entries|
    }

    function Current(): string
      reads this
      requires Valid()
    {
      entries[pos]
    }

    function Href(): string
      reads this
      requires Valid()
    {
      origin + Current()
    }

    constructor (origin: string, path: string)
      ensures Valid() && this.origin == origin && entries == [path] && pos == 0
    {
      this.origin := origin;
      entries := [path];
      pos := 0;
    }

    /** `history.pushState`: drops the forward entries and appends the new one. */
    method PushState(path: string)
      requires Valid()
      modifies this
      ensures Valid() && Current() == path
      ensures entries == old(entries[..pos + 1]) + [path] && pos == old(pos) + 1
    {
      entries := entries[..pos + 1] + [path];
      pos := pos + 1;
    }

    /** `history.replaceState`: overwrites the current entry. */
    method ReplaceState(path: string)
      requires Valid()
      modifies this
      ensures Valid() && Current() == path
      ensures entries == old(entries[pos := path]) && pos == old(pos)
    {
      entries := entries[pos := path];
    }
  }

  /**
   * `updateUrlForPage`: publishes the path of the clamped page, by push or
   * replace, unless the location is already there. Afterwards the location is
   * the page's path in every case.
   */
  method UpdateUrlForPage(h: History, page: int, totalPages: int, push: bool, baseUrl: string)
    returns (step: HistoryStep)
    requires h.Valid()
    modifies h
    ensures h.Valid()
    ensures step == UrlStep(old(h.Href()), h.origin, PagePath(page, totalPages, baseUrl), push)
    ensures h.Current() == PagePath(page, totalPages, baseUrl)
    ensures step.Unchanged? ==> h.entries == old(h.entries) && h.pos == old(h.pos)
    ensures step.Push? ==> h.entries == old(h.entries[..h.pos + 1]) + [step.path] && h.pos == old(h.pos) + 1
    ensures step.Replace? ==> h.entries == old(h.entries[h.pos := step.path]) && h.pos == old(h.pos)
  {
    var fullPath := PagePath(page, totalPages, baseUrl);
    step := UrlStep(h.Href(), h.origin, fullPath, push);
    match step {
      case Unchanged =>
        assert h.Href()[|h.origin|..] == h.Current();
      case Push(p) => h.PushState(p);
      case Replace(p) => h.ReplaceState(p);
    }
  }
}
