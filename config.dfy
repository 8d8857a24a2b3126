/**
 * The structural part of validateConfig in config.go (lines 114-182): at
 * least two pages, every page's fields set, no URL twice, every zone a
 * proper rectangle with a target, and every target the URL of a page. The
 * URLs seen are kept in the config's urlMap, which hasURL consults.
 */
module SiteConfig {
  import opened Wrappers
  import opened Site
  import Format

  /**
   * One page of the loop: the URL must be set and new, and is registered
   * before the title, image path and zone count are checked; then its zones.
   */
  function ScanPage(s: PageScan, ii: nat, pg: Page): PageScan
  {
    if pg.url == "" then PageScan(s.urls, s.targets, Some(EmptyURL(ii)))
    else if pg.url in s.urls then PageScan(s.urls, s.targets, Some(DuplicateURL(ii)))
    else
      var urls := s.urls[pg.url := true];
      if pg.title == "" then PageScan(urls, s.targets, Some(EmptyTitle(ii)))
      else if pg.imagePath == "" then PageScan(urls, s.targets, Some(EmptyImagePath(ii)))
      else if |pg.zones| < 1 then PageScan(urls, s.targets, Some(NoZones(ii)))
      else
        var z := ScanZones(s.targets, ii, pg.zones);
        PageScan(urls, z.targets, z.err)
  }

  /** The page loop over a list of pages, from empty registers, stopping at the first error. */
  function ScanPages(pages: seq<Page>): PageScan
    decreases |pages|
  {
    if |pages| == 0 then PageScan(map[], map[], None)
    else
      var s := ScanPages(pages[..|pages| - 1]);
      if s.err.Some? then s else ScanPage(s, |pages| - 1, pages[|pages| - 1])
  }

  /** The structural part of validateConfig accepts the pages. */
  predicate Accepts(pages: seq<Page>)
  {
    |pages| >= 2 && ScanPages(pages).err.None? && ScanPages(pages).targets.Keys <= ScanPages(pages).urls.Keys
  }

  ghost predicate DistinctURLs(pages: seq<Page>)
  {
    forall i, j :: 0 <= i < j < |pages| ==> pages[i].url != pages[j].url
  }

  /** What a valid site is: two pages or more, each complete, with distinct URLs, and every zone pointing at a page. */
  ghost predicate WellFormed(pages: seq<Page>)
  {
    |pages| >= 2 && (forall i :: 0 <= i < |pages| ==> PageOK(pages[i])) && DistinctURLs(pages)
    && Targets(pages) <= URLs(pages)
  }

  /** Every page before index i passes, and no two of them share a URL. */
  ghost predicate PagesBeforeOK(pages: seq<Page>, i: nat)
    requires i <= |pages|
  {
    (forall j :: 0 <= j < i ==> PageOK(pages[j])) && forall j, j' :: 0 <= j < j' < i ==> pages[j].url != pages[j'].url
  }

  /** The error the page loop reports names the first page that fails, and the check it fails. */
  ghost predicate PageErrorExplained(e: ConfigError, pages: seq<Page>)
  {
    match e
    case EmptyURL(i) => i < |pages| && PagesBeforeOK(pages, i) && pages[i].url == ""
    case DuplicateURL(i) =>
      i < |pages| && PagesBeforeOK(pages, i) && pages[i].url != ""
      && exists j :: 0 <= j < i && pages[j].url == pages[i].url
    case EmptyTitle(i) => i < |pages| && PagesBeforeOK(pages, i) && NewURL(pages, i) && pages[i].title == ""
    case EmptyImagePath(i) =>
      i < |pages| && PagesBeforeOK(pages, i) && NewURL(pages, i) && pages[i].title != "" && pages[i].imagePath == ""
    case NoZones(i) =>
      i < |pages| && PagesBeforeOK(pages, i) && NewURL(pages, i) && pages[i].title != "" && pages[i].imagePath != ""
      && |pages[i].zones| == 0
    case EmptyTarget(i, _) => ZoneErrorAt(e, pages, i)
    case InvalidRight(i, _) => ZoneErrorAt(e, pages, i)
    case InvalidBottom(i, _) => ZoneErrorAt(e, pages, i)
    case _ => false
  }

  /** Page i has a set URL that no earlier page has. */
  ghost predicate NewURL(pages: seq<Page>, i: nat)
    requires i < |pages|
  {
    pages[i].url != "" && forall j :: 0 <= j < i ==> pages[j].url != pages[i].url
  }

  /** A zone error of page i, whose own fields pass. */
  ghost predicate ZoneErrorAt(e: ConfigError, pages: seq<Page>, i: nat)
  {
    i < |pages| && PagesBeforeOK(pages, i) && NewURL(pages, i) && pages[i].title != "" && pages[i].imagePath != ""
    && |pages[i].zones| >= 1 && ZoneErrorExplained(e, i, pages[i].zones)
  }

  /** A failure in a prefix of the pages is the failure of the whole list. */
  lemma {:induction false} ScanPagesPrefixFailure(pages: seq<Page>, k: nat)
    requires k <= |pages| && ScanPages(pages[..k]).err.Some?
    ensures ScanPages(pages) == ScanPages(pages[..k])
    decreases |pages| - k
  {
    if k < |pages| {
      assert pages[..|pages| - 1][..k] == pages[..k];
      ScanPagesPrefixFailure(pages[..|pages| - 1], k);
    } else {
      assert pages[..k] == pages;
    }
  }

  /** The page loop after one more page. */
  lemma ScanPagesStep(pages: seq<Page>, ii: nat)
    requires ii < |pages| && ScanPages(pages[..ii]).err.None?
    ensures ScanPages(pages[..ii + 1]) == ScanPage(ScanPages(pages[..ii]), ii, pages[ii])
  {
    assert pages[..ii + 1][..ii] == pages[..ii];
  }

  /** One page passes exactly when its own checks pass and its URL is new; it registers its URL and its targets. */
  lemma ScanPageOK(s: PageScan, ii: nat, pg: Page)
    requires s.err.None?
    ensures ScanPage(s, ii, pg).err.None? <==> PageOK(pg) && pg.url !in s.urls
    ensures ScanPage(s, ii, pg).err.None? ==>
      ScanPage(s, ii, pg).urls.Keys == s.urls.Keys + {pg.url}
      && ScanPage(s, ii, pg).targets.Keys == s.targets.Keys + ZoneTargets(pg.zones)
  {
    ScanZonesOK(s.targets, ii, pg.zones);
  }

  /**
   * The page loop passes exactly when every page passes and the URLs are
   * distinct; the registers then hold exactly the page URLs and the zone targets.
   */
  lemma {:induction false} ScanPagesOK(pages: seq<Page>)
    ensures ScanPages(pages).err.None? <==> (forall i :: 0 <= i < |pages| ==> PageOK(pages[i])) && DistinctURLs(pages)
    ensures ScanPages(pages).err.None? ==>
      ScanPages(pages).urls.Keys == URLs(pages) && ScanPages(pages).targets.Keys == Targets(pages)
    decreases |pages|
  {
    if |pages| > 0 {
      var n := |pages|;
      var init := pages[..n - 1];
      var last := pages[n - 1];
      ScanPagesOK(init);
      URLsAppend(pages);
      TargetsAppend(pages);
      PagesOKAppend(pages);
      DistinctURLsAppend(pages);
      var s := ScanPages(init);
      if s.err.None? {
        ScanPageOK(s, n - 1, last);
      }
    }
  }

  /** The URLs of a list are distinct exactly when those of all but the last are and the last URL is new. */
  lemma DistinctURLsAppend(pages: seq<Page>)
    requires |pages| > 0
    ensures DistinctURLs(pages) <==> DistinctURLs(pages[..|pages| - 1]) && pages[|pages| - 1].url !in URLs(pages[..|pages| - 1])
  {
    var n, init := |pages|, pages[..|pages| - 1];
    assert forall i :: 0 <= i < n - 1 ==> init[i] == pages[i];
    if pages[n - 1].url in URLs(init) {
      var j :| 0 <= j < n - 1 && init[j].url == pages[n - 1].url;
      assert pages[j].url == pages[n - 1].url;
    }
  }


  /** A failed page loop names the first page that fails, and the check it fails. */
  lemma {:induction false} ScanPagesErrorExplained(pages: seq<Page>)
    requires ScanPages(pages).err.Some?
    ensures PageErrorExplained(ScanPages(pages).err.value, pages)
    decreases |pages|
  {
    var n := |pages|;
    var init := pages[..n - 1];
    var last := pages[n - 1];
    assert forall i :: 0 <= i < n - 1 ==> init[i] == pages[i];
    var s := ScanPages(init);
    if s.err.Some? {
      ScanPagesErrorExplained(init);
      PageErrorExtends(s.err.value, init, pages);
    } else {
      ScanPagesOK(init);
      assert PagesBeforeOK(pages, n - 1);
      if last.url != "" && last.url in s.urls {
        var j :| 0 <= j < n - 1 && init[j].url == last.url;
        assert pages[j].url == last.url;
      } else if last.url != "" && last.title != "" && last.imagePath != "" && |last.zones| >= 1 {
        ScanZonesErrorExplained(s.targets, n - 1, last.zones);
        assert NewURL(pages, n - 1) by {
          forall j | 0 <= j < n - 1 ensures pages[j].url != last.url {
            assert init[j].url in URLs(init);
          }
        }
      } else if last.url != "" {
        assert NewURL(pages, n - 1) by {
          forall j | 0 <= j < n - 1 ensures pages[j].url != last.url {
            assert init[j].url in URLs(init);
          }
        }
      }
    }
  }

  /** An explanation found in a prefix is an explanation for the whole list. */
  lemma PageErrorExtends(e: ConfigError, init: seq<Page>, pages: seq<Page>)
    requires |init| < |pages| && init == pages[..|init|]
    requires PageErrorExplained(e, init)
    ensures PageErrorExplained(e, pages)
  {
    assert forall i :: 0 <= i < |init| ==> init[i] == pages[i];
    match e {
      case DuplicateURL(i) =>
        var j :| 0 <= j < i && init[j].url == init[i].url;
        assert pages[j].url == pages[i].url;
      case _ =>
    }
  }

  /** validateConfig's structural checks accept exactly the well-formed sites. */
  lemma AcceptsIffWellFormed(pages: seq<Page>)
    ensures Accepts(pages) <==> WellFormed(pages)
  {
    ScanPagesOK(pages);
  }

  /** On a site past the page and zone checks every zone has a non-negative Width and Height. */
  lemma AcceptedZonesHaveExtent(pages: seq<Page>, i: nat, k: nat)
    requires ScanPages(pages).err.None? && i < |pages| && k < |pages[i].zones|
    ensures pages[i].zones[k].Width() >= 0 && pages[i].zones[k].Height() >= 0
  {
    ScanPagesOK(pages);
    assert PageOK(pages[i]);
  }

  /** The valid site of the configuration tests is accepted. */
  lemma TestSiteAccepted()
    ensures Accepts(HomeDetail())
  {
    var ps := HomeDetail();
    assert PageOK(ps[0]) && PageOK(ps[1]);
    assert forall i :: 0 <= i < |ps| ==> PageOK(ps[i]);
    assert DistinctURLs(ps);
    assert Targets(ps) <= URLs(ps) by {
      forall t | t in Targets(ps) ensures t in URLs(ps) {
        var i, k :| 0 <= i < |ps| && 0 <= k < |ps[i].zones| && ps[i].zones[k].target == t;
        assert t == ps[1 - i].url;
      }
    }
    AcceptsIffWellFormed(ps);
  }

  /** The tests' site with the second page moved to "/home" fails at that page with a repeated URL. */
  lemma TestDuplicateURLRefused()
    ensures ScanPages([HomeDetail()[0], HomeDetail()[1].(url := "/home")]).err == Some(DuplicateURL(1))
  {
    var ps := [HomeDetail()[0], HomeDetail()[1].(url := "/home")];
    var init := ps[..1];
    assert init == [ps[0]];
    ScanPagesOK(init);
    assert PageOK(init[0]);
    assert DistinctURLs(init);
    assert "/home" in URLs(init) by { assert init[0].url == "/home"; }
    assert ps[..|ps| - 1] == init;
  }

  /** The tests' site with its second page's zone pointing at "/homes". */
  function UnresolvedSite(): seq<Page>
  {
    [HomeDetail()[0], HomeDetail()[1].(zones := [PageZone(436, 31, 538, 73, "/homes")])]
  }

  /**
   * That site passes the page loop but not the target check: "/homes" is
   * the one registered target that is no page's URL, and it is registered
   * with the context of page 1, zone 0.
   */
  lemma TestUnresolvedTargetRefused()
    ensures ScanPages(UnresolvedSite()).err.None? && !Accepts(UnresolvedSite())
    ensures ScanPages(UnresolvedSite()).targets.Keys - ScanPages(UnresolvedSite()).urls.Keys == {"/homes"}
    ensures ScanPages(UnresolvedSite()).targets["/homes"] == "page 1 zone 0"
  {
    var ps := UnresolvedSite();
    assert ps[..1][..0] == [] && ps[..2] == ps;
    var s0 := ScanPage(PageScan(map[], map[], None), 0, ps[0]);
    assert ScanZones(map[], 0, ps[0].zones) == ZoneStep(map[], 0, 0, ps[0].zones[0]) by {
      assert ps[0].zones[..0] == [];
    }
    assert ScanPages(ps[..1]) == s0;
    assert s0 == PageScan(map["/home" := true], map["/detail" := Format.ZoneContext(0, 0)], None);
    assert ScanZones(s0.targets, 1, ps[1].zones) == ZoneStep(s0.targets, 1, 0, ps[1].zones[0]) by {
      assert ps[1].zones[..0] == [];
    }
    assert Format.ZoneContext(1, 0) == "page 1 zone 0";
    assert ScanPages(ps) == PageScan(map["/home" := true, "/detail" := true],
                                     map["/detail" := Format.ZoneContext(0, 0), "/homes" := "page 1 zone 0"], None);
    assert "/homes" in ScanPages(ps).targets.Keys && "/homes" !in ScanPages(ps).urls.Keys;
  }

  /** The configuration test itself: validateConfig refuses the site with the unresolved target "/homes" of page 1, zone 0. */
  method TestUnresolvedTargetError() returns (err: Option<ConfigError>)
    ensures err == Some(UnresolvedTarget("/homes", "page 1 zone 0"))
  {
    var c := new Config(UnresolvedSite());
    err := c.ValidateConfig();
    TestUnresolvedTargetRefused();
  }

  class Config {
    const pages: seq<Page>
    var urlMap: map<string, bool>

    constructor (pages: seq<Page>)
      ensures this.pages == pages && urlMap == map[]
    {
      this.pages := pages;
      urlMap := map[];
    }

    /** Whether a page with this URL was registered. */
    function HasURL(s: string): bool
      reads this
    {
      s in urlMap
    }

    /**
     * The structural checks of validateConfig: at least two pages, then the
     * page loop; then every registered zone target is looked up among the
     * page URLs, in the unspecified order of a Go map iteration, and the
     * first one missing is reported with its context.
     */
    method ValidateConfig() returns (err: Option<ConfigError>)
      modifies this`urlMap
      ensures err.None? <==> Accepts(pages)
      ensures |pages| < 2 ==> err == Some(TooFewPages) && urlMap == old(urlMap)
      ensures |pages| >= 2 ==> urlMap == ScanPages(pages).urls
      ensures |pages| >= 2 && ScanPages(pages).err.Some? ==> err == ScanPages(pages).err
      ensures |pages| >= 2 && ScanPages(pages).err.None? && !Accepts(pages) ==> err.Some? && err.value.UnresolvedTarget?
      ensures err.Some? && err.value.UnresolvedTarget? ==>
        |pages| >= 2 && ScanPages(pages).err.None? && err.value.target in ScanPages(pages).targets
        && err.value.target !in urlMap && err.value.context == ScanPages(pages).targets[err.value.target]
    {
      if |pages| < 2 {
        return Some(TooFewPages);
      }
      var zoneURLMap;
      zoneURLMap, err := ValidatePages();
      if err.Some? {
        ScanPagesErrorExplained(pages);
        return err;
      }
      var keys := zoneURLMap.Keys;
      while keys != {}
        invariant keys <= zoneURLMap.Keys
        invariant forall t :: t in zoneURLMap && t !in keys ==> t in urlMap
        decreases keys
      {
        var k :| k in keys;
        if !HasURL(k) {
          return Some(UnresolvedTarget(k, zoneURLMap[k]));
        }
        keys := keys - {k};
      }
      return None;
    }

    /**
     * The page loop of validateConfig: urlMap is reset, then each page's URL
     * is checked and registered, its fields checked, and its zones checked
     * and their targets registered with their contexts; the first failure ends the loop.
     */
    method ValidatePages() returns (zoneURLMap: map<string, string>, err: Option<ConfigError>)
      modifies this`urlMap
      ensures PageScan(urlMap, zoneURLMap, err) == ScanPages(pages)
    {
      urlMap := map[];
      zoneURLMap := map[];
      var ii := 0;
      while ii < |pages|
        invariant 0 <= ii <= |pages|
        invariant ScanPages(pages[..ii]) == PageScan(urlMap, zoneURLMap, None)
      {
        var pg := pages[ii];
        ScanPagesStep(pages, ii);
        if pg.url == "" {
          ScanPagesPrefixFailure(pages, ii + 1);
          return zoneURLMap, Some(EmptyURL(ii));
        }
        if HasURL(pg.url) {
          ScanPagesPrefixFailure(pages, ii + 1);
          return zoneURLMap, Some(DuplicateURL(ii));
        }
        urlMap := urlMap[pg.url := true];
        if pg.title == "" {
          ScanPagesPrefixFailure(pages, ii + 1);
          return zoneURLMap, Some(EmptyTitle(ii));
        }
        if pg.imagePath == "" {
          ScanPagesPrefixFailure(pages, ii + 1);
          return zoneURLMap, Some(EmptyImagePath(ii));
        }
        if |pg.zones| < 1 {
          ScanPagesPrefixFailure(pages, ii + 1);
          return zoneURLMap, Some(NoZones(ii));
        }
        var zoneErr;
        zoneURLMap, zoneErr := ValidateZones(zoneURLMap, ii, pg.zones);
        if zoneErr.Some? {
          ScanPagesPrefixFailure(pages, ii + 1);
          return zoneURLMap, zoneErr;
        }
        ii := ii + 1;
      }
      assert pages[..ii] == pages;
      return zoneURLMap, None;
    }
  }

  /** After an accepted page loop, hasURL holds exactly for the URLs of the pages. */
  lemma HasURLAfterScan(c: Config)
    requires c.urlMap == ScanPages(c.pages).urls && ScanPages(c.pages).err.None?
    ensures forall u :: c.HasURL(u) <==> exists i :: 0 <= i < |c.pages| && c.pages[i].url == u
  {
    ScanPagesOK(c.pages);
  }
}
