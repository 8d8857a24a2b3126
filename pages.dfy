/**
 * The older validateConfig of pages.go: a page template must be named, at
 * least two pages given, and the same page and zone checks as config.go
 * made, except that a repeated URL is not refused. Its final loop looks up
 * each registered zone's context string, not its target, among the page
 * URLs; ValidateConfig here looks up the target, as the loop's comment and
 * error message intend, and AcceptsAsWritten records the code as it stands.
 */
module LegacyPages {
  import opened Wrappers
  import opened Site

  /** The configuration read from the YAML file. */
  datatype LegacyConfig = LegacyConfig(pageTemplate: string, pages: seq<Page>)

  /** One page of the loop: the URL must be set and is registered; then the other fields and the zones are checked. */
  function ScanPage(s: PageScan, ii: nat, pg: Page): PageScan
  {
    if pg.url == "" then PageScan(s.urls, s.targets, Some(EmptyURL(ii)))
    else
      var urls := s.urls[pg.url := true];
      if pg.title == "" then PageScan(urls, s.targets, Some(EmptyTitle(ii)))
      else if pg.imagePath == "" then PageScan(urls, s.targets, Some(EmptyImagePath(ii)))
      else if |pg.zones| < 1 then PageScan(urls, s.targets, Some(NoZones(ii)))
      else
        var z := ScanZones(s.targets, ii, pg.zones);
        PageScan(urls, z.targets, z.err)
  }

  /** The page loop over a list of pages, from empty registers, stopping at the first error. */
  function ScanPages(pages: seq<Page>): PageScan
    decreases |pages|
  {
    if |pages| == 0 then PageScan(map[], map[], None)
    else
      var s := ScanPages(pages[..|pages| - 1]);
      if s.err.Some? then s else ScanPage(s, |pages| - 1, pages[|pages| - 1])
  }

  /** The checks up to the final loop pass. */
  predicate ScanPasses(c: LegacyConfig)
  {
    c.pageTemplate != "" && |c.pages| >= 2 && ScanPages(c.pages).err.None?
  }

  /** Acceptance with the final loop as intended: every zone target is a page URL. */
  predicate Accepts(c: LegacyConfig)
  {
    ScanPasses(c) && ScanPages(c.pages).targets.Keys <= ScanPages(c.pages).urls.Keys
  }

  /** Acceptance with the final loop as written (pages.go:85-91): every registered context string is a page URL. */
  predicate AcceptsAsWritten(c: LegacyConfig)
  {
    ScanPasses(c) && forall t :: t in ScanPages(c.pages).targets ==> ScanPages(c.pages).targets[t] in ScanPages(c.pages).urls
  }

  /** What this validator means by a valid site: as config.go, but URLs may repeat. */
  ghost predicate WellFormed(c: LegacyConfig)
  {
    c.pageTemplate != "" && |c.pages| >= 2 && (forall i :: 0 <= i < |c.pages| ==> PageOK(c.pages[i]))
    && Targets(c.pages) <= URLs(c.pages)
  }

  // The next two lemmas read like their SiteConfig namesakes, but they are
  // about this module's ScanPages, whose page step does not refuse repeated URLs.

  /** A failure in a prefix of the pages is the failure of the whole list. */
  lemma {:induction false} ScanPagesPrefixFailure(pages: seq<Page>, k: nat)
    requires k <= |pages| && ScanPages(pages[..k]).err.Some?
    ensures ScanPages(pages) == ScanPages(pages[..k])
    decreases |pages| - k
  {
    if k < |pages| {
      assert pages[..|pages| - 1][..k] == pages[..k];
      ScanPagesPrefixFailure(pages[..|pages| - 1], k);
    } else {
      assert pages[..k] == pages;
    }
  }

  /** The page loop after one more page. */
  lemma ScanPagesStep(pages: seq<Page>, ii: nat)
    requires ii < |pages| && ScanPages(pages[..ii]).err.None?
    ensures ScanPages(pages[..ii + 1]) == ScanPage(ScanPages(pages[..ii]), ii, pages[ii])
  {
    assert pages[..ii + 1][..ii] == pages[..ii];
  }

  /**
   * The page loop passes exactly when every page passes, whatever the URLs
   * repeat; the registers then hold the page URLs and the zone targets, and
   * every registered value is a zone context.
   */
  lemma {:induction false} ScanPagesOK(pages: seq<Page>)
    ensures ScanPages(pages).err.None? <==> forall i :: 0 <= i < |pages| ==> PageOK(pages[i])
    ensures ScanPages(pages).err.None? ==>
      ScanPages(pages).urls.Keys == URLs(pages) && ScanPages(pages).targets.Keys == Targets(pages)
    ensures ContextValues(ScanPages(pages).targets)
    decreases |pages|
  {
    if |pages| > 0 {
      var n := |pages|;
      var init := pages[..n - 1];
      ScanPagesOK(init);
      URLsAppend(pages);
      TargetsAppend(pages);
      PagesOKAppend(pages);
      var s := ScanPages(init);
      if s.err.None? {
        ScanPageOK(s, n - 1, pages[n - 1]);
      }
    }
  }

  /**
   * One page passes exactly when its own checks pass; it registers its URL
   * and its targets, and keeps every registered value a zone context.
   */
  lemma ScanPageOK(s: PageScan, ii: nat, pg: Page)
    requires s.err.None?
    ensures ScanPage(s, ii, pg).err.None? <==> PageOK(pg)
    ensures ScanPage(s, ii, pg).err.None? ==>
      ScanPage(s, ii, pg).urls.Keys == s.urls.Keys + {pg.url}
      && ScanPage(s, ii, pg).targets.Keys == s.targets.Keys + ZoneTargets(pg.zones)
    ensures ContextValues(s.targets) ==> ContextValues(ScanPage(s, ii, pg).targets)
  {
    ScanZonesOK(s.targets, ii, pg.zones);
  }

  /** The page loop fails only with an error about a page or one of its zones. */
  lemma {:induction false} ScanPagesFailureIsPageError(pages: seq<Page>)
    requires ScanPages(pages).err.Some?
    ensures !ScanPages(pages).err.value.UnresolvedTarget?
    ensures !ScanPages(pages).err.value.TooFewPages? && !ScanPages(pages).err.value.EmptyPageTemplate?
    decreases |pages|
  {
    var init := pages[..|pages| - 1];
    var s := ScanPages(init);
    if s.err.Some? {
      ScanPagesFailureIsPageError(init);
    } else {
      var last := pages[|pages| - 1];
      if last.url != "" && last.title != "" && last.imagePath != "" && |last.zones| >= 1 {
        ScanZonesErrorExplained(s.targets, |pages| - 1, last.zones);
      }
    }
  }

  /** With the intended final loop, the validator accepts exactly the well-formed sites. */
  lemma AcceptsIffWellFormed(c: LegacyConfig)
    ensures Accepts(c) <==> WellFormed(c)
  {
    ScanPagesOK(c.pages);
  }

  /**
   * As written, the validator rejects every site whose URLs all start with
   * "/": a context string starts with "page", so it is never a URL.
   */
  lemma AsWrittenRejectsSlashedURLs(c: LegacyConfig)
    requires forall i :: 0 <= i < |c.pages| ==> |c.pages[i].url| > 0 && c.pages[i].url[0] == '/'
    ensures !AcceptsAsWritten(c)
  {
    if ScanPasses(c) {
      var s := ScanPages(c.pages);
      ScanPagesOK(c.pages);
      assert PageOK(c.pages[0]);
      var t := c.pages[0].zones[0].target;
      assert t in Targets(c.pages);
      assert s.targets[t][0] == 'p';
      assert s.targets[t] !in URLs(c.pages);
    }
  }

  /** The configuration of the tests: a page template and the two linked pages. */
  function TestConfig(): LegacyConfig
  {
    LegacyConfig("templates/page.html", HomeDetail())
  }

  /** The test configuration is valid, yet the validator as written refuses it. */
  lemma AsWrittenRefusesTestConfig()
    ensures WellFormed(TestConfig()) && Accepts(TestConfig())
    ensures !AcceptsAsWritten(TestConfig())
  {
    var c := TestConfig();
    var ps := c.pages;
    assert PageOK(ps[0]) && PageOK(ps[1]);
    assert forall i :: 0 <= i < |ps| ==> PageOK(ps[i]);
    assert Targets(ps) <= URLs(ps) by {
      forall t | t in Targets(ps) ensures t in URLs(ps) {
        var i, k :| 0 <= i < |ps| && 0 <= k < |ps[i].zones| && ps[i].zones[k].target == t;
        assert t == ps[1 - i].url;
      }
    }
    AcceptsIffWellFormed(c);
    AsWrittenRejectsSlashedURLs(c);
  }

  /** Two pages under one URL pass: this validator does not look for repeated URLs. */
  lemma RepeatedURLAccepted()
    ensures var p := Page("/home", "Home", "images/home.jpg", [PageZone(367, 44, 539, 263, "/home")]);
            Accepts(LegacyConfig("templates/page.html", [p, p]))
  {
    var p := Page("/home", "Home", "images/home.jpg", [PageZone(367, 44, 539, 263, "/home")]);
    var c := LegacyConfig("templates/page.html", [p, p]);
    assert PageOK(p);
    assert forall i :: 0 <= i < |c.pages| ==> PageOK(c.pages[i]);
    assert Targets(c.pages) <= URLs(c.pages) by {
      forall t | t in Targets(c.pages) ensures t in URLs(c.pages) {
        var i, k :| 0 <= i < |c.pages| && 0 <= k < |c.pages[i].zones| && c.pages[i].zones[k].target == t;
        assert c.pages[0].url == t;
      }
    }
    AcceptsIffWellFormed(c);
  }

  /**
   * validateConfig of pages.go, with the final loop looking up each zone
   * target among the page URLs; the page and zone loops fill urlMap and
   * zoneURLMap in place and stop at the first failure.
   */
  method ValidateConfig(c: LegacyConfig) returns (err: Option<ConfigError>)
    ensures err.None? <==> Accepts(c)
    ensures c.pageTemplate == "" ==> err == Some(EmptyPageTemplate)
    ensures c.pageTemplate != "" && |c.pages| < 2 ==> err == Some(TooFewPages)
    ensures c.pageTemplate != "" && |c.pages| >= 2 && ScanPages(c.pages).err.Some? ==> err == ScanPages(c.pages).err
    ensures ScanPasses(c) && !Accepts(c) ==> err.Some? && err.value.UnresolvedTarget?
    ensures err.Some? && err.value.UnresolvedTarget? ==>
      ScanPasses(c) && err.value.target in ScanPages(c.pages).targets
      && err.value.target !in ScanPages(c.pages).urls && err.value.context == ScanPages(c.pages).targets[err.value.target]
  {
    if c.pageTemplate == "" {
      return Some(EmptyPageTemplate);
    }
    if |c.pages| < 2 {
      return Some(TooFewPages);
    }
    var urlMap, zoneURLMap;
    urlMap, zoneURLMap, err := ValidatePages(c.pages);
    if err.Some? {
      ScanPagesFailureIsPageError(c.pages);
      return err;
    }
    var keys := zoneURLMap.Keys;
    while keys != {}
      invariant keys <= zoneURLMap.Keys
      invariant forall t :: t in zoneURLMap && t !in keys ==> t in urlMap
      decreases keys
    {
      var k :| k in keys;
      if k !in urlMap {
        return Some(UnresolvedTarget(k, zoneURLMap[k]));
      }
      keys := keys - {k};
    }
    return None;
  }

  /**
   * The page loop: each page's URL is checked and registered, its fields
   * checked, and its zones checked and their targets registered with their
   * contexts; the first failure ends the loop.
   */
  method ValidatePages(pages: seq<Page>) returns (urlMap: map<string, bool>, zoneURLMap: map<string, string>, err: Option<ConfigError>)
    ensures PageScan(urlMap, zoneURLMap, err) == ScanPages(pages)
  {
    urlMap, zoneURLMap, err := map[], map[], None;
    var ii := 0;
    while ii < |pages|
      invariant 0 <= ii <= |pages|
      invariant ScanPages(pages[..ii]) == PageScan(urlMap, zoneURLMap, None)
    {
      var pg := pages[ii];
      ScanPagesStep(pages, ii);
      if pg.url == "" {
        ScanPagesPrefixFailure(pages, ii + 1);
        return urlMap, zoneURLMap, Some(EmptyURL(ii));
      }
      urlMap := urlMap[pg.url := true];
      if pg.title == "" {
        ScanPagesPrefixFailure(pages, ii + 1);
        return urlMap, zoneURLMap, Some(EmptyTitle(ii));
      }
      if pg.imagePath == "" {
        ScanPagesPrefixFailure(pages, ii + 1);
        return urlMap, zoneURLMap, Some(EmptyImagePath(ii));
      }
      if |pg.zones| < 1 {
        ScanPagesPrefixFailure(pages, ii + 1);
        return urlMap, zoneURLMap, Some(NoZones(ii));
      }
      var zoneErr;
      zoneURLMap, zoneErr := ValidateZones(zoneURLMap, ii, pg.zones);
      if zoneErr.Some? {
        ScanPagesPrefixFailure(pages, ii + 1);
        return urlMap, zoneURLMap, zoneErr;
      }
      ii := ii + 1;
    }
    assert pages[..ii] == pages;
  }
}
