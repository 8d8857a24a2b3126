/**
 * The site description both validators check: pages with an image and
 * clickable rectangular zones that redirect to other pages, and the zone
 * loop the two validateConfig variants share (config.go:144-166 and
 * pages.go:59-81 are the same code).
 *
 * Go's `int` is 64 bits wide; here coordinates are unbounded integers.
 */
module Site {
  import opened Wrappers
  import Format

  /** A rectangle on a page that, when clicked, redirects to Target. */
  datatype PageZone = PageZone(left: int, top: int, right: int, bottom: int, target: string)
  {
    function Width(): (w: int)
      ensures w >= 0 <==> left <= right
    {
      right - left
    }

    function Height(): (h: int)
      ensures h >= 0 <==> top <= bottom
    {
      bottom - top
    }
  }

  datatype Page = Page(url: string, title: string, imagePath: string, zones: seq<PageZone>)

  /** Why a configuration is invalid; indices are page and zone positions. */
  datatype ConfigError =
    | EmptyPageTemplate
    | TooFewPages
    | EmptyURL(page: nat)
    | DuplicateURL(page: nat)
    | EmptyTitle(page: nat)
    | EmptyImagePath(page: nat)
    | NoZones(page: nat)
    | EmptyTarget(page: nat, zone: nat)
    | InvalidRight(page: nat, zone: nat)
    | InvalidBottom(page: nat, zone: nat)
    | UnresolvedTarget(target: string, context: string)

  /** The rectangle checks: the right edge not left of the left one and not 0, likewise the bottom. */
  predicate ZoneOK(z: PageZone)
  {
    z.target != "" && !(z.right < z.left || z.right == 0) && !(z.bottom < z.top || z.bottom == 0)
  }

  /** The zone-target register after a zone loop, and the error that stopped it. */
  datatype ZoneScan = ZoneScan(targets: map<string, string>, err: Option<ConfigError>)

  /**
   * One zone of page ii: an empty target fails before it is registered;
   * otherwise the target is registered with the context "page ii zone zi",
   * and then the rectangle is checked.
   */
  function ZoneStep(m: map<string, string>, ii: nat, zi: nat, z: PageZone): (r: ZoneScan)
    ensures r.err.None? <==> ZoneOK(z)
    ensures r.err.Some? ==> r.err == Some(EmptyTarget(ii, zi)) || r.err == Some(InvalidRight(ii, zi)) || r.err == Some(InvalidBottom(ii, zi))
  {
    if z.target == "" then ZoneScan(m, Some(EmptyTarget(ii, zi)))
    else
      var m' := m[z.target := Format.ZoneContext(ii, zi)];
      if z.right < z.left || z.right == 0 then ZoneScan(m', Some(InvalidRight(ii, zi)))
      else if z.bottom < z.top || z.bottom == 0 then ZoneScan(m', Some(InvalidBottom(ii, zi)))
      else ZoneScan(m', None)
  }

  /** The zone loop of page ii over zs, starting from register m and stopping at the first error. */
  function ScanZones(m: map<string, string>, ii: nat, zs: seq<PageZone>): ZoneScan
    decreases |zs|
  {
    if |zs| == 0 then ZoneScan(m, None)
    else
      var s := ScanZones(m, ii, zs[..|zs| - 1]);
      if s.err.Some? then s else ZoneStep(s.targets, ii, |zs| - 1, zs[|zs| - 1])
  }

  /** The targets of a zone list. */
  ghost function ZoneTargets(zs: seq<PageZone>): set<string>
  {
    set k | 0 <= k < |zs| :: zs[k].target
  }

  /** Every value of a register is a zone context, so it starts with "page". */
  ghost predicate ContextValues(m: map<string, string>)
  {
    forall t :: t in m ==> |m[t]| > 0 && m[t][0] == 'p'
  }

  /** The error a zone loop reports names a zone of the list that fails that check, and every zone before it passes. */
  ghost predicate ZoneErrorExplained(e: ConfigError, ii: nat, zs: seq<PageZone>)
  {
    match e
    case EmptyTarget(p, k) => p == ii && k < |zs| && zs[k].target == "" && forall j :: 0 <= j < k ==> ZoneOK(zs[j])
    case InvalidRight(p, k) =>
      p == ii && k < |zs| && zs[k].target != "" && (zs[k].right < zs[k].left || zs[k].right == 0)
      && forall j :: 0 <= j < k ==> ZoneOK(zs[j])
    case InvalidBottom(p, k) =>
      p == ii && k < |zs| && zs[k].target != "" && !(zs[k].right < zs[k].left || zs[k].right == 0)
      && (zs[k].bottom < zs[k].top || zs[k].bottom == 0) && forall j :: 0 <= j < k ==> ZoneOK(zs[j])
    case _ => false
  }

  /** A failure in a prefix of the zones is the failure of the whole list. */
  lemma {:induction false} ScanZonesPrefixFailure(m: map<string, string>, ii: nat, zs: seq<PageZone>, k: nat)
    requires k <= |zs| && ScanZones(m, ii, zs[..k]).err.Some?
    ensures ScanZones(m, ii, zs) == ScanZones(m, ii, zs[..k])
    decreases |zs| - k
  {
    if k < |zs| {
      assert zs[..|zs| - 1][..k] == zs[..k];
      ScanZonesPrefixFailure(m, ii, zs[..|zs| - 1], k);
    } else {
      assert zs[..k] == zs;
    }
  }

  /**
   * The zone loop passes exactly when every zone passes; the register then
   * gains exactly the zone targets, and it keeps holding only contexts.
   */
  lemma {:induction false} ScanZonesOK(m: map<string, string>, ii: nat, zs: seq<PageZone>)
    ensures ScanZones(m, ii, zs).err.None? <==> forall k :: 0 <= k < |zs| ==> ZoneOK(zs[k])
    ensures ScanZones(m, ii, zs).err.None? ==> ScanZones(m, ii, zs).targets.Keys == m.Keys + ZoneTargets(zs)
    ensures ContextValues(m) ==> ContextValues(ScanZones(m, ii, zs).targets)
    decreases |zs|
  {
    if |zs| > 0 {
      var n := |zs|;
      var init := zs[..n - 1];
      ScanZonesOK(m, ii, init);
      assert forall k :: 0 <= k < n - 1 ==> init[k] == zs[k];
      ZoneTargetsAppend(zs);
      var s := ScanZones(m, ii, init);
      if s.err.None? {
        ZoneStepOK(s.targets, ii, n - 1, zs[n - 1]);
      }
    }
  }

  /** A zone step registers its target under a zone context. */
  lemma ZoneStepOK(m: map<string, string>, ii: nat, zi: nat, z: PageZone)
    ensures ContextValues(m) ==> ContextValues(ZoneStep(m, ii, zi, z).targets)
  {
  }

  /** The targets of a zone list are those of all but its last zone, and the last zone's. */
  lemma ZoneTargetsAppend(zs: seq<PageZone>)
    requires |zs| > 0
    ensures ZoneTargets(zs) == ZoneTargets(zs[..|zs| - 1]) + {zs[|zs| - 1].target}
  {
    var n, init := |zs|, zs[..|zs| - 1];
    forall t | t in ZoneTargets(zs) ensures t in ZoneTargets(init) + {zs[n - 1].target} {
      var k :| 0 <= k < n && zs[k].target == t;
      if k < n - 1 { assert init[k] == zs[k]; }
    }
  }


  /** A failed zone loop names the first zone that fails, and the check it fails. */
  lemma {:induction false} ScanZonesErrorExplained(m: map<string, string>, ii: nat, zs: seq<PageZone>)
    requires ScanZones(m, ii, zs).err.Some?
    ensures ZoneErrorExplained(ScanZones(m, ii, zs).err.value, ii, zs)
    decreases |zs|
  {
    var n := |zs|;
    var init := zs[..n - 1];
    assert forall k :: 0 <= k < n - 1 ==> init[k] == zs[k];
    if ScanZones(m, ii, init).err.Some? {
      ScanZonesErrorExplained(m, ii, init);
    } else {
      ScanZonesOK(m, ii, init);
    }
  }

  /** The registers of the page loop and the error that stopped it. */
  datatype PageScan = PageScan(urls: map<string, bool>, targets: map<string, string>, err: Option<ConfigError>)

  /** A page whose own fields and zones pass. */
  ghost predicate PageOK(pg: Page)
  {
    pg.url != "" && pg.title != "" && pg.imagePath != "" && |pg.zones| >= 1
    && forall k :: 0 <= k < |pg.zones| ==> ZoneOK(pg.zones[k])
  }

  ghost function URLs(pages: seq<Page>): set<string>
  {
    set i | 0 <= i < |pages| :: pages[i].url
  }

  ghost function Targets(pages: seq<Page>): set<string>
  {
    set i, k | 0 <= i < |pages| && 0 <= k < |pages[i].zones| :: pages[i].zones[k].target
  }

  /** Every page of a list passes its own checks. */
  ghost predicate AllPagesOK(pages: seq<Page>)
  {
    forall i :: 0 <= i < |pages| ==> PageOK(pages[i])
  }

  /** Every page of a list passes exactly when all but the last do and the last does. */
  lemma PagesOKAppend(pages: seq<Page>)
    requires |pages| > 0
    ensures AllPagesOK(pages) <==> AllPagesOK(pages[..|pages| - 1]) && PageOK(pages[|pages| - 1])
  {
    assert forall i :: 0 <= i < |pages| - 1 ==> pages[..|pages| - 1][i] == pages[i];
  }

  lemma URLsAppend(pages: seq<Page>)
    requires |pages| > 0
    ensures URLs(pages) == URLs(pages[..|pages| - 1]) + {pages[|pages| - 1].url}
  {
    var init := pages[..|pages| - 1];
    forall u | u in URLs(pages) ensures u in URLs(init) + {pages[|pages| - 1].url} {
      var i :| 0 <= i < |pages| && pages[i].url == u;
      if i < |pages| - 1 { assert init[i] == pages[i]; }
    }
    forall u | u in URLs(init) ensures u in URLs(pages) {
      var i :| 0 <= i < |init| && init[i].url == u;
      assert pages[i] == init[i];
    }
  }

  lemma TargetsAppend(pages: seq<Page>)
    requires |pages| > 0
    ensures Targets(pages) == Targets(pages[..|pages| - 1]) + ZoneTargets(pages[|pages| - 1].zones)
  {
    var n := |pages|;
    var init := pages[..n - 1];
    forall t | t in Targets(pages) ensures t in Targets(init) + ZoneTargets(pages[n - 1].zones) {
      var i, k :| 0 <= i < n && 0 <= k < |pages[i].zones| && pages[i].zones[k].target == t;
      if i < n - 1 { assert init[i] == pages[i]; }
    }
    forall t | t in Targets(init) ensures t in Targets(pages) {
      var i, k :| 0 <= i < |init| && 0 <= k < |init[i].zones| && init[i].zones[k].target == t;
      assert pages[i] == init[i];
    }
    forall t | t in ZoneTargets(pages[n - 1].zones) ensures t in Targets(pages) {
      var k :| 0 <= k < |pages[n - 1].zones| && pages[n - 1].zones[k].target == t;
    }
  }

  /**
   * The zone loop of page ii: each target is checked, registered with its
   * context "page ii zone zi", and its rectangle checked; the first failure ends the loop.
   */
  method ValidateZones(zoneURLMap: map<string, string>, ii: nat, zones: seq<PageZone>)
    returns (targets: map<string, string>, err: Option<ConfigError>)
    ensures ZoneScan(targets, err) == ScanZones(zoneURLMap, ii, zones)
  {
    targets := zoneURLMap;
    var zi := 0;
    while zi < |zones|
      invariant 0 <= zi <= |zones|
      invariant ScanZones(zoneURLMap, ii, zones[..zi]) == ZoneScan(targets, None)
    {
      var zo := zones[zi];
      assert zones[..zi + 1][..zi] == zones[..zi];
      if zo.target == "" {
        ScanZonesPrefixFailure(zoneURLMap, ii, zones, zi + 1);
        return targets, Some(EmptyTarget(ii, zi));
      }
      targets := targets[zo.target := Format.ZoneContext(ii, zi)];
      if zo.right < zo.left || zo.right == 0 {
        ScanZonesPrefixFailure(zoneURLMap, ii, zones, zi + 1);
        return targets, Some(InvalidRight(ii, zi));
      }
      if zo.bottom < zo.top || zo.bottom == 0 {
        ScanZonesPrefixFailure(zoneURLMap, ii, zones, zi + 1);
        return targets, Some(InvalidBottom(ii, zi));
      }
      zi := zi + 1;
    }
    assert zones[..zi] == zones;
    return targets, None;
  }

  /** The two-page site of the configuration tests: each page links to the other. */
  function HomeDetail(): seq<Page>
  {
    [Page("/home", "Home", "images/home.jpg", [PageZone(367, 44, 539, 263, "/detail")]),
     Page("/detail", "Detail", "images/detail.jpg", [PageZone(436, 31, 538, 73, "/home")])]
  }
}
