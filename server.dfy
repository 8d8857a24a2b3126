/**
 * newServer of server.go: the address and port are checked, the mount
 * paths of the three asset directories derived, the page count checked, and
 * the index pages the site lacks chosen. net.ParseIP and strconv.Atoi are
 * given as validity predicates; the http.Server is reduced to its address.
 */
module ServerSetup {
  import opened Wrappers
  import Paths
  import SiteConfig
  import Site

  const ImageDir: string := "images"
  const StaticDir: string := "static"
  const TemplateDir: string := "templates"

  /** The URLs an index page is served at when the site has no page there, in order. */
  const IndexCandidates: seq<string> := ["/index", "/"]

  datatype Server = Server(
    imagePath: string,
    staticPath: string,
    templatesPath: string,
    serverAddress: string,
    serverPort: string,
    webAddr: string,
    pages: seq<Site.Page>,
    indexPages: seq<string>)

  datatype ServerError = InvalidAddress | InvalidPort | TooFewPages

  /** The mount path of a directory: its last element between slashes. */
  function Pather(dir: string): (p: string)
    ensures |p| >= 2 && p[0] == '/' && p[|p| - 1] == '/'
    ensures forall j :: 0 < j < |p| - 1 ==> p[j] != '/'
  {
    "/" + Paths.Base(dir) + "/"
  }

  /** A plain directory name is mounted under its own name. */
  lemma PatherOfName(dir: string)
    requires forall j :: 0 <= j < |dir| ==> dir[j] != '/'
    ensures Pather(dir) == "/" + dir + "/"
  {
    assert Paths.LastSlash(dir) == -1;
    assert dir[0..] == dir;
  }

  /** The three mount paths. */
  lemma MountPaths()
    ensures Pather(ImageDir) == "/images/" && Pather(StaticDir) == "/static/" && Pather(TemplateDir) == "/templates/"
  {
    ImagesMount();
    StaticMount();
    TemplatesMount();
  }

  lemma ImagesMount()
    ensures Pather(ImageDir) == "/images/"
  {
    PatherOfName(ImageDir);
  }

  lemma StaticMount()
    ensures Pather(StaticDir) == "/static/"
  {
    PatherOfName(StaticDir);
  }

  lemma TemplatesMount()
    ensures Pather(TemplateDir) == "/templates/"
  {
    PatherOfName(TemplateDir);
  }

  /** The candidates, in order, that are not among the registered URLs. */
  function Missing(urls: map<string, bool>, cands: seq<string>): (r: seq<string>)
    ensures |r| <= |cands|
  {
    if cands == [] then []
    else (if cands[0] in urls then [] else [cands[0]]) + Missing(urls, cands[1..])
  }

  /** A URL is missing exactly when it is a candidate that is not registered. */
  lemma {:induction false} MissingMembers(urls: map<string, bool>, cands: seq<string>, u: string)
    ensures u in Missing(urls, cands) <==> u in cands && u !in urls
  {
    if cands != [] {
      MissingMembers(urls, cands[1..], u);
      assert cands == [cands[0]] + cands[1..];
    }
  }

  /** The index pages for each combination of registered "/index" and "/". */
  lemma IndexPagesCases(urls: map<string, bool>)
    ensures "/index" !in urls && "/" !in urls ==> Missing(urls, IndexCandidates) == ["/index", "/"]
    ensures "/index" !in urls && "/" in urls ==> Missing(urls, IndexCandidates) == ["/index"]
    ensures "/index" in urls && "/" !in urls ==> Missing(urls, IndexCandidates) == ["/"]
    ensures "/index" in urls && "/" in urls ==> Missing(urls, IndexCandidates) == []
  {
    var c := IndexCandidates;
    assert c[1..] == ["/"];
    assert c[1..][1..] == [];
  }

  /**
   * newServer: an invalid address or port fails first, then fewer than two
   * pages; otherwise the server has the fixed mount paths, the joined web
   * address, the configuration's pages, and the index URLs no page has.
   */
  method NewServer(address: string, port: string, cfg: SiteConfig.Config,
                   validIP: string -> bool, validPort: string -> bool)
    returns (r: Result<Server, ServerError>)
    ensures !validIP(address) ==> r == Failure(InvalidAddress)
    ensures validIP(address) && !validPort(port) ==> r == Failure(InvalidPort)
    ensures validIP(address) && validPort(port) && |cfg.pages| < 2 ==> r == Failure(TooFewPages)
    ensures r.Success? <==> validIP(address) && validPort(port) && |cfg.pages| >= 2
    ensures r.Success? ==>
      r.value.imagePath == "/images/" && r.value.staticPath == "/static/" && r.value.templatesPath == "/templates/"
    ensures r.Success? ==>
      r.value.serverAddress == address && r.value.serverPort == port && r.value.webAddr == address + ":" + port
    ensures r.Success? ==> r.value.pages == cfg.pages && r.value.indexPages == Missing(cfg.urlMap, IndexCandidates)
  {
    if !validIP(address) {
      return Failure(InvalidAddress);
    }
    if !validPort(port) {
      return Failure(InvalidPort);
    }
    var webAddr := address + ":" + port;
    MountPaths();
    var imagePath, staticPath, templatesPath := Pather(ImageDir), Pather(StaticDir), Pather(TemplateDir);
    if |cfg.pages| < 2 {
      return Failure(TooFewPages);
    }
    var indexPages: seq<string> := [];
    var i := 0;
    while i < |IndexCandidates|
      invariant 0 <= i <= |IndexCandidates|
      invariant Missing(cfg.urlMap, IndexCandidates) == indexPages + Missing(cfg.urlMap, IndexCandidates[i..])
    {
      var idx := IndexCandidates[i];
      assert IndexCandidates[i..][1..] == IndexCandidates[i + 1..];
      if cfg.HasURL(idx) {
        i := i + 1;
        continue;
      }
      indexPages := indexPages + [idx];
      i := i + 1;
    }
    assert IndexCandidates[i..] == [];
    return Success(Server(imagePath, staticPath, templatesPath, address, port, webAddr, cfg.pages, indexPages));
  }

  /** On an accepted configuration, the index pages are the candidate URLs no page has. */
  lemma IndexPagesOfAcceptedSite(cfg: SiteConfig.Config, u: string)
    requires cfg.urlMap == SiteConfig.ScanPages(cfg.pages).urls && SiteConfig.ScanPages(cfg.pages).err.None?
    ensures u in Missing(cfg.urlMap, IndexCandidates) <==>
      (u == "/index" || u == "/") && forall i :: 0 <= i < |cfg.pages| ==> cfg.pages[i].url != u
  {
    MissingMembers(cfg.urlMap, IndexCandidates, u);
    SiteConfig.HasURLAfterScan(cfg);
    assert u in IndexCandidates <==> u == "/index" || u == "/";
    assert cfg.HasURL(u) == (u in cfg.urlMap);
  }
}
