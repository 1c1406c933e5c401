/**
 * Aggregation of GitHub REST responses (src/repo_metrics/metrics/github.py).
 *
 * HTTP is replaced by the responses themselves: the paginated releases
 * endpoint is a sequence of pages (page p is `pages[p - 1]`; past the end the
 * API answers with an empty list), the repository endpoint is one response,
 * and the traffic endpoints are their already-fetched clone and view points.
 * Every releases request a method would send is returned in a request log, so
 * that the headers and page parameters it uses can be stated.
 */
module GitHub {
  import opened Outcomes
  import opened Records

  datatype Asset = Asset(downloadCount: int)

  datatype Release = Release(tagName: string, assets: seq<Asset>)

  /** One answer of the releases endpoint: the status code and the JSON list of releases. */
  datatype ReleasePage = ReleasePage(status: int, releases: seq<Release>)

  /** The answer of the repository endpoint: the status code and the JSON object. */
  datatype RepoResponse = RepoResponse(status: int, body: Record)

  /** One element of the `clones` or `views` list of a traffic response. */
  datatype TrafficPoint = TrafficPoint(timestamp: string, count: int, uniques: int)

  /** A GET request: the URL, the header dictionary and the query parameters. */
  datatype Request = Request(url: string, headers: Record, params: Record)

  const PerPage := 100

  function RepoUrl(owner: string, repo: string): string {
    "https://api.github.com/repos/" + owner + "/" + repo
  }

  function ReleasesUrl(owner: string, repo: string): string {
    RepoUrl(owner, repo) + "/releases"
  }

  /** Python truthiness of `self.token`: set and not the empty string. */
  predicate HasToken(token: Option<string>) {
    token.Some? && token.value != ""
  }

  function AuthHeaders(token: Option<string>): Record {
    if HasToken(token) then [Entry("Authorization", Atom(Str("Bearer " + token.value)))] else []
  }

  /** The header dictionary carries `Authorization: Bearer <token>` exactly when a token is set, and nothing else. */
  lemma AuthorizationHeader(token: Option<string>, k: string)
    ensures Lookup(AuthHeaders(token), "Authorization").Some? <==> HasToken(token)
    ensures HasToken(token) ==> Lookup(AuthHeaders(token), "Authorization") == Some(Atom(Str("Bearer " + token.value)))
    ensures k != "Authorization" ==> Lookup(AuthHeaders(token), k) == None
  {
  }

  function PageRequest(owner: string, repo: string, token: Option<string>, page: int): Request {
    Request(ReleasesUrl(owner, repo), AuthHeaders(token),
            [Entry("page", Atom(Int(page))), Entry("per_page", Atom(Int(PerPage)))])
  }

  /** The requests for pages 1 to n of the releases endpoint, in order. */
  function PageRequests(owner: string, repo: string, token: Option<string>, n: nat): seq<Request> {
    seq(n, i requires 0 <= i < n => PageRequest(owner, repo, token, i + 1))
  }

  function InfoRequest(owner: string, repo: string, token: Option<string>): Request {
    Request(RepoUrl(owner, repo), AuthHeaders(token), [])
  }

  function FailedInfo(owner: string, repo: string): Error {
    GitHubException("Failed to get info for " + owner + "/" + repo)
  }

  /** The answer to a request for page `page`. */
  function PageAt(pages: seq<ReleasePage>, page: int): ReleasePage {
    if 1 <= page <= |pages| then pages[page - 1] else ReleasePage(200, [])
  }

  /** A page on which the pagination loops stop: an error status or an empty list. */
  predicate Stops(p: ReleasePage) {
    p.status != 200 || p.releases == []
  }

  /** The index of the first page on which the loops stop (`|pages|` when that page is past the end). */
  function FirstStop(pages: seq<ReleasePage>): (k: nat)
    ensures k <= |pages|
    ensures forall i :: 0 <= i < k ==> !Stops(pages[i])
    ensures k < |pages| ==> Stops(pages[k])
  {
    if pages == [] || Stops(pages[0]) then 0 else 1 + FirstStop(pages[1..])
  }

  /**
   * The pages the loops consume: those before the first stopping page, or
   * `None` when that page has a status other than 200.
   */
  function Listing(pages: seq<ReleasePage>): Option<seq<ReleasePage>> {
    var k := FirstStop(pages);
    if k < |pages| && pages[k].status != 200 then None else Some(pages[..k])
  }

  function AllReleases(ps: seq<ReleasePage>): seq<Release> {
    if ps == [] then [] else AllReleases(ps[..|ps| - 1]) + ps[|ps| - 1].releases
  }

  function AssetsTotal(assets: seq<Asset>): int {
    if assets == [] then 0 else AssetsTotal(assets[..|assets| - 1]) + assets[|assets| - 1].downloadCount
  }

  function ReleasesTotal(rs: seq<Release>): int {
    if rs == [] then 0 else ReleasesTotal(rs[..|rs| - 1]) + AssetsTotal(rs[|rs| - 1].assets)
  }

  function Tags(rs: seq<Release>): seq<string> {
    seq(|rs|, i requires 0 <= i < |rs| => rs[i].tagName)
  }

  function TagEntry(r: Release): Entry {
    Entry(r.tagName, Atom(Int(AssetsTotal(r.assets))))
  }

  /** One `tag_name: count` assignment per release, in listing order. */
  function TagEntries(rs: seq<Release>): Record {
    seq(|rs|, i requires 0 <= i < |rs| => TagEntry(rs[i]))
  }

  /** What `__get_download_count` computes from the pages. */
  function DownloadCount(owner: string, repo: string, pages: seq<ReleasePage>): Result<int> {
    match Listing(pages)
    case None => Err(FailedInfo(owner, repo))
    case Some(ps) => Ok(ReleasesTotal(AllReleases(ps)))
  }

  /** What `get_release_download_counts` computes from the pages. */
  function ReleaseCounts(owner: string, repo: string, pages: seq<ReleasePage>): Result<Record> {
    match Listing(pages)
    case None => Err(FailedInfo(owner, repo))
    case Some(ps) => Ok(PutAll([], TagEntries(AllReleases(ps))))
  }

  // ------------------------------------------------------------ loop steps

  lemma StopStep(pages: seq<ReleasePage>, page: int)
    requires 1 <= page <= FirstStop(pages) + 1
    ensures !Stops(PageAt(pages, page)) ==> page <= FirstStop(pages) && PageAt(pages, page) == pages[page - 1]
    ensures PageAt(pages, page).status != 200 ==> Listing(pages) == None
    ensures PageAt(pages, page).status == 200 && PageAt(pages, page).releases == []
            ==> Listing(pages) == Some(pages[..page - 1])
  {
  }

  lemma AllReleasesStep(pages: seq<ReleasePage>, page: int)
    requires 1 <= page <= |pages|
    ensures AllReleases(pages[..page]) == AllReleases(pages[..page - 1]) + pages[page - 1].releases
  {
    assert pages[..page][..page - 1] == pages[..page - 1];
  }

  lemma TotalStep(base: seq<Release>, releases: seq<Release>, i: int)
    requires 0 <= i < |releases|
    ensures ReleasesTotal(base + releases[..i + 1])
         == ReleasesTotal(base + releases[..i]) + AssetsTotal(releases[i].assets)
  {
    assert (base + releases[..i + 1])[..|base| + i] == base + releases[..i];
  }

  lemma AssetStep(assets: seq<Asset>, j: int)
    requires 0 <= j < |assets|
    ensures AssetsTotal(assets[..j + 1]) == AssetsTotal(assets[..j]) + assets[j].downloadCount
  {
    assert assets[..j + 1][..j] == assets[..j];
  }

  lemma CountsStep(base: seq<Release>, releases: seq<Release>, i: int)
    requires 0 <= i < |releases|
    ensures PutAll([], TagEntries(base + releases[..i + 1]))
         == Put(PutAll([], TagEntries(base + releases[..i])), releases[i].tagName,
                Atom(Int(AssetsTotal(releases[i].assets))))
  {
    var xs := base + releases[..i + 1];
    assert TagEntries(xs)[..|xs| - 1] == TagEntries(base + releases[..i]);
  }

  lemma RequestsStep(owner: string, repo: string, token: Option<string>, n: nat)
    ensures PageRequests(owner, repo, token, n) + [PageRequest(owner, repo, token, n + 1)]
         == PageRequests(owner, repo, token, n + 1)
  {
  }

  /** `GitHubMetricsHelper`: its token comes from the environment in the original and is a parameter here. */
  class GitHubMetricsHelper {
    const token: Option<string>

    constructor(token: Option<string>)
      ensures this.token == token
    {
      this.token := token;
    }

    /**
     * `__get_download_count`: the total of every asset's download count over
     * the releases on the pages before the first empty page, or the
     * "Failed to get info" error when a page up to that one is not a 200.
     * It requests pages 1, 2, ... up to and including the stopping page.
     */
    method GetDownloadCount(owner: string, repo: string, pages: seq<ReleasePage>)
      returns (r: Result<int>, sent: seq<Request>)
      ensures r == DownloadCount(owner, repo, pages)
      ensures sent == PageRequests(owner, repo, token, FirstStop(pages) + 1)
    {
      var page := 1;
      var downloadCount := 0;
      sent := [];
      while true
        invariant 1 <= page <= FirstStop(pages) + 1
        invariant downloadCount == ReleasesTotal(AllReleases(pages[..page - 1]))
        invariant sent == PageRequests(owner, repo, token, page - 1)
        decreases |pages| + 1 - page
      {
        RequestsStep(owner, repo, token, page - 1);
        sent := sent + [PageRequest(owner, repo, token, page)];
        var response := PageAt(pages, page);
        StopStep(pages, page);
        if response.status != 200 {
          return Err(FailedInfo(owner, repo)), sent;
        }
        var releases := response.releases;
        if releases == [] {
          return Ok(downloadCount), sent;
        }
        ghost var base := AllReleases(pages[..page - 1]);
        assert base + releases[..0] == base;
        for i := 0 to |releases|
          invariant downloadCount == ReleasesTotal(base + releases[..i])
        {
          var assets := releases[i].assets;
          ghost var before := downloadCount;
          for j := 0 to |assets|
            invariant downloadCount == before + AssetsTotal(assets[..j])
          {
            AssetStep(assets, j);
            downloadCount := downloadCount + assets[j].downloadCount;
          }
          assert assets[..|assets|] == assets;
          TotalStep(base, releases, i);
        }
        AllReleasesStep(pages, page);
        assert releases[..|releases|] == releases;
        page := page + 1;
      }
    }

    /**
     * `get_release_download_counts`: a dictionary from each release's tag
     * name to the total of its assets' download counts, assigned release by
     * release in listing order, or the "Failed to get info" error.
     */
    method GetReleaseDownloadCounts(owner: string, repo: string, pages: seq<ReleasePage>)
      returns (r: Result<Record>, sent: seq<Request>)
      ensures r == ReleaseCounts(owner, repo, pages)
      ensures sent == PageRequests(owner, repo, token, FirstStop(pages) + 1)
    {
      var releaseDownloadCounts: Record := [];
      var page := 1;
      sent := [];
      while true
        invariant 1 <= page <= FirstStop(pages) + 1
        invariant releaseDownloadCounts == PutAll([], TagEntries(AllReleases(pages[..page - 1])))
        invariant sent == PageRequests(owner, repo, token, page - 1)
        decreases |pages| + 1 - page
      {
        RequestsStep(owner, repo, token, page - 1);
        sent := sent + [PageRequest(owner, repo, token, page)];
        var response := PageAt(pages, page);
        StopStep(pages, page);
        if response.status != 200 {
          return Err(FailedInfo(owner, repo)), sent;
        }
        var releases := response.releases;
        if releases == [] {
          return Ok(releaseDownloadCounts), sent;
        }
        ghost var base := AllReleases(pages[..page - 1]);
        assert base + releases[..0] == base;
        for i := 0 to |releases|
          invariant releaseDownloadCounts == PutAll([], TagEntries(base + releases[..i]))
        {
          var releaseName := releases[i].tagName;
          var assets := releases[i].assets;
          var downloadCount := 0;
          for j := 0 to |assets|
            invariant downloadCount == AssetsTotal(assets[..j])
          {
            AssetStep(assets, j);
            downloadCount := downloadCount + assets[j].downloadCount;
          }
          assert assets[..|assets|] == assets;
          CountsStep(base, releases, i);
          releaseDownloadCounts := Put(releaseDownloadCounts, releaseName, Atom(Int(downloadCount)));
        }
        AllReleasesStep(pages, page);
        assert releases[..|releases|] == releases;
        page := page + 1;
      }
    }

    /**
     * `get_repo_info`: the repository object with `download_count` set to the
     * release total; every other field is kept. A non-200 answer from the
     * repository endpoint or from a releases page is the "Failed to get info"
     * error, and after the former no releases page is requested.
     */
    method GetRepoInfo(owner: string, repo: string, info: RepoResponse, pages: seq<ReleasePage>)
      returns (r: Result<Record>, sent: seq<Request>)
      ensures info.status != 200 ==> r == Err(FailedInfo(owner, repo)) && sent == [InfoRequest(owner, repo, token)]
      ensures info.status == 200 ==>
        sent == [InfoRequest(owner, repo, token)] + PageRequests(owner, repo, token, FirstStop(pages) + 1)
      ensures info.status == 200 && DownloadCount(owner, repo, pages).Err? ==> r == Err(FailedInfo(owner, repo))
      ensures info.status == 200 && DownloadCount(owner, repo, pages).Ok? ==> r.Ok?
      ensures r.Ok? ==> Lookup(r.value, "download_count") == Some(Atom(Int(DownloadCount(owner, repo, pages).value)))
      ensures r.Ok? ==> forall k :: k != "download_count" ==> Lookup(r.value, k) == Lookup(info.body, k)
      ensures r.Ok? ==> Keys(r.value) == if "download_count" in Keys(info.body) then Keys(info.body)
                                          else Keys(info.body) + ["download_count"]
    {
      sent := [InfoRequest(owner, repo, token)];
      if info.status != 200 {
        return Err(FailedInfo(owner, repo)), sent;
      }
      var data := info.body;
      var downloadCount, more := GetDownloadCount(owner, repo, pages);
      sent := sent + more;
      if downloadCount.Err? {
        return Err(downloadCount.error), sent;
      }
      data := Put(data, "download_count", Atom(Int(downloadCount.value)));
      forall k
        ensures Lookup(data, k) == if k == "download_count" then Some(Atom(Int(downloadCount.value))) else Lookup(info.body, k)
      {
        PutLookup(info.body, "download_count", Atom(Int(downloadCount.value)), k);
      }
      PutKeys(info.body, "download_count", Atom(Int(downloadCount.value)));
      r := Ok(data);
    }

    /**
     * `get_repo_traffic` after the two traffic responses are fetched: clone
     * and view points are joined by timestamp, optionally cut down to the
     * given `yesterday` timestamp, and turned into one row per timestamp.
     */
    method GetRepoTraffic(clones: seq<TrafficPoint>, views: seq<TrafficPoint>, onlyYesterday: bool, yesterday: string)
      returns (r: Result<seq<Record>>)
      ensures r == TrafficReport(clones, views, onlyYesterday, yesterday)
    {
      var trafficData: Record := [];
      for i := 0 to |clones|
        invariant trafficData == ClonesTable(clones[..i])
      {
        assert clones[..i + 1][..i] == clones[..i];
        var clone := clones[i];
        trafficData := Put(trafficData, clone.timestamp, Obj(CloneFields(clone)));
      }
      assert clones[..|clones|] == clones;
      for i := 0 to |views|
        invariant trafficData == Joined(ClonesTable(clones), views[..i])
      {
        assert views[..i + 1][..i] == views[..i];
        var view := views[i];
        var timestamp := view.timestamp;
        if timestamp in Keys(trafficData) {
          LookupSome(trafficData, timestamp);
          var inner := Fields(Lookup(trafficData, timestamp).value);
          inner := Put(inner, "views", Atom(Int(view.count)));
          inner := Put(inner, "unique views", Atom(Int(view.uniques)));
          trafficData := Put(trafficData, timestamp, Obj(inner));
        } else {
          trafficData := Put(trafficData, timestamp, Obj(ViewFields(view)));
        }
      }
      assert views[..|views|] == views;
      if onlyYesterday {
        if yesterday !in Keys(trafficData) {
          return Err(YesterdayMissing);
        }
        LookupSome(trafficData, yesterday);
        trafficData := [Entry(yesterday, Lookup(trafficData, yesterday).value)];
      }
      r := Ok(Rows(trafficData));
    }
  }

  // ------------------------------------------------------------------ traffic

  function CloneFields(c: TrafficPoint): Record {
    [Entry("clones", Atom(Int(c.count))), Entry("unique clones", Atom(Int(c.uniques)))]
  }

  function ViewFields(v: TrafficPoint): Record {
    [Entry("views", Atom(Int(v.count))), Entry("unique views", Atom(Int(v.uniques)))]
  }

  /** The fields of a JSON object (none for any other value). */
  function Fields(v: Value): Record {
    if v.Obj? then v.entries else []
  }

  const YesterdayMissing := GitHubException("Traffic data for yesterday not found")

  /** The table after the clone loop. */
  function ClonesTable(clones: seq<TrafficPoint>): Record {
    if clones == [] then []
    else
      var c := clones[|clones| - 1];
      Put(ClonesTable(clones[..|clones| - 1]), c.timestamp, Obj(CloneFields(c)))
  }

  /** One step of the view loop. */
  function JoinView(table: Record, v: TrafficPoint): Record {
    if v.timestamp in Keys(table) && Lookup(table, v.timestamp).Some? then
      var inner := Fields(Lookup(table, v.timestamp).value);
      Put(table, v.timestamp,
          Obj(Put(Put(inner, "views", Atom(Int(v.count))), "unique views", Atom(Int(v.uniques)))))
    else Put(table, v.timestamp, Obj(ViewFields(v)))
  }

  function Joined(table: Record, views: seq<TrafficPoint>): Record {
    if views == [] then table else JoinView(Joined(table, views[..|views| - 1]), views[|views| - 1])
  }

  function TrafficTable(clones: seq<TrafficPoint>, views: seq<TrafficPoint>): Record {
    Joined(ClonesTable(clones), views)
  }

  /** `[{"timestamp": timestamp, **data} for timestamp, data in traffic_data.items()]` */
  function Rows(table: Record): seq<Record> {
    seq(|table|, i requires 0 <= i < |table| => [Entry("timestamp", Atom(Str(table[i].key)))] + Fields(table[i].value))
  }

  /** What `get_repo_traffic` returns for the given responses. */
  function TrafficReport(clones: seq<TrafficPoint>, views: seq<TrafficPoint>, onlyYesterday: bool, yesterday: string)
    : Result<seq<Record>>
  {
    var table := TrafficTable(clones, views);
    if !onlyYesterday then Ok(Rows(table))
    else if yesterday in Keys(table) && Lookup(table, yesterday).Some? then
      Ok(Rows([Entry(yesterday, Lookup(table, yesterday).value)]))
    else Err(YesterdayMissing)
  }

  function Timestamps(points: seq<TrafficPoint>): seq<string> {
    seq(|points|, i requires 0 <= i < |points| => points[i].timestamp)
  }

  /** The last point of `points` with timestamp `ts`. */
  function LastPoint(points: seq<TrafficPoint>, ts: string): (r: Option<TrafficPoint>)
    ensures r.None? <==> ts !in Timestamps(points)
    ensures r.Some? ==> r.value in points && r.value.timestamp == ts
  {
    if points == [] then None
    else if points[|points| - 1].timestamp == ts then
      assert Timestamps(points)[|points| - 1] == ts;
      Some(points[|points| - 1])
    else
      var r := LastPoint(points[..|points| - 1], ts);
      assert Timestamps(points) == Timestamps(points[..|points| - 1]) + [points[|points| - 1].timestamp];
      r
  }

  function CloneFieldsOf(c: Option<TrafficPoint>): Record {
    if c.Some? then CloneFields(c.value) else []
  }

  function ViewFieldsOf(v: Option<TrafficPoint>): Record {
    if v.Some? then ViewFields(v.value) else []
  }

  /** The entry of a timestamp whose last clone point is `c` and last view point is `v`. */
  function Joint(c: Option<TrafficPoint>, v: Option<TrafficPoint>): Option<Value> {
    if c.None? && v.None? then None else Some(Obj(CloneFieldsOf(c) + ViewFieldsOf(v)))
  }

  lemma {:induction false} ClonesTableLookup(clones: seq<TrafficPoint>, ts: string)
    ensures Lookup(ClonesTable(clones), ts) == Joint(LastPoint(clones, ts), None)
  {
    if clones != [] {
      var n := |clones| - 1;
      ClonesTableLookup(clones[..n], ts);
      PutLookup(ClonesTable(clones[..n]), clones[n].timestamp, Obj(CloneFields(clones[n])), ts);
      assert CloneFieldsOf(Some(clones[n])) + ViewFieldsOf(None) == CloneFields(clones[n]);
    }
  }

  /** Setting the two view fields of a joined entry replaces earlier view fields and keeps the clone fields. */
  lemma SetViews(c: Option<TrafficPoint>, v0: Option<TrafficPoint>, v: TrafficPoint)
    ensures Put(Put(CloneFieldsOf(c) + ViewFieldsOf(v0), "views", Atom(Int(v.count))), "unique views", Atom(Int(v.uniques)))
         == CloneFieldsOf(c) + ViewFields(v)
  {
    var x := Atom(Int(v.count));
    var y := Atom(Int(v.uniques));
    var cf := CloneFieldsOf(c);
    assert "views" !in Keys(cf) && "unique views" !in Keys(cf);
    if v0.None? {
      assert cf + ViewFieldsOf(v0) == cf;
      PutNew(cf, "views", x);
      assert "unique views" !in Keys(cf + [Entry("views", x)]);
      PutNew(cf + [Entry("views", x)], "unique views", y);
      assert cf + [Entry("views", x)] + [Entry("unique views", y)] == cf + ViewFields(v);
    } else {
      var vf := ViewFieldsOf(v0);
      PutAfter(cf, vf, "views", x);
      assert Put(vf, "views", x) == [Entry("views", x), vf[1]];
      PutAfter(cf, [Entry("views", x), vf[1]], "unique views", y);
      assert Put([Entry("views", x), vf[1]], "unique views", y) == ViewFields(v);
    }
  }

  lemma {:induction false} PutAfter(a: Record, b: Record, k: string, v: Value)
    requires k !in Keys(a)
    ensures Put(a + b, k, v) == a + Put(b, k, v)
  {
    if a != [] {
      assert (a + b)[1..] == a[1..] + b;
      assert Keys(a) == [a[0].key] + Keys(a[1..]);
      assert (a + b)[0] == a[0] && a[0].key != k;
      PutAfter(a[1..], b, k, v);
      calc {
        Put(a + b, k, v);
        [a[0]] + Put(a[1..] + b, k, v);
        [a[0]] + (a[1..] + Put(b, k, v));
        { assert [a[0]] + a[1..] == a; }
        a + Put(b, k, v);
      }
    } else {
      assert a + b == b && a + Put(b, k, v) == Put(b, k, v);
    }
  }

  lemma JoinViewLookup(table: Record, v: TrafficPoint, ts: string, c: Option<TrafficPoint>, v0: Option<TrafficPoint>)
    requires Lookup(table, ts) == Joint(c, v0)
    ensures Lookup(JoinView(table, v), ts) == Joint(c, if v.timestamp == ts then Some(v) else v0)
  {
    var inner := if Lookup(table, v.timestamp).Some? then Fields(Lookup(table, v.timestamp).value) else [];
    var newInner := Put(Put(inner, "views", Atom(Int(v.count))), "unique views", Atom(Int(v.uniques)));
    PutLookup(table, v.timestamp, Obj(newInner), ts);
    PutLookup(table, v.timestamp, Obj(ViewFields(v)), ts);
    if v.timestamp == ts {
      LookupSome(table, ts);
      if Lookup(table, ts).Some? {
        assert inner == CloneFieldsOf(c) + ViewFieldsOf(v0);
        SetViews(c, v0, v);
      } else {
        assert [] + ViewFields(v) == ViewFields(v);
      }
    }
  }

  lemma {:induction false} JoinedLookup(table: Record, views: seq<TrafficPoint>, ts: string,
                                        c: Option<TrafficPoint>, v0: Option<TrafficPoint>)
    requires Lookup(table, ts) == Joint(c, v0)
    ensures Lookup(Joined(table, views), ts)
         == Joint(c, if LastPoint(views, ts).Some? then LastPoint(views, ts) else v0)
  {
    if views != [] {
      var n := |views| - 1;
      JoinedLookup(table, views[..n], ts, c, v0);
      var mid := if LastPoint(views[..n], ts).Some? then LastPoint(views[..n], ts) else v0;
      JoinViewLookup(Joined(table, views[..n]), views[n], ts, c, mid);
    }
  }

  /**
   * The entry of each timestamp: the count and unique count of its last
   * clone point, then those of its last view point; absent when neither list
   * has that timestamp.
   */
  lemma TrafficTableLookup(clones: seq<TrafficPoint>, views: seq<TrafficPoint>, ts: string)
    ensures Lookup(TrafficTable(clones, views), ts) == Joint(LastPoint(clones, ts), LastPoint(views, ts))
  {
    ClonesTableLookup(clones, ts);
    JoinedLookup(ClonesTable(clones), views, ts, LastPoint(clones, ts), None);
  }

  lemma {:induction false} ClonesTableKeys(clones: seq<TrafficPoint>)
    ensures Keys(ClonesTable(clones)) == Dedup(Timestamps(clones))
  {
    if clones != [] {
      var n := |clones| - 1;
      ClonesTableKeys(clones[..n]);
      PutKeys(ClonesTable(clones[..n]), clones[n].timestamp, Obj(CloneFields(clones[n])));
      assert Timestamps(clones)[..n] == Timestamps(clones[..n]);
    }
  }

  lemma {:induction false} JoinedKeys(table: Record, views: seq<TrafficPoint>)
    ensures Keys(Joined(table, views)) == AddNew(Keys(table), Timestamps(views))
  {
    if views != [] {
      var n := |views| - 1;
      var t := Joined(table, views[..n]);
      var v := views[n];
      JoinedKeys(table, views[..n]);
      assert Timestamps(views)[..n] == Timestamps(views[..n]);
      var inner := if Lookup(t, v.timestamp).Some? then Fields(Lookup(t, v.timestamp).value) else [];
      PutKeys(t, v.timestamp, Obj(Put(Put(inner, "views", Atom(Int(v.count))), "unique views", Atom(Int(v.uniques)))));
      PutKeys(t, v.timestamp, Obj(ViewFields(v)));
    }
  }

  /** Timestamps appear clone timestamps first, then view-only timestamps, each in first-seen order and once. */
  lemma TrafficTableKeys(clones: seq<TrafficPoint>, views: seq<TrafficPoint>)
    ensures Keys(TrafficTable(clones, views)) == Dedup(Timestamps(clones) + Timestamps(views))
    ensures Distinct(Keys(TrafficTable(clones, views)))
  {
    ClonesTableKeys(clones);
    JoinedKeys(ClonesTable(clones), views);
    AddNewAppend([], Timestamps(clones), Timestamps(views));
    AddNewDistinct([], Timestamps(clones) + Timestamps(views));
  }

  /** The row for timestamp `ts`. */
  function TrafficRow(clones: seq<TrafficPoint>, views: seq<TrafficPoint>, ts: string): Record {
    [Entry("timestamp", Atom(Str(ts)))] + CloneFieldsOf(LastPoint(clones, ts)) + ViewFieldsOf(LastPoint(views, ts))
  }

  /**
   * Without `only_yesterday`: one row per distinct timestamp, clone
   * timestamps first and then view-only ones, each row starting with its own
   * timestamp followed by the clone and view counts for it.
   */
  lemma TrafficReportAll(clones: seq<TrafficPoint>, views: seq<TrafficPoint>, yesterday: string)
    ensures var order := Dedup(Timestamps(clones) + Timestamps(views));
            var r := TrafficReport(clones, views, false, yesterday);
            r.Ok? && |r.value| == |order|
            && forall i :: 0 <= i < |order| ==> r.value[i] == TrafficRow(clones, views, order[i])
  {
    var t := TrafficTable(clones, views);
    TrafficTableKeys(clones, views);
    forall i | 0 <= i < |t|
      ensures Rows(t)[i] == TrafficRow(clones, views, Keys(t)[i])
    {
      LookupAt(t, i);
      TrafficTableLookup(clones, views, t[i].key);
    }
  }

  /**
   * With `only_yesterday`: the single row for `yesterday` when a clone or a
   * view point has that timestamp, and "Traffic data for yesterday not found"
   * otherwise.
   */
  lemma TrafficReportYesterday(clones: seq<TrafficPoint>, views: seq<TrafficPoint>, yesterday: string)
    ensures var r := TrafficReport(clones, views, true, yesterday);
            if yesterday in Timestamps(clones) || yesterday in Timestamps(views)
            then r == Ok([TrafficRow(clones, views, yesterday)])
            else r == Err(YesterdayMissing)
  {
    var t := TrafficTable(clones, views);
    TrafficTableLookup(clones, views, yesterday);
    LookupSome(t, yesterday);
    var c := LastPoint(clones, yesterday);
    var v := LastPoint(views, yesterday);
    if c.Some? || v.Some? {
      var e := Entry(yesterday, Lookup(t, yesterday).value);
      assert Fields(e.value) == CloneFieldsOf(c) + ViewFieldsOf(v);
      assert Rows([e]) == [[Entry("timestamp", Atom(Str(yesterday)))] + Fields(e.value)];
      var ts := [Entry("timestamp", Atom(Str(yesterday)))];
      assert ts + (CloneFieldsOf(c) + ViewFieldsOf(v)) == ts + CloneFieldsOf(c) + ViewFieldsOf(v);
      assert Rows([e]) == [TrafficRow(clones, views, yesterday)];
      assert TrafficReport(clones, views, true, yesterday) == Ok(Rows([e]));
    }
  }

  // ------------------------------------------------------------------ releases

  /** The last release of `rs` with tag `tag`. */
  function LastRelease(rs: seq<Release>, tag: string): (r: Option<Release>)
    ensures r.None? <==> tag !in Tags(rs)
    ensures r.Some? ==> r.value in rs && r.value.tagName == tag
  {
    if rs == [] then None
    else if rs[|rs| - 1].tagName == tag then
      assert Tags(rs)[|rs| - 1] == tag;
      Some(rs[|rs| - 1])
    else
      var r := LastRelease(rs[..|rs| - 1], tag);
      assert Tags(rs) == Tags(rs[..|rs| - 1]) + [rs[|rs| - 1].tagName];
      r
  }

  lemma {:induction false} TagEntriesLast(rs: seq<Release>, tag: string)
    ensures LastLookup(TagEntries(rs), tag)
         == if LastRelease(rs, tag).Some? then Some(Atom(Int(AssetsTotal(LastRelease(rs, tag).value.assets)))) else None
  {
    if rs != [] {
      var n := |rs| - 1;
      assert TagEntries(rs)[..n] == TagEntries(rs[..n]);
      TagEntriesLast(rs[..n], tag);
    }
  }

  /**
   * Each tag maps to the download total of the last release carrying it (0
   * when that release has no assets); tags appear once, in first-seen order.
   */
  lemma ReleaseCountsLookup(owner: string, repo: string, pages: seq<ReleasePage>, tag: string)
    requires Listing(pages).Some?
    ensures var rs := AllReleases(Listing(pages).value);
            var counts := ReleaseCounts(owner, repo, pages);
            && counts.Ok?
            && Keys(counts.value) == Dedup(Tags(rs))
            && Lookup(counts.value, tag)
               == (if tag in Tags(rs) then Some(Atom(Int(AssetsTotal(LastRelease(rs, tag).value.assets)))) else None)
            && (tag in Tags(rs) && LastRelease(rs, tag).value.assets == [] ==> Lookup(counts.value, tag) == Some(Atom(Int(0))))
  {
    var rs := AllReleases(Listing(pages).value);
    PutAllLookup([], TagEntries(rs), tag);
    TagEntriesLast(rs, tag);
    PutAllKeys([], TagEntries(rs));
    assert Keys(TagEntries(rs)) == Tags(rs);
    assert Keys([]) == [];
  }

  /** Sum of the integer values of a dictionary. */
  function IntSum(r: Record): int {
    if r == [] then 0
    else
      var v := r[|r| - 1].value;
      IntSum(r[..|r| - 1]) + (if v.Atom? && v.scalar.Int? then v.scalar.i else 0)
  }

  lemma {:induction false} TagEntriesSum(rs: seq<Release>)
    ensures IntSum(TagEntries(rs)) == ReleasesTotal(rs)
  {
    if rs != [] {
      var n := |rs| - 1;
      assert TagEntries(rs)[..n] == TagEntries(rs[..n]);
      TagEntriesSum(rs[..n]);
    }
  }

  /**
   * The two page loops agree: both fail on the same pages, and when no tag is
   * repeated the per-release counts add up to the repository's download count.
   */
  lemma CountsAddUpToTotal(owner: string, repo: string, pages: seq<ReleasePage>)
    ensures ReleaseCounts(owner, repo, pages).Ok? <==> DownloadCount(owner, repo, pages).Ok?
    ensures Listing(pages).Some? && Distinct(Tags(AllReleases(Listing(pages).value)))
            ==> IntSum(ReleaseCounts(owner, repo, pages).value) == DownloadCount(owner, repo, pages).value
  {
    if Listing(pages).Some? && Distinct(Tags(AllReleases(Listing(pages).value))) {
      var rs := AllReleases(Listing(pages).value);
      assert Keys(TagEntries(rs)) == Tags(rs);
      assert Keys([]) + Keys(TagEntries(rs)) == Tags(rs);
      PutAllFresh([], TagEntries(rs));
      assert [] + TagEntries(rs) == TagEntries(rs);
      TagEntriesSum(rs);
    }
  }

  /**
   * Two releases on the first page and an empty second page: each tag maps
   * to the sum of its own assets.
   */
  lemma ReleaseCountsTwoTags(owner: string, repo: string)
    ensures ReleaseCounts(owner, repo, [ReleasePage(200, [Release("v1.0", [Asset(10), Asset(20)]), Release("v1.1", [Asset(5)])])])
         == Ok([Entry("v1.0", Atom(Int(30))), Entry("v1.1", Atom(Int(5)))])
  {
    var rs := [Release("v1.0", [Asset(10), Asset(20)]), Release("v1.1", [Asset(5)])];
    var pages := [ReleasePage(200, rs)];
    assert !Stops(pages[0]) && pages[1..] == [];
    assert FirstStop(pages) == 1;
    assert pages[..1] == pages;
    assert Listing(pages) == Some(pages);
    assert pages[..0] == [] && [] + rs == rs;
    assert AllReleases(pages) == rs;
    assert [Asset(10), Asset(20)][..1] == [Asset(10)];
    assert AssetsTotal([Asset(10), Asset(20)]) == 30;
    assert "v1.0"[3] != "v1.1"[3];
    assert TagEntries(rs) == [Entry("v1.0", Atom(Int(30))), Entry("v1.1", Atom(Int(5)))];
    PutAllFresh([], TagEntries(rs));
    assert [] + TagEntries(rs) == TagEntries(rs);
  }
}
