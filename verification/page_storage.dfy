/**
 * Sequential page storage: walks a dashboard once and returns its snapshot.
 * The capture points are, in order: the detail fetch (only for a dashboard
 * info), the thumbnail, and the content of each view dashlet in source order.
 * Text dashlets are copied without a fetch. A failed mandatory fetch ends the
 * walk with that fetch's error; an absent thumbnail is not an error.
 */
module PageStorage {
  import opened Wrappers
  import ViewTypes
  import opened Remote
  import opened Tables
  import opened Snapshot

  function DetailRequest(dashboardId: string): Request {
    Get(DashboardDetail(dashboardId))
  }

  function ThumbnailRequest(dashboardId: string): Request {
    Get(DashboardThumbnail(dashboardId))
  }

  /** The request that loads a view's content: `/{code}` for a JSON view, the bounds for a table. */
  function ContentRequest(v: ViewRef): Request {
    if ViewTypes.HasJsonContent(v.viewType) then Get(ViewContent(v.id, ViewTypes.Code(v.viewType)))
    else Get(TableBounds(v.id))
  }

  /** Chart, kpi and text content is read from `/{code}`; a table's content from its bounds. */
  lemma ContentRequestPath(v: ViewRef)
    ensures ViewTypes.HasJsonContent(v.viewType) ==>
      Path(ContentRequest(v).endpoint) == "/api/reports/views/" + v.id + "/" + ViewTypes.Code(v.viewType)
    ensures v.viewType == ViewTypes.Table ==>
      Path(ContentRequest(v).endpoint) == "/api/reports/views/" + v.id + "/table/bounds"
    ensures |ContentRequest(v).params| == 0
  {
  }

  /** Whether a response is a usable answer to a view's content request. */
  predicate IsContentAnswer(v: ViewRef, r: Response) {
    r.Found? && (if ViewTypes.HasJsonContent(v.viewType) then r.body.JsonBody? else r.body.BoundsBody?)
  }

  /** The content a usable answer denotes: the payload itself, or the table built from the bounds. */
  function ContentOf(v: ViewRef, r: Response): ViewContent
    requires IsContentAnswer(v, r)
  {
    if r.body.JsonBody? then JsonContent(r.body.value) else TableContent(FromBounds(v.id, r.body.node))
  }

  /** Loading a live view's content: exactly one fetch, of the kind its view type demands. */
  function LoadViewContent(server: Server, v: ViewRef): (o: Fetched<ViewContent>)
    ensures o.trace == [ContentRequest(v)]
    ensures o.result.Ok? <==> IsContentAnswer(v, server(ContentRequest(v)))
    ensures o.result.Ok? ==> o.result.value == ContentOf(v, server(ContentRequest(v)))
    ensures o.result.Err? ==> o.result.error == FetchError(ContentRequest(v))
  {
    if ViewTypes.HasJsonContent(v.viewType) then
      var f := FetchJson(server, ContentRequest(v));
      match f.result
      case Ok(j) => Fetched(Ok(JsonContent(j)), f.trace)
      case Err(e) => Fetched(Err(e), f.trace)
    else
      var f := LoadTable(server, v.id);
      match f.result
      case Ok(t) => Fetched(Ok(TableContent(t)), f.trace)
      case Err(e) => Fetched(Err(e), f.trace)
  }

  /** The requests capturing one dashlet takes: the content request of a view, none for text. */
  function DashletTrace(d: DashletSource): seq<Request> {
    if d.ViewDashlet? then [ContentRequest(d.view)] else []
  }

  /** The requests capturing a dashlet list takes: one per view dashlet, in source order. */
  function DashletRequests(ds: seq<DashletSource>): seq<Request>
    decreases |ds|
  {
    if |ds| == 0 then [] else DashletTrace(ds[0]) + DashletRequests(ds[1..])
  }

  /** The number of view dashlets in a list. */
  function ViewCount(ds: seq<DashletSource>): nat
    decreases |ds|
  {
    if |ds| == 0 then 0 else (if ds[0].ViewDashlet? then 1 else 0) + ViewCount(ds[1..])
  }

  /** One request per view dashlet, none per text dashlet. */
  lemma {:induction false} DashletRequestsCount(ds: seq<DashletSource>)
    ensures |DashletRequests(ds)| == ViewCount(ds)
    decreases |ds|
  {
    if |ds| > 0 {
      DashletRequestsCount(ds[1..]);
    }
  }

  /** Captures one dashlet: text verbatim without a fetch, a view with its one content fetch. */
  function CaptureDashlet(server: Server, d: DashletSource): (o: Fetched<StoredDashlet>)
    ensures o.trace == DashletTrace(d)
    ensures d.TextDashlet? ==> o.result == Ok(StoredText(d.text))
    ensures d.ViewDashlet? ==> (o.result.Ok? <==> IsContentAnswer(d.view, server(ContentRequest(d.view))))
    ensures d.ViewDashlet? && o.result.Ok? ==>
      o.result.value == StoredViewDashlet(StoredView(d.view.id, d.view.name, d.view.viewType,
                                                     ContentOf(d.view, server(ContentRequest(d.view)))))
    ensures d.ViewDashlet? && o.result.Err? ==> o.result.error == FetchError(ContentRequest(d.view))
  {
    match d
    case TextDashlet(text) => Fetched(Ok(StoredText(text)), [])
    case ViewDashlet(v) =>
      var c := LoadViewContent(server, v);
      match c.result
      case Ok(content) => Fetched(Ok(StoredViewDashlet(StoredView(v.id, v.name, v.viewType, content))), c.trace)
      case Err(e) => Fetched(Err(e), c.trace)
  }

  /** The outcome of capturing each dashlet on its own, slot by slot. */
  function Captures(server: Server, ds: seq<DashletSource>): (slots: seq<Result<StoredDashlet, Error>>)
    ensures |slots| == |ds|
  {
    seq(|ds|, i requires 0 <= i < |ds| => CaptureDashlet(server, ds[i]).result)
  }

  /**
   * Assembles per-slot outcomes into one: all the values in slot order when
   * every slot succeeded, else the error of the lowest failing slot.
   */
  function Assemble(slots: seq<Result<StoredDashlet, Error>>): (r: Result<seq<StoredDashlet>, Error>)
    ensures r.Ok? <==> forall i :: 0 <= i < |slots| ==> slots[i].Ok?
    ensures r.Ok? ==> |r.value| == |slots| && forall i :: 0 <= i < |slots| ==> slots[i] == Ok(r.value[i])
    ensures r.Err? ==> exists i :: 0 <= i < |slots| && slots[i] == Err(r.error) && forall j :: 0 <= j < i ==> slots[j].Ok?
    decreases |slots|
  {
    if |slots| == 0 then Ok([])
    else match slots[0]
      case Err(e) => Err(e)
      case Ok(d) =>
        match Assemble(slots[1..])
        case Ok(rest) => Ok([d] + rest)
        case Err(e) => assert slots[1..][0] == slots[1]; Err(e)
  }

  /** Assembling the captures of a non-empty list: the first capture, then the rest's assembly. */
  lemma CapturesCons(server: Server, ds: seq<DashletSource>)
    requires |ds| > 0
    ensures var head := CaptureDashlet(server, ds[0]).result;
      Assemble(Captures(server, ds)) ==
        match head
        case Err(e) => Err(e)
        case Ok(d) =>
          match Assemble(Captures(server, ds[1..]))
          case Ok(tail) => Ok([d] + tail)
          case Err(e) => Err(e)
  {
    var slots := Captures(server, ds);
    assert slots[0] == CaptureDashlet(server, ds[0]).result;
    assert slots[1..] == Captures(server, ds[1..]);
  }

  /** Puts a captured dashlet ahead of the outcome of the rest. */
  function Cons(d: StoredDashlet, rest: Result<seq<StoredDashlet>, Error>): Result<seq<StoredDashlet>, Error> {
    match rest
    case Ok(tail) => Ok([d] + tail)
    case Err(e) => Err(e)
  }

  /** Captures the dashlets one after the other, stopping at the first failure. */
  function StoreDashlets(server: Server, ds: seq<DashletSource>): (o: Fetched<seq<StoredDashlet>>)
    ensures o.result.Ok? ==> o.trace == DashletRequests(ds)
    ensures o.trace <= DashletRequests(ds)
    ensures o.result.Err? ==> |o.trace| > 0 && o.result.error == FetchError(o.trace[|o.trace| - 1])
    decreases |ds|
  {
    if |ds| == 0 then Fetched(Ok([]), [])
    else
      var head := CaptureDashlet(server, ds[0]);
      assert DashletRequests(ds) == head.trace + DashletRequests(ds[1..]);
      match head.result
      case Err(e) => Fetched(Err(e), head.trace)
      case Ok(d) =>
        var rest := StoreDashlets(server, ds[1..]);
        JoinPrefix(head.trace, rest.trace, DashletRequests(ds[1..]));
        After(head.trace, Fetched(Cons(d, rest.result), rest.trace))
  }

  /** Capturing the dashlets in sequence gives the assembly of capturing each one on its own. */
  lemma {:induction false} StoreDashletsAssemble(server: Server, ds: seq<DashletSource>)
    ensures StoreDashlets(server, ds).result == Assemble(Captures(server, ds))
    decreases |ds|
  {
    if |ds| > 0 {
      CapturesCons(server, ds);
      StoreDashletsAssemble(server, ds[1..]);
    }
  }

  /** A prefix of the rest, after a common head, is a prefix of the whole. */
  lemma JoinPrefix(a: seq<Request>, b: seq<Request>, c: seq<Request>)
    requires b <= c
    ensures a + b <= a + c
  {
    assert (a + c)[..|a + b|] == a + b;
  }

  /** The detail request, for a dashboard info only. */
  function DetailPoints(source: DashboardSource): seq<Request> {
    if source.DashboardInfo? then [DetailRequest(source.header.id)] else []
  }

  /** The dashlet list of the source: already present in a full dashboard, one detail fetch otherwise. */
  function ResolveDashlets(server: Server, source: DashboardSource): (o: Fetched<seq<DashletSource>>)
    ensures source.FullDashboard? ==> o == Fetched(Ok(source.dashlets), [])
    ensures source.DashboardInfo? ==> o.trace == [DetailRequest(source.header.id)]
    ensures o.trace == DetailPoints(source)
    ensures source.DashboardInfo? ==>
      (o.result.Ok? <==> server(DetailRequest(source.header.id)).Found? && server(DetailRequest(source.header.id)).body.DetailsBody?)
    ensures source.DashboardInfo? && o.result.Ok? ==> o.result.value == server(DetailRequest(source.header.id)).body.dashlets
    ensures o.result.Err? ==> o.result.error == FetchError(DetailRequest(source.header.id))
  {
    match source
    case FullDashboard(_, ds) => Fetched(Ok(ds), [])
    case DashboardInfo(header) =>
      var req := DetailRequest(header.id);
      match server(req)
      case Found(DetailsBody(ds)) => Fetched(Ok(ds), [req])
      case _ => Fetched(Err(FetchError(req)), [req])
  }

  /** The thumbnail a response denotes: absent unless it is a decodable image. */
  function ThumbnailOf(r: Response): Option<seq<Byte>> {
    if r.Found? && r.body.ImageBody? then Some(r.body.bytes) else None
  }

  /** The one thumbnail fetch: an absent or undecodable image is `None`, only a failed fetch is an error. */
  function CaptureThumbnail(server: Server, dashboardId: string): (o: Fetched<Option<seq<Byte>>>)
    ensures o.trace == [ThumbnailRequest(dashboardId)]
    ensures o.result.Err? <==> server(ThumbnailRequest(dashboardId)).Failed?
    ensures o.result.Err? ==> o.result.error == FetchError(ThumbnailRequest(dashboardId))
    ensures o.result.Ok? && o.result.value.Some? <==>
      server(ThumbnailRequest(dashboardId)).Found? && server(ThumbnailRequest(dashboardId)).body.ImageBody?
    ensures o.result.Ok? && o.result.value.Some? ==> o.result.value.value == server(ThumbnailRequest(dashboardId)).body.bytes
  {
    var req := ThumbnailRequest(dashboardId);
    match server(req)
    case Found(ImageBody(bytes)) => Fetched(Ok(Some(bytes)), [req])
    case Found(_) => Fetched(Ok(None), [req])
    case NotFound => Fetched(Ok(None), [req])
    case Failed => Fetched(Err(FetchError(req)), [req])
  }

  /** The requests a successful storage issues: the capture points, in order. */
  function CapturePoints(source: DashboardSource, ds: seq<DashletSource>): seq<Request> {
    DetailPoints(source) + ([ThumbnailRequest(source.header.id)] + DashletRequests(ds))
  }

  /** An outcome reached after the requests `pre`: the same result, with `pre` ahead of its trace. */
  function After<T>(pre: seq<Request>, f: Fetched<T>): (o: Fetched<T>)
    ensures |f.trace| > 0 ==> |o.trace| > 0 && o.trace[|o.trace| - 1] == f.trace[|f.trace| - 1]
  {
    Fetched(f.result, pre + f.trace)
  }

  /** Stores a dashboard: resolve its dashlets, capture the thumbnail, then capture each dashlet. */
  function StoreDashboard(server: Server, source: DashboardSource): (o: Fetched<StoredDashboard>)
    ensures o.result.Ok? ==>
      ResolveDashlets(server, source).result.Ok?
      && o.trace == CapturePoints(source, ResolveDashlets(server, source).result.value)
    ensures o.result.Err? ==> |o.trace| > 0 && o.result.error == FetchError(o.trace[|o.trace| - 1])
  {
    var d := ResolveDashlets(server, source);
    match d.result
    case Err(e) => Fetched(Err(e), d.trace)
    case Ok(ds) => After(d.trace, StoreCaptured(server, source.header, ds))
  }

  /**
   * A stored dashboard carries the source's header, the thumbnail the one
   * thumbnail fetch denotes, and for every resolved dashlet, in order, the
   * outcome of capturing it on its own.
   */
  lemma StoredContents(server: Server, source: DashboardSource)
    requires StoreDashboard(server, source).result.Ok?
    ensures var d := ResolveDashlets(server, source);
      var stored := StoreDashboard(server, source).result.value;
      && d.result.Ok?
      && stored.id == source.header.id
      && stored.name == source.header.name
      && stored.lastChange == source.header.lastChange
      && stored.thumbnail == ThumbnailOf(server(ThumbnailRequest(source.header.id)))
      && |stored.dashlets| == |d.result.value|
      && forall i :: 0 <= i < |d.result.value| ==> Ok(stored.dashlets[i]) == CaptureDashlet(server, d.result.value[i]).result
  {
    var ds := ResolveDashlets(server, source).result.value;
    CapturedContents(server, source.header, ds);
    assert StoreDashboard(server, source).result == StoreCaptured(server, source.header, ds).result;
  }

  /** Storing succeeds exactly when the dashlets resolve, the thumbnail fetch does not fail and every dashlet captures. */
  lemma StoreSucceeds(server: Server, source: DashboardSource)
    ensures var d := ResolveDashlets(server, source);
      StoreDashboard(server, source).result.Ok? <==>
        && d.result.Ok?
        && !server(ThumbnailRequest(source.header.id)).Failed?
        && forall i :: 0 <= i < |d.result.value| ==> CaptureDashlet(server, d.result.value[i]).result.Ok?
  {
    var d := ResolveDashlets(server, source);
    if d.result.Ok? {
      CapturedContents(server, source.header, d.result.value);
      assert StoreDashboard(server, source).result == StoreCaptured(server, source.header, d.result.value).result;
    }
  }

  /** The capture half of storing: the thumbnail, then every dashlet of a resolved list. */
  function StoreCaptured(server: Server, header: Header, ds: seq<DashletSource>): (o: Fetched<StoredDashboard>)
    ensures o.result.Ok? ==> o.trace == [ThumbnailRequest(header.id)] + DashletRequests(ds)
    ensures o.result.Err? ==> |o.trace| > 0 && o.result.error == FetchError(o.trace[|o.trace| - 1])
  {
    var th := CaptureThumbnail(server, header.id);
    match th.result
    case Err(e) => Fetched(Err(e), th.trace)
    case Ok(thumbnail) =>
      var stored := StoreDashlets(server, ds);
      After(th.trace, Fetched(WithDashlets(header, thumbnail, stored.result), stored.trace))
  }

  /** The stored dashboard for a header and a thumbnail, once its dashlets are captured. */
  function WithDashlets(header: Header, thumbnail: Option<seq<Byte>>, dashlets: Result<seq<StoredDashlet>, Error>)
    : Result<StoredDashboard, Error>
  {
    match dashlets
    case Ok(ds) => Ok(StoredDashboard(header.id, header.name, header.lastChange, thumbnail, ds))
    case Err(e) => Err(e)
  }

  /** The capture half only ever issues a prefix of its capture points. */
  lemma CapturedPrefix(server: Server, header: Header, ds: seq<DashletSource>)
    ensures StoreCaptured(server, header, ds).trace <= [ThumbnailRequest(header.id)] + DashletRequests(ds)
  {
    var th := CaptureThumbnail(server, header.id);
    if th.result.Ok? {
      JoinPrefix(th.trace, StoreDashlets(server, ds).trace, DashletRequests(ds));
    }
  }

  /**
   * The capture half succeeds exactly when the thumbnail fetch does not fail
   * and every dashlet captures; it then holds the header, the thumbnail and
   * each dashlet as captured on its own.
   */
  lemma CapturedContents(server: Server, header: Header, ds: seq<DashletSource>)
    ensures var o := StoreCaptured(server, header, ds);
      && (o.result.Ok? <==>
            && !server(ThumbnailRequest(header.id)).Failed?
            && forall i :: 0 <= i < |ds| ==> CaptureDashlet(server, ds[i]).result.Ok?)
      && (o.result.Ok? ==>
            && o.result.value.id == header.id
            && o.result.value.name == header.name
            && o.result.value.lastChange == header.lastChange
            && o.result.value.thumbnail == ThumbnailOf(server(ThumbnailRequest(header.id)))
            && |o.result.value.dashlets| == |ds|
            && forall i :: 0 <= i < |ds| ==> Ok(o.result.value.dashlets[i]) == CaptureDashlet(server, ds[i]).result)
  {
    var slots := Captures(server, ds);
    StoreDashletsAssemble(server, ds);
    assert forall i :: 0 <= i < |ds| ==> slots[i] == CaptureDashlet(server, ds[i]).result;
  }

  /** Every dashlet request asks for a view's content or a table's bounds. */
  lemma {:induction false} DashletRequestKinds(ds: seq<DashletSource>)
    ensures forall r :: r in DashletRequests(ds) ==> r.endpoint.ViewContent? || r.endpoint.TableBounds?
    decreases |ds|
  {
    if |ds| > 0 {
      DashletRequestKinds(ds[1..]);
    }
  }

  /**
   * Storage fetches the thumbnail exactly once, and a stored dashboard and
   * its details report that one thumbnail and the source's header.
   */
  lemma StoredThumbnailShared(server: Server, source: DashboardSource)
    requires StoreDashboard(server, source).result.Ok?
    ensures var o := StoreDashboard(server, source);
      var s := o.result.value;
      && multiset(o.trace)[ThumbnailRequest(source.header.id)] == 1
      && s.LoadThumbnail() == ThumbnailOf(server(ThumbnailRequest(source.header.id)))
      && s.LoadDetails().thumbnail == s.LoadThumbnail()
      && s.LoadDetails().id == source.header.id
      && s.LoadDetails().name == source.header.name
      && s.LoadDetails().lastChange == source.header.lastChange
  {
    StoredContents(server, source);
    var ds := ResolveDashlets(server, source).result.value;
    var t := ThumbnailRequest(source.header.id);
    DashletRequestKinds(ds);
    assert t !in DashletRequests(ds);
    assert t !in DetailPoints(source);
    assert StoreDashboard(server, source).trace == DetailPoints(source) + ([t] + DashletRequests(ds));
  }

  /** A dashboard whose dashlets are already known is stored without fetching its details. */
  lemma FullDashboardSkipsDetail(server: Server, source: DashboardSource)
    requires source.FullDashboard?
    ensures DetailRequest(source.header.id) !in StoreDashboard(server, source).trace
  {
    var ds := source.dashlets;
    var c := StoreCaptured(server, source.header, ds);
    CapturedPrefix(server, source.header, ds);
    assert ResolveDashlets(server, source) == Fetched(Ok(ds), []);
    assert StoreDashboard(server, source).trace == [] + c.trace;
    if |c.trace| > 0 {
      var all := [ThumbnailRequest(source.header.id)] + DashletRequests(ds);
      assert c.trace[1..] <= all[1..];
      assert all[1..] == DashletRequests(ds);
      DetailNotContent(ds, c.trace[1..]);
      assert c.trace[0] == ThumbnailRequest(source.header.id);
      assert c.trace == [c.trace[0]] + c.trace[1..];
    }
  }

  /** No content request is a dashboard detail request. */
  lemma {:induction false} DetailNotContent(ds: seq<DashletSource>, prefix: seq<Request>)
    requires prefix <= DashletRequests(ds)
    ensures forall r :: r in prefix ==> !r.endpoint.DashboardDetail?
    decreases |ds|
  {
    if |ds| > 0 && |prefix| > 0 {
      var first := DashletTrace(ds[0]);
      assert DashletRequests(ds) == first + DashletRequests(ds[1..]);
      if |first| == 0 {
        DetailNotContent(ds[1..], prefix);
      } else {
        DetailNotContent(ds[1..], prefix[1..]);
        assert prefix == [prefix[0]] + prefix[1..];
      }
    }
  }
}
