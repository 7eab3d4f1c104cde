/**
 * The remote content source as the storage engine and the table accessor see
 * it: live dashboard, dashlet and view references, the HTTP requests issued
 * against `/api/...`, and the server, modelled as a pure function from request
 * to response. Every fetch an operation performs is recorded in the trace it
 * returns, so "which requests, in which order" is part of each result.
 */
module Remote {
  import opened Wrappers
  import ViewTypes
  import HttpDate

  type Byte = bv8

  /** A structured payload; this core never looks inside one. */
  datatype Json =
    | JNull
    | JBool(b: bool)
    | JNum(n: int)
    | JStr(s: string)
    | JArr(items: seq<Json>)
    | JObj(members: seq<(string, Json)>)

  /** One count of a table's bounds response, as the server sent it. */
  datatype Field = Missing | Num(n: nat) | NonNumeric

  /** The four counts of `/api/reports/views/{id}/table/bounds`. */
  datatype BoundsNode = BoundsNode(
    rowsCount: Field,
    columnsCount: Field,
    topHeaderRowsCount: Field,
    leftHeaderColumnsCount: Field)

  /** A live view reference: its identity is known without a fetch, its content is not. */
  datatype ViewRef = ViewRef(id: string, name: string, viewType: ViewTypes.ViewType)

  /** A live dashlet: static text, or a reference to a view. */
  datatype DashletSource = TextDashlet(text: string) | ViewDashlet(view: ViewRef)

  /** What a dashboard reports about itself without any fetch. */
  datatype Header = Header(id: string, name: string, lastChange: Option<HttpDate.DateTime>)

  /**
   * The object handed to page storage: a full dashboard already carries its
   * dashlet list; a dashboard info has to load its details first.
   */
  datatype DashboardSource =
    | FullDashboard(header: Header, dashlets: seq<DashletSource>)
    | DashboardInfo(header: Header)

  datatype Endpoint =
    | DashboardDetail(dashboardId: string)
    | DashboardThumbnail(dashboardId: string)
    | ViewContent(viewId: string, typeCode: string)
    | TableBounds(viewId: string)
    | TableLeftHeader(viewId: string)
    | TableTopHeader(viewId: string)
    | TableData(viewId: string)

  /** A GET request: an endpoint and its query parameters. */
  datatype Request = Request(endpoint: Endpoint, params: map<string, string>)

  /** The request path of an endpoint. */
  function Path(e: Endpoint): string {
    match e
    case DashboardDetail(id) => "/api/dashboards/" + id
    case DashboardThumbnail(id) => "/api/dashboards/" + id + "/thumbnail"
    case ViewContent(id, code) => "/api/reports/views/" + id + "/" + code
    case TableBounds(id) => "/api/reports/views/" + id + "/table/bounds"
    case TableLeftHeader(id) => "/api/reports/views/" + id + "/table/leftHeader"
    case TableTopHeader(id) => "/api/reports/views/" + id + "/table/topHeader"
    case TableData(id) => "/api/reports/views/" + id + "/table/data"
  }

  /** The paths of a trace, in order: what a request-tracking test server records. */
  function Paths(trace: seq<Request>): (ps: seq<string>)
    ensures |ps| == |trace|
  {
    seq(|trace|, i requires 0 <= i < |trace| => Path(trace[i].endpoint))
  }

  /** A request without query parameters. */
  function Get(e: Endpoint): Request {
    Request(e, map[])
  }

  /** A response body, already decoded by the transport and parsing layers. */
  datatype Body =
    | ImageBody(bytes: seq<Byte>)
    | JsonBody(value: Json)
    | BoundsBody(node: BoundsNode)
    | DetailsBody(dashlets: seq<DashletSource>)

  /** A response: a body, an absent resource, or a transport or protocol failure. */
  datatype Response = Found(body: Body) | NotFound | Failed

  /** The server: what each request would be answered with. */
  type Server = Request -> Response

  datatype Error =
    | InvalidRange            // an argument check failed; nothing was fetched
    | FetchError(request: Request)  // a mandatory fetch failed or was malformed

  /** The result of an operation and the requests it issued, in order. */
  datatype Fetched<T> = Fetched(result: Result<T, Error>, trace: seq<Request>)

  /** Issues one mandatory request whose answer must be a JSON body. */
  function FetchJson(server: Server, req: Request): (o: Fetched<Json>)
    ensures o.trace == [req]
    ensures o.result.Ok? <==> server(req).Found? && server(req).body.JsonBody?
    ensures o.result.Ok? ==> o.result.value == server(req).body.value
    ensures o.result.Err? ==> o.result.error == FetchError(req)
  {
    match server(req)
    case Found(JsonBody(j)) => Fetched(Ok(j), [req])
    case _ => Fetched(Err(FetchError(req)), [req])
  }
}
