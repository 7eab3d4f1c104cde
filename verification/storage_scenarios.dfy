/**
 * The dashboard storage scenarios of the storage tests, stated over any
 * server that answers the requests involved as the test server does.
 */
module StorageScenarios {
  import opened Wrappers
  import ViewTypes
  import HttpDate
  import opened Remote
  import opened Snapshot
  import opened PageStorage
  import ConcurrentStorage

  const Id := "123"
  const Name := "dashboard name"
  const Changed := HttpDate.DateTime(2012, 4, 16, 10, 17, 26)
  const TestHeader := Header(Id, Name, Some(Changed))

  lemma ScenarioPaths()
    ensures Path(DashboardDetail(Id)) == "/api/dashboards/123"
    ensures Path(DashboardThumbnail(Id)) == "/api/dashboards/123/thumbnail"
    ensures Path(ViewContent("viewId", "chart")) == "/api/reports/views/viewId/chart"
  {
  }

  /** The header, the shared thumbnail and the lastChange a stored dashboard reports. */
  predicate ReportsHeader(s: StoredDashboard, thumbnail: Option<seq<Byte>>) {
    && s.id == Id && s.name == Name && s.lastChange == Some(Changed)
    && s.LoadThumbnail() == thumbnail
    && s.LoadDetails().id == Id && s.LoadDetails().name == Name
    && s.LoadDetails().lastChange == Some(Changed)
    && s.LoadDetails().thumbnail == thumbnail
  }

  /** A full dashboard is stored with the thumbnail request only. */
  lemma StoreFullDashboard(server: Server, png: seq<Byte>)
    requires server(ThumbnailRequest(Id)) == Found(ImageBody(png))
    ensures var o := StoreDashboard(server, FullDashboard(TestHeader, []));
      && o.result.Ok?
      && Paths(o.trace) == ["/api/dashboards/123/thumbnail"]
      && ReportsHeader(o.result.value, Some(png))
      && Deserialize(Serialize(o.result.value)) == Some(o.result.value)
  {
    var o := StoreDashboard(server, FullDashboard(TestHeader, []));
    assert o.trace == [ThumbnailRequest(Id)];
    ScenarioPaths();
    assert Paths(o.trace) == [Path(DashboardThumbnail(Id))];
    SerializeRoundTrip(o.result.value);
  }

  /** Without a thumbnail resource the dashboard is still stored, with no thumbnail on either accessor. */
  lemma StoreWithoutThumbnail(server: Server)
    requires server(ThumbnailRequest(Id)) == NotFound
    ensures var o := StoreDashboard(server, FullDashboard(TestHeader, []));
      && o.result.Ok?
      && Paths(o.trace) == ["/api/dashboards/123/thumbnail"]
      && ReportsHeader(o.result.value, None)
      && Deserialize(Serialize(o.result.value)) == Some(o.result.value)
  {
    var o := StoreDashboard(server, FullDashboard(TestHeader, []));
    assert o.trace == [ThumbnailRequest(Id)];
    ScenarioPaths();
    assert Paths(o.trace) == [Path(DashboardThumbnail(Id))];
    SerializeRoundTrip(o.result.value);
  }

  /** A dashboard info is stored with the detail request, then the thumbnail request. */
  lemma StoreDashboardInfo(server: Server, png: seq<Byte>)
    requires server(DetailRequest(Id)) == Found(DetailsBody([]))
    requires server(ThumbnailRequest(Id)) == Found(ImageBody(png))
    ensures var o := StoreDashboard(server, DashboardInfo(TestHeader));
      && o.result.Ok?
      && Paths(o.trace) == ["/api/dashboards/123", "/api/dashboards/123/thumbnail"]
      && ReportsHeader(o.result.value, Some(png))
  {
    var o := StoreDashboard(server, DashboardInfo(TestHeader));
    assert o.trace == [DetailRequest(Id), ThumbnailRequest(Id)];
    ScenarioPaths();
    assert Paths(o.trace) == [Path(DashboardDetail(Id)), Path(DashboardThumbnail(Id))];
  }

  /** A text dashlet is copied verbatim without a request, and survives serialisation. */
  lemma StoreTextDashlet(server: Server, png: seq<Byte>)
    requires server(DetailRequest(Id)) == Found(DetailsBody([TextDashlet("some text")]))
    requires server(ThumbnailRequest(Id)) == Found(ImageBody(png))
    ensures var o := StoreDashboard(server, DashboardInfo(TestHeader));
      && o.result.Ok?
      && Paths(o.trace) == ["/api/dashboards/123", "/api/dashboards/123/thumbnail"]
      && var back := Deserialize(Serialize(o.result.value));
      && back == Some(o.result.value)
      && |back.value.LoadDetails().dashlets| == 1
      && back.value.LoadDetails().dashlets[0].Type() == TextType
      && back.value.LoadDetails().dashlets[0].text == "some text"
  {
    var o := StoreDashboard(server, DashboardInfo(TestHeader));
    assert DashletRequests([TextDashlet("some text")]) == [];
    assert o.trace == [DetailRequest(Id), ThumbnailRequest(Id)];
    ScenarioPaths();
    assert Paths(o.trace) == [Path(DashboardDetail(Id)), Path(DashboardThumbnail(Id))];
    SerializeRoundTrip(o.result.value);
  }

  /** A view dashlet costs one content request after the thumbnail; its stored content is the payload. */
  lemma StoreViewDashlet(server: Server, png: seq<Byte>, payload: Json)
    requires server(DetailRequest(Id)) == Found(DetailsBody([ViewDashlet(ViewRef("viewId", "viewName", ViewTypes.Chart))]))
    requires server(ThumbnailRequest(Id)) == Found(ImageBody(png))
    requires server(Get(ViewContent("viewId", "chart"))) == Found(JsonBody(payload))
    ensures var o := StoreDashboard(server, DashboardInfo(TestHeader));
      && o.result.Ok?
      && Paths(o.trace) == ["/api/dashboards/123", "/api/dashboards/123/thumbnail", "/api/reports/views/viewId/chart"]
      && var back := Deserialize(Serialize(o.result.value));
      && back == Some(o.result.value)
      && |back.value.LoadDetails().dashlets| == 1
      && back.value.LoadDetails().dashlets[0].Type() == ViewType
      && back.value.LoadDetails().dashlets[0].view.id == "viewId"
      && back.value.LoadDetails().dashlets[0].view.LoadContent() == JsonContent(payload)
  {
    var v := ViewRef("viewId", "viewName", ViewTypes.Chart);
    assert ContentRequest(v) == Get(ViewContent("viewId", "chart"));
    var o := StoreDashboard(server, DashboardInfo(TestHeader));
    assert DashletRequests([ViewDashlet(v)]) == [ContentRequest(v)];
    assert o.trace == [DetailRequest(Id), ThumbnailRequest(Id), Get(ViewContent("viewId", "chart"))];
    ScenarioPaths();
    assert Paths(o.trace) == [Path(DashboardDetail(Id)), Path(DashboardThumbnail(Id)), Path(ViewContent("viewId", "chart"))];
    SerializeRoundTrip(o.result.value);
  }

  /**
   * Three view dashlets stored concurrently come back in source order,
   * whichever order their fetches complete in.
   */
  method StoreViewsConcurrently(server: Server, png: seq<Byte>, payload: Json, order: seq<nat>)
    returns (o: Fetched<StoredDashboard>)
    requires server(DetailRequest(Id)) == Found(DetailsBody([
      ViewDashlet(ViewRef("viewId", "viewName", ViewTypes.Chart)),
      ViewDashlet(ViewRef("view2", "viewName", ViewTypes.Chart)),
      ViewDashlet(ViewRef("view3", "viewName", ViewTypes.Chart))]))
    requires server(ThumbnailRequest(Id)) == Found(ImageBody(png))
    requires forall id :: server(Get(ViewContent(id, "chart"))) == Found(JsonBody(payload))
    requires ConcurrentStorage.IsCompletionOrder(order, 4)
    ensures o.result.Ok?
    ensures |o.result.value.LoadDetails().dashlets| == 3
    ensures o.result.value.LoadDetails().dashlets[0].StoredViewDashlet?
      && o.result.value.LoadDetails().dashlets[0].view.id == "viewId"
    ensures o.result.value.LoadDetails().dashlets[1].StoredViewDashlet?
      && o.result.value.LoadDetails().dashlets[1].view.id == "view2"
    ensures o.result.value.LoadDetails().dashlets[2].StoredViewDashlet?
      && o.result.value.LoadDetails().dashlets[2].view.id == "view3"
  {
    var source := DashboardInfo(TestHeader);
    var ds := server(DetailRequest(Id)).body.dashlets;
    assert ResolveDashlets(server, source).result == Ok(ds);
    forall i | 0 <= i < 3
      ensures CaptureDashlet(server, ds[i]).result.Ok?
    {
      assert ContentRequest(ds[i].view) == Get(ViewContent(ds[i].view.id, "chart"));
    }
    o := ConcurrentStorage.StoreDashboard(server, source, order);
    var sequential := PageStorage.StoreDashboard(server, source);
    assert o.result == sequential.result;
    forall i | 0 <= i < 3
      ensures o.result.value.dashlets[i] == CaptureDashlet(server, ds[i]).result.value
    {
      assert Ok(sequential.result.value.dashlets[i]) == CaptureDashlet(server, ds[i]).result;
    }
  }
}
