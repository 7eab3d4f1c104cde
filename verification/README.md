# BellaDati SDK (Android): table ranges, page storage and code tables

A Dafny model of three small parts of the BellaDati Android SDK. The model
follows the behaviour pinned down by the test classes `TableViewsTest`,
`StoreDashboardsTest` and `SDKTest`, and every row below cites the test lines
it states.

- **Table range accessor** (`tables.dfy`). Loading a table view fetches
  `/api/reports/views/{id}/table/bounds` once and normalises the four counts. A
  missing or non-numeric count becomes 0. A header exists iff its count is
  positive. `LoadLeftHeader`, `LoadTopHeader` and `LoadData` check each range
  as `0 <= first <= last < count`. A bad range fails with `InvalidRange` before
  any request. A good range issues exactly one request whose parameters are
  exactly the range keys, and the JSON payload comes back unchanged.
- **Page storage** (`page_storage.dfy`, `concurrent_storage.dfy`,
  `snapshot.dfy`). Storing walks a dashboard and returns an immutable snapshot
  plus the trace of requests issued:
  - the detail fetch, for a dashboard info only;
  - then the thumbnail;
  - then one content request per view dashlet.

  An absent or undecodable thumbnail is stored as "no thumbnail"; only a failed
  fetch is an error. Snapshot accessors are functions of the snapshot alone, so
  reading a stored dashboard, its details, its dashlets or a view's content
  cannot issue a request. Concurrent storage runs the thumbnail unit and the
  dashlet units in an arbitrary completion order. Each unit writes its own
  slot, and the result is assembled by slot index. It equals the sequential
  result whatever the order. A snapshot serialises to a self-contained value
  and reads back unchanged.
- **Code tables** (`view_types.dfy`, `import_intervals.dfy`). The view-type
  codes `chart`/`kpi`/`text`/`table` map to view types, and every other code is
  unsupported. Import-interval codes `UNIT` or `UNIT<n>` map to (unit,
  multiplier) and to minutes = multiplier × the unit's base minutes.
- **Supporting modules:**
  - `decimal.dfy`: decimal rendering and parsing of naturals, as used for query
    parameters and interval suffixes;
  - `http_date.dfy`: the IMF-fixdate form of section 7.1.1.1 of RFC 7231, a
    standalone reading of the text form of a dashboard's `lastChange` (the
    storage model receives `lastChange` already as calendar fields);
  - `remote.dfy`: the requests, the responses, and the server as a pure
    function;
  - `storage_scenarios.dfy`: the storage scenarios of `StoreDashboardsTest`,
    stated for any server that answers the way the test server does.

The tests reject `last == count` for every range query
(`TableViewsTest.java:194-198`, `215-219`, `236-240`, `257-261`), so the model
uses the strict bound `last < count`.

## Model

| member | source | states |
|---|---|---|
| Tables.FromBounds | test/com/belladati/sdk/impl/TableViewsTest.java:67-184 | Row and column counts are copied when numeric and are 0 when missing or non-numeric. Each header is present iff its own count is numeric and positive, independently of the other side. |
| Tables.BoundsExamples | test/com/belladati/sdk/impl/TableViewsTest.java:31-136 | The count cases of the tests: 8×12 with both headers; a missing or a non-numeric row count reads as 0 rows beside 12 columns, and a missing or a non-numeric column count as 12 rows and 0 columns, whatever the header fields hold. |
| Tables.HeaderExamples | test/com/belladati/sdk/impl/TableViewsTest.java:66-184 | The header cases of the tests: a zero, missing or non-numeric header count on one side removes that side's header and keeps the other's. |
| Tables.LoadTable | test/com/belladati/sdk/impl/TableViewsTest.java:31-64 | Loading table content issues exactly one request, to the bounds endpoint. It succeeds iff the answer is a bounds record, and the handle is that record normalised. |
| Tables.LoadLeftHeader | test/com/belladati/sdk/impl/TableViewsTest.java:271-290 | An invalid row range fails with no request. A valid one issues one request to `leftHeader` whose parameters are exactly `rowsFrom`/`rowsTo`, reading back as the two arguments, and its outcome is that of fetching the payload. |
| Tables.LoadTopHeader | test/com/belladati/sdk/impl/TableViewsTest.java:293-312 | The same, for columns, with exactly `columnsFrom`/`columnsTo` on `topHeader`. |
| Tables.LoadData | test/com/belladati/sdk/impl/TableViewsTest.java:315-338 | Rows and columns are checked independently; either bad range fails with no request. Otherwise one request to `data` with exactly the four range parameters, each reading back as its argument. |
| Tables.RangeExamples | test/com/belladati/sdk/impl/TableViewsTest.java:187-268 | On a 10×10 table each bad range of the tests (first < 0, last = count, first > last, for rows and for columns) fails with `InvalidRange` and an empty trace. |
| Tables.DataExample | test/com/belladati/sdk/impl/TableViewsTest.java:315-338 | `loadData(3, 8, 4, 9)` sends exactly `rowsFrom=3, rowsTo=8, columnsFrom=4, columnsTo=9` to `/api/reports/views/id/table/data` and returns the payload. |
| Tables.RangeParamsRoundTrip | test/com/belladati/sdk/impl/TableViewsTest.java:280-283 | A range's parameter map has exactly its two keys, and each reads back as the bound it carries. |
| Decimal.ToDecimal | test/com/belladati/sdk/impl/TableViewsTest.java:281-282 | The decimal text of a number is canonical: digits only, at least one, and no leading zero unless it is `0`. |
| Decimal.ParseNat | test/com/belladati/sdk/impl/TableViewsTest.java:281-282 | A parameter text is read as a number exactly when it is canonical decimal text. |
| Decimal.ParseToDecimal | test/com/belladati/sdk/impl/TableViewsTest.java:281-282 | Parsing the decimal text of a number gives the number back. |
| Decimal.ToDecimalParse | test/com/belladati/sdk/impl/TableViewsTest.java:281-282 | Every text the parser accepts is the decimal rendering of its value, so parameter texts and numbers correspond one to one. |
| Remote.FetchJson | test/com/belladati/sdk/impl/TableViewsTest.java:284-288 | One request. The result is the JSON payload, unchanged, iff the server answers with one; otherwise an error naming the request. |
| ViewTypes.ParseViewType | test/com/belladati/sdk/impl/SDKTest.java:53-68 | A recognised code is the code of the type returned; an unrecognised code is the code of no type. |
| ViewTypes.ParseCode | test/com/belladati/sdk/impl/SDKTest.java:53-57 | Every view type is recognised from its own code. |
| ViewTypes.CodeTable | test/com/belladati/sdk/impl/SDKTest.java:53-68 | `chart`, `kpi`, `text` and `table` map to CHART, KPI, TEXT and TABLE; `unknown type` is unsupported. |
| ViewTypes.JsonContentTypes | test/com/belladati/sdk/impl/SDKTest.java:59-62 | The view types with a plain JSON payload are exactly chart, kpi and text. |
| ImportIntervals.BaseMinutes | test/com/belladati/sdk/impl/SDKTest.java:72-79 | An hour is 60 minutes and a day 24 hours. A week is 7 days, a month 31 days, a quarter 93 days and a year 365 days. |
| ImportIntervals.CodeMinutes | test/com/belladati/sdk/impl/SDKTest.java:72-79 | For every unit and multiplier k ≥ 1, the code reads back as that interval, which lasts k × the unit's minutes: the span of k consecutive units added one by one. |
| ImportIntervals.ParseIntervalCode | test/com/belladati/sdk/impl/SDKTest.java:72-79 | Every interval is read back from its code: the bare unit name for multiplier 1, the name followed by the multiplier otherwise. |
| ImportIntervals.ParseInterval | test/com/belladati/sdk/impl/SDKTest.java:72-79 | Every accepted code names a multiplier of at least 1 and is the code of the interval it reads as, so with `ParseIntervalCode` codes and intervals correspond one to one. |
| ImportIntervals.HourlyIntervalTable | test/com/belladati/sdk/impl/SDKTest.java:72-74 | HOUR, HOUR2, HOUR4 and HOUR8 read as HOUR × 1, 2, 4, 8, lasting 60, 120, 240 and 480 minutes. |
| ImportIntervals.DailyIntervalTable | test/com/belladati/sdk/impl/SDKTest.java:74-76 | DAY, DAY2, WEEK and WEEK2 read as their unit and multiplier, lasting 1440, 2880, 10080 and 20160 minutes. |
| ImportIntervals.CalendarIntervalTable | test/com/belladati/sdk/impl/SDKTest.java:77-79 | MONTH, QUARTER and YEAR read as multiplier 1, lasting 44640, 133920 and 525600 minutes. |
| HttpDate.Parse | test/com/belladati/sdk/impl/StoreDashboardsTest.java:43 | Only text of the fixdate layout that names a real instant is accepted. |
| HttpDate.ParseFormat | test/com/belladati/sdk/impl/StoreDashboardsTest.java:43 | Rendering any valid instant (with its true day name) and parsing it back gives the same calendar fields. |
| HttpDate.ParseLayout | test/com/belladati/sdk/impl/StoreDashboardsTest.java:43 | Every accepted text is the fixdate layout of its own day name, the month and the digits of the fields it is read as, and it is exactly the rendering of those fields when its day name is the true one. |
| HttpDate.LastChangeExample | test/com/belladati/sdk/impl/StoreDashboardsTest.java:111-114 | `Mon, 16 Apr 2012 10:17:26 GMT` is 16 April 2012, 10:17:26 GMT (Java's month 3 is April). |
| PageStorage.LoadViewContent | test/com/belladati/sdk/impl/TableViewsTest.java:31-64 | A JSON view's content is one fetch of `/api/reports/views/{id}/{code}`, and a table view's is one bounds fetch. It succeeds iff the answer has the right shape. |
| PageStorage.ContentRequestPath | test/com/belladati/sdk/impl/StoreDashboardsTest.java:178-183 | A chart, kpi or text view's content request goes to `/api/reports/views/{id}/{code}`, and a table's to its bounds. |
| PageStorage.CaptureDashlet | test/com/belladati/sdk/impl/StoreDashboardsTest.java:139-193 | A text dashlet is copied verbatim with no request. A view dashlet issues exactly its content request. It is stored with the view's id, name, type and the fetched content, or fails naming that request. |
| PageStorage.DashletRequestsCount | test/com/belladati/sdk/impl/StoreDashboardsTest.java:139-183 | The dashlet requests number exactly the view dashlets. |
| PageStorage.Assemble | test/com/belladati/sdk/impl/StoreDashboardsTest.java:234-238 | Per-slot outcomes assemble to all values in slot order iff every slot succeeded. Otherwise the result is the error of the lowest failing slot. |
| PageStorage.StoreDashlets | test/com/belladati/sdk/impl/StoreDashboardsTest.java:139-194 | On success the trace is every dashlet's requests in order. It is always a prefix of that, and on failure it ends with the failing request. |
| PageStorage.StoreDashletsAssemble | test/com/belladati/sdk/impl/StoreDashboardsTest.java:139-194 | Capturing dashlets in sequence gives the assembly of capturing each one on its own: the first failure, or every captured dashlet in source order. |
| PageStorage.ResolveDashlets | test/com/belladati/sdk/impl/StoreDashboardsTest.java:49-73 | A full dashboard needs no request. A dashboard info issues exactly the detail request and yields the dashlets it answers with. |
| PageStorage.CaptureThumbnail | test/com/belladati/sdk/impl/StoreDashboardsTest.java:92-102 | Exactly one thumbnail request. The thumbnail is present iff an image came back; a missing resource is no thumbnail and no error; only a failed fetch is an error. |
| PageStorage.StoreDashboard | test/com/belladati/sdk/impl/StoreDashboardsTest.java:49-73 | On success the trace is the capture points: detail (dashboard info only), thumbnail, then one content request per view dashlet. On failure it ends with the failing request. |
| PageStorage.StoredContents | test/com/belladati/sdk/impl/StoreDashboardsTest.java:104-135 | A stored dashboard carries the source's id, name and lastChange, and the thumbnail the one fetch denotes. Each resolved dashlet appears in order as captured on its own. |
| PageStorage.StoreSucceeds | test/com/belladati/sdk/impl/StoreDashboardsTest.java:92-102 | Storing succeeds iff the dashlets resolve, the thumbnail fetch does not fail, and every dashlet captures. An absent thumbnail does not fail storage. |
| PageStorage.FullDashboardSkipsDetail | test/com/belladati/sdk/impl/StoreDashboardsTest.java:49-59 | Storing a full dashboard never issues the detail request. |
| PageStorage.StoredThumbnailShared | test/com/belladati/sdk/impl/StoreDashboardsTest.java:104-135 | A successful storage fetches the thumbnail exactly once. The stored dashboard and its details both report that one thumbnail, and the details report the source's id, name and lastChange. |
| Snapshot.SerializeRoundTrip | test/com/belladati/sdk/impl/StoreDashboardsTest.java:75-89 | Deserialising a serialised stored dashboard gives back the same dashboard: header, thumbnail (an absent one stays absent), and every dashlet with its content. |
| Snapshot.DashletsRoundTrip | test/com/belladati/sdk/impl/StoreDashboardsTest.java:151-159 | A dashlet list, text and views with captured content, survives serialisation unchanged. |
| Snapshot.BytesRoundTrip | test/com/belladati/sdk/impl/StoreDashboardsTest.java:76-89 | The thumbnail's bytes survive serialisation unchanged. |
| ConcurrentStorage.RunUnits | test/com/belladati/sdk/impl/StoreDashboardsTest.java:197-238 | For any completion order of the units, once all have run, the thumbnail slot and every dashlet slot hold what capturing them on their own yields. The requests are each unit's, in completion order. |
| ConcurrentStorage.StoreDashboard | test/com/belladati/sdk/impl/StoreDashboardsTest.java:230-238 | For any completion order, concurrent storage returns exactly the sequential result, so dashlets stay in source order. The requests are the resolve request, then the units' requests in completion order. |
| ConcurrentStorage.CompletionTraceIsCapturePoints | test/com/belladati/sdk/impl/StoreDashboardsTest.java:212-230 | Whatever the completion order, the concurrent units issue the same requests as sequential storage, each as many times (equal multisets): the thumbnail and one content request per view dashlet. |
| StorageScenarios.StoreFullDashboard | test/com/belladati/sdk/impl/StoreDashboardsTest.java:49-59 | A full dashboard with a thumbnail is stored with the thumbnail path only. It reports the header and thumbnail on itself and on its details, and survives serialisation. |
| StorageScenarios.StoreWithoutThumbnail | test/com/belladati/sdk/impl/StoreDashboardsTest.java:92-102 | Without a thumbnail resource the dashboard is still stored, after the one thumbnail request, with no thumbnail on either accessor. |
| StorageScenarios.StoreDashboardInfo | test/com/belladati/sdk/impl/StoreDashboardsTest.java:62-73 | A dashboard info is stored with the detail path, then the thumbnail path, and reports the header and thumbnail. |
| StorageScenarios.StoreTextDashlet | test/com/belladati/sdk/impl/StoreDashboardsTest.java:139-162 | A text dashlet adds no request. After serialisation it is the one dashlet, of type TEXT, with its text verbatim. |
| StorageScenarios.StoreViewDashlet | test/com/belladati/sdk/impl/StoreDashboardsTest.java:165-194 | A chart dashlet adds exactly `/api/reports/views/viewId/chart` after the thumbnail. After serialisation it is the one dashlet, of type VIEW, with the same view id and the fetched payload as content. |
| StorageScenarios.StoreViewsConcurrently | test/com/belladati/sdk/impl/StoreDashboardsTest.java:197-238 | Three chart dashlets stored concurrently, in any completion order, come back as views `viewId`, `view2`, `view3` in source order. |

## Left out

- The HTTP adapter and OAuth consumer (`BellaDatiHttpRequestAdapter`, `BellaDatiOAuthConsumer`) are left out. They are thin wrappers over foreign HTTP and signing libraries.
- Bitmap decoding is left out. A thumbnail is its raw bytes, and the 56×46 dimensions belong to a resource image. An image body counts as decodable and any other body as not.
- The wall-clock speedup of concurrent storage, threads and the executor are left out (`StoreDashboardsTest.java:210-241`). Concurrency is a completion-order parameter; timing is not modelled.
- The test server's lifecycle and the locale reset (`SDKTest.java:33-51`) are I/O and global state.
- JSON parsing is left out. Responses arrive already decoded, bounds fields are `Missing | Num | NonNumeric`, and payloads are an uninterpreted JSON value.
- The Java serialisation byte format is left out. Serialisation targets the model's own JSON value, and only the round trip is stated.
- Time-zone and epoch conversion of `lastChange` are left out; the model stops at the GMT calendar fields.
- Tables.FromBounds: counts are unbounded naturals, not Java `int`s, because the tests never approach the bounds.
- ImportIntervals.Minutes: minutes are unbounded, not a Java `int`, because the largest table entry is 525600.
- ImportIntervals.ParseInterval: accepts every unit name followed by any canonical multiplier of at least 2 (so `DAY3` is read as three days). The enum's exact set of codes is not part of this model; the tests show eleven codes and the table lemmas pin those down.
- HttpDate.Parse: accepts only the strict fixdate layout. It does not check the day name against the date, and it rejects the obsolete RFC 850 and asctime forms and leap second 60.
- ViewTypes.ParseViewType: codes are matched exactly, without case folding.
- PageStorage.StoredContents: a dashboard info's stored id, name and lastChange come from the info object, not from the detail answer. A detail answer is modelled as its dashlet list only. The storage tests register the same JSON for both (`StoreDashboardsTest.java:63-66`), so they do not tell the two sources apart.
- ConcurrentStorage.StoreDashboard: when several units fail, the error reported is that of the lowest failing slot, which is what sequential storage reports. Which failure a threaded run observes first is not modelled.
- Stored table views keep their table handle as content, and its range queries stay live. The storage tests store only JSON views.
