/**
 * The table range accessor: the content of a table view is a handle that
 * knows the table's dimensions from one bounds fetch, and answers windowed
 * queries for the left header, the top header and the data cells with one
 * fresh fetch per call, after checking the requested range.
 */
module Tables {
  import opened Wrappers
  import opened Decimal
  import opened Remote

  /** A table handle: the view it belongs to and its normalised bounds. */
  datatype Table = Table(
    viewId: string,
    rowCount: nat,
    columnCount: nat,
    leftHeaderColumnCount: nat,
    topHeaderRowCount: nat)
  {
    predicate HasLeftHeader() { leftHeaderColumnCount > 0 }
    predicate HasTopHeader() { topHeaderRowCount > 0 }
  }

  /** A count as the table reports it: a missing or non-numeric field counts as 0. */
  function Count(f: Field): nat {
    if f.Num? then f.n else 0
  }

  /** Builds the handle of view `viewId` from its bounds response. */
  function FromBounds(viewId: string, node: BoundsNode): (t: Table)
    ensures t.viewId == viewId
    ensures t.rowCount == (if node.rowsCount.Num? then node.rowsCount.n else 0)
    ensures t.columnCount == (if node.columnsCount.Num? then node.columnsCount.n else 0)
    ensures t.HasLeftHeader() <==> node.leftHeaderColumnsCount.Num? && node.leftHeaderColumnsCount.n > 0
    ensures t.HasTopHeader() <==> node.topHeaderRowsCount.Num? && node.topHeaderRowsCount.n > 0
  {
    Table(viewId, Count(node.rowsCount), Count(node.columnsCount),
          Count(node.leftHeaderColumnsCount), Count(node.topHeaderRowsCount))
  }

  /** Loading a table view's content: exactly one request, to its bounds. */
  function LoadTable(server: Server, viewId: string): (o: Fetched<Table>)
    ensures o.trace == [Get(TableBounds(viewId))]
    ensures o.result.Ok? <==> server(Get(TableBounds(viewId))).Found? && server(Get(TableBounds(viewId))).body.BoundsBody?
    ensures o.result.Ok? ==> o.result.value == FromBounds(viewId, server(Get(TableBounds(viewId))).body.node)
    ensures o.result.Err? ==> o.result.error == FetchError(Get(TableBounds(viewId)))
  {
    var req := Get(TableBounds(viewId));
    match server(req)
    case Found(BoundsBody(node)) => Fetched(Ok(FromBounds(viewId, node)), [req])
    case _ => Fetched(Err(FetchError(req)), [req])
  }

  /** The range check of every windowed query: `0 <= first <= last < count`. */
  predicate ValidRange(first: int, last: int, count: nat) {
    0 <= first && first <= last && last < count
  }

  /** The integer value of query parameter `key`, as the server reads it. */
  function ParamValue(params: map<string, string>, key: string): (r: Option<nat>)
    ensures r.Some? ==> key in params && ToDecimal(r.value) == params[key]
  {
    if key in params then
      match ParseNat(params[key])
      case Some(n) => ToDecimalParse(params[key]); Some(n)
      case None => None
    else None
  }

  function RangeParams(fromKey: string, toKey: string, first: nat, last: nat): map<string, string> {
    map[fromKey := ToDecimal(first), toKey := ToDecimal(last)]
  }

  /** The parameters of a range are exactly its two keys, and they carry the two bounds. */
  lemma RangeParamsRoundTrip(fromKey: string, toKey: string, first: nat, last: nat)
    requires fromKey != toKey
    ensures RangeParams(fromKey, toKey, first, last).Keys == {fromKey, toKey}
    ensures ParamValue(RangeParams(fromKey, toKey, first, last), fromKey) == Some(first)
    ensures ParamValue(RangeParams(fromKey, toKey, first, last), toKey) == Some(last)
  {
    ParseToDecimal(first);
    ParseToDecimal(last);
  }

  /** Loads header cells of rows `firstRow..lastRow` (inclusive). */
  function LoadLeftHeader(server: Server, t: Table, firstRow: int, lastRow: int): (o: Fetched<Json>)
    ensures !ValidRange(firstRow, lastRow, t.rowCount) ==> o == Fetched(Err(InvalidRange), [])
    ensures ValidRange(firstRow, lastRow, t.rowCount) ==>
      && |o.trace| == 1
      && o.trace[0].endpoint == TableLeftHeader(t.viewId)
      && o.trace[0].params.Keys == {"rowsFrom", "rowsTo"}
      && ParamValue(o.trace[0].params, "rowsFrom") == Some(firstRow)
      && ParamValue(o.trace[0].params, "rowsTo") == Some(lastRow)
      && o == FetchJson(server, o.trace[0])
  {
    if !ValidRange(firstRow, lastRow, t.rowCount) then Fetched(Err(InvalidRange), [])
    else
      RangeParamsRoundTrip("rowsFrom", "rowsTo", firstRow, lastRow);
      FetchJson(server, Request(TableLeftHeader(t.viewId), RangeParams("rowsFrom", "rowsTo", firstRow, lastRow)))
  }

  /** Loads header cells of columns `firstColumn..lastColumn` (inclusive). */
  function LoadTopHeader(server: Server, t: Table, firstColumn: int, lastColumn: int): (o: Fetched<Json>)
    ensures !ValidRange(firstColumn, lastColumn, t.columnCount) ==> o == Fetched(Err(InvalidRange), [])
    ensures ValidRange(firstColumn, lastColumn, t.columnCount) ==>
      && |o.trace| == 1
      && o.trace[0].endpoint == TableTopHeader(t.viewId)
      && o.trace[0].params.Keys == {"columnsFrom", "columnsTo"}
      && ParamValue(o.trace[0].params, "columnsFrom") == Some(firstColumn)
      && ParamValue(o.trace[0].params, "columnsTo") == Some(lastColumn)
      && o == FetchJson(server, o.trace[0])
  {
    if !ValidRange(firstColumn, lastColumn, t.columnCount) then Fetched(Err(InvalidRange), [])
    else
      RangeParamsRoundTrip("columnsFrom", "columnsTo", firstColumn, lastColumn);
      FetchJson(server, Request(TableTopHeader(t.viewId), RangeParams("columnsFrom", "columnsTo", firstColumn, lastColumn)))
  }

  /** Loads the data cells of a rectangle; rows and columns are checked independently. */
  function LoadData(server: Server, t: Table, firstRow: int, lastRow: int, firstColumn: int, lastColumn: int): (o: Fetched<Json>)
    ensures !ValidRange(firstRow, lastRow, t.rowCount) || !ValidRange(firstColumn, lastColumn, t.columnCount)
      ==> o == Fetched(Err(InvalidRange), [])
    ensures ValidRange(firstRow, lastRow, t.rowCount) && ValidRange(firstColumn, lastColumn, t.columnCount) ==>
      && |o.trace| == 1
      && o.trace[0].endpoint == TableData(t.viewId)
      && o.trace[0].params.Keys == {"rowsFrom", "rowsTo", "columnsFrom", "columnsTo"}
      && ParamValue(o.trace[0].params, "rowsFrom") == Some(firstRow)
      && ParamValue(o.trace[0].params, "rowsTo") == Some(lastRow)
      && ParamValue(o.trace[0].params, "columnsFrom") == Some(firstColumn)
      && ParamValue(o.trace[0].params, "columnsTo") == Some(lastColumn)
      && o == FetchJson(server, o.trace[0])
  {
    if !ValidRange(firstRow, lastRow, t.rowCount) || !ValidRange(firstColumn, lastColumn, t.columnCount) then
      Fetched(Err(InvalidRange), [])
    else
      var rows := RangeParams("rowsFrom", "rowsTo", firstRow, lastRow);
      var columns := RangeParams("columnsFrom", "columnsTo", firstColumn, lastColumn);
      RangeParamsRoundTrip("rowsFrom", "rowsTo", firstRow, lastRow);
      RangeParamsRoundTrip("columnsFrom", "columnsTo", firstColumn, lastColumn);
      FetchJson(server, Request(TableData(t.viewId), rows + columns))
  }

  /**
   * The count cases of the table tests: numeric counts are taken verbatim,
   * a missing or non-numeric one is 0, whatever the header fields hold.
   */
  lemma BoundsExamples(top: Field, left: Field)
    ensures var t := FromBounds("id", BoundsNode(Num(8), Num(12), Num(2), Num(2)));
      t.rowCount == 8 && t.columnCount == 12 && t.HasLeftHeader() && t.HasTopHeader()
    ensures var t := FromBounds("id", BoundsNode(Missing, Num(12), top, left));
      t.rowCount == 0 && t.columnCount == 12
    ensures var t := FromBounds("id", BoundsNode(Num(12), Missing, top, left));
      t.rowCount == 12 && t.columnCount == 0
    ensures var t := FromBounds("id", BoundsNode(NonNumeric, Num(12), top, left));
      t.rowCount == 0 && t.columnCount == 12
    ensures var t := FromBounds("id", BoundsNode(Num(12), NonNumeric, top, left));
      t.rowCount == 12 && t.columnCount == 0
  {
  }

  /** The header cases of the table tests: a side has a header only when its own count is a positive number. */
  lemma HeaderExamples()
    ensures var t := FromBounds("id", BoundsNode(Num(10), Num(12), Num(2), Num(0)));
      t.HasTopHeader() && !t.HasLeftHeader()
    ensures var t := FromBounds("id", BoundsNode(Num(10), Num(12), Num(0), Num(2)));
      !t.HasTopHeader() && t.HasLeftHeader()
    ensures var t := FromBounds("id", BoundsNode(Num(10), Num(12), Missing, Num(2)));
      !t.HasTopHeader() && t.HasLeftHeader()
    ensures var t := FromBounds("id", BoundsNode(Num(12), Num(10), Num(2), Missing));
      t.HasTopHeader() && !t.HasLeftHeader()
    ensures var t := FromBounds("id", BoundsNode(Num(10), Num(12), NonNumeric, Num(2)));
      !t.HasTopHeader() && t.HasLeftHeader()
    ensures var t := FromBounds("id", BoundsNode(Num(12), Num(10), Num(2), NonNumeric));
      t.HasTopHeader() && !t.HasLeftHeader()
  {
  }

  /** The range cases of the table tests on a 10 x 10 table: each bad range fails before any fetch. */
  lemma RangeExamples(server: Server)
    ensures var t := Table("id", 10, 10, 0, 0);
      && LoadLeftHeader(server, t, -1, 3) == Fetched(Err(InvalidRange), [])
      && LoadLeftHeader(server, t, 3, 10) == Fetched(Err(InvalidRange), [])
      && LoadLeftHeader(server, t, 5, 3) == Fetched(Err(InvalidRange), [])
      && LoadTopHeader(server, t, -1, 3) == Fetched(Err(InvalidRange), [])
      && LoadTopHeader(server, t, 3, 10) == Fetched(Err(InvalidRange), [])
      && LoadTopHeader(server, t, 5, 3) == Fetched(Err(InvalidRange), [])
      && LoadData(server, t, -1, 3, 3, 3) == Fetched(Err(InvalidRange), [])
      && LoadData(server, t, 3, 10, 3, 3) == Fetched(Err(InvalidRange), [])
      && LoadData(server, t, 5, 3, 3, 3) == Fetched(Err(InvalidRange), [])
      && LoadData(server, t, 3, 3, -1, 3) == Fetched(Err(InvalidRange), [])
      && LoadData(server, t, 3, 3, 3, 10) == Fetched(Err(InvalidRange), [])
      && LoadData(server, t, 3, 3, 5, 3) == Fetched(Err(InvalidRange), [])
  {
  }

  /** The one request of the data query `loadData(3, 8, 4, 9)`, written out. */
  lemma DataExampleRequest(server: Server)
    ensures LoadData(server, Table("id", 10, 10, 2, 2), 3, 8, 4, 9).trace
         == [Request(TableData("id"), map["rowsFrom" := "3", "rowsTo" := "8", "columnsFrom" := "4", "columnsTo" := "9"])]
  {
    var o := LoadData(server, Table("id", 10, 10, 2, 2), 3, 8, 4, 9);
    var p := o.trace[0].params;
    var m := map["rowsFrom" := "3", "rowsTo" := "8", "columnsFrom" := "4", "columnsTo" := "9"];
    assert ToDecimal(3) == "3" && ToDecimal(8) == "8" && ToDecimal(4) == "4" && ToDecimal(9) == "9";
    assert p["rowsFrom"] == "3" && p["rowsTo"] == "8" && p["columnsFrom"] == "4" && p["columnsTo"] == "9";
    assert p.Keys == m.Keys;
    assert p == m;
  }

  /** A valid data query on a 10 x 10 table sends the four bounds and returns the payload unchanged. */
  lemma DataExample(server: Server, payload: Json)
    requires forall ps :: server(Request(TableData("id"), ps)) == Found(JsonBody(payload))
    ensures var o := LoadData(server, Table("id", 10, 10, 2, 2), 3, 8, 4, 9);
      && o.result == Ok(payload)
      && |o.trace| == 1
      && Path(o.trace[0].endpoint) == "/api/reports/views/id/table/data"
      && o.trace[0].params == map["rowsFrom" := "3", "rowsTo" := "8", "columnsFrom" := "4", "columnsTo" := "9"]
  {
    DataExampleRequest(server);
    var o := LoadData(server, Table("id", 10, 10, 2, 2), 3, 8, 4, 9);
    assert server(o.trace[0]) == Found(JsonBody(payload));
  }
}
