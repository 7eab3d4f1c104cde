/**
 * The snapshot graph page storage produces: an immutable dashboard, its
 * details, its dashlets and their views, holding only captured data. Its
 * accessors are functions of the snapshot alone (they take no server), so
 * reading a snapshot can never issue a request. A snapshot can be serialised
 * into a self-contained value and read back.
 */
module Snapshot {
  import opened Wrappers
  import ViewTypes
  import HttpDate
  import opened Remote
  import opened Tables

  /** The captured content of a view: a JSON payload, or a table handle (its ranges stay live). */
  datatype ViewContent = JsonContent(json: Json) | TableContent(table: Table)

  datatype StoredView = StoredView(id: string, name: string, viewType: ViewTypes.ViewType, content: ViewContent)
  {
    /** The captured content, answered from memory. */
    function LoadContent(): ViewContent { content }
  }

  datatype DashletType = TextType | ViewType

  datatype StoredDashlet = StoredText(text: string) | StoredViewDashlet(view: StoredView)
  {
    /** The type tag follows the shape of the content. */
    function Type(): DashletType {
      if StoredText? then TextType else ViewType
    }
  }

  datatype StoredDetails = StoredDetails(
    id: string,
    name: string,
    lastChange: Option<HttpDate.DateTime>,
    thumbnail: Option<seq<Byte>>,
    dashlets: seq<StoredDashlet>)

  /** A stored dashboard: header, the one captured thumbnail, and the captured dashlets. */
  datatype StoredDashboard = StoredDashboard(
    id: string,
    name: string,
    lastChange: Option<HttpDate.DateTime>,
    thumbnail: Option<seq<Byte>>,
    dashlets: seq<StoredDashlet>)
  {
    function LoadThumbnail(): Option<seq<Byte>> { thumbnail }

    /** The details of a stored dashboard share its header and its one captured thumbnail. */
    function LoadDetails(): StoredDetails {
      StoredDetails(id, name, lastChange, thumbnail, dashlets)
    }
  }

  // Serialisation: every snapshot node becomes a tagged JSON array.

  function EncodeDate(d: HttpDate.DateTime): Json {
    JArr([JNum(d.year), JNum(d.month), JNum(d.day), JNum(d.hour), JNum(d.minute), JNum(d.second)])
  }

  function DecodeNat(j: Json): (r: Option<nat>)
    ensures r.Some? ==> j == JNum(r.value)
  {
    if j.JNum? && j.n >= 0 then Some(j.n) else None
  }

  function DecodeDate(j: Json): Option<HttpDate.DateTime> {
    if j.JArr? && |j.items| == 6 then
      var f := j.items;
      if DecodeNat(f[0]).Some? && DecodeNat(f[1]).Some? && DecodeNat(f[2]).Some?
         && DecodeNat(f[3]).Some? && DecodeNat(f[4]).Some? && DecodeNat(f[5]).Some?
      then Some(HttpDate.DateTime(f[0].n, f[1].n, f[2].n, f[3].n, f[4].n, f[5].n))
      else None
    else None
  }

  function EncodeBytes(bs: seq<Byte>): (j: seq<Json>)
    ensures |j| == |bs|
  {
    seq(|bs|, i requires 0 <= i < |bs| => JNum(bs[i] as int))
  }

  function DecodeBytes(js: seq<Json>): (r: Option<seq<Byte>>)
    ensures r.Some? ==> |r.value| == |js|
    decreases |js|
  {
    if |js| == 0 then Some([])
    else if js[0].JNum? && 0 <= js[0].n < 256 then
      match DecodeBytes(js[1..])
      case Some(rest) => Some([js[0].n as Byte] + rest)
      case None => None
    else None
  }

  function EncodeThumbnail(t: Option<seq<Byte>>): Json {
    match t
    case None => JNull
    case Some(bs) => JArr(EncodeBytes(bs))
  }

  function DecodeThumbnail(j: Json): Option<Option<seq<Byte>>> {
    if j.JNull? then Some(None)
    else if j.JArr? then
      match DecodeBytes(j.items)
      case Some(bs) => Some(Some(bs))
      case None => None
    else None
  }

  function EncodeLastChange(d: Option<HttpDate.DateTime>): Json {
    match d
    case None => JNull
    case Some(v) => EncodeDate(v)
  }

  function DecodeLastChange(j: Json): Option<Option<HttpDate.DateTime>> {
    if j.JNull? then Some(None)
    else match DecodeDate(j)
      case Some(d) => Some(Some(d))
      case None => None
  }

  function EncodeContent(c: ViewContent): Json {
    match c
    case JsonContent(j) => JArr([JStr("json"), j])
    case TableContent(t) =>
      JArr([JStr("table"), JStr(t.viewId), JNum(t.rowCount), JNum(t.columnCount),
            JNum(t.leftHeaderColumnCount), JNum(t.topHeaderRowCount)])
  }

  function DecodeContent(j: Json): Option<ViewContent> {
    if j.JArr? && |j.items| == 2 && j.items[0] == JStr("json") then Some(JsonContent(j.items[1]))
    else if j.JArr? && |j.items| == 6 && j.items[0] == JStr("table") && j.items[1].JStr?
         && DecodeNat(j.items[2]).Some? && DecodeNat(j.items[3]).Some?
         && DecodeNat(j.items[4]).Some? && DecodeNat(j.items[5]).Some?
    then Some(TableContent(Table(j.items[1].s, j.items[2].n, j.items[3].n, j.items[4].n, j.items[5].n)))
    else None
  }

  function EncodeDashlet(d: StoredDashlet): Json {
    match d
    case StoredText(text) => JArr([JStr("text"), JStr(text)])
    case StoredViewDashlet(v) =>
      JArr([JStr("view"), JStr(v.id), JStr(v.name), JStr(ViewTypes.Code(v.viewType)), EncodeContent(v.content)])
  }

  function DecodeDashlet(j: Json): Option<StoredDashlet> {
    if j.JArr? && |j.items| == 2 && j.items[0] == JStr("text") && j.items[1].JStr? then
      Some(StoredText(j.items[1].s))
    else if j.JArr? && |j.items| == 5 && j.items[0] == JStr("view")
         && j.items[1].JStr? && j.items[2].JStr? && j.items[3].JStr? then
      match (ViewTypes.ParseViewType(j.items[3].s), DecodeContent(j.items[4]))
      case (Some(t), Some(c)) => Some(StoredViewDashlet(StoredView(j.items[1].s, j.items[2].s, t, c)))
      case _ => None
    else None
  }

  function EncodeDashlets(ds: seq<StoredDashlet>): (js: seq<Json>)
    ensures |js| == |ds|
  {
    seq(|ds|, i requires 0 <= i < |ds| => EncodeDashlet(ds[i]))
  }

  function DecodeDashlets(js: seq<Json>): (r: Option<seq<StoredDashlet>>)
    ensures r.Some? ==> |r.value| == |js|
    decreases |js|
  {
    if |js| == 0 then Some([])
    else match (DecodeDashlet(js[0]), DecodeDashlets(js[1..]))
      case (Some(d), Some(rest)) => Some([d] + rest)
      case _ => None
  }

  /** The serialised form of a stored dashboard: it holds no live reference. */
  function Serialize(s: StoredDashboard): Json {
    JArr([JStr(s.id), JStr(s.name), EncodeLastChange(s.lastChange),
          EncodeThumbnail(s.thumbnail), JArr(EncodeDashlets(s.dashlets))])
  }

  /** Reads a serialised stored dashboard back; a value of any other shape is rejected. */
  function Deserialize(j: Json): Option<StoredDashboard> {
    if j.JArr? && |j.items| == 5 && j.items[0].JStr? && j.items[1].JStr? && j.items[4].JArr? then
      match (DecodeLastChange(j.items[2]), DecodeThumbnail(j.items[3]), DecodeDashlets(j.items[4].items))
      case (Some(c), Some(t), Some(ds)) => Some(StoredDashboard(j.items[0].s, j.items[1].s, c, t, ds))
      case _ => None
    else None
  }

  lemma {:induction false} BytesRoundTrip(bs: seq<Byte>)
    ensures DecodeBytes(EncodeBytes(bs)) == Some(bs)
    decreases |bs|
  {
    if |bs| > 0 {
      assert EncodeBytes(bs)[1..] == EncodeBytes(bs[1..]);
      BytesRoundTrip(bs[1..]);
      assert bs == [bs[0]] + bs[1..];
    }
  }

  lemma DashletRoundTrip(d: StoredDashlet)
    ensures DecodeDashlet(EncodeDashlet(d)) == Some(d)
  {
    if d.StoredViewDashlet? {
      ViewTypes.ParseCode(d.view.viewType);
    }
  }

  lemma {:induction false} DashletsRoundTrip(ds: seq<StoredDashlet>)
    ensures DecodeDashlets(EncodeDashlets(ds)) == Some(ds)
    decreases |ds|
  {
    if |ds| > 0 {
      assert EncodeDashlets(ds)[1..] == EncodeDashlets(ds[1..]);
      DashletRoundTrip(ds[0]);
      DashletsRoundTrip(ds[1..]);
      assert ds == [ds[0]] + ds[1..];
    }
  }

  /**
   * Serialising and deserialising a stored dashboard gives back the same
   * dashboard: header, thumbnail (an absent one stays absent), and every
   * dashlet with its captured content.
   */
  lemma SerializeRoundTrip(s: StoredDashboard)
    ensures Deserialize(Serialize(s)) == Some(s)
  {
    DashletsRoundTrip(s.dashlets);
    ThumbnailRoundTrip(s.thumbnail);
    LastChangeRoundTrip(s.lastChange);
  }

  lemma ThumbnailRoundTrip(t: Option<seq<Byte>>)
    ensures DecodeThumbnail(EncodeThumbnail(t)) == Some(t)
  {
    if t.Some? {
      BytesRoundTrip(t.value);
    }
  }

  lemma LastChangeRoundTrip(d: Option<HttpDate.DateTime>)
    ensures DecodeLastChange(EncodeLastChange(d)) == Some(d)
  {
  }
}
