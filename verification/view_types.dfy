/**
 * The view-type codes the server uses for report views, and which of those
 * view types deliver their content as a plain JSON payload.
 */
module ViewTypes {
  import opened Wrappers

  datatype ViewType = Chart | Kpi | Text | Table

  /** The code that names a view type on the wire and in content paths. */
  function Code(t: ViewType): string {
    match t
    case Chart => "chart"
    case Kpi => "kpi"
    case Text => "text"
    case Table => "table"
  }

  /** Maps a code back to its view type; an unknown code is unsupported (`None`). */
  function ParseViewType(code: string): (r: Option<ViewType>)
    ensures r.Some? ==> Code(r.value) == code
    ensures r.None? ==> forall t: ViewType :: Code(t) != code
  {
    if code == "chart" then Some(Chart)
    else if code == "kpi" then Some(Kpi)
    else if code == "text" then Some(Text)
    else if code == "table" then Some(Table)
    else None
  }

  /** Every view type is recognised from its own code. */
  lemma ParseCode(t: ViewType)
    ensures ParseViewType(Code(t)) == Some(t)
  {
  }

  /**
   * View types whose content is a generic structured payload fetched from
   * `/api/reports/views/{id}/{code}`; a table's content is instead a handle
   * built from its bounds.
   */
  predicate HasJsonContent(t: ViewType) {
    !t.Table?
  }

  /** The JSON-content view types are exactly chart, kpi and text. */
  lemma JsonContentTypes()
    ensures (set t: ViewType | HasJsonContent(t)) == {Chart, Kpi, Text}
  {
    assert HasJsonContent(Chart) && HasJsonContent(Kpi) && HasJsonContent(Text);
  }

  /** The code table the tests use: four supported codes and one unsupported one. */
  lemma CodeTable()
    ensures ParseViewType("chart") == Some(Chart)
    ensures ParseViewType("kpi") == Some(Kpi)
    ensures ParseViewType("text") == Some(Text)
    ensures ParseViewType("table") == Some(Table)
    ensures ParseViewType("unknown type") == None
  {
  }
}
