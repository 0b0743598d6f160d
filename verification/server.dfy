/** The two request handlers: the page at `/` that shows the filtered table and
    the download at `/descargar` that returns it as a spreadsheet attachment.
    Both run the same pipeline: check the selection, load, coerce, mask. */
module Server {
  import opened Wrappers
  import opened Seqs
  import opened Enumerator
  import opened DateFilter

  /** A loaded sheet: its column names and its rows. */
  datatype Sheet = Sheet(columns: seq<string>, rows: seq<RawRow>)

  /** The three form fields; a field the request does not carry is `None`. */
  datatype Form = Form(archivo: Option<string>, fechaInicio: Option<string>, fechaFin: Option<string>)

  /** Result of the shared pipeline: the selection is not offered, something
      raised while loading or filtering, or the filtered table. */
  datatype Outcome = InvalidSelection | Failed | Filtered(columns: seq<string>, rows: seq<Row>)

  type Bytes = seq<bv8>

  const DownloadPrefix: string := "filtrado_"
  const XlsxMimetype: string := "application/vnd.openxmlformats-officedocument.spreadsheetml.sheet"

  /** The selection is one of the spreadsheets currently enumerated. */
  predicate Selectable(listing: seq<DirEntry>, selection: Option<string>)
  {
    selection.Some? && selection.value in ListExcels(listing)
  }

  /** What a request yields, stated against the inclusive date range. `load`
      stands for reading the first sheet (`None`: reading raised); `parse` for
      date parsing (`None`: the text is not a date). */
  function Pipeline(listing: seq<DirEntry>, form: Form, load: string -> Option<Sheet>,
                    parse: string -> Option<Date>): (out: Outcome)
    ensures out.InvalidSelection? <==> !Selectable(listing, form.archivo)
    ensures out.Failed? <==>
      && Selectable(listing, form.archivo)
      && (|| load(form.archivo.value).None?
          || load(form.archivo.value).value.columns == []
          || ReadBound(form.fechaInicio, parse).Malformed?
          || ReadBound(form.fechaFin, parse).Malformed?)
    ensures out.Filtered? ==>
      var sheet := load(form.archivo.value).value;
      var coerced := Coerce(sheet.rows, parse);
      var lower := Limit(ReadBound(form.fechaInicio, parse));
      var upper := Limit(ReadBound(form.fechaFin, parse));
      && out.columns == sheet.columns
      && Subsequence(out.rows, coerced)
      && (forall i :: 0 <= i < |out.rows| ==> Admits(lower, upper, out.rows[i]))
      && (forall i :: 0 <= i < |coerced| && Admits(lower, upper, coerced[i]) ==> coerced[i] in out.rows)
      && (forall x :: multiset(out.rows)[x] == if Admits(lower, upper, x) then multiset(coerced)[x] else 0)
  {
    if !Selectable(listing, form.archivo) then InvalidSelection
    else match load(form.archivo.value)
      case None => Failed
      case Some(sheet) =>
        var lower := ReadBound(form.fechaInicio, parse);
        var upper := ReadBound(form.fechaFin, parse);
        if sheet.columns == [] || lower.Malformed? || upper.Malformed? then Failed
        else
          var rows := Coerce(sheet.rows, parse);
          var kept := Filter(rows, Admitted(Limit(lower), Limit(upper)));
          FilterIsSubsequence(rows, Admitted(Limit(lower), Limit(upper)));
          FilterMultiplicity(rows, Admitted(Limit(lower), Limit(upper)));
          Filtered(sheet.columns, kept)
  }

  /** A selection outside the enumeration is refused before anything is read:
      the outcome does not depend on the loader at all. */
  lemma InvalidSelectionNeverLoads(listing: seq<DirEntry>, form: Form, load1: string -> Option<Sheet>,
                                   load2: string -> Option<Sheet>, parse: string -> Option<Date>)
    requires !Selectable(listing, form.archivo)
    ensures Pipeline(listing, form, load1, parse) == Pipeline(listing, form, load2, parse) == InvalidSelection
  {
  }

  /** With both date fields absent or empty, a readable sheet comes back whole:
      every row, in order, null dates included. */
  lemma UnboundedKeepsEveryRow(listing: seq<DirEntry>, form: Form, load: string -> Option<Sheet>,
                               parse: string -> Option<Date>)
    requires Selectable(listing, form.archivo)
    requires load(form.archivo.value).Some? && load(form.archivo.value).value.columns != []
    requires form.fechaInicio.None? || form.fechaInicio.value == ""
    requires form.fechaFin.None? || form.fechaFin.value == ""
    ensures Pipeline(listing, form, load, parse)
         == Filtered(load(form.archivo.value).value.columns, Coerce(load(form.archivo.value).value.rows, parse))
  {
    var rows := Coerce(load(form.archivo.value).value.rows, parse);
    ApplyBoundsIsRange(rows, None, None);
  }

  /** The steps of lines 25-35 and 102-111, in the handlers' order: the
      selection check, loading, the in-place coercion of the first column, then
      each mask rebinding the table. */
  method RunPipeline(listing: seq<DirEntry>, form: Form, load: string -> Option<Sheet>,
                     parse: string -> Option<Date>) returns (out: Outcome)
    ensures out == Pipeline(listing, form, load, parse)
  {
    var archivos := ListExcels(listing);
    if form.archivo.None? || form.archivo.value !in archivos {
      return InvalidSelection;
    }
    var loaded := load(form.archivo.value);
    if loaded.None? {
      return Failed;
    }
    var sheet := loaded.value;
    if sheet.columns == [] {
      // selecting the first column of a table without columns raises
      return Failed;
    }
    var df := Coerce(sheet.rows, parse);
    ghost var coerced := df;
    var lower := ReadBound(form.fechaInicio, parse);
    if lower.Malformed? {
      return Failed;
    }
    if lower.At? {
      df := Filter(df, AtOrAfter(lower.date));
    }
    var upper := ReadBound(form.fechaFin, parse);
    if upper.Malformed? {
      return Failed;
    }
    if upper.At? {
      df := Filter(df, AtOrBefore(upper.date));
    }
    assert df == ApplyBounds(coerced, Limit(lower), Limit(upper));
    ApplyBoundsIsRange(coerced, Limit(lower), Limit(upper));
    out := Filtered(sheet.columns, df);
  }

  /** What the page at `/` shows below the form. */
  datatype Panel = NoPanel | NotValidWarning | ReadErrorAlert | Table(columns: seq<string>, rows: seq<Row>)

  /** The page at `/`: the offered files, the echoed selection and date fields,
      and the result panel. */
  datatype Page = Page(files: seq<string>, selected: Option<string>, panel: Panel,
                       fechaInicio: Option<string>, fechaFin: Option<string>)

  /** The handler of `/`: a GET shows the bare form, a POST runs the pipeline
      and shows its table, a warning for an invalid selection, or an alert. */
  method ShowExcel(isPost: bool, listing: seq<DirEntry>, form: Form, load: string -> Option<Sheet>,
                   parse: string -> Option<Date>) returns (page: Page)
    ensures page.files == ListExcels(listing)
    ensures !isPost ==> page == Page(ListExcels(listing), None, NoPanel, Some(""), Some(""))
    ensures isPost ==> page.selected == form.archivo && page.fechaInicio == form.fechaInicio
                       && page.fechaFin == form.fechaFin
    ensures isPost ==> (page.panel.NotValidWarning? <==> !Selectable(listing, form.archivo))
    ensures isPost ==> (page.panel.ReadErrorAlert? <==> Pipeline(listing, form, load, parse).Failed?)
    ensures isPost && page.panel.Table? ==>
              Pipeline(listing, form, load, parse) == Filtered(page.panel.columns, page.panel.rows)
    ensures isPost && Pipeline(listing, form, load, parse).Filtered? ==>
              page.panel == Table(Pipeline(listing, form, load, parse).columns, Pipeline(listing, form, load, parse).rows)
  {
    var archivos := ListExcels(listing);
    if !isPost {
      return Page(archivos, None, NoPanel, Some(""), Some(""));
    }
    var out := RunPipeline(listing, form, load, parse);
    var panel := match out
      case InvalidSelection => NotValidWarning
      case Failed => ReadErrorAlert
      case Filtered(columns, rows) => Table(columns, rows);
    page := Page(archivos, form.archivo, panel, form.fechaInicio, form.fechaFin);
  }

  /** The response of `/descargar`. */
  datatype Response =
    | BadRequest
    | ServerError
    | Attachment(downloadName: string, mimetype: string, content: Bytes)

  function Status(r: Response): (code: nat)
    ensures code in {200, 400, 500}
  {
    match r
    case BadRequest => 400
    case ServerError => 500
    case Attachment(_, _, _) => 200
  }

  /** The attachment name of a download: the prefix, then the selected name. */
  function DownloadName(archivo: string): (name: string)
    ensures |name| == |DownloadPrefix| + |archivo|
    ensures name[..|DownloadPrefix|] == DownloadPrefix && name[|DownloadPrefix|..] == archivo
  {
    DownloadPrefix + archivo
  }

  /** The handler of `/descargar`: 400 for an invalid selection, 500 when
      reading, filtering or writing fails, else the written table as an
      attachment. `write` stands for serialising a table (`None`: it raised). */
  method DownloadExcel(listing: seq<DirEntry>, form: Form, load: string -> Option<Sheet>,
                       parse: string -> Option<Date>,
                       write: (seq<string>, seq<Row>) -> Option<Bytes>) returns (resp: Response)
    ensures Status(resp) == 400 <==> !Selectable(listing, form.archivo)
    ensures Status(resp) == 500 <==>
      || Pipeline(listing, form, load, parse).Failed?
      || (Pipeline(listing, form, load, parse).Filtered?
          && write(Pipeline(listing, form, load, parse).columns, Pipeline(listing, form, load, parse).rows).None?)
    ensures resp.Attachment? ==>
      && Pipeline(listing, form, load, parse).Filtered?
      && resp.downloadName == DownloadName(form.archivo.value)
      && resp.mimetype == XlsxMimetype
      && write(Pipeline(listing, form, load, parse).columns, Pipeline(listing, form, load, parse).rows)
         == Some(resp.content)
  {
    var out := RunPipeline(listing, form, load, parse);
    match out
    case InvalidSelection =>
      resp := BadRequest;
    case Failed =>
      resp := ServerError;
    case Filtered(columns, rows) =>
      var output := write(columns, rows);
      if output.None? {
        resp := ServerError;
      } else {
        resp := Attachment(DownloadName(form.archivo.value), XlsxMimetype, output.value);
      }
  }
}
