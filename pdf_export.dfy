/**
 * The PDF report button (src/components/PDFExport.jsx): the attendance counts
 * and rates, and the participants table of 31 columns, one row per
 * inscription numbered from 1. The HTML around the table and its styling are
 * not modelled; a row is its cell texts and its status badge.
 */
module PdfExport {
  import opened JsText
  import opened Json
  import opened ReportData

  const NoDataAlert: string := "No hay datos para exportar"

  /** The table header (lines 327-358). */
  const Headers: seq<string> := [
    "No.", "ID", "Nombre", "Cédula", "Correo", "Teléfono", "Rol", "Tipo Estudiante",
    "Facultad", "Programa", "Semestre", "Tipo Evento", "Horario", "Lugar", "Ponente 1",
    "Ponente 2", "Integrante 1", "Integrante 2", "Integrante 3", "Integrante 4",
    "Proyecto", "Descripción", "Categoría", "Institución", "Correo Grupo",
    "Teléfono Grupo", "Área", "Cargo", "Fecha Creación", "Fecha Actualización", "Estado"]

  /** The attendance badge: its style class and its text. */
  datatype Badge = Badge(kind: string, text: string)

  /** Lines 363-372. */
  function StatusBadge(a: Value): (r: Badge)
    ensures a == Some(JBool(true)) ==> r == Badge("success", "Asistió")
    ensures a == Some(JBool(false)) ==> r == Badge("danger", "No asistió")
    ensures a != Some(JBool(true)) && a != Some(JBool(false)) ==> r == Badge("warning", "Sin confirmar")
  {
    if a == Some(JBool(true)) then Badge("success", "Asistió")
    else if a == Some(JBool(false)) then Badge("danger", "No asistió")
    else Badge("warning", "Sin confirmar")
  }

  /** `${ins.key || '-'}`. */
  function Cell(ins: Record, key: string): string {
    ToText(Or(Get(ins, key), Str("-")))
  }

  /** `${ins.key ? format(ins.key) : '-'}`. */
  function DateCell(ins: Record, key: string, format: DateFormatter): string {
    if Truthy(Get(ins, key)) then format(Get(ins, key).value) else "-"
  }

  /** One table row: the texts of its first 30 cells and the badge in the last. */
  datatype Row = Row(cells: seq<string>, badge: Badge)

  /** Lines 376-389: the number and the inscription's own fields. */
  function PdfFront(index: nat, ins: Record): (r: seq<string>)
    ensures |r| == 14 && r[0] == IntToString(index + 1)
  {
    [IntToString(index + 1), Cell(ins, "_id"), Cell(ins, "nombre"), Cell(ins, "cedula"),
     Cell(ins, "correo"), Cell(ins, "telefono"), Cell(ins, "rol"), Cell(ins, "tipoEstudiante"),
     Cell(ins, "facultad"), Cell(ins, "programa"), Cell(ins, "semestre"),
     Cell(ins, "tipo_evento"), Cell(ins, "horario"), Cell(ins, "lugar")]
  }

  /** Lines 402-409: area, position and the two dates. */
  function PdfBack(ins: Record, format: DateFormatter): (r: seq<string>)
    ensures |r| == 4
    ensures r[2] == DateCell(ins, "created_at", format) && r[3] == DateCell(ins, "updated_at", format)
  {
    [Cell(ins, "area"), Cell(ins, "cargo"),
     DateCell(ins, "created_at", format), DateCell(ins, "updated_at", format)]
  }

  /** Lines 390-401: the twelve nested cells, `-` where the path is missing. */
  function PdfNested(ins: Record): (r: seq<string>)
    ensures |r| == 12
    ensures forall i :: 0 <= i < 12 ==> r[i] == ToText(Walk(Some(JObj(ins)), NestedPaths()[i], "-"))
  {
    seq(12, i requires 0 <= i < 12 => ToText(Walk(Some(JObj(ins)), NestedPaths()[i], "-")))
  }

  /** Lines 362-416: the row of the inscription at `index`. */
  function PdfRow(index: nat, ins: Record, format: DateFormatter): (r: Row)
    ensures |r.cells| + 1 == |Headers|
    ensures r.cells[0] == IntToString(index + 1)
    ensures forall i :: 14 <= i < 26 ==> r.cells[i] == ToText(Walk(Some(JObj(ins)), NestedPaths()[i - 14], "-"))
    ensures r.badge == StatusBadge(Get(ins, "asistencia"))
  {
    var front := PdfFront(index, ins);
    var nested := PdfNested(ins);
    var back := PdfBack(ins, format);
    assert forall i :: 14 <= i < 26 ==> (front + nested + back)[i] == nested[i - 14];
    Row(front + nested + back, StatusBadge(Get(ins, "asistencia")))
  }

  /** The counts of lines 13-16; the unconfirmed count is what is left over. */
  datatype Counts = Counts(total: int, asistieron: int, noAsistieron: int, sinConfirmar: int)

  function CountsOf(ins: seq<Record>): (r: Counts)
    ensures r.asistieron + r.noAsistieron + r.sinConfirmar == r.total
  {
    var total := |ins|;
    var asistieron := CountWith(ins, Some(JBool(true)));
    var noAsistieron := CountWith(ins, Some(JBool(false)));
    Counts(total, asistieron, noAsistieron, total - asistieron - noAsistieron)
  }

  /** The unconfirmed count, though computed by subtraction, is exactly the
      number of inscriptions whose `asistencia` is neither true nor false; so it
      is never negative. */
  lemma SinConfirmarCounts(ins: seq<Record>)
    ensures CountsOf(ins).sinConfirmar ==
      CountWith(ins, Some(JNull)) + CountWith(ins, None) + CountOther(ins)
    ensures CountsOf(ins).sinConfirmar >= 0
  {
    CountsPartition(ins);
  }

  /** Lines 17, 296 and 314: a percentage of the total, 0 when there is none. */
  function Rate(part: int, total: int): (r: real)
    ensures total <= 0 ==> r == 0.0
    ensures total > 0 && 0 <= part <= total ==> 0.0 <= r <= 100.0
  {
    if total > 0 then (part as real) / (total as real) * 100.0 else 0.0
  }

  /** What one export does: alert that there is no data, or write the report. */
  datatype Report = NoData(alert: string) | Document(counts: Counts, rows: seq<Row>)

  /** Lines 6-428. */
  function GeneratePdf(ins: Option<seq<Record>>, format: DateFormatter): (r: Report)
    ensures r.NoData? <==> NoRows(ins)
    ensures r.NoData? ==> r.alert == NoDataAlert
    ensures r.Document? ==>
      r.counts == CountsOf(ins.value) && |r.rows| == |ins.value|
      && forall i :: 0 <= i < |r.rows| ==>
           r.rows[i] == PdfRow(i, ins.value[i], format) && r.rows[i].cells[0] == IntToString(i + 1)
  {
    if NoRows(ins) then NoData(NoDataAlert)
    else
      var list := ins.value;
      Document(CountsOf(list), seq(|list|, i requires 0 <= i < |list| => PdfRow(i, list[i], format)))
  }

  /** Line 445: a button that is not disabled always produces a
      report; when the `disabled` prop is falsy, the button is disabled exactly
      when the export would only alert. */
  lemma EnabledButtonExports(disabled: Value, ins: Option<seq<Record>>, format: DateFormatter)
    ensures !ExportDisabled(disabled, ins) ==> GeneratePdf(ins, format).Document?
    ensures !Truthy(disabled) ==> (ExportDisabled(disabled, ins) <==> GeneratePdf(ins, format).NoData?)
  {
  }
}
