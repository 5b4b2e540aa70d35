/**
 * The Excel export button (src/components/ExportButton.jsx): one sheet row per
 * inscription with 33 columns, the statistics sheet counts, and the file name.
 * The workbook library and its cell styling are not modelled; the workbook is
 * the data handed to it.
 */
module ExportButton {
  import opened JsText
  import opened Json
  import opened ReportData

  const NoDataAlert: string := "No hay datos para exportar"

  /** The column names, in order (lines 28-78). */
  const Columns: seq<string> := [
    "No.", "_id", "Nombre", "Cédula", "Correo", "Teléfono", "Rol", "ID",
    "Tipo Estudiante", "Facultad", "Programa", "Semestre", "Tipo Evento", "Horario",
    "Lugar", "Ponente 1", "Ponente 2", "Integrante 1", "Integrante 2", "Integrante 3",
    "Integrante 4", "Nombre Proyecto", "Descripción Proyecto", "Categoría Proyecto",
    "Institución", "Correo Grupo", "Teléfono Grupo", "Área", "Cargo", "Fecha Creación",
    "Fecha Actualización", "Asistencia", "Estado"]

  /** The column widths, in characters (lines 85-119). */
  const ColumnWidths: seq<nat> := [
    5, 20, 25, 15, 30, 15, 15, 15, 15, 20, 25, 10, 15, 20, 20, 25, 25, 25, 25, 25,
    25, 25, 40, 20, 25, 25, 15, 20, 20, 20, 20, 12, 15]

  /** Line 76: `true` is 'Sí', `false` is 'No', anything else unconfirmed. */
  function AttendanceLabel(a: Value): (r: string)
    ensures r == "Sí" <==> a == Some(JBool(true))
    ensures r == "No" <==> a == Some(JBool(false))
    ensures r == "Sin confirmar" <==> a != Some(JBool(true)) && a != Some(JBool(false))
  {
    if a == Some(JBool(true)) then "Sí" else if a == Some(JBool(false)) then "No" else "Sin confirmar"
  }

  /** `ins.key || ''`. */
  function Field(ins: Record, key: string): Value {
    Or(Get(ins, key), Str(""))
  }

  /** `ins.key ? format(ins.key) : ''`. */
  function DateField(ins: Record, key: string, format: DateFormatter): Value {
    if Truthy(Get(ins, key)) then Str(format(Get(ins, key).value)) else Str("")
  }

  /** Lines 29-43: the number and the inscription's own fields. */
  function ExcelFront(index: nat, ins: Record): (r: seq<Value>)
    ensures |r| == 15 && r[0] == Some(JNum(index + 1))
  {
    [Some(JNum(index + 1)), Field(ins, "_id"), Field(ins, "nombre"), Field(ins, "cedula"),
     Field(ins, "correo"), Field(ins, "telefono"), Field(ins, "rol"), Field(ins, "id"),
     Field(ins, "tipoEstudiante"), Field(ins, "facultad"), Field(ins, "programa"),
     Field(ins, "semestre"), Field(ins, "tipo_evento"), Field(ins, "horario"), Field(ins, "lugar")]
  }

  /** Lines 56-77: area, position, dates, attendance and state. */
  function ExcelBack(ins: Record, format: DateFormatter): (r: seq<Value>)
    ensures |r| == 6
    ensures r[4] == Str(AttendanceLabel(Get(ins, "asistencia")))
    ensures r[5] == Or(Get(ins, "estado"), Str("Pendiente"))
  {
    [Field(ins, "area"), Field(ins, "cargo"),
     DateField(ins, "created_at", format), DateField(ins, "updated_at", format),
     Str(AttendanceLabel(Get(ins, "asistencia"))), Or(Get(ins, "estado"), Str("Pendiente"))]
  }

  /** Lines 28-78: the row of the inscription at `index`. */
  function ExcelRow(index: nat, ins: Record, format: DateFormatter): (r: seq<Value>)
    ensures |r| == |Columns| == |ColumnWidths|
    ensures r[0] == Some(JNum(index + 1))
    ensures forall i :: 15 <= i < 27 ==> r[i] == Walk(Some(JObj(ins)), NestedPaths()[i - 15], "")
    ensures r[31] == Str(AttendanceLabel(Get(ins, "asistencia")))
    ensures r[32] == Or(Get(ins, "estado"), Str("Pendiente"))
  {
    var front := ExcelFront(index, ins);
    var nested := seq(12, i requires 0 <= i < 12 => Walk(Some(JObj(ins)), NestedPaths()[i], ""));
    var back := ExcelBack(ins, format);
    assert forall i :: 15 <= i < 27 ==> (front + nested + back)[i] == nested[i - 15];
    front + nested + back
  }

  /** The statistics sheet (lines 138-143), without the percentage. */
  datatype Stats = Stats(total: nat, asistieron: nat, noAsistieron: nat, sinConfirmar: nat)

  function StatsOf(ins: seq<Record>): Stats {
    Stats(|ins|, CountWith(ins, Some(JBool(true))), CountWith(ins, Some(JBool(false))),
          CountWith(ins, None) + CountWith(ins, Some(JNull)))
  }

  /** The three counts add up to the total exactly when every `asistencia` is
      true, false, null or undefined. */
  lemma StatsSumIff(ins: seq<Record>)
    ensures StatsOf(ins).asistieron + StatsOf(ins).noAsistieron + StatsOf(ins).sinConfirmar
      == StatsOf(ins).total
      <==> forall i :: 0 <= i < |ins| ==> Classified(ins[i])
  {
    CountsPartition(ins);
  }

  /** Lines 164-165: `reporte_completo_<name or 'evento'>_<date>.xlsx`. */
  function FileName(nombreEvento: Value, fecha: string): (r: string)
    ensures Truthy(nombreEvento) ==> r == "reporte_completo_" + ToText(nombreEvento) + "_" + fecha + ".xlsx"
    ensures !Truthy(nombreEvento) ==> r == "reporte_completo_evento_" + fecha + ".xlsx"
  {
    "reporte_completo_" + ToText(Or(nombreEvento, Str("evento"))) + "_" + fecha + ".xlsx"
  }

  /** What one export does: alert that there is no data, or write a workbook. */
  datatype Export =
    | NoData(alert: string)
    | Workbook(rows: seq<seq<Value>>, widths: seq<nat>, stats: Stats, fileName: string)

  /** Lines 21-169. */
  function ExportToExcel(ins: Option<seq<Record>>, nombreEvento: Value, fecha: string,
                         format: DateFormatter): (r: Export)
    ensures r.NoData? <==> NoRows(ins)
    ensures r.NoData? ==> r.alert == NoDataAlert
    ensures r.Workbook? ==>
      |r.rows| == |ins.value| && r.widths == ColumnWidths
      && r.stats == StatsOf(ins.value) && r.fileName == FileName(nombreEvento, fecha)
      && forall i :: 0 <= i < |r.rows| ==>
           r.rows[i] == ExcelRow(i, ins.value[i], format) && |r.rows[i]| == |r.widths|
  {
    if NoRows(ins) then NoData(NoDataAlert)
    else
      var list := ins.value;
      Workbook(seq(|list|, i requires 0 <= i < |list| => ExcelRow(i, list[i], format)),
               ColumnWidths, StatsOf(list), FileName(nombreEvento, fecha))
  }

  /** Line 175: a button that is not disabled always produces a
      report; when the `disabled` prop is falsy, the button is disabled exactly
      when the export would only alert. */
  lemma EnabledButtonExports(disabled: Value, ins: Option<seq<Record>>, nombreEvento: Value, fecha: string,
                             format: DateFormatter)
    ensures !ExportDisabled(disabled, ins) ==> ExportToExcel(ins, nombreEvento, fecha, format).Workbook?
    ensures !Truthy(disabled) ==> (ExportDisabled(disabled, ins) <==> ExportToExcel(ins, nombreEvento, fecha, format).NoData?)
  {
  }
}
