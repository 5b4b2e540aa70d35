/**
 * The complete-summary panel (src/components/ResumenCompleto.js): its CSV
 * export, one line per (event, inscription) pair under a fixed header, every
 * cell quoted with inner quotes doubled as section 2, rule 7 of RFC 4180
 * prescribes, lines separated by a bare `\n`; and the `exporting` and `loading`
 * flags of its two server calls.
 *
 * The CSV reader `ParseLines` is not part of the panel: it is the reference
 * that shows the writer loses nothing.
 */
module Resumen {
  import opened JsText
  import opened Json

  /** One event of the summary, and its inscriptions. */
  datatype Evento = Evento(info: Record, inscripciones: seq<Record>)

  /** The column names, in the order the row objects are built (lines 80-96). */
  const ColumnNames: seq<string> := [
    "Evento", "Tipo Evento", "Colección", "Total Inscritos", "Asistieron",
    "Nombre", "Email", "Teléfono", "Cédula", "Rol", "Facultad", "Programa",
    "Semestre", "Asistencia", "Fecha Inscripción", "Fecha Actualización"]

  /** Lines 80-96: the values of the row for one inscription of one event. */
  function Row(e: Evento, ins: Record): (r: seq<Value>)
    ensures |r| == |ColumnNames|
    ensures r[13] == Str(if Truthy(Get(ins, "asistencia")) then "Sí" else "No")
  {
    [Get(e.info, "nombre"), Get(e.info, "tipo"), Get(e.info, "coleccion"),
     Get(e.info, "total_inscritos"), Get(e.info, "total_asistieron"),
     Get(ins, "nombre"), Get(ins, "email"), Get(ins, "telefono"), Get(ins, "cedula"),
     Get(ins, "rol"), Get(ins, "facultad"), Get(ins, "programa"), Get(ins, "semestre"),
     Str(if Truthy(Get(ins, "asistencia")) then "Sí" else "No"),
     Get(ins, "fecha_inscripcion"), Get(ins, "updated_at")]
  }

  /** The rows of one event, in inscription order. */
  function EventRows(e: Evento): (r: seq<seq<Value>>)
    ensures |r| == |e.inscripciones|
    ensures forall i :: 0 <= i < |r| ==> r[i] == Row(e, e.inscripciones[i])
  {
    seq(|e.inscripciones|, i requires 0 <= i < |e.inscripciones| => Row(e, e.inscripciones[i]))
  }

  /** Lines 79-98: `eventos.flatMap(...)`. */
  function Rows(eventos: seq<Evento>): seq<seq<Value>> {
    if |eventos| == 0 then [] else EventRows(eventos[0]) + Rows(eventos[1..])
  }

  /** The number of inscriptions over all events. */
  function Inscritos(eventos: seq<Evento>): nat {
    if |eventos| == 0 then 0 else |eventos[0].inscripciones| + Inscritos(eventos[1..])
  }

  /** Flattening distributes over concatenation: the rows of the first events
      come first, in order. */
  lemma {:induction false} RowsAppend(a: seq<Evento>, b: seq<Evento>)
    ensures Rows(a + b) == Rows(a) + Rows(b)
  {
    if |a| > 0 {
      assert (a + b)[1..] == a[1..] + b;
      RowsAppend(a[1..], b);
    } else {
      assert a + b == b;
    }
  }

  /** One row per (event, inscription) pair, every row of header width. */
  lemma {:induction false} RowsShape(eventos: seq<Evento>)
    ensures |Rows(eventos)| == Inscritos(eventos)
    ensures forall i :: 0 <= i < |Rows(eventos)| ==> |Rows(eventos)[i]| == |ColumnNames|
  {
    if |eventos| > 0 {
      RowsShape(eventos[1..]);
    }
  }

  /** `String(v || '')`: the text of a truthy value, else the empty text. */
  function CellText(v: Value): (r: string)
    ensures !Truthy(v) ==> r == ""
    ensures Truthy(v) ==> r == ToText(v)
  {
    if Truthy(v) then ToText(v) else ""
  }

  /** `"${text.replace(/"/g, '""')}"`: the quoted field. */
  function QuoteField(t: string): (r: string)
    ensures |r| >= 2 && r[0] == '"' && r[|r| - 1] == '"'
    ensures UndoubleQuotes(r[1..|r| - 1]) == t
  {
    UndoubleDouble(t);
    assert ("\"" + DoubleQuotes(t) + "\"")[1..|DoubleQuotes(t)| + 1] == DoubleQuotes(t);
    "\"" + DoubleQuotes(t) + "\""
  }

  /** The texts of one row's cells. */
  function RowTexts(row: seq<Value>): (r: seq<string>)
    ensures |r| == |row|
  {
    seq(|row|, i requires 0 <= i < |row| => CellText(row[i]))
  }

  /** Each text as a quoted field. */
  function QuotedCells(texts: seq<string>): (r: seq<string>)
    ensures |r| == |texts|
  {
    if |texts| == 0 then [] else [QuoteField(texts[0])] + QuotedCells(texts[1..])
  }

  /** Lines 103-106: one data line, its quoted cells joined with commas. */
  function Line(texts: seq<string>): string {
    Join(QuotedCells(texts), ",")
  }

  /** Line 100: the header names, taken from the first row (none without rows). */
  function Headers(rows: seq<seq<Value>>): seq<string> {
    if |rows| == 0 then [] else ColumnNames
  }

  /** The cell texts of each row. */
  function Texts(rows: seq<seq<Value>>): (r: seq<seq<string>>)
    ensures |r| == |rows|
    ensures forall i :: 0 <= i < |rows| ==> r[i] == RowTexts(rows[i])
  {
    if |rows| == 0 then [] else [RowTexts(rows[0])] + Texts(rows[1..])
  }

  /** Each row of texts as a data line. */
  function Lines(texts: seq<seq<string>>): (r: seq<string>)
    ensures |r| == |texts|
    ensures forall i :: 0 <= i < |texts| ==> r[i] == Line(texts[i])
  {
    if |texts| == 0 then [] else [Line(texts[0])] + Lines(texts[1..])
  }

  /** The data lines, separated by `\n`. */
  function Body(rows: seq<seq<Value>>): string {
    Join(Lines(Texts(rows)), "\n")
  }

  /** Lines 100-108: the header line, then one line per row. */
  function CsvContent(rows: seq<seq<Value>>): (r: string)
    ensures |rows| == 0 ==> r == ""
    ensures |rows| > 0 ==> r == Join(ColumnNames, ",") + "\n" + Body(rows)
  {
    var lines := Lines(Texts(rows));
    assert ([Join(Headers(rows), ",")] + lines)[1..] == lines;
    Join([Join(Headers(rows), ",")] + lines, "\n")
  }

  /** Lines 76-108: nothing without a summary, else the CSV of its events. */
  function ExportToCsv(resumen: Option<seq<Evento>>): (r: Option<string>)
    ensures r.None? <==> resumen.None?
    ensures resumen.Some? && Inscritos(resumen.value) == 0 ==> r == Some("")
  {
    if resumen.None? then None
    else
      RowsShape(resumen.value);
      Some(CsvContent(Rows(resumen.value)))
  }

  /** Reads a quoted field's content after its opening quote: `""` is one quote
      and a lone `"` closes the field. Gives the content and what follows. */
  function ParseQuoted(s: string): (r: Option<(string, string)>)
    ensures r.Some? ==> |r.value.1| < |s|
  {
    if |s| == 0 then None
    else if s[0] == '"' then
      if |s| >= 2 && s[1] == '"' then
        match ParseQuoted(s[2..])
        case None => None
        case Some((t, rest)) => Some(("\"" + t, rest))
      else Some(("", s[1..]))
    else
      match ParseQuoted(s[1..])
      case None => None
      case Some((t, rest)) => Some(([s[0]] + t, rest))
  }

  /** Reads comma-separated quoted fields. */
  function ParseFields(s: string): (r: Option<(seq<string>, string)>)
    ensures r.Some? ==> |r.value.1| < |s|
    decreases |s|
  {
    if |s| == 0 || s[0] != '"' then None
    else match ParseQuoted(s[1..])
      case None => None
      case Some((f, rest)) =>
        if |rest| > 0 && rest[0] == ',' then
          match ParseFields(rest[1..])
          case None => None
          case Some((fs, tail)) => Some(([f] + fs, tail))
        else Some(([f], rest))
  }

  /** Reads `\n`-separated lines of quoted fields up to the end. */
  function ParseLines(s: string): Option<seq<seq<string>>>
    decreases |s|
  {
    match ParseFields(s)
    case None => None
    case Some((fs, rest)) =>
      if |rest| == 0 then Some([fs])
      else if rest[0] == '\n' then
        match ParseLines(rest[1..])
        case None => None
        case Some(lines) => Some([fs] + lines)
      else None
  }

  /** A doubled quote inside a field reads as one quote. */
  lemma ParseQuotedPair(u: string)
    ensures ParseQuoted("\"\"" + u) ==
      match ParseQuoted(u)
      case None => None
      case Some((t, rest)) => Some(("\"" + t, rest))
  {
    assert ("\"\"" + u)[2..] == u;
  }

  /** Any other character inside a field reads as itself. */
  lemma ParseQuotedChar(c: char, u: string)
    requires c != '"'
    ensures ParseQuoted([c] + u) ==
      match ParseQuoted(u)
      case None => None
      case Some((t, rest)) => Some(([c] + t, rest))
  {
    assert ([c] + u)[1..] == u;
  }

  /** Doubling the quotes works character by character. */
  lemma DoubleQuotesFront(t: string, tail: string)
    requires |t| > 0
    ensures DoubleQuotes(t) + tail ==
      (if t[0] == '"' then "\"\"" else [t[0]]) + (DoubleQuotes(t[1..]) + tail)
  {
  }

  /** A doubled field followed by its closing quote reads back as the field. */
  lemma {:induction false} ParseQuotedDoubled(t: string, rest: string)
    requires |rest| == 0 || rest[0] != '"'
    ensures ParseQuoted(DoubleQuotes(t) + ("\"" + rest)) == Some((t, rest))
  {
    if |t| == 0 {
      assert DoubleQuotes(t) + ("\"" + rest) == "\"" + rest;
      assert ("\"" + rest)[1..] == rest;
    } else {
      var u := DoubleQuotes(t[1..]) + ("\"" + rest);
      ParseQuotedDoubled(t[1..], rest);
      DoubleQuotesFront(t, "\"" + rest);
      if t[0] == '"' {
        ParseQuotedPair(u);
        assert "\"" + t[1..] == t;
      } else {
        ParseQuotedChar(t[0], u);
        assert [t[0]] + t[1..] == t;
      }
    }
  }

  /** A quoted field followed by anything but a quote reads back as its text. */
  lemma ParseQuotedField(t: string, after: string)
    requires |after| == 0 || after[0] != '"'
    ensures (QuoteField(t) + after)[0] == '"'
    ensures ParseQuoted((QuoteField(t) + after)[1..]) == Some((t, after))
  {
    assert (QuoteField(t) + after)[1..] == DoubleQuotes(t) + ("\"" + after);
    ParseQuotedDoubled(t, after);
  }

  /** A line splits into its first quoted field and the rest. */
  lemma LineFront(texts: seq<string>)
    requires |texts| > 0
    ensures Line(texts) ==
      if |texts| == 1 then QuoteField(texts[0]) else QuoteField(texts[0]) + "," + Line(texts[1..])
  {
    assert QuotedCells(texts)[1..] == QuotedCells(texts[1..]);
  }

  /** A last field reads back alone. */
  lemma ParseLastField(t: string, rest: string)
    requires |rest| == 0 || rest[0] == '\n'
    ensures ParseFields(QuoteField(t) + rest) == Some(([t], rest))
  {
    ParseQuotedField(t, rest);
  }

  /** A field followed by a comma reads back before the fields after it. */
  lemma ParseNextField(t: string, more: string)
    requires ParseFields(more).Some?
    ensures ParseFields(QuoteField(t) + ("," + more)) ==
      Some(([t] + ParseFields(more).value.0, ParseFields(more).value.1))
  {
    ParseQuotedField(t, "," + more);
    assert ("," + more)[1..] == more;
  }

  /** What follows a line of several fields, after its first field. */
  lemma LineRest(texts: seq<string>, rest: string)
    requires |texts| > 1
    ensures Line(texts) + rest == QuoteField(texts[0]) + ("," + (Line(texts[1..]) + rest))
  {
    LineFront(texts);
  }

  /** A data line reads back as its cell texts. */
  lemma {:induction false} ParseLine(texts: seq<string>, rest: string)
    requires |texts| > 0
    requires |rest| == 0 || rest[0] == '\n'
    ensures ParseFields(Line(texts) + rest) == Some((texts, rest))
    decreases |texts|
  {
    if |texts| == 1 {
      LineFront(texts);
      ParseLastField(texts[0], rest);
      assert [texts[0]] == texts;
    } else {
      ParseLine(texts[1..], rest);
      LineRest(texts, rest);
      ParseNextField(texts[0], Line(texts[1..]) + rest);
      assert [texts[0]] + texts[1..] == texts;
    }
  }

  /** A line of fields, a newline, then lines that read back. */
  lemma ParseLinesNext(s: string, fs: seq<string>, more: string)
    requires ParseFields(s) == Some((fs, "\n" + more))
    requires ParseLines(more).Some?
    ensures ParseLines(s) == Some([fs] + ParseLines(more).value)
  {
    assert ("\n" + more)[1..] == more;
  }

  /** A line reads back as `fs` whatever line break, or the end, follows it. */
  ghost predicate ReadsBack(line: string, fs: seq<string>) {
    forall rest {:trigger ParseFields(line + rest)} ::
      |rest| == 0 || rest[0] == '\n' ==> ParseFields(line + rest) == Some((fs, rest))
  }

  /** Lines that each read back, joined with `\n`, read back line by line. */
  lemma {:induction false} ParseJoin(ls: seq<string>, rows: seq<seq<string>>)
    requires |ls| == |rows| > 0
    requires forall i :: 0 <= i < |ls| ==> ReadsBack(ls[i], rows[i])
    ensures ParseLines(Join(ls, "\n")) == Some(rows)
    decreases |ls|
  {
    assert ReadsBack(ls[0], rows[0]);
    if |ls| == 1 {
      assert ls[0] + "" == ls[0];
      assert ParseFields(ls[0] + "") == Some((rows[0], ""));
      assert [rows[0]] == rows;
    } else {
      assert forall i :: 0 <= i < |ls| - 1 ==> ls[1..][i] == ls[i + 1] && rows[1..][i] == rows[i + 1];
      ParseJoin(ls[1..], rows[1..]);
      var more := Join(ls[1..], "\n");
      assert Join(ls, "\n") == ls[0] + ("\n" + more);
      assert ParseFields(ls[0] + ("\n" + more)) == Some((rows[0], "\n" + more));
      ParseLinesNext(ls[0] + ("\n" + more), rows[0], more);
      assert [rows[0]] + rows[1..] == rows;
    }
  }

  /** Lines of non-empty rows, joined with `\n`, read back as the rows. */
  lemma ParseJoinedLines(rows: seq<seq<string>>)
    requires |rows| > 0
    requires forall i :: 0 <= i < |rows| ==> |rows[i]| > 0
    ensures ParseLines(Join(Lines(rows), "\n")) == Some(rows)
  {
    var ls := Lines(rows);
    forall i | 0 <= i < |ls|
      ensures ReadsBack(ls[i], rows[i])
    {
      forall rest | |rest| == 0 || rest[0] == '\n'
        ensures ParseFields(ls[i] + rest) == Some((rows[i], rest))
      {
        ParseLine(rows[i], rest);
      }
    }
    ParseJoin(ls, rows);
  }

  /** The export loses nothing: after the header line, reading the CSV back
      gives, for every (event, inscription) pair in order, one text per header,
      each the `String(value || '')` of that cell. */
  lemma CsvRoundTrip(eventos: seq<Evento>)
    requires Inscritos(eventos) > 0
    ensures CsvContent(Rows(eventos)) == Join(ColumnNames, ",") + "\n" + Body(Rows(eventos))
    ensures ParseLines(Body(Rows(eventos))) == Some(Texts(Rows(eventos)))
    ensures forall i :: 0 <= i < |Rows(eventos)| ==> |Texts(Rows(eventos))[i]| == |ColumnNames|
  {
    var rows := Rows(eventos);
    var texts := Texts(rows);
    RowsShape(eventos);
    forall i | 0 <= i < |rows|
      ensures |texts[i]| == |ColumnNames|
    {
      assert texts[i] == RowTexts(rows[i]);
    }
    ParseJoinedLines(texts);
  }

  /** Every cell reads back as the text of its value (inner quotes restored). */
  lemma CellRoundTrip(v: Value)
    ensures UndoubleQuotes(QuoteField(CellText(v))[1..|QuoteField(CellText(v))| - 1]) ==
      (if Truthy(v) then ToText(v) else "")
  {
  }

  /** What an export attempt ends with: a window opened on the download
      address, or an alert. */
  datatype ExportEffect = OpenWindow(url: Json) | Alert(text: string)

  const ExportFailedText: string := "Error al generar el archivo de exportación"
  const LoadFailedDefault: string := "Error al cargar el resumen"

  /** Lines 60-71 after the call: only a reply with `success` and a
      `downloadUrl` opens a window; any other reply alerts, and a thrown error
      alerts with its message. */
  function ExportOutcome(reply: Result<Json>): (r: ExportEffect)
    ensures r.OpenWindow? <==>
      reply.Ok? && reply.value != JNull && Truthy(Prop(reply.value, "success"))
      && Truthy(Prop(reply.value, "downloadUrl"))
    ensures r.OpenWindow? ==> Some(r.url) == Prop(reply.value, "downloadUrl")
    ensures reply.Fail? ==> r == Alert("Error al exportar: " + reply.error.message)
    ensures reply.Ok? && reply.value != JNull && !r.OpenWindow? ==> r == Alert(ExportFailedText)
  {
    match reply
    case Fail(e) => Alert("Error al exportar: " + e.message)
    case Ok(data) =>
      match Member(Some(data), "success")
      case Fail(e) => Alert("Error al exportar: " + e.message)
      case Ok(success) =>
        if Truthy(success) && Truthy(Prop(data, "downloadUrl")) then OpenWindow(Prop(data, "downloadUrl").value)
        else Alert(ExportFailedText)
  }

  /** The TypeError a call of a method the API client does not define throws. */
  function MissingMethod(name: string): Error {
    Error("apiClient." + name + " is not a function", None, None)
  }

  class ResumenPanel {
    /** The summary, `null` until loaded. */
    var resumen: Value
    var loading: bool
    /** The error shown; `setError` is given whatever the reply holds. */
    var error: Value
    var exporting: bool

    /** Lines 7-10. */
    constructor ()
      ensures resumen == Some(JNull) && loading && error == Str("") && !exporting
    {
      resumen := Some(JNull);
      loading := true;
      error := Str("");
      exporting := false;
    }

    /** Lines 16-31 after the call: a reply with `success` supplies the summary,
        any other reply its message or the default, a thrown error its
        message. Loading ends either way. */
    method CompleteLoad(reply: Result<Json>)
      modifies this
      ensures !loading && exporting == old(exporting)
      ensures (reply.Ok? && reply.value != JNull && Truthy(Prop(reply.value, "success"))) ==>
        resumen == Prop(reply.value, "resumen") && error == old(error)
      ensures (reply.Ok? && reply.value != JNull && !Truthy(Prop(reply.value, "success"))) ==>
        resumen == old(resumen) && error == Or(Prop(reply.value, "message"), Str(LoadFailedDefault))
      ensures reply.Fail? ==> resumen == old(resumen) && error == Str("Error: " + reply.error.message)
    {
      match reply {
        case Fail(e) =>
          error := Str("Error: " + e.message);
        case Ok(data) =>
          match Member(Some(data), "success") {
            case Fail(e) =>
              error := Str("Error: " + e.message);
            case Ok(success) =>
              if Truthy(success) {
                resumen := Prop(data, "resumen");
              } else {
                error := Or(Prop(data, "message"), Str(LoadFailedDefault));
              }
          }
      }
      loading := false;
    }

    /** Lines 16-31 as written: the API client defines no
        `getResumenCompletoEventos`, so the call throws before any request and
        the load always ends in its error branch, with no summary. */
    method LoadAsWritten()
      modifies this
      ensures !loading && resumen == old(resumen) && exporting == old(exporting)
      ensures error == Str("Error: " + MissingMethod("getResumenCompletoEventos").message)
    {
      CompleteLoad(Fail(MissingMethod("getResumenCompletoEventos")));
    }

    /** Line 59: exporting starts. */
    method BeginExport()
      modifies this
      ensures exporting && resumen == old(resumen) && loading == old(loading) && error == old(error)
    {
      exporting := true;
    }

    /** Lines 60-73 after the call: the effect the reply decides; exporting ends. */
    method CompleteExport(reply: Result<Json>) returns (effect: ExportEffect)
      modifies this
      ensures effect == ExportOutcome(reply)
      ensures !exporting && resumen == old(resumen) && loading == old(loading) && error == old(error)
    {
      effect := ExportOutcome(reply);
      exporting := false;
    }

    /** Lines 57-74 as written: the API client defines no
        `exportarDatosCompletos`, so every export alerts that error and no
        window is ever opened. */
    method ExportAsWritten() returns (effect: ExportEffect)
      modifies this
      ensures !effect.OpenWindow?
      ensures effect == Alert("Error al exportar: " + MissingMethod("exportarDatosCompletos").message)
      ensures !exporting && resumen == old(resumen) && loading == old(loading) && error == old(error)
    {
      BeginExport();
      effect := CompleteExport(Fail(MissingMethod("exportarDatosCompletos")));
    }
  }
}
