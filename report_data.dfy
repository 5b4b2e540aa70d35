/**
 * What the Excel and PDF reports (src/components/ExportButton.jsx,
 * src/components/PDFExport.jsx) read out of an inscription: the
 * `getNestedValue` path walk, written identically in both files apart from
 * the default it yields, and the attendance counts.
 *
 * A path such as `grupo.integrantes[0]` is kept as its segments: `Key("grupo")`,
 * `Indexed("integrantes", 0)`.
 */
module ReportData {
  import opened JsText
  import opened Json

  datatype Segment = Key(name: string) | Indexed(name: string, index: nat)

  /** `v[i]` for a value that is not null: an array element, a one-character
      string, or an object field named by the decimal index. */
  function Index(j: Json, i: nat): (r: Value)
    ensures j.JArr? ==> (r.Some? <==> i < |j.items|)
  {
    match j
    case JArr(items) => if i < |items| then Some(items[i]) else None
    case JStr(s) => if i < |s| then Str([s[i]]) else None
    case JObj(fields) => if NatToString(i) in fields then Some(fields[NatToString(i)]) else None
    case _ => None
  }

  /** One step of the `reduce` (ExportButton.jsx:9-18, PDFExport.jsx:21-30): an
      indexed step needs a truthy container and a truthy element, a plain step
      a defined property; otherwise the step yields the default text. */
  function Step(current: Value, seg: Segment, dflt: string): (r: Value)
    ensures r == Str(dflt) || (current.Some? && current.value.JObj?)
  {
    match seg
    case Key(k) =>
      if Truthy(current) && Prop(current.value, k).Some? then Prop(current.value, k) else Str(dflt)
    case Indexed(n, i) =>
      if Truthy(current) && Truthy(Prop(current.value, n)) && Truthy(Index(Prop(current.value, n).value, i))
      then Index(Prop(current.value, n).value, i)
      else Str(dflt)
  }

  /** `getNestedValue(obj, path)` with the given default. */
  function Walk(v: Value, path: seq<Segment>, dflt: string): Value
    decreases |path|
  {
    if |path| == 0 then v else Walk(Step(v, path[0], dflt), path[1..], dflt)
  }

  /** One step of the reference lookup from an object. */
  function LookupStep(obj: Json, seg: Segment): Value {
    match seg
    case Key(k) => Prop(obj, k)
    case Indexed(n, i) =>
      if Truthy(Prop(obj, n)) && Truthy(Index(Prop(obj, n).value, i))
      then Index(Prop(obj, n).value, i) else None
  }

  /** The reference lookup: follow the path through objects only, failing at
      the first field that is missing (or, for an indexed step, falsy). */
  function Lookup(v: Value, path: seq<Segment>): Value
    decreases |path|
  {
    if |path| == 0 then v
    else if v == None || !v.value.JObj? || LookupStep(v.value, path[0]) == None then None
    else Lookup(LookupStep(v.value, path[0]), path[1..])
  }

  /** Once a step has failed the walk stays at the default. */
  lemma {:induction false} WalkFromDefault(path: seq<Segment>, dflt: string)
    ensures Walk(Str(dflt), path, dflt) == Str(dflt)
  {
    if |path| > 0 {
      WalkFromDefault(path[1..], dflt);
    }
  }

  /** The walk finds exactly what the reference lookup finds, and yields the
      default exactly where the lookup fails. */
  lemma {:induction false} WalkIsLookup(v: Value, path: seq<Segment>, dflt: string)
    requires |path| > 0
    ensures Walk(v, path, dflt) == if Lookup(v, path).Some? then Lookup(v, path) else Str(dflt)
    decreases |path|
  {
    if v.Some? && v.value.JObj? && LookupStep(v.value, path[0]).Some? {
      assert Step(v, path[0], dflt) == LookupStep(v.value, path[0]);
      if |path| > 1 {
        WalkIsLookup(LookupStep(v.value, path[0]), path[1..], dflt);
      }
    } else {
      assert Step(v, path[0], dflt) == Str(dflt);
      WalkFromDefault(path[1..], dflt);
    }
  }

  /** How many inscriptions have `asistencia` strictly equal to `v`
      (`undefined` when `v` is `None`). */
  function CountWith(ins: seq<Record>, v: Value): (r: nat)
    ensures r <= |ins|
  {
    if |ins| == 0 then 0
    else (if Get(ins[0], "asistencia") == v then 1 else 0) + CountWith(ins[1..], v)
  }

  /** `asistencia` is one of true, false, null, undefined. */
  predicate Classified(r: Record) {
    Get(r, "asistencia") in [Some(JBool(true)), Some(JBool(false)), Some(JNull), None]
  }

  /** How many inscriptions have any other `asistencia`. */
  function CountOther(ins: seq<Record>): (r: nat)
    ensures r == 0 <==> forall i :: 0 <= i < |ins| ==> Classified(ins[i])
  {
    if |ins| == 0 then 0
    else
      assert forall i :: 1 <= i < |ins| ==> ins[i] == ins[1..][i - 1];
      (if Classified(ins[0]) then 0 else 1) + CountOther(ins[1..])
  }

  /** Every inscription falls in exactly one of the five counts. */
  lemma {:induction false} CountsPartition(ins: seq<Record>)
    ensures |ins| == CountWith(ins, Some(JBool(true))) + CountWith(ins, Some(JBool(false)))
      + CountWith(ins, Some(JNull)) + CountWith(ins, None) + CountOther(ins)
  {
    if |ins| > 0 {
      CountsPartition(ins[1..]);
    }
  }

  /** A date formatter (`new Date(v).toLocaleDateString('es-CO', ...)`). */
  type DateFormatter = Json -> string

  /** ExportButton.jsx:22 and PDFExport.jsx:7: there is nothing to export. */
  predicate NoRows(ins: Option<seq<Record>>) {
    ins.None? || |ins.value| == 0
  }

  /** ExportButton.jsx:175 and PDFExport.jsx:445: the export button is disabled
      when the `disabled` prop is truthy or there is nothing to export. */
  predicate ExportDisabled(disabled: Value, ins: Option<seq<Record>>) {
    Truthy(disabled) || NoRows(ins)
  }

  /** The nested paths both reports read (ponentes, group members, project and
      group contact fields), in column order. */
  const PonentePaths: seq<seq<Segment>> := [[Indexed("ponentes", 0)], [Indexed("ponentes", 1)]]
  const IntegrantePaths: seq<seq<Segment>> := [
    [Key("grupo"), Indexed("integrantes", 0)], [Key("grupo"), Indexed("integrantes", 1)],
    [Key("grupo"), Indexed("integrantes", 2)], [Key("grupo"), Indexed("integrantes", 3)]]
  const GrupoPaths: seq<seq<Segment>> := [
    [Key("grupo"), Key("proyecto"), Key("nombre")],
    [Key("grupo"), Key("proyecto"), Key("descripcion")],
    [Key("grupo"), Key("proyecto"), Key("categoria")],
    [Key("grupo"), Key("institucion")], [Key("grupo"), Key("correo")], [Key("grupo"), Key("telefono")]]

  /** All twelve nested paths, each one non-empty. */
  function NestedPaths(): (r: seq<seq<Segment>>)
    ensures |r| == 12
    ensures forall i :: 0 <= i < |r| ==> |r[i]| > 0
  {
    PonentePaths + IntegrantePaths + GrupoPaths
  }

  /** The twelve nested values of one inscription, read with `Walk`. */
  function NestedValues(ins: Record, dflt: string): (r: seq<Value>)
    ensures |r| == 12
    ensures forall i :: 0 <= i < 12 ==>
      r[i] == if Lookup(Some(JObj(ins)), NestedPaths()[i]).Some?
              then Lookup(Some(JObj(ins)), NestedPaths()[i]) else Str(dflt)
  {
    var paths := NestedPaths();
    var r := seq(12, i requires 0 <= i < 12 => Walk(Some(JObj(ins)), paths[i], dflt));
    forall i | 0 <= i < 12
      ensures r[i] == if Lookup(Some(JObj(ins)), paths[i]).Some?
                      then Lookup(Some(JObj(ins)), paths[i]) else Str(dflt)
    {
      WalkIsLookup(Some(JObj(ins)), paths[i], dflt);
    }
    r
  }
}
