/**
 * The organiser's dashboard (src/components/Dashboard.js): the activity
 * list and the selected activity, its inscriptions and statistics, the three
 * loading flags and the error banner; attendance is marked from the table.
 *
 * Loading an activity's data is split at its `await` into `BeginLoad` and
 * `CompleteLoad`; the two parallel requests of `Promise.all` settle together
 * (`Fail` carries the rejection). `window.confirm` is an input, and the
 * `alert` texts and the `onLogout` call are returned.
 */
module Dashboard {
  import opened JsText
  import opened Json
  import Api
  import opened Session
  import Scanner

  const DefaultUserName: string := "Administrador"
  const ActivitiesFailedText: string := "Error al cargar las actividades"
  const InscripcionesFailedText: string := "Error cargando inscripciones"
  const LoadFailedPrefix: string := "Error al cargar los datos: "
  const MarkFailedPrefix: string := "❌ Error: "

  /** Lines 56, 90 and 128: an error whose message mentions a token or
      authentication ends the session. */
  predicate AuthError(message: string) {
    Includes(message, "token") || Includes(message, "auth")
  }

  /** The session ends exactly when `token` or `auth` occurs somewhere in the
      message. */
  lemma AuthErrorIff(message: string)
    ensures AuthError(message) <==>
      (exists j :: OccursAt(message, "token", j)) || (exists j :: OccursAt(message, "auth", j))
  {
    IncludesIff(message, "token");
    IncludesIff(message, "auth");
  }

  /** Line 45: `data.actividades && data.actividades.length`, the list that is
      stored; a null reply throws before anything is stored. */
  function ActivityList(reply: Result<Json>): (r: Option<Json>)
    ensures r.Some? ==>
      reply.Ok? && reply.value.JObj? && Prop(reply.value, "actividades") == Some(r.value)
  {
    if reply.Fail? || !reply.value.JObj? || "actividades" !in reply.value.fields then None
    else match reply.value.fields["actividades"]
      case JArr(items) => if |items| > 0 then Some(JArr(items)) else None
      case JStr(s) => if |s| > 0 then Some(JStr(s)) else None
      case _ => None
  }

  /** A list is stored exactly when the first element's `coleccion` is read:
      the read either selects a value or throws on a null element. */
  lemma ActivityListSelects(reply: Result<Json>)
    ensures ActivityList(reply).Some? <==>
      (reply.Ok? && reply.value != JNull
       && (Scanner.DefaultEvent(reply).Fail? || Scanner.DefaultEvent(reply).value.Some?))
    ensures ActivityList(reply).None? && reply.Ok? && reply.value != JNull ==>
      Scanner.DefaultEvent(reply) == Ok(None)
  {
  }

  /** Line 109: the confirmation question. */
  function ConfirmPrompt(asistencia: bool): string {
    "¿Estás seguro de que quieres " + (if asistencia then "marcar" else "desmarcar") + " la asistencia?"
  }

  /** Line 117: the success alert. */
  function MarkedText(asistencia: bool): string {
    "✅ Asistencia " + (if asistencia then "marcada" else "desmarcada") + " correctamente"
  }

  /** The question and the alert name the action requested, and tell the two
      actions apart. */
  lemma MarkTextsDistinguish(a: bool, b: bool)
    ensures ConfirmPrompt(a) == ConfirmPrompt(b) <==> a == b
    ensures MarkedText(a) == MarkedText(b) <==> a == b
  {
    if a != b {
      assert |ConfirmPrompt(a)| != |ConfirmPrompt(b)|;
      assert |MarkedText(a)| != |MarkedText(b)|;
    }
  }

  /** The two requests of lines 71-74 for an activity. */
  function LoadCalls(coleccion: Value): (Api.Call, Api.Call) {
    (Api.GetInscripciones(ToText(coleccion)), Api.GetStats(ToText(coleccion)))
  }

  class DashboardScreen {
    var userName: Value
    var actividades: Json
    var selectedEvent: Value
    var inscripciones: Json
    var stats: Json
    var loadingActividades: bool
    var loadingInscripciones: bool
    var loadingStats: bool
    var error: Value
    /** The `selectedEvent` the effect of lines 136-141 last ran for. */
    var seenSelected: Value

    /** Lines 10-20. */
    constructor ()
      ensures userName == Str(DefaultUserName) && actividades == JArr([])
      ensures selectedEvent == Str("") && inscripciones == JArr([]) && stats == JNull
      ensures loadingActividades && !loadingInscripciones && !loadingStats
      ensures error == Str("") && seenSelected == selectedEvent
    {
      userName := Str(DefaultUserName);
      actividades := JArr([]);
      selectedEvent := Str("");
      inscripciones := JArr([]);
      stats := JNull;
      loadingActividades := true;
      loadingInscripciones := false;
      loadingStats := false;
      error := Str("");
      seenSelected := Str("");
    }

    /** Lines 22-26 and 40-43: on mount the user name is read back and the
        activities are requested. */
    method Mount(store: Store, parse: Api.Parser) returns (call: Api.Call)
      modifies this
      ensures userName == UserName(store.usuario, parse, old(userName))
      ensures loadingActividades && call == Api.GetActividades()
      ensures actividades == old(actividades) && selectedEvent == old(selectedEvent)
      ensures inscripciones == old(inscripciones) && stats == old(stats) && error == old(error)
      ensures loadingInscripciones == old(loadingInscripciones) && loadingStats == old(loadingStats)
      ensures seenSelected == old(seenSelected)
    {
      userName := UserName(store.usuario, parse, userName);
      loadingActividades := true;
      call := Api.GetActividades();
    }

    /** Lines 44-61 once the activities request has settled: a non-empty
        list is stored and its first `coleccion` selected; an empty or missing
        list changes nothing; a failure (including a null first element, read
        after the list was stored) shows the fixed error and ends the session
        on an authentication message. The flag is cleared in every case. */
    method CompleteActivities(reply: Result<Json>) returns (logout: bool)
      modifies this
      ensures !loadingActividades
      ensures actividades == if ActivityList(reply).Some? then ActivityList(reply).value else old(actividades)
      ensures Scanner.DefaultEvent(reply).Ok? ==>
        !logout && error == old(error)
        && selectedEvent == (if Scanner.DefaultEvent(reply).value.Some?
                             then Scanner.DefaultEvent(reply).value.value else old(selectedEvent))
      ensures Scanner.DefaultEvent(reply).Fail? ==>
        error == Str(ActivitiesFailedText) && selectedEvent == old(selectedEvent)
        && logout == AuthError(Scanner.DefaultEvent(reply).error.message)
      ensures userName == old(userName) && inscripciones == old(inscripciones) && stats == old(stats)
      ensures loadingInscripciones == old(loadingInscripciones) && loadingStats == old(loadingStats)
      ensures seenSelected == old(seenSelected)
    {
      logout := false;
      var list := ActivityList(reply);
      if list.Some? {
        actividades := list.value;
      }
      match Scanner.DefaultEvent(reply) {
        case Ok(selection) =>
          if selection.Some? {
            selectedEvent := selection.value;
          }
        case Fail(e) =>
          error := Str(ActivitiesFailedText);
          logout := AuthError(e.message);
      }
      loadingActividades := false;
    }

    /** Lines 64-70: a falsy activity starts nothing; otherwise both flags are
        set, the error cleared, and the inscriptions and statistics requested. */
    method BeginLoad(coleccion: Value) returns (calls: Option<(Api.Call, Api.Call)>)
      modifies this
      ensures !Truthy(coleccion) ==>
        calls == None && error == old(error)
        && loadingInscripciones == old(loadingInscripciones) && loadingStats == old(loadingStats)
      ensures Truthy(coleccion) ==>
        calls == Some(LoadCalls(coleccion)) && error == Str("")
        && loadingInscripciones && loadingStats
      ensures userName == old(userName) && actividades == old(actividades)
      ensures selectedEvent == old(selectedEvent) && inscripciones == old(inscripciones)
      ensures stats == old(stats) && loadingActividades == old(loadingActividades)
      ensures seenSelected == old(seenSelected)
    {
      if !Truthy(coleccion) {
        return None;
      }
      loadingInscripciones := true;
      loadingStats := true;
      error := Str("");
      calls := Some(LoadCalls(coleccion));
    }

    /** Lines 76-95 once both requests have settled. A successful list reply
        sets the inscriptions (`[]` when missing); an unsuccessful one shows
        its message and keeps them; the statistics change only when present.
        A rejection, or a null reply, shows the error with its message and
        ends the session on an authentication message. Both flags are cleared
        in every case. */
    method CompleteLoad(replies: Result<(Json, Json)>) returns (logout: bool)
      modifies this
      ensures !loadingInscripciones && !loadingStats
      ensures replies.Fail? ==>
        error == Str(LoadFailedPrefix + replies.error.message) && logout == AuthError(replies.error.message)
        && inscripciones == old(inscripciones) && stats == old(stats)
      ensures replies.Ok? && replies.value.0 == JNull ==>
        error == Str(LoadFailedPrefix + TypeError("null", "success").message)
        && logout == AuthError(TypeError("null", "success").message)
        && inscripciones == old(inscripciones) && stats == old(stats)
      ensures replies.Ok? && replies.value.0 != JNull ==>
        var (ins, st) := replies.value;
        inscripciones == (if Truthy(Prop(ins, "success"))
                          then Or(Prop(ins, "inscripciones"), Some(JArr([]))).value
                          else old(inscripciones))
        && (st != JNull ==>
              !logout
              && stats == (if Truthy(Prop(st, "estadisticas")) then Prop(st, "estadisticas").value else old(stats))
              && error == (if Truthy(Prop(ins, "success")) then old(error)
                           else Or(Prop(ins, "message"), Str(InscripcionesFailedText))))
        && (st == JNull ==>
              stats == old(stats)
              && error == Str(LoadFailedPrefix + TypeError("null", "estadisticas").message)
              && logout == AuthError(TypeError("null", "estadisticas").message))
      ensures userName == old(userName) && actividades == old(actividades)
      ensures selectedEvent == old(selectedEvent) && loadingActividades == old(loadingActividades)
      ensures seenSelected == old(seenSelected)
    {
      logout := false;
      var thrown: Option<Error> := None;
      match replies {
        case Fail(e) =>
          thrown := Some(e);
        case Ok((ins, st)) =>
          match Member(Some(ins), "success") {
            case Fail(e) =>
              thrown := Some(e);
            case Ok(success) =>
              if Truthy(success) {
                inscripciones := Or(Prop(ins, "inscripciones"), Some(JArr([]))).value;
              } else {
                error := Or(Prop(ins, "message"), Str(InscripcionesFailedText));
              }
              match Member(Some(st), "estadisticas") {
                case Fail(e) =>
                  thrown := Some(e);
                case Ok(estadisticas) =>
                  if Truthy(estadisticas) {
                    stats := estadisticas.value;
                  }
              }
          }
      }
      if thrown.Some? {
        error := Str(LoadFailedPrefix + thrown.value.message);
        logout := AuthError(thrown.value.message);
      }
      loadingInscripciones := false;
      loadingStats := false;
    }

    /** Lines 98-106: the activity is selected; a truthy one is loaded, a falsy
        one clears the inscriptions and the statistics. */
    method HandleEventChange(coleccion: Value) returns (calls: Option<(Api.Call, Api.Call)>)
      modifies this
      ensures selectedEvent == coleccion
      ensures Truthy(coleccion) ==>
        calls == Some(LoadCalls(coleccion)) && loadingInscripciones && loadingStats
        && error == Str("") && inscripciones == old(inscripciones) && stats == old(stats)
      ensures !Truthy(coleccion) ==>
        calls == None && inscripciones == JArr([]) && stats == JNull && error == old(error)
        && loadingInscripciones == old(loadingInscripciones) && loadingStats == old(loadingStats)
      ensures userName == old(userName) && actividades == old(actividades)
      ensures loadingActividades == old(loadingActividades) && seenSelected == old(seenSelected)
    {
      selectedEvent := coleccion;
      if Truthy(coleccion) {
        calls := BeginLoad(coleccion);
      } else {
        inscripciones := JArr([]);
        stats := JNull;
        calls := None;
      }
    }

    /** Lines 136-141: after a render in which `selectedEvent` changed, a
        truthy selection is loaded (again, after `HandleEventChange`). */
    method OnSelectedEventEffect() returns (calls: Option<(Api.Call, Api.Call)>)
      modifies this
      ensures seenSelected == selectedEvent && selectedEvent == old(selectedEvent)
      ensures calls.Some? <==> old(seenSelected) != selectedEvent && Truthy(selectedEvent)
      ensures calls.Some? ==>
        calls.value == LoadCalls(selectedEvent) && loadingInscripciones && loadingStats && error == Str("")
      ensures calls.None? ==>
        error == old(error) && loadingInscripciones == old(loadingInscripciones)
        && loadingStats == old(loadingStats)
      ensures userName == old(userName) && actividades == old(actividades)
      ensures inscripciones == old(inscripciones) && stats == old(stats)
      ensures loadingActividades == old(loadingActividades)
    {
      calls := None;
      if seenSelected != selectedEvent {
        seenSelected := selectedEvent;
        calls := BeginLoad(selectedEvent);
      }
    }

    /** Lines 108-114: the user is asked first; a declined confirmation makes
        no request. */
    method BeginMark(id: Value, coleccion: Value, asistencia: bool, confirmed: bool)
      returns (prompt: string, call: Option<Api.Call>)
      ensures prompt == ConfirmPrompt(asistencia)
      ensures call.None? <==> !confirmed
      ensures call.Some? ==> call.value == Api.MarcarAsistencia(ToText(id), ToText(coleccion), asistencia)
    {
      prompt := ConfirmPrompt(asistencia);
      call := if confirmed then Some(Api.MarcarAsistencia(ToText(id), ToText(coleccion), asistencia)) else None;
    }

    /** Lines 114-131 once the request has settled: success alerts and reloads
        the activity (clearing the error), or changes nothing more when the
        activity is falsy; otherwise (a rejection, a null reply or a falsy
        `success`) the error is alerted and an authentication message ends the
        session. */
    method CompleteMark(coleccion: Value, asistencia: bool, reply: Result<Json>)
      returns (alertText: string, logout: bool, reload: Option<(Api.Call, Api.Call)>)
      modifies this
      ensures Scanner.ConfirmOutcome(reply).Ok? ==>
        alertText == MarkedText(asistencia) && !logout
        && (reload.Some? <==> Truthy(coleccion))
        && (reload.Some? ==>
              reload.value == LoadCalls(coleccion) && loadingInscripciones && loadingStats && error == Str(""))
        && (reload.None? ==>
              error == old(error) && loadingInscripciones == old(loadingInscripciones)
              && loadingStats == old(loadingStats))
      ensures Scanner.ConfirmOutcome(reply).Fail? ==>
        var m := Scanner.ConfirmOutcome(reply).error.message;
        alertText == MarkFailedPrefix + m && logout == AuthError(m) && reload == None
        && error == old(error) && loadingInscripciones == old(loadingInscripciones)
        && loadingStats == old(loadingStats)
      ensures userName == old(userName) && actividades == old(actividades)
      ensures selectedEvent == old(selectedEvent) && inscripciones == old(inscripciones)
      ensures stats == old(stats) && loadingActividades == old(loadingActividades)
      ensures seenSelected == old(seenSelected)
    {
      match Scanner.ConfirmOutcome(reply) {
        case Ok(_) =>
          alertText := MarkedText(asistencia);
          logout := false;
          reload := BeginLoad(coleccion);
        case Fail(e) =>
          alertText := MarkFailedPrefix + e.message;
          logout := AuthError(e.message);
          reload := None;
      }
    }
  }
}
