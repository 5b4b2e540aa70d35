/**
 * The check-in screen (src/components/Scanner.js): the scanned QR text is
 * looked up as an inscription id, the found participant can be confirmed as
 * attending the selected event, and the screen resets itself after a failed
 * lookup (3 s) or a confirmed attendance (2 s).
 *
 * The text is passed verbatim as the id; it is never parsed. Each asynchronous
 * handler is split at its `await` into a `Begin`/`Complete` pair, and timers
 * are pending actions that `FireTimer` runs.
 */
module Scanner {
  import opened Json
  import Api
  import opened Session
  import opened UseScanner

  const PromptText: string := "Presiona \"Iniciar Scanner\" para comenzar"
  const StartingText: string := "Iniciando cámara..."
  const FoundText: string := "✅ Usuario encontrado correctamente"
  const NotFoundDefault: string := "Usuario no encontrado"
  const ConfirmedText: string := "✅ Asistencia confirmada exitosamente"
  const EventsFailedText: string := "Error al cargar los eventos"
  const FailurePrefix: string := "❌ Error: "

  const LookupResetDelay: nat := 3000
  const ConfirmResetDelay: nat := 2000

  /** The message box: its text and its kind (`info`, `success` or `error`). */
  datatype Notice = Notice(text: string, kind: string)

  /** A scheduled `resetScannerState`, with its delay in milliseconds. */
  datatype Timer = ResetAfter(delay: nat)

  /** Lines 85-95: the inscription a lookup reply yields, or the error thrown.
      Reading `success` of a null reply throws. */
  function LookupOutcome(reply: Result<Json>): (r: Result<Json>)
    ensures r.Ok? <==>
      reply.Ok? && reply.value != JNull && Truthy(Prop(reply.value, "success"))
      && Truthy(Prop(reply.value, "inscripcion"))
    ensures r.Ok? ==> Some(r.value) == Prop(reply.value, "inscripcion")
    ensures reply.Fail? ==> r == reply
  {
    match reply
    case Fail(e) => Fail(e)
    case Ok(data) =>
      match Member(Some(data), "success")
      case Fail(e) => Fail(e)
      case Ok(success) =>
        if Truthy(success) && Truthy(Prop(data, "inscripcion")) then Ok(Prop(data, "inscripcion").value)
        else Fail(Error(ErrorText(Or(Prop(data, "message"), Str(NotFoundDefault))), None, None))
  }

  /** A lookup that fails on a reply that arrived shows the reply's message, or
      the default when that is falsy. */
  lemma LookupFailureMessage(data: Json)
    requires data != JNull
    requires !(Truthy(Prop(data, "success")) && Truthy(Prop(data, "inscripcion")))
    ensures LookupOutcome(Ok(data)).Fail?
    ensures LookupOutcome(Ok(data)).error.message ==
      (if Truthy(Prop(data, "message")) then ToText(Prop(data, "message")) else NotFoundDefault)
  {
  }

  /** Lines 117-137: whether a confirm reply counts as confirmed, or the error
      thrown; a falsy `success` throws `new Error(result.message)`. */
  function ConfirmOutcome(reply: Result<Json>): (r: Result<()>)
    ensures r.Ok? <==> reply.Ok? && reply.value != JNull && Truthy(Prop(reply.value, "success"))
    ensures reply.Ok? && reply.value != JNull && !r.Ok? ==>
      r.error.message == ErrorText(Prop(reply.value, "message"))
  {
    match reply
    case Fail(e) => Fail(e)
    case Ok(data) =>
      match Member(Some(data), "success")
      case Fail(e) => Fail(e)
      case Ok(success) =>
        if Truthy(success) then Ok(())
        else Fail(Error(ErrorText(Prop(data, "message")), None, None))
  }

  /** `{...prev, key: v}`: the object with one field set. A null or other
      non-object spreads no fields. */
  function WithField(prev: Json, key: string, v: Json): (r: Json)
    ensures r.JObj? && key in r.fields && r.fields[key] == v
    ensures prev.JObj? ==> r.fields == prev.fields[key := v]
    ensures !prev.JObj? ==> r.fields == map[key := v]
  {
    match prev
    case JObj(fields) => JObj(fields[key := v])
    case _ => JObj(map[key := v])
  }

  /** Lines 64-77: what loading the activities decides. `Ok(Some(v))` selects
      `v`, `Ok(None)` keeps the selection, and `Fail` is an error (reading
      through null throws). A non-empty string list yields a character, whose
      `coleccion` is undefined. */
  function DefaultEvent(reply: Result<Json>): (r: Result<Option<Value>>)
    ensures reply.Fail? ==> r.Fail?
    ensures (reply.Ok? && reply.value.JObj? && "actividades" in reply.value.fields
             && reply.value.fields["actividades"].JArr?
             && |reply.value.fields["actividades"].items| > 0
             && reply.value.fields["actividades"].items[0] != JNull) ==>
        r == Ok(Some(Prop(reply.value.fields["actividades"].items[0], "coleccion")))
    ensures (reply.Ok? && reply.value.JObj? && "actividades" in reply.value.fields
             && reply.value.fields["actividades"].JArr?
             && |reply.value.fields["actividades"].items| == 0) ==>
        r == Ok(None)
  {
    match reply
    case Fail(e) => Fail(e)
    case Ok(data) =>
      match Member(Some(data), "actividades")
      case Fail(e) => Fail(e)
      case Ok(acts) =>
        if !Truthy(acts) then Ok(None)
        else match acts.value
          case JArr(items) =>
            if |items| == 0 then Ok(None)
            else (match Member(Some(items[0]), "coleccion")
              case Fail(e) => Fail(e)
              case Ok(c) => Ok(Some(c)))
          case JStr(s) => if |s| == 0 then Ok(None) else Ok(Some(None))
          case _ => Ok(None)
  }

  /** Lines 175-184: the text for a camera status; an unknown status shows the
      text for `inactive`. */
  function CameraStatusText(status: string): (r: string)
    ensures status == Starting ==> r == "🔄 Iniciando cámara..."
    ensures status == Active ==> r == "🎥 Cámara activa - Escaneando..."
    ensures status == Scanned ==> r == "✅ QR escaneado correctamente"
    ensures status == Failed ==> r == "❌ Error de cámara"
    ensures !KnownStatus(status) || status == Inactive ==> r == "⏸️ Cámara inactiva"
  {
    var statusMap := map[
      Inactive := "⏸️ Cámara inactiva",
      Starting := "🔄 Iniciando cámara...",
      Active := "🎥 Cámara activa - Escaneando...",
      Scanned := "✅ QR escaneado correctamente",
      Failed := "❌ Error de cámara"];
    if status in statusMap && statusMap[status] != "" then statusMap[status] else statusMap[Inactive]
  }

  class ScannerScreen {
    const hook: ScannerHook
    var userName: Value
    var selectedEvent: Value
    /** The participant found, `JNull` when none. */
    var userInfo: Json
    var loading: bool
    var message: Notice
    var pending: seq<Timer>
    /** The values the two effects last ran with. */
    var seenScan: Option<string>
    var seenError: string

    predicate Valid()
      reads this, hook
    {
      hook.Valid()
    }

    /** Lines 9-26. */
    constructor ()
      ensures Valid() && fresh(hook)
      ensures userName == Str("Administrador") && selectedEvent == Str("") && userInfo == JNull
      ensures !loading && message == Notice(PromptText, "info") && pending == []
      ensures !hook.isScanning && hook.scannedData == None && hook.scanError == ""
      ensures hook.cameraStatus == Inactive
    {
      hook := new ScannerHook();
      userName := Str("Administrador");
      selectedEvent := Str("");
      userInfo := JNull;
      loading := false;
      message := Notice(PromptText, "info");
      pending := [];
      seenScan := None;
      seenError := "";
    }

    /** Lines 52-62. */
    method CargarInfoUsuario(store: Store, parse: Api.Parser)
      modifies this
      ensures userName == UserName(store.usuario, parse, old(userName))
      ensures selectedEvent == old(selectedEvent) && userInfo == old(userInfo)
      ensures message == old(message) && pending == old(pending) && loading == old(loading)
    {
      userName := UserName(store.usuario, parse, userName);
    }

    /** Lines 64-77, after the activities have been fetched. */
    method CargarEventoPorDefecto(reply: Result<Json>)
      modifies this
      ensures DefaultEvent(reply).Ok? && DefaultEvent(reply).value.Some? ==>
        selectedEvent == DefaultEvent(reply).value.value && message == old(message)
      ensures DefaultEvent(reply).Ok? && DefaultEvent(reply).value.None? ==>
        selectedEvent == old(selectedEvent) && message == old(message)
      ensures DefaultEvent(reply).Fail? ==>
        selectedEvent == old(selectedEvent) && message == Notice(EventsFailedText, "error")
      ensures userInfo == old(userInfo) && loading == old(loading) && pending == old(pending)
    {
      match DefaultEvent(reply) {
        case Ok(choice) =>
          if choice.Some? {
            selectedEvent := choice.value;
          }
        case Fail(_) =>
          message := Notice(EventsFailedText, "error");
      }
    }

    /** Lines 35-40 and 79-85: when the scanned data changes to a non-empty
        text, the lookup starts with that text as the id, verbatim. */
    method OnScannedDataEffect() returns (lookup: Option<Api.Call>)
      requires Valid()
      modifies this
      ensures Valid() && seenScan == hook.scannedData
      ensures lookup.Some? <==>
        hook.scannedData != old(seenScan) && hook.scannedData.Some? && hook.scannedData.value != ""
      ensures lookup.Some? ==>
        lookup.value == Api.BuscarInscripcion(hook.scannedData.value)
        && loading && userInfo == JNull
      ensures lookup.None? ==> loading == old(loading) && userInfo == old(userInfo)
      ensures message == old(message) && pending == old(pending) && selectedEvent == old(selectedEvent)
    {
      lookup := None;
      if hook.scannedData != seenScan {
        seenScan := hook.scannedData;
        if hook.scannedData.Some? && hook.scannedData.value != "" {
          loading := true;
          userInfo := JNull;
          lookup := Some(Api.BuscarInscripcion(hook.scannedData.value));
        }
      }
    }

    /** Lines 85-108 after the lookup: a found inscription becomes the shown
        participant; otherwise the error is shown and a reset is scheduled in
        3 s. Loading ends either way. */
    method CompleteLookup(reply: Result<Json>)
      modifies this
      ensures !loading && selectedEvent == old(selectedEvent)
      ensures LookupOutcome(reply).Ok? ==>
        userInfo == LookupOutcome(reply).value && message == Notice(FoundText, "success")
        && pending == old(pending)
      ensures LookupOutcome(reply).Fail? ==>
        userInfo == old(userInfo)
        && message == Notice(FailurePrefix + LookupOutcome(reply).error.message, "error")
        && pending == old(pending) + [ResetAfter(LookupResetDelay)]
    {
      match LookupOutcome(reply) {
        case Ok(inscripcion) =>
          userInfo := inscripcion;
          message := Notice(FoundText, "success");
        case Fail(e) =>
          message := Notice(FailurePrefix + e.message, "error");
          pending := pending + [ResetAfter(LookupResetDelay)];
      }
      loading := false;
    }

    /** Lines 111-121 up to the call: nothing happens without a participant and
        a selected event; otherwise attendance is marked for the participant's
        `_id` in the selected event. */
    method BeginConfirm() returns (call: Option<Api.Call>)
      modifies this
      ensures call.None? <==> !Truthy(Some(old(userInfo))) || !Truthy(old(selectedEvent))
      ensures call.None? ==> loading == old(loading)
      ensures call.Some? ==>
        loading
        && call.value == Api.MarcarAsistencia(ToText(Prop(userInfo, "_id")), ToText(selectedEvent), true)
      ensures userInfo == old(userInfo) && selectedEvent == old(selectedEvent)
      ensures message == old(message) && pending == old(pending)
    {
      if !Truthy(Some(userInfo)) || !Truthy(selectedEvent) {
        call := None;
        return;
      }
      loading := true;
      call := Some(Api.MarcarAsistencia(ToText(Prop(userInfo, "_id")), ToText(selectedEvent), true));
    }

    /** Lines 123-146 after the call: a confirmed attendance sets only the
        participant's `asistencia` to true and schedules a reset in 2 s; a
        failure keeps the participant and shows the error. Loading ends either
        way. */
    method CompleteConfirm(reply: Result<Json>)
      modifies this
      ensures !loading && selectedEvent == old(selectedEvent)
      ensures ConfirmOutcome(reply).Ok? ==>
        userInfo == WithField(old(userInfo), "asistencia", JBool(true))
        && message == Notice(ConfirmedText, "success")
        && pending == old(pending) + [ResetAfter(ConfirmResetDelay)]
      ensures ConfirmOutcome(reply).Fail? ==>
        userInfo == old(userInfo) && pending == old(pending)
        && message == Notice(FailurePrefix + ConfirmOutcome(reply).error.message, "error")
    {
      match ConfirmOutcome(reply) {
        case Ok(_) =>
          message := Notice(ConfirmedText, "success");
          userInfo := WithField(userInfo, "asistencia", JBool(true));
          pending := pending + [ResetAfter(ConfirmResetDelay)];
        case Fail(e) =>
          message := Notice(FailurePrefix + e.message, "error");
      }
      loading := false;
    }

    /** Lines 43-50: when the scan error changes to a non-empty text it is shown. */
    method OnScanErrorEffect()
      modifies this
      ensures seenError == hook.scanError
      ensures hook.scanError != old(seenError) && hook.scanError != "" ==>
        message == Notice("Error: " + hook.scanError, "error")
      ensures !(hook.scanError != old(seenError) && hook.scanError != "") ==> message == old(message)
      ensures userInfo == old(userInfo) && loading == old(loading) && pending == old(pending)
      ensures selectedEvent == old(selectedEvent)
    {
      if hook.scanError != seenError {
        seenError := hook.scanError;
        if hook.scanError != "" {
          message := Notice("Error: " + hook.scanError, "error");
        }
      }
    }

    /** Lines 166-173: the hook is reset, the participant cleared and the
        prompt restored. Scheduled resets stay scheduled. */
    method ResetScannerState()
      requires Valid()
      modifies this, hook
      ensures Valid()
      ensures userInfo == JNull && message == Notice(PromptText, "info")
      ensures hook.scannedData == None && hook.scanError == "" && hook.cameraStatus == Inactive
      ensures hook.isScanning == old(hook.isScanning) && hook.hasInstance == old(hook.hasInstance)
      ensures loading == old(loading) && pending == old(pending) && selectedEvent == old(selectedEvent)
    {
      hook.ResetScanner();
      userInfo := JNull;
      message := Notice(PromptText, "info");
    }

    /** Lines 149-155 up to the camera's answer (`CompleteStart` of the hook). */
    method HandleStartScanner()
      requires Valid()
      modifies this, hook
      ensures Valid() && message == Notice(StartingText, "info")
      ensures hook.scanError == "" && hook.cameraStatus == Starting && hook.hasInstance
      ensures hook.isScanning == old(hook.isScanning) && hook.scannedData == old(hook.scannedData)
      ensures userInfo == old(userInfo) && loading == old(loading) && pending == old(pending)
    {
      message := Notice(StartingText, "info");
      hook.BeginStart();
    }

    /** Lines 157-160: stop, then reset. Whatever the stop did, the screen ends
        with no participant, the prompt, no scan error and status `inactive`;
        the stop error the hook sets is cleared again by the reset. */
    method HandleStopScanner(stopped: Option<Error>)
      requires Valid()
      modifies this, hook
      ensures Valid()
      ensures userInfo == JNull && message == Notice(PromptText, "info")
      ensures hook.scannedData == None && hook.scanError == "" && hook.cameraStatus == Inactive
      ensures hook.isScanning == (old(hook.isScanning) && !(old(hook.hasInstance) && stopped == None))
    {
      hook.StopScanner(stopped);
      ResetScannerState();
    }

    /** Lines 162-164. */
    method HandleCancel()
      requires Valid()
      modifies this, hook
      ensures Valid()
      ensures userInfo == JNull && message == Notice(PromptText, "info")
      ensures hook.scannedData == None && hook.scanError == "" && hook.cameraStatus == Inactive
      ensures hook.isScanning == old(hook.isScanning)
    {
      ResetScannerState();
    }

    /** A scheduled reset runs and is no longer pending (lines 103-105, 132-134). */
    method FireTimer(i: nat)
      requires Valid() && i < |pending|
      modifies this, hook
      ensures Valid()
      ensures pending == old(pending[..i] + pending[i + 1..])
      ensures userInfo == JNull && message == Notice(PromptText, "info")
      ensures hook.scannedData == None && hook.scanError == "" && hook.cameraStatus == Inactive
    {
      pending := pending[..i] + pending[i + 1..];
      ResetScannerState();
    }
  }
}
