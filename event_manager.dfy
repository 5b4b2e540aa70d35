/**
 * The event editor (src/components/EventManager.jsx): a form buffer
 * (`formData`), whether the form is open (`isCreating`) and which event it
 * edits (`editingId`). Its calls to the API are commented out in the source,
 * so every action succeeds: it shows a success notice (when a notifier is
 * installed) and asks the caller to refresh.
 */
module EventManager {
  import opened Json

  /** The seven fields of the form, in display order. */
  const FormFields: seq<string> := ["nombre", "descripcion", "fecha", "hora", "lugar", "cupo_maximo", "estado"]

  const Activo: string := "activo"
  const Inactivo: string := "inactivo"

  /** A `window.showNotification(text, kind)` call. */
  datatype Notice = Notice(text: string, kind: string)

  /** What the save button (line 348) runs. */
  datatype Dispatch = Created | Updated(id: Value)

  /** The default of a field: empty text, and `activo` for `estado`. */
  function FieldDefault(field: string): Json {
    if field == "estado" then JStr(Activo) else JStr("")
  }

  /** Lines 19-27 and 34-42: the blank form. */
  function BlankForm(): (r: Record)
    ensures forall k :: k in r <==> k in FormFields
    ensures forall k :: k in r ==> r[k] == FieldDefault(k)
    ensures r["estado"] == JStr(Activo)
  {
    map k | k in FormFields :: FieldDefault(k)
  }

  /** Lines 67-75: the form filled from an event, `''` for a falsy field and
      `activo` for a falsy `estado`. */
  function EditForm(actividad: Record): (r: Record)
    ensures forall k :: k in r <==> k in FormFields
    ensures forall k :: k in r ==>
      r[k] == if Truthy(Get(actividad, k)) then actividad[k] else FieldDefault(k)
  {
    map k | k in FormFields :: Or(Get(actividad, k), Some(FieldDefault(k))).value
  }

  /** Editing an event whose fields are all set copies them; editing one with
      none set gives the blank form. */
  lemma EditFormExtremes(actividad: Record)
    ensures (forall k :: k in FormFields ==> Truthy(Get(actividad, k))) ==>
      forall k :: k in FormFields ==> EditForm(actividad)[k] == actividad[k]
    ensures (forall k :: k in FormFields ==> !Truthy(Get(actividad, k))) ==>
      EditForm(actividad) == BlankForm()
  {
    if forall k :: k in FormFields ==> !Truthy(Get(actividad, k)) {
      var e := EditForm(actividad);
      var b := BlankForm();
      assert forall k :: k in e ==> e[k] == b[k];
    }
  }

  /** Line 141: `currentStatus === 'activo' ? 'inactivo' : 'activo'`. */
  function NewStatus(current: Value): (r: string)
    ensures r == Activo || r == Inactivo
    ensures r == Inactivo <==> current == Str(Activo)
  {
    if current == Str(Activo) then Inactivo else Activo
  }

  /** Toggling twice restores either known status; any other status,
      including a missing one, toggles to `activo`. */
  lemma NewStatusToggle(current: Value)
    ensures current == Str(Activo) || current == Str(Inactivo) ==>
      Str(NewStatus(Str(NewStatus(current)))) == current
    ensures current != Str(Activo) ==> NewStatus(current) == Activo
  {
  }

  /** Line 145: the notice after a toggle. */
  function ToggleText(newStatus: string): string {
    "✅ Evento " + (if newStatus == Activo then "activado" else "desactivado")
  }

  /** Line 120: the question before a delete. */
  function DeletePrompt(nombre: Value): string {
    "⚠️ ¿Estás seguro de eliminar \"" + ToText(nombre) + "\"? Esta acción no se puede deshacer."
  }

  /** A success notice when a notifier is installed. */
  function SuccessNotice(notifier: bool, text: string): (r: Option<Notice>)
    ensures r.Some? <==> notifier
    ensures r.Some? ==> r.value == Notice(text, "success")
  {
    if notifier then Some(Notice(text, "success")) else None
  }

  class EventForm {
    var formData: Record
    var isCreating: bool
    var editingId: Value

    /** Lines 17-27. */
    constructor ()
      ensures formData == BlankForm() && !isCreating && editingId == Some(JNull)
    {
      formData := BlankForm();
      isCreating := false;
      editingId := Some(JNull);
    }

    /** Lines 29-31: only the named field changes. */
    method HandleInputChange(field: string, value: Json)
      modifies this
      ensures formData == old(formData)[field := value]
      ensures forall k :: k != field ==> (k in formData <==> k in old(formData))
      ensures forall k :: k != field && k in formData ==> formData[k] == old(formData)[k]
      ensures isCreating == old(isCreating) && editingId == old(editingId)
    {
      formData := formData[field := value];
    }

    /** Lines 33-45: the blank form, closed, editing nothing. */
    method ResetForm()
      modifies this
      ensures formData == BlankForm() && !isCreating && editingId == Some(JNull)
    {
      formData := BlankForm();
      isCreating := false;
      editingId := Some(JNull);
    }

    /** Line 175: the "new event" button opens the form as it is. */
    method OpenCreate()
      modifies this
      ensures isCreating && formData == old(formData) && editingId == old(editingId)
    {
      isCreating := true;
    }

    /** Lines 65-77: the form opens on a copy of the event, editing its
        `coleccion`. */
    method HandleEdit(actividad: Record)
      modifies this
      ensures editingId == Get(actividad, "coleccion")
      ensures formData == EditForm(actividad) && isCreating
    {
      editingId := Get(actividad, "coleccion");
      formData := EditForm(actividad);
      isCreating := true;
    }

    /** Line 348 with lines 47-63 and 79-94: the save button updates when an
        event is being edited and creates otherwise; either way the form is
        reset and the caller refreshes. */
    method Save(notifier: bool) returns (dispatched: Dispatch, notice: Option<Notice>, refresh: bool)
      modifies this
      ensures dispatched == if Truthy(old(editingId)) then Updated(old(editingId)) else Created
      ensures notice == SuccessNotice(notifier,
        if dispatched.Updated? then "✅ Evento actualizado exitosamente" else "✅ Evento creado exitosamente")
      ensures refresh
      ensures formData == BlankForm() && !isCreating && editingId == Some(JNull)
    {
      if Truthy(editingId) {
        dispatched := Updated(editingId);
        notice := SuccessNotice(notifier, "✅ Evento actualizado exitosamente");
      } else {
        dispatched := Created;
        notice := SuccessNotice(notifier, "✅ Evento creado exitosamente");
      }
      ResetForm();
      refresh := true;
    }

    /** Lines 96-117: duplicating leaves the form alone and refreshes. */
    method HandleDuplicate(notifier: bool) returns (notice: Option<Notice>, refresh: bool)
      ensures notice == SuccessNotice(notifier, "✅ Evento duplicado exitosamente")
      ensures refresh
    {
      notice := SuccessNotice(notifier, "✅ Evento duplicado exitosamente");
      refresh := true;
    }

    /** Lines 119-137: a declined confirmation does nothing; an accepted one
        notifies and refreshes. */
    method HandleDelete(nombre: Value, confirmed: bool, notifier: bool)
      returns (prompt: string, notice: Option<Notice>, refresh: bool)
      ensures prompt == DeletePrompt(nombre)
      ensures refresh <==> confirmed
      ensures !confirmed ==> notice == None
      ensures confirmed ==> notice == SuccessNotice(notifier, "✅ Evento eliminado exitosamente")
    {
      prompt := DeletePrompt(nombre);
      if !confirmed {
        return prompt, None, false;
      }
      notice := SuccessNotice(notifier, "✅ Evento eliminado exitosamente");
      refresh := true;
    }

    /** Lines 139-154: the status the event would be switched to, announced,
        and a refresh. */
    method HandleToggleStatus(currentStatus: Value, notifier: bool)
      returns (newStatus: string, notice: Option<Notice>, refresh: bool)
      ensures newStatus == NewStatus(currentStatus)
      ensures notice == SuccessNotice(notifier, ToggleText(newStatus))
      ensures refresh
    {
      newStatus := NewStatus(currentStatus);
      notice := SuccessNotice(notifier, ToggleText(newStatus));
      refresh := true;
    }
  }
}
