/**
 * The participant profile (src/components/ParticipantModal.jsx): an edit
 * buffer (`editedData`) for four fields, initialised from the participant
 * whenever the participant changes, and the edit mode (`isEditing`). Saving
 * and marking attendance are requests returned to the caller (`onUpdate`,
 * `onMarkAttendance`). Without a participant the modal renders nothing.
 */
module ParticipantModal {
  import opened Json
  import ReportData

  /** The editable fields (lines 19-24). */
  const EditFields: seq<string> := ["nombre", "email", "telefono", "notas"]

  const Unavailable: string := "No disponible"

  /** Lines 19-24: the buffer before any participant. */
  function BlankEdit(): (r: Record)
    ensures forall k :: k in r <==> k in EditFields
    ensures forall k :: k in r ==> r[k] == JStr("")
  {
    map k | k in EditFields :: JStr("")
  }

  /** Lines 28-33 and 52-57: each field of the participant, `''` when falsy. */
  function EditedFrom(participant: Record): (r: Record)
    ensures forall k :: k in r <==> k in EditFields
    ensures forall k :: k in r ==>
      r[k] == if Truthy(Get(participant, k)) then participant[k] else JStr("")
  {
    map k | k in EditFields :: Or(Get(participant, k), Str("")).value
  }

  /** The buffer is a fixed point: initialising from it again changes
      nothing, and a participant with no editable field set gives the blank
      buffer. */
  lemma EditedFromFixedPoint(participant: Record)
    ensures EditedFrom(EditedFrom(participant)) == EditedFrom(participant)
    ensures (forall k :: k in EditFields ==> !Truthy(Get(participant, k))) ==>
      EditedFrom(participant) == BlankEdit()
  {
    var e := EditedFrom(participant);
    var ee := EditedFrom(e);
    assert forall k :: k in ee ==> ee[k] == e[k];
    if forall k :: k in EditFields ==> !Truthy(Get(participant, k)) {
      var b := BlankEdit();
      assert forall k :: k in e ==> e[k] == b[k];
    }
  }

  /** Lines 61-71: a falsy date shows "No disponible"; any other is formatted. */
  function FormatDate(date: Value, format: ReportData.DateFormatter): (r: string)
    ensures !Truthy(date) ==> r == Unavailable
    ensures Truthy(date) ==> r == format(date.value)
  {
    if !Truthy(date) then Unavailable else format(date.value)
  }

  class ParticipantEditor {
    var participant: Option<Record>
    var isEditing: bool
    var editedData: Record

    /** The modal renders (line 37). */
    predicate Shown()
      reads this
    {
      participant.Some?
    }

    /** Lines 17-35 at mount: not editing, and the buffer initialised from the
        participant when there is one. */
    constructor (participant: Option<Record>)
      ensures this.participant == participant && !isEditing
      ensures editedData == if participant.Some? then EditedFrom(participant.value) else BlankEdit()
    {
      this.participant := participant;
      isEditing := false;
      editedData := if participant.Some? then EditedFrom(participant.value) else BlankEdit();
    }

    /** Lines 26-35 on a new render: React reruns the effect when the
        `participant` prop is another reference (`Object.is`), which
        `newReference` says; a different value is always another reference.
        The effect reinitialises the buffer from a participant, so edits
        are lost even when the new object has the same contents; the edit
        mode is kept. */
    method SetParticipant(p: Option<Record>, newReference: bool)
      requires p != participant ==> newReference
      modifies this
      ensures participant == p && isEditing == old(isEditing)
      ensures editedData ==
        if newReference && p.Some? then EditedFrom(p.value) else old(editedData)
    {
      participant := p;
      if newReference && p.Some? {
        editedData := EditedFrom(p.value);
      }
    }

    /** Line 115: the edit button. */
    method StartEditing()
      requires Shown()
      modifies this
      ensures isEditing && editedData == old(editedData)
      ensures participant == old(participant)
    {
      isEditing := true;
    }

    /** Lines 39-44: only that field of the buffer changes. */
    method HandleInputChange(field: string, value: Json)
      requires Shown()
      modifies this
      ensures editedData == old(editedData)[field := value]
      ensures forall k :: k != field ==> (k in editedData <==> k in old(editedData))
      ensures forall k :: k != field && k in editedData ==> editedData[k] == old(editedData)[k]
      ensures isEditing == old(isEditing)
      ensures participant == old(participant)
    {
      editedData := editedData[field := value];
    }

    /** Lines 46-49: the participant's id goes out with the current buffer,
        and edit mode ends. */
    method HandleSave() returns (id: Value, data: Record)
      requires Shown()
      modifies this
      ensures participant == old(participant)
      ensures id == Get(participant.value, "id") && data == old(editedData)
      ensures !isEditing && editedData == old(editedData)
    {
      id := Get(participant.value, "id");
      data := editedData;
      isEditing := false;
    }

    /** Lines 51-59: edits are discarded and edit mode ends. */
    method HandleCancel()
      requires Shown()
      modifies this
      ensures participant == old(participant)
      ensures editedData == EditedFrom(participant.value) && !isEditing
    {
      editedData := EditedFrom(participant.value);
      isEditing := false;
    }

    /** Line 104: the attendance button asks for the opposite of the current
        attendance. */
    method ToggleAttendance() returns (id: Value, asistencia: bool)
      requires Shown()
      ensures id == Get(participant.value, "id")
      ensures asistencia <==> !Truthy(Get(participant.value, "asistencia"))
    {
      id := Get(participant.value, "id");
      asistencia := !Truthy(Get(participant.value, "asistencia"));
    }
  }

  /** Edit, then cancel: whatever was typed, the buffer is back to what the
      participant gave it, and no edit is pending. */
  method EditThenCancel(e: ParticipantEditor, field: string, value: Json)
    requires e.Shown()
    requires e.editedData == EditedFrom(e.participant.value)
    modifies e
    ensures e.editedData == old(e.editedData) && !e.isEditing
  {
    e.StartEditing();
    e.HandleInputChange(field, value);
    e.HandleCancel();
  }

  /** Edit, then the parent renders again with a new object of the same
      contents: the effect reruns and the typed edit is lost, while edit mode
      stays on. */
  method EditThenRerender(e: ParticipantEditor, field: string, value: Json)
    requires e.Shown()
    requires e.editedData == EditedFrom(e.participant.value)
    modifies e
    ensures e.editedData == old(e.editedData) && e.isEditing
  {
    e.StartEditing();
    e.HandleInputChange(field, value);
    e.SetParticipant(e.participant, true);
  }
}
