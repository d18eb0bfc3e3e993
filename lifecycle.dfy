/** The create / edit / update lifecycle shared by the three record editors
    (directory, flashcard front, back item): whether the form accepts input,
    and the visible, disabled and caption state of the Create, Edit and
    Update buttons. Each editor drives the same transitions; only captions
    and a few extra flags differ. */
module Lifecycle {

  datatype Controls = Controls(
    isFormEditable: bool,
    createVisible: bool, createDisabled: bool, createText: string,
    editVisible: bool, editDisabled: bool,
    updateVisible: bool, updateDisabled: bool, updateText: string)

  /** A draft has no stored record yet; a saved record is either shown read
      only or being edited. */
  datatype Phase = Draft | ReadOnly | Editing

  function PhaseOf(hasRecord: bool, c: Controls): Phase {
    if !hasRecord then Draft else if c.isFormEditable then Editing else ReadOnly
  }

  /** The controls agree with the phase: a draft is editable with Create shown
      and Edit/Update hidden; a saved record shows Edit and Update, and
      accepts input exactly while Edit is disabled and exactly while Update
      is enabled. */
  predicate Consistent(hasRecord: bool, c: Controls) {
    && (!hasRecord ==> c.isFormEditable && c.createVisible && !c.editVisible && !c.updateVisible)
    && (hasRecord ==> c.editVisible && c.updateVisible
                      && (c.isFormEditable <==> c.editDisabled)
                      && (c.isFormEditable <==> !c.updateDisabled))
  }

  /** The mode-setup effect that runs whenever the record id changes: a saved
      record opens read only with Edit enabled and Update shown but
      disabled; a draft opens editable with Create enabled. */
  function Setup(hasRecord: bool, c: Controls): (d: Controls)
    ensures Consistent(hasRecord, d)
    ensures PhaseOf(hasRecord, d) == (if hasRecord then ReadOnly else Draft)
    ensures hasRecord ==> !d.editDisabled && d.updateDisabled
    ensures hasRecord ==> d.createVisible == c.createVisible && d.createDisabled == c.createDisabled
    ensures !hasRecord ==> d.createVisible && !d.createDisabled
    ensures d.createText == c.createText && d.updateText == c.updateText
  {
    if hasRecord then
      c.(isFormEditable := false, editVisible := true, editDisabled := false,
         updateVisible := true, updateDisabled := true)
    else
      c.(isFormEditable := true, createVisible := true, createDisabled := false,
         editVisible := false, updateVisible := false)
  }

  /** The mode-setup effect of the directory and front editors: as `Setup`,
      and a saved record also hides Create. */
  function SetupHidingCreate(hasRecord: bool, c: Controls): (d: Controls)
    ensures Consistent(hasRecord, d) && (hasRecord ==> !d.createVisible)
    ensures PhaseOf(hasRecord, d) == (if hasRecord then ReadOnly else Draft)
  {
    if hasRecord then Setup(true, c).(createVisible := false) else Setup(false, c)
  }

  /** A successful create: Create stays disabled with the caption "Saved",
      Edit is shown enabled, and the record id is now set, so the mode-setup
      effect runs for a saved record. */
  function Saved(c: Controls): (d: Controls)
    ensures Consistent(true, d) && PhaseOf(true, d) == ReadOnly
    ensures d.createDisabled && d.createText == "Saved"
    ensures !d.editDisabled && d.updateDisabled && d.updateText == c.updateText
  {
    Setup(true, c.(createDisabled := true, createText := "Saved", editVisible := true, editDisabled := false))
  }

  /** `handleEdit`: unlocks the form and offers Update with the caption "Update". */
  function Edited(c: Controls): (d: Controls)
    requires Consistent(true, c) && !c.editDisabled
    ensures Consistent(true, d) && PhaseOf(true, c) == ReadOnly && PhaseOf(true, d) == Editing
    ensures !d.updateDisabled && d.updateText == "Update" && d.editDisabled
    ensures d.createVisible == c.createVisible && d.createDisabled == c.createDisabled && d.createText == c.createText
  {
    c.(editDisabled := true, isFormEditable := true, updateText := "Update",
       updateVisible := true, updateDisabled := false)
  }

  /** An input change: in a saved record it enables Update. Inputs accept
      changes only while the form is editable, and a saved record's form is
      editable only while Update is already enabled, so this changes nothing. */
  function Changed(hasRecord: bool, c: Controls): (d: Controls)
    requires Consistent(hasRecord, c) && c.isFormEditable
    ensures hasRecord ==> !d.updateDisabled
    ensures d == c
  {
    if hasRecord then c.(updateDisabled := false) else c
  }

  /** An update that was refused (invalid input) or failed: the form stays
      editable and Update stays offered. */
  function UpdateRejected(c: Controls): (d: Controls)
    requires Consistent(true, c) && !c.updateDisabled
    ensures Consistent(true, d) && PhaseOf(true, d) == Editing && !d.updateDisabled
    ensures d == c
  {
    c.(updateDisabled := false, isFormEditable := true)
  }

  /** A successful update: the form locks, Update is disabled with the
      caption `text`, and Edit is enabled again. */
  function Updated(c: Controls, text: string): (d: Controls)
    requires Consistent(true, c) && !c.updateDisabled
    ensures Consistent(true, d) && PhaseOf(true, c) == Editing && PhaseOf(true, d) == ReadOnly
    ensures !d.editDisabled && d.updateDisabled && d.updateText == text
  {
    c.(updateText := text, editDisabled := false, updateDisabled := true, isFormEditable := false)
  }

  /** Editing and then saving successfully returns to the read-only controls
      the record had before, with only the Update caption changed. */
  lemma EditThenUpdateRestores(c: Controls, text: string)
    requires Consistent(true, c) && PhaseOf(true, c) == ReadOnly
    ensures Updated(Edited(c), text) == c.(updateText := text)
  {
  }
}
