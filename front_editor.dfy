/** The editor of a flashcard's front: a name, a description, subtitles, a
    memory score, a muted flag, three links and three media files, with a
    create / edit / update / delete lifecycle against the record store. */
module FrontEditor {
  import opened Outcomes
  import opened Text
  import opened Records
  import opened Forms
  import opened Lifecycle

  /** The values of the form's inputs. */
  datatype FrontForm = FrontForm(
    name: string, richText: string, subtitles: string, memory: int, muted: bool,
    youtube: string, github: string, blog: string,
    image: Option<FileRef>, video: Option<FileRef>, audio: Option<FileRef>)

  /** The inputs after a delete, and before anything is typed. */
  const EmptyForm := FrontForm("", "", "", 0, false, "", "", "", None, None, None)

  /** The memory input: an empty input stores 0, a number is clamped to 0..10. */
  function ClampMemory(input: Option<int>): (m: int)
    ensures 0 <= m <= 10
    ensures input.None? ==> m == 0
    ensures input.Some? && 0 <= input.value <= 10 ==> m == input.value
    ensures input.Some? && input.value < 0 ==> m == 0
    ensures input.Some? && input.value > 10 ==> m == 10
  {
    if input.None? then 0
    else if input.value < 0 then 0
    else if input.value > 10 then 10
    else input.value
  }

  /** Typing back a clamped value keeps it. */
  lemma ClampMemoryIdempotent(input: Option<int>)
    ensures ClampMemory(Some(ClampMemory(input))) == ClampMemory(input)
  {
  }

  /** The `sequential` a create sends: the given position, or 1 when it is
      missing, not a number, or 0. */
  function SequentialSent(sequential: Option<int>): (n: int)
    ensures n != 0
    ensures sequential.Some? && sequential.value != 0 ==> n == sequential.value
  {
    if sequential.Some? && sequential.value != 0 then sequential.value else 1
  }

  /** The entries create and update share: the trimmed name, the untrimmed
      description and subtitles, the memory and the muted flag as text. */
  function CommonFields(f: FrontForm): FormData {
    CommonEntries(Trim(f.name), f.richText, f.subtitles, f.memory, if f.muted then "true" else "false")
  }

  function CommonEntries(name: string, richText: string, subtitles: string, memory: int, muted: string): FormData {
    [Entry("name", Str(name)), Entry("richText", Str(richText)),
     Entry("subtitles", Str(subtitles)), Entry("memory", Number(memory)),
     Entry("muted", Str(muted))]
  }

  /** The links that are not empty and the files that were chosen. */
  function OptionalFields(f: FrontForm): FormData {
    When(f.youtube != "", Entry("youtube", Str(f.youtube)))
    + When(f.github != "", Entry("github", Str(f.github)))
    + When(f.blog != "", Entry("blog", Str(f.blog)))
    + When(f.image.Some?, Entry("image", Upload(if f.image.Some? then f.image.value else FileRef(""))))
    + When(f.video.Some?, Entry("video", Upload(if f.video.Some? then f.video.value else FileRef(""))))
    + When(f.audio.Some?, Entry("audio", Upload(if f.audio.Some? then f.audio.value else FileRef(""))))
  }

  /** The form data of `handleCreate`: the common fields, the position, the
      directory when one was given, then the optional fields. */
  function CreatePayload(f: FrontForm, sequential: Option<int>, directoryId: string): FormData {
    CommonFields(f) + PositionField(sequential) + DirectoryField(directoryId) + OptionalFields(f)
  }

  /** The position entry of a create. */
  function PositionField(sequential: Option<int>): FormData {
    [Entry("sequential", Number(SequentialSent(sequential)))]
  }

  /** The directory entry of a create, when a directory was given. */
  function DirectoryField(directoryId: string): FormData {
    When(directoryId != "", Entry("directory", Str(directoryId)))
  }

  /** The form data of `handleUpdate`: as create, without position or directory. */
  function UpdatePayload(f: FrontForm): FormData {
    CommonFields(f) + OptionalFields(f)
  }

  /** The names a create sends beyond those an update sends. */
  const Placement: set<string> := {"sequential", "directory"}

  /** Whether `OptionalFields(f)` carries an entry named `key`. */
  predicate OptionalSet(f: FrontForm, key: string) {
    || (key == "youtube" && f.youtube != "")
    || (key == "github" && f.github != "")
    || (key == "blog" && f.blog != "")
    || (key == "image" && f.image.Some?)
    || (key == "video" && f.video.Some?)
    || (key == "audio" && f.audio.Some?)
  }

  /** The names of the entries every create and update carries. */
  const CommonKeys: set<string> := {"name", "richText", "subtitles", "memory", "muted"}

  lemma CommonEntriesHas(name: string, richText: string, subtitles: string, memory: int, muted: string, key: string)
    ensures Has(CommonEntries(name, richText, subtitles, memory, muted), key) <==> key in CommonKeys
  {
    var fd := CommonEntries(name, richText, subtitles, memory, muted);
    if key in CommonKeys {
      assert fd[0].key == key || fd[1].key == key || fd[2].key == key || fd[3].key == key || fd[4].key == key;
    }
  }

  lemma CommonHas(f: FrontForm, key: string)
    ensures Has(CommonFields(f), key) <==> key in CommonKeys
  {
    CommonEntriesHas(Trim(f.name), f.richText, f.subtitles, f.memory, if f.muted then "true" else "false", key);
  }

  /** A link is sent exactly when it is not empty, a file exactly when one
      was chosen. */
  lemma {:induction false} OptionalHas(f: FrontForm, key: string)
    ensures Has(OptionalFields(f), key) <==> OptionalSet(f, key)
  {
    var y := When(f.youtube != "", Entry("youtube", Str(f.youtube)));
    var g := When(f.github != "", Entry("github", Str(f.github)));
    var b := When(f.blog != "", Entry("blog", Str(f.blog)));
    var i := When(f.image.Some?, Entry("image", Upload(if f.image.Some? then f.image.value else FileRef(""))));
    var v := When(f.video.Some?, Entry("video", Upload(if f.video.Some? then f.video.value else FileRef(""))));
    var a := When(f.audio.Some?, Entry("audio", Upload(if f.audio.Some? then f.audio.value else FileRef(""))));
    HasAppend(y, g, key);
    HasAppend(y + g, b, key);
    HasAppend(y + g + b, i, key);
    HasAppend(y + g + b + i, v, key);
    HasAppend(y + g + b + i + v, a, key);
  }

  /** The names a create sends: the common ones, the position, the directory
      exactly when one was given, and the optional fields that are set. */
  lemma {:induction false} CreateHas(f: FrontForm, sequential: Option<int>, directoryId: string, key: string)
    ensures Has(CreatePayload(f, sequential, directoryId), key) <==>
      key in CommonKeys || key == "sequential" || (key == "directory" && directoryId != "") || OptionalSet(f, key)
  {
    var common := CommonFields(f);
    var place := [Entry("sequential", Number(SequentialSent(sequential)))];
    var dir := When(directoryId != "", Entry("directory", Str(directoryId)));
    var opt := OptionalFields(f);
    assert Has(place, key) <==> key == "sequential" by {
      assert place[0].key == "sequential";
    }
    HasAppend4(common, place, dir, opt, key);
    CommonHas(f, key);
    OptionalHas(f, key);
  }

  /** The names an update sends: the common ones and the optional fields that
      are set; never a position or a directory. */
  lemma {:induction false} UpdateHas(f: FrontForm, key: string)
    ensures Has(UpdatePayload(f), key) <==> key in CommonKeys || OptionalSet(f, key)
  {
    HasAppend(CommonFields(f), OptionalFields(f), key);
    CommonHas(f, key);
    OptionalHas(f, key);
  }

  /** Neither the common nor the optional fields carry a position or a directory. */
  lemma CommonWithoutPlacement(f: FrontForm)
    ensures !Has(CommonFields(f), "sequential") && !Has(CommonFields(f), "directory")
  {
    EntriesLackPlacement(Trim(f.name), f.richText, f.subtitles, f.memory, if f.muted then "true" else "false");
  }

  lemma EntriesLackPlacement(name: string, richText: string, subtitles: string, memory: int, muted: string)
    ensures var fd := CommonEntries(name, richText, subtitles, memory, muted);
      !Has(fd, "sequential") && !Has(fd, "directory")
  {
  }

  lemma OptionalWithoutPlacement(f: FrontForm)
    ensures !Has(OptionalFields(f), "sequential") && !Has(OptionalFields(f), "directory")
  {
    OptionalHas(f, "sequential");
    OptionalHas(f, "directory");
  }

  /** An update sends exactly what a create would, in the same order, minus
      the position and the directory: it never moves the card. */
  lemma {:induction false} UpdateIsCreateWithoutPlacement(f: FrontForm, sequential: Option<int>, directoryId: string)
    ensures UpdatePayload(f) == Without(CreatePayload(f, sequential, directoryId), Placement)
  {
    var common := CommonFields(f);
    var place := [Entry("sequential", Number(SequentialSent(sequential)))];
    var dir := When(directoryId != "", Entry("directory", Str(directoryId)));
    var opt := OptionalFields(f);
    CommonWithoutPlacement(f);
    OptionalWithoutPlacement(f);
    assert forall key :: key in Placement ==> key == "sequential" || key == "directory";
    assert place[0].key in Placement;
    WithoutMiddle(common, place, dir, opt, Placement);
  }

  lemma CommonEntriesSend(name: string, richText: string, subtitles: string, memory: int, muted: string)
    ensures SentAs(CommonEntries(name, richText, subtitles, memory, muted), "name", Str(name))
    ensures SentAs(CommonEntries(name, richText, subtitles, memory, muted), "richText", Str(richText))
  {
  }

  /** The placement entries use no other name. */
  lemma PlacementOnly(sequential: Option<int>, directoryId: string, key: string)
    requires key != "sequential" && key != "directory"
    ensures !Has(PositionField(sequential), key) && !Has(DirectoryField(directoryId), key)
  {
  }

  /** The card's own names are not optional. */
  lemma OwnNamesNotOptional(f: FrontForm)
    ensures !Has(OptionalFields(f), "name") && !Has(OptionalFields(f), "richText")
  {
    OptionalHas(f, "name");
    OptionalHas(f, "richText");
  }

  /** The shared entries send the trimmed name and the description. */
  lemma CommonSends(f: FrontForm)
    ensures Sends(CommonFields(f), "name", Str(Trim(f.name)))
    ensures Sends(CommonFields(f), "richText", Str(f.richText))
  {
    CommonEntriesSend(Trim(f.name), f.richText, f.subtitles, f.memory, if f.muted then "true" else "false");
    CommonHas(f, "name");
    CommonHas(f, "richText");
  }

  /** What a create sends under the card's own names: the trimmed name and
      the untrimmed description. */
  lemma CreateSends(f: FrontForm, sequential: Option<int>, directoryId: string)
    ensures Sends(CreatePayload(f, sequential, directoryId), "name", Str(Trim(f.name)))
    ensures Sends(CreatePayload(f, sequential, directoryId), "richText", Str(f.richText))
  {
    CommonSends(f);
    OwnNamesNotOptional(f);
    PlacementOnly(sequential, directoryId, "name");
    PlacementOnly(sequential, directoryId, "richText");
    SendsOf4(CommonFields(f), PositionField(sequential), DirectoryField(directoryId), OptionalFields(f),
             "name", Str(Trim(f.name)));
    SendsOf4(CommonFields(f), PositionField(sequential), DirectoryField(directoryId), OptionalFields(f),
             "richText", Str(f.richText));
  }

  /** The placement entries send the position, and the directory when one
      was given. */
  lemma PlacementSends(sequential: Option<int>, directoryId: string)
    ensures Sends(PositionField(sequential), "sequential", Number(SequentialSent(sequential)))
    ensures !Has(PositionField(sequential), "directory") && !Has(DirectoryField(directoryId), "sequential")
    ensures directoryId != "" ==> Sends(DirectoryField(directoryId), "directory", Str(directoryId))
  {
    assert PositionField(sequential)[0].key == "sequential";
    if directoryId != "" {
      assert DirectoryField(directoryId)[0].key == "directory";
    }
  }

  /** Where a create places the card: at the position it takes, and in the
      given directory when one was given. */
  lemma CreatePlacementSends(f: FrontForm, sequential: Option<int>, directoryId: string)
    ensures Sends(CreatePayload(f, sequential, directoryId), "sequential", Number(SequentialSent(sequential)))
    ensures directoryId != "" ==> Sends(CreatePayload(f, sequential, directoryId), "directory", Str(directoryId))
  {
    CommonWithoutPlacement(f);
    OptionalWithoutPlacement(f);
    PlacementSends(sequential, directoryId);
    SendsOf4(CommonFields(f), PositionField(sequential), DirectoryField(directoryId), OptionalFields(f),
             "sequential", Number(SequentialSent(sequential)));
    if directoryId != "" {
      SendsOf4(CommonFields(f), PositionField(sequential), DirectoryField(directoryId), OptionalFields(f),
               "directory", Str(directoryId));
    }
  }

  /** The form shown for a stored front (the edit-mode fetch): every text
      field, memory and muted come from the record, the video becomes a
      preview, and nothing else changes. */
  function LoadedForm(rec: Front, before: FrontForm): (f: FrontForm)
    ensures f.name == rec.name && f.memory == rec.memory && f.muted == rec.muted
    ensures f.richText == rec.richText && f.subtitles == rec.subtitles
    ensures f.youtube == rec.youtube && f.github == rec.github && f.blog == rec.blog
    ensures f.image == before.image && f.video == before.video && f.audio == before.audio
  {
    before.(name := rec.name, richText := rec.richText, subtitles := rec.subtitles,
            memory := rec.memory, muted := rec.muted,
            youtube := rec.youtube, github := rec.github, blog := rec.blog)
  }

  const NameRequired := "Name is required."

  /** The preview URLs of the three file inputs. */
  datatype Previews = Previews(image: Option<string>, video: Option<string>, audio: Option<string>)

  const NoPreviews := Previews(None, None, None)

  class FrontEditorState {
    const directoryId: string
    const sequential: Option<int>
    var recordId: string
    /** The eleven input states (name, memory, muted, description, subtitles,
        three links, three files). */
    var form: FrontForm
    var previews: Previews
    var formError: Option<string>
    var buttons: Controls
    var deleteButtonVisible: bool
    var deleteButtonDisabled: bool

    /** The buttons agree with the lifecycle phase; Create is hidden and Delete
        shown exactly while a record is stored. */
    ghost predicate Valid()
      reads this
    {
      && Consistent(recordId != "", buttons)
      && (recordId != "" ==> !buttons.createVisible)
      && (deleteButtonVisible <==> recordId != "")
    }

    /** The name input is empty or only white space. */
    predicate NameMissing()
      reads this
    {
      Blank(form.name)
    }

    /** The form data `handleCreate` would send now. */
    function CreateRequest(): FormData
      reads this
    {
      CreatePayload(form, sequential, directoryId)
    }

    /** The form data `handleUpdate` would send now. */
    function UpdateRequest(): FormData
      reads this
    {
      UpdatePayload(form)
    }

    /** The component as first rendered, after its mode-setup effect; `reload`
        is the fetch of the stored front when `flashcardFrontId` is set. */
    constructor (directoryId: string, sequential: Option<int>, flashcardFrontId: string, reload: Outcome<Front>)
      ensures Valid()
      ensures this.directoryId == directoryId && this.sequential == sequential && recordId == flashcardFrontId
      ensures buttons == SetupHidingCreate(recordId != "", InitialControls) && !deleteButtonDisabled
      ensures recordId != "" && reload.Success? ==> form == LoadedForm(reload.value, EmptyForm)
      ensures recordId == "" || reload.Failure? ==> form == EmptyForm
      ensures previews == (if recordId != "" && reload.Success? && reload.value.video != ""
                           then NoPreviews.(video := Some(reload.value.video)) else NoPreviews)
      ensures formError == (if recordId != "" && reload.Failure? then Some("Record not found.") else None)
    {
      this.directoryId := directoryId;
      this.sequential := sequential;
      recordId := flashcardFrontId;
      form := EmptyForm;
      previews := NoPreviews;
      formError := None;
      buttons := InitialControls;
      deleteButtonVisible := false;
      deleteButtonDisabled := false;
      new;
      SetUpMode(reload);
    }

    /** The effect that runs whenever `recordId` changes: for a stored front
        the record is fetched (`reload`) into the form, and a stored video
        becomes the video preview. */
    method SetUpMode(reload: Outcome<Front>)
      modifies this
      ensures Valid()
      ensures recordId == old(recordId) && buttons == SetupHidingCreate(recordId != "", old(buttons))
      ensures recordId != "" ==> !deleteButtonDisabled
      ensures recordId == "" ==> deleteButtonDisabled == old(deleteButtonDisabled)
      ensures recordId != "" && reload.Success? ==> form == LoadedForm(reload.value, old(form))
      ensures !(recordId != "" && reload.Success?) ==> form == old(form)
      ensures previews == (if recordId != "" && reload.Success? && reload.value.video != ""
                           then old(previews).(video := Some(reload.value.video)) else old(previews))
      ensures formError == (if recordId != "" && reload.Failure? then Some("Record not found.") else old(formError))
    {
      if recordId != "" {
        match reload {
          case Success(rec) =>
            form := LoadedForm(rec, form);
            if rec.video != "" {
              // The store's file URL for the video; its stored name stands in.
              previews := previews.(video := Some(rec.video));
            }
          case Failure(_) =>
            formError := Some("Record not found.");
        }
        deleteButtonVisible := true;
        deleteButtonDisabled := false;
      } else {
        deleteButtonVisible := false;
      }
      buttons := SetupHidingCreate(recordId != "", buttons);
    }

    /** `handleCreate`: a blank name is refused; otherwise the create payload
        is sent, and on success the new id is taken (the effect then reloads
        the record as `reload`) and reported to the page. */
    method Create(created: Outcome<string>, reload: Outcome<Front>) returns (sent: Option<FormData>, reported: Option<string>)
      requires Valid() && recordId == "" && buttons.createVisible && !buttons.createDisabled
      requires created.Success? ==> created.value != ""
      modifies this
      ensures Valid()
      ensures old(NameMissing()) <==> sent.None?
      ensures sent.Some? ==> sent.value == old(CreateRequest())
      ensures sent.None? ==> formError == Some(NameRequired) && recordId == "" && buttons == old(buttons) && reported.None?
      ensures sent.Some? && created.Failure? ==>
        formError == Some("Failed to create the record.") && recordId == "" && buttons == old(buttons) && reported.None?
      ensures sent.Some? && created.Success? ==>
        recordId == created.value && reported == Some(created.value) && buttons == Saved(old(buttons)).(createVisible := false)
      ensures sent.Some? && created.Success? ==> deleteButtonVisible && !deleteButtonDisabled
      ensures sent.Some? && created.Success? ==>
        form == (if reload.Success? then LoadedForm(reload.value, old(form)) else old(form))
      ensures sent.Some? && created.Success? ==>
        previews == (if reload.Success? && reload.value.video != ""
                     then old(previews).(video := Some(reload.value.video)) else old(previews))
      ensures sent.Some? && created.Success? ==>
        formError == (if reload.Failure? then Some("Record not found.") else None)
      ensures recordId == "" ==> form == old(form) && previews == old(previews)
      ensures recordId == "" ==>
        deleteButtonVisible == old(deleteButtonVisible) && deleteButtonDisabled == old(deleteButtonDisabled)
    {
      formError := None;
      if NameMissing() {
        formError := Some(NameRequired);
        return None, None;
      }
      sent := Some(CreateRequest());
      match created {
        case Success(id) =>
          TakeRecord(id, reload);
          reported := Some(id);
        case Failure(_) =>
          formError := Some("Failed to create the record.");
          reported := None;
      }
    }

    /** A successful create: the new id is kept, and the mode-setup effect
        runs for a saved front. */
    method TakeRecord(id: string, reload: Outcome<Front>)
      requires Valid() && recordId == "" && id != ""
      modifies this
      ensures Valid() && recordId == id && buttons == Saved(old(buttons)).(createVisible := false)
      ensures deleteButtonVisible && !deleteButtonDisabled
      ensures form == (if reload.Success? then LoadedForm(reload.value, old(form)) else old(form))
      ensures previews == (if reload.Success? && reload.value.video != ""
                           then old(previews).(video := Some(reload.value.video)) else old(previews))
      ensures formError == (if reload.Failure? then Some("Record not found.") else old(formError))
    {
      recordId := id;
      buttons := buttons.(createDisabled := true, createText := "Saved", editVisible := true, editDisabled := false);
      deleteButtonVisible := true;
      SetUpMode(reload);
    }

    /** `handleEdit`. */
    method Edit()
      requires Valid() && recordId != "" && buttons.editVisible && !buttons.editDisabled
      modifies this
      ensures Valid()
      ensures buttons == Edited(old(buttons))
      ensures recordId == old(recordId) && form == old(form) && previews == old(previews) && formError == old(formError)
      ensures deleteButtonVisible == old(deleteButtonVisible) && deleteButtonDisabled == old(deleteButtonDisabled)
    {
      buttons := Edited(buttons);
    }

    /** `handleUpdate`: a blank name is refused; otherwise the update payload
        is sent, and on success the form locks with the caption "Updated". */
    method Update(updated: Outcome<()>) returns (sent: Option<FormData>)
      requires Valid() && recordId != "" && buttons.updateVisible && !buttons.updateDisabled
      modifies this
      ensures Valid()
      ensures old(NameMissing()) <==> sent.None?
      ensures sent.Some? ==> sent.value == old(UpdateRequest())
      ensures sent.None? ==> formError == Some(NameRequired) && buttons == UpdateRejected(old(buttons))
      ensures sent.Some? && updated.Failure? ==>
        formError == Some("Failed to update the record.") && buttons == UpdateRejected(old(buttons))
      ensures sent.Some? && updated.Success? ==> formError == None && buttons == Updated(old(buttons), "Updated")
      ensures recordId == old(recordId) && form == old(form) && previews == old(previews)
      ensures deleteButtonVisible == old(deleteButtonVisible) && deleteButtonDisabled == old(deleteButtonDisabled)
    {
      formError := None;
      if NameMissing() {
        formError := Some(NameRequired);
        buttons := UpdateRejected(buttons);
        return None;
      }
      sent := Some(UpdateRequest());
      match updated {
        case Success(_) =>
          buttons := Updated(buttons, "Updated");
        case Failure(_) =>
          formError := Some("Failed to update the record.");
          buttons := UpdateRejected(buttons);
      }
    }

    /** `handleDelete`: on success every input is reset and the editor is a
        draft again with Create enabled (Delete, now hidden, stays disabled);
        on failure Delete is offered again. */
    method Delete(deleted: Outcome<()>)
      requires Valid() && deleteButtonVisible && !deleteButtonDisabled
      modifies this
      ensures Valid()
      ensures deleted.Success? ==>
        && recordId == "" && form == EmptyForm && previews == NoPreviews
        && formError == None && !deleteButtonVisible && deleteButtonDisabled
        && buttons == Setup(false, old(buttons).(createText := "Create", createDisabled := false, createVisible := true))
      ensures deleted.Failure? ==>
        && recordId == old(recordId) && form == old(form) && previews == old(previews)
        && formError == Some("Failed to delete the record.") && !deleteButtonDisabled && buttons == old(buttons)
    {
      formError := None;
      deleteButtonDisabled := true;
      match deleted {
        case Success(_) =>
          recordId := "";
          form := EmptyForm;
          previews := NoPreviews;
          deleteButtonVisible := false;
          buttons := buttons.(createText := "Create", createDisabled := false, createVisible := true);
          SetUpMode(Failure("not fetched"));
        case Failure(_) =>
          formError := Some("Failed to delete the record.");
          deleteButtonDisabled := false;
      }
    }

    /** A text input (`handleInputChange`): name, description, subtitles or a link. */
    method TextChanged(field: TextField, value: string)
      requires Valid() && buttons.isFormEditable
      modifies this
      ensures Valid()
      ensures form == WithText(old(form), field, value)
      ensures buttons == old(Changed(recordId != "", buttons))
      ensures recordId == old(recordId) && previews == old(previews) && formError == old(formError)
      ensures deleteButtonVisible == old(deleteButtonVisible) && deleteButtonDisabled == old(deleteButtonDisabled)
    {
      form := WithText(form, field, value);
      buttons := Changed(recordId != "", buttons);
    }

    /** The memory input: stores the clamped value; Update is not touched. */
    method MemoryChanged(input: Option<int>)
      requires Valid() && buttons.isFormEditable
      modifies this
      ensures Valid()
      ensures form == old(form).(memory := ClampMemory(input)) && 0 <= form.memory <= 10
      ensures buttons == old(buttons) && recordId == old(recordId) && previews == old(previews)
      ensures formError == old(formError)
      ensures deleteButtonVisible == old(deleteButtonVisible) && deleteButtonDisabled == old(deleteButtonDisabled)
    {
      form := form.(memory := ClampMemory(input));
    }

    /** The muted checkbox; Update is not touched. */
    method MutedChanged(checked: bool)
      requires Valid() && buttons.isFormEditable
      modifies this
      ensures Valid()
      ensures form == old(form).(muted := checked)
      ensures buttons == old(buttons) && recordId == old(recordId) && previews == old(previews)
      ensures formError == old(formError)
      ensures deleteButtonVisible == old(deleteButtonVisible) && deleteButtonDisabled == old(deleteButtonDisabled)
    {
      form := form.(muted := checked);
    }

    /** A file input: the chosen file becomes the upload and its preview
        (the browser's object URL, for which the file's name stands in); an
        empty choice changes nothing. */
    method FileChosen(slot: MediaSlot, chosen: Option<FileRef>)
      requires Valid() && buttons.isFormEditable
      modifies this
      ensures Valid()
      ensures chosen.None? ==> form == old(form) && previews == old(previews) && buttons == old(buttons)
      ensures chosen.Some? ==> form == WithFile(old(form), slot, chosen.value)
      ensures chosen.Some? ==> previews == WithPreview(old(previews), slot, chosen.value.name)
      ensures chosen.Some? ==> buttons == old(Changed(recordId != "", buttons))
      ensures recordId == old(recordId) && formError == old(formError)
      ensures deleteButtonVisible == old(deleteButtonVisible) && deleteButtonDisabled == old(deleteButtonDisabled)
    {
      if chosen.Some? {
        form := WithFile(form, slot, chosen.value);
        previews := WithPreview(previews, slot, chosen.value.name);
        buttons := Changed(recordId != "", buttons);
      }
    }
  }

  /** Before the first effect every button is hidden and the form is locked. */
  const InitialControls := Controls(false, false, true, "Create", false, true, false, true, "Update")

  datatype TextField = NameInput | RichTextInput | SubtitlesInput | YoutubeInput | GithubInput | BlogInput

  function WithText(f: FrontForm, field: TextField, value: string): FrontForm {
    match field
    case NameInput => f.(name := value)
    case RichTextInput => f.(richText := value)
    case SubtitlesInput => f.(subtitles := value)
    case YoutubeInput => f.(youtube := value)
    case GithubInput => f.(github := value)
    case BlogInput => f.(blog := value)
  }

  datatype MediaSlot = ImageSlot | VideoSlot | AudioSlot

  function WithFile(f: FrontForm, slot: MediaSlot, file: FileRef): FrontForm {
    match slot
    case ImageSlot => f.(image := Some(file))
    case VideoSlot => f.(video := Some(file))
    case AudioSlot => f.(audio := Some(file))
  }

  function WithPreview(p: Previews, slot: MediaSlot, url: string): Previews {
    match slot
    case ImageSlot => p.(image := Some(url))
    case VideoSlot => p.(video := Some(url))
    case AudioSlot => p.(audio := Some(url))
  }

  /** After a successful delete the editor accepts a new front at once: a
      draft with Create shown and enabled under the caption "Create". */
  lemma DeleteReturnsToDraft(c: Controls)
    ensures var d := Setup(false, c.(createText := "Create", createDisabled := false, createVisible := true));
      Consistent(false, d) && d.createVisible && !d.createDisabled && d.createText == "Create"
  {
  }
}
