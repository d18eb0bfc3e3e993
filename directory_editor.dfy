/** The page that creates a directory under a parent, or shows and edits a
    stored one: a name, a description and two media files, with the shared
    create / edit / update lifecycle (directories are not deleted here). */
module DirectoryEditor {
  import opened Outcomes
  import opened Text
  import opened Records
  import opened Forms
  import opened Lifecycle

  /** The values of the page's inputs. */
  datatype DirForm = DirForm(name: string, description: string, image: Option<FileRef>, video: Option<FileRef>)

  const EmptyForm := DirForm("", "", None, None)

  /** The preview URLs of the two file inputs. */
  datatype Previews = Previews(image: Option<string>, video: Option<string>)

  /** The Back button's target: the parent directory's listing, the root
      listing when no parent was given. */
  function BackRoute(parentId: Option<string>): (route: string)
    ensures "/directories/" <= route
    ensures parentId.Some? ==> route[|"/directories/"|..] == parentId.value
    ensures parentId.None? ==> route == "/directories/"
  {
    "/directories/" + (if parentId.None? then "" else parentId.value)
  }

  /** The entries create and update share: the trimmed name, the untrimmed
      description, and the files that were chosen. */
  function DirFields(f: DirForm): FormData {
    OwnFields(f) + FileFields(f)
  }

  /** The directory's own text entries. */
  function OwnFields(f: DirForm): FormData {
    [Entry("name", Str(Trim(f.name))), Entry("richText", Str(f.description))]
  }

  /** The files that were chosen. */
  function FileFields(f: DirForm): FormData {
    When(f.image.Some?, Entry("image", Upload(if f.image.Some? then f.image.value else FileRef(""))))
    + When(f.video.Some?, Entry("video", Upload(if f.video.Some? then f.video.value else FileRef(""))))
  }

  /** The parent entry, when the route gave a parent. */
  function ParentField(parentId: Option<string>): FormData {
    When(parentId.Some?, Entry("parentDirectory", Str(if parentId.Some? then parentId.value else "")))
  }

  /** The owner entry. */
  function UserField(userId: string): FormData {
    [Entry("user", Str(userId))]
  }

  /** The form data of `handleCreate`: the shared fields, the parent when one
      was given, and the signed-in user as owner. */
  function CreatePayload(f: DirForm, parentId: Option<string>, userId: string): FormData {
    DirFields(f) + ParentField(parentId) + UserField(userId)
  }

  /** The form data of `handleUpdate`: parent and owner are not sent. */
  function UpdatePayload(f: DirForm): FormData {
    DirFields(f)
  }

  /** The names a create and an update share: name and description always,
      a file exactly when one was chosen. */
  lemma {:induction false} DirFieldsHas(f: DirForm, key: string)
    ensures Has(DirFields(f), key) <==>
      key == "name" || key == "richText" || (key == "image" && f.image.Some?) || (key == "video" && f.video.Some?)
  {
    var i := When(f.image.Some?, Entry("image", Upload(if f.image.Some? then f.image.value else FileRef(""))));
    var v := When(f.video.Some?, Entry("video", Upload(if f.video.Some? then f.video.value else FileRef(""))));
    assert Has(OwnFields(f), key) <==> key == "name" || key == "richText" by {
      assert OwnFields(f)[0].key == "name" && OwnFields(f)[1].key == "richText";
    }
    HasAppend(i, v, key);
    HasAppend(OwnFields(f), FileFields(f), key);
  }

  /** A create names the parent exactly when the route gave one, and always
      names the owner. */
  lemma {:induction false} CreateHas(f: DirForm, parentId: Option<string>, userId: string, key: string)
    ensures Has(CreatePayload(f, parentId, userId), key) <==>
      Has(DirFields(f), key) || (key == "parentDirectory" && parentId.Some?) || key == "user"
  {
    var p := ParentField(parentId);
    var u := UserField(userId);
    assert Has(u, key) <==> key == "user" by {
      assert u[0].key == "user";
    }
    HasAppend(DirFields(f), p, key);
    HasAppend(DirFields(f) + p, u, key);
  }

  /** The names a create sends beyond those an update sends. */
  const Placement: set<string> := {"parentDirectory", "user"}

  /** An update sends exactly what a create would, minus parent and owner:
      it never moves the directory or changes its owner. */
  lemma {:induction false} UpdateIsCreateWithoutPlacement(f: DirForm, parentId: Option<string>, userId: string)
    ensures UpdatePayload(f) == Without(CreatePayload(f, parentId, userId), Placement)
  {
    var p := ParentField(parentId);
    var u := UserField(userId);
    DirFieldsHas(f, "parentDirectory");
    DirFieldsHas(f, "user");
    assert forall key :: key in Placement ==> key == "parentDirectory" || key == "user";
    assert u[0].key in Placement;
    WithoutMiddle(DirFields(f), p, u, [], Placement);
    assert CreatePayload(f, parentId, userId) == DirFields(f) + p + u + [];
  }

  /** The own entries send the trimmed name and the description, and
      nothing under the placement names. */
  lemma OwnFieldsSend(f: DirForm)
    ensures Sends(OwnFields(f), "name", Str(Trim(f.name)))
    ensures Sends(OwnFields(f), "richText", Str(f.description))
    ensures !Has(OwnFields(f), "parentDirectory") && !Has(OwnFields(f), "user")
  {
    assert OwnFields(f)[0].key == "name" && OwnFields(f)[1].key == "richText";
  }

  /** The file entries use no name but their own. */
  lemma FileFieldsOnly(f: DirForm, key: string)
    requires key != "image" && key != "video"
    ensures !Has(FileFields(f), key)
  {
    var i := When(f.image.Some?, Entry("image", Upload(if f.image.Some? then f.image.value else FileRef(""))));
    var v := When(f.video.Some?, Entry("video", Upload(if f.video.Some? then f.video.value else FileRef(""))));
    HasAppend(i, v, key);
  }

  /** The parent and owner entries send the parent (when given) and the
      owner, and nothing under the directory's own names. */
  lemma PlacementFieldsSend(parentId: Option<string>, userId: string)
    ensures parentId.Some? ==> Sends(ParentField(parentId), "parentDirectory", Str(parentId.value))
    ensures Sends(UserField(userId), "user", Str(userId))
    ensures !Has(ParentField(parentId), "name") && !Has(ParentField(parentId), "richText")
    ensures !Has(ParentField(parentId), "user")
    ensures !Has(UserField(userId), "name") && !Has(UserField(userId), "richText")
    ensures !Has(UserField(userId), "parentDirectory")
  {
    assert UserField(userId)[0].key == "user";
    if parentId.Some? {
      assert ParentField(parentId)[0].key == "parentDirectory";
    }
  }

  /** What a create sends under the directory's own names: the trimmed name
      and the untrimmed description. */
  lemma CreateSends(f: DirForm, parentId: Option<string>, userId: string)
    ensures Sends(CreatePayload(f, parentId, userId), "name", Str(Trim(f.name)))
    ensures Sends(CreatePayload(f, parentId, userId), "richText", Str(f.description))
  {
    OwnFieldsSend(f);
    FileFieldsOnly(f, "name");
    FileFieldsOnly(f, "richText");
    PlacementFieldsSend(parentId, userId);
    SendsOf4(OwnFields(f), FileFields(f), ParentField(parentId), UserField(userId), "name", Str(Trim(f.name)));
    SendsOf4(OwnFields(f), FileFields(f), ParentField(parentId), UserField(userId), "richText", Str(f.description));
  }

  /** Where a create puts the directory and whose it is: under the parent the
      route gave, when it gave one, and owned by the signed-in user. */
  lemma CreatePlacementSends(f: DirForm, parentId: Option<string>, userId: string)
    ensures parentId.Some? ==> Sends(CreatePayload(f, parentId, userId), "parentDirectory", Str(parentId.value))
    ensures Sends(CreatePayload(f, parentId, userId), "user", Str(userId))
  {
    OwnFieldsSend(f);
    FileFieldsOnly(f, "parentDirectory");
    FileFieldsOnly(f, "user");
    PlacementFieldsSend(parentId, userId);
    if parentId.Some? {
      SendsOf4(OwnFields(f), FileFields(f), ParentField(parentId), UserField(userId),
               "parentDirectory", Str(parentId.value));
    }
    SendsOf4(OwnFields(f), FileFields(f), ParentField(parentId), UserField(userId), "user", Str(userId));
  }

  /** The form shown for a stored directory: its name and description. */
  function LoadedForm(rec: Dir, before: DirForm): (f: DirForm)
    ensures f.name == rec.name && f.description == rec.richText
    ensures f.image == before.image && f.video == before.video
  {
    before.(name := rec.name, description := rec.richText)
  }

  const NameRequired := "Name is required."
  const CreateFailed := "Failed to create the record."

  /** Before the first effect every button is hidden and the form is locked. */
  const InitialControls := Controls(false, false, true, "Create", false, true, false, true, "Update")

  class DirectoryEditorState {
    /** The route's `parentId`; `None` when the segment is absent. */
    const parentId: Option<string>
    /** The id of the signed-in user (the page is only routed to when signed in). */
    const userId: string
    var recordId: string
    var form: DirForm
    var previews: Previews
    var formError: Option<string>
    var buttons: Controls

    ghost predicate Valid()
      reads this
    {
      Consistent(recordId != "", buttons) && (recordId != "" ==> !buttons.createVisible)
    }

    /** The name input is empty or only white space. */
    predicate NameMissing()
      reads this
    {
      Blank(form.name)
    }

    function CreateRequest(): FormData
      reads this
    {
      CreatePayload(form, parentId, userId)
    }

    function UpdateRequest(): FormData
      reads this
    {
      UpdatePayload(form)
    }

    /** The page as first rendered for the route `parentId` / `id`, after its
        mode-setup effect; `reload` is the fetch of the stored directory. */
    constructor (parentId: Option<string>, id: string, userId: string, reload: Outcome<Dir>)
      ensures Valid()
      ensures this.parentId == parentId && this.userId == userId && recordId == id
      ensures buttons == SetupHidingCreate(id != "", InitialControls)
      ensures id != "" && reload.Success? ==> form == LoadedForm(reload.value, EmptyForm)
      ensures id == "" || reload.Failure? ==> form == EmptyForm
      ensures previews == Previews(None, None)
      ensures formError == (if id != "" && reload.Failure? then Some("Record not found.") else None)
    {
      this.parentId := parentId;
      this.userId := userId;
      recordId := id;
      form := EmptyForm;
      previews := Previews(None, None);
      formError := None;
      buttons := InitialControls;
      new;
      SetUpMode(reload);
    }

    /** The effect that runs whenever `recordId` changes. */
    method SetUpMode(reload: Outcome<Dir>)
      modifies this
      ensures Valid()
      ensures recordId == old(recordId) && previews == old(previews)
      ensures buttons == SetupHidingCreate(recordId != "", old(buttons))
      ensures recordId != "" && reload.Success? ==> form == LoadedForm(reload.value, old(form))
      ensures !(recordId != "" && reload.Success?) ==> form == old(form)
      ensures formError == (if recordId != "" && reload.Failure? then Some("Record not found.") else old(formError))
    {
      if recordId != "" {
        match reload {
          case Success(rec) =>
            form := LoadedForm(rec, form);
          case Failure(_) =>
            formError := Some("Record not found.");
        }
      }
      buttons := SetupHidingCreate(recordId != "", buttons);
    }

    /** `handleBack`. */
    method Back() returns (route: string)
      ensures route == BackRoute(parentId)
    {
      route := BackRoute(parentId);
    }

    /** `handleCreate`: a blank name is refused; otherwise the create payload
        is sent, and on success the page switches to the new record. */
    method Create(created: Outcome<string>, reload: Outcome<Dir>) returns (sent: Option<FormData>)
      requires Valid() && recordId == "" && buttons.createVisible && !buttons.createDisabled
      requires created.Success? ==> created.value != ""
      modifies this
      ensures Valid()
      ensures old(NameMissing()) <==> sent.None?
      ensures sent.Some? ==> sent.value == old(CreateRequest())
      ensures sent.None? ==> formError == Some(NameRequired) && recordId == "" && buttons == old(buttons)
      ensures sent.Some? && created.Failure? ==>
        formError == Some(CreateFailed + created.reason) && recordId == "" && buttons == old(buttons)
      ensures sent.Some? && created.Success? ==>
        recordId == created.value && buttons == Saved(old(buttons)).(createVisible := false)
      ensures sent.Some? && created.Success? ==>
        form == (if reload.Success? then LoadedForm(reload.value, old(form)) else old(form)) &&
        formError == (if reload.Failure? then Some("Record not found.") else None)
      ensures recordId == "" ==> form == old(form)
      ensures previews == old(previews)
    {
      formError := None;
      if NameMissing() {
        formError := Some(NameRequired);
        return None;
      }
      sent := Some(CreateRequest());
      match created {
        case Success(id) =>
          TakeRecord(id, reload);
        case Failure(reason) =>
          formError := Some(CreateFailed + reason);
      }
    }

    /** A successful create: the new id is kept, and the mode-setup effect
        runs for a saved directory. */
    method TakeRecord(id: string, reload: Outcome<Dir>)
      requires Valid() && recordId == "" && id != ""
      modifies this
      ensures Valid() && recordId == id && buttons == Saved(old(buttons)).(createVisible := false)
      ensures form == (if reload.Success? then LoadedForm(reload.value, old(form)) else old(form))
      ensures previews == old(previews)
      ensures formError == (if reload.Failure? then Some("Record not found.") else old(formError))
    {
      recordId := id;
      buttons := buttons.(createDisabled := true, createText := "Saved", editVisible := true,
                          editDisabled := false, createVisible := false);
      SetUpMode(reload);
    }

    /** `handleEdit`. */
    method Edit()
      requires Valid() && recordId != "" && buttons.editVisible && !buttons.editDisabled
      modifies this
      ensures Valid()
      ensures buttons == Edited(old(buttons))
      ensures recordId == old(recordId) && form == old(form) && previews == old(previews) && formError == old(formError)
    {
      buttons := Edited(buttons);
    }

    /** `handleUpdate`: a blank name is refused; otherwise the update payload
        is sent, and on success the form locks with the caption "updated". */
    method Update(updated: Outcome<()>) returns (sent: Option<FormData>)
      requires Valid() && recordId != "" && buttons.updateVisible && !buttons.updateDisabled
      modifies this
      ensures Valid()
      ensures old(NameMissing()) <==> sent.None?
      ensures sent.Some? ==> sent.value == old(UpdateRequest())
      ensures sent.None? ==> formError == Some(NameRequired) && buttons == UpdateRejected(old(buttons))
      ensures sent.Some? && updated.Failure? ==>
        formError == Some("Failed to update the record.") && buttons == UpdateRejected(old(buttons))
      ensures sent.Some? && updated.Success? ==> formError == None && buttons == Updated(old(buttons), "updated")
      ensures recordId == old(recordId) && form == old(form) && previews == old(previews)
    {
      formError := None;
      if NameMissing() {
        formError := Some(NameRequired);
        buttons := UpdateRejected(buttons);
        return None;
      }
      sent := Some(UpdateRequest());
      match updated {
        case Success(_) =>
          buttons := Updated(buttons, "updated");
        case Failure(_) =>
          formError := Some("Failed to update the record.");
          buttons := UpdateRejected(buttons);
      }
    }

    /** `handleInputChange` for the name. */
    method NameChanged(value: string)
      requires Valid() && buttons.isFormEditable
      modifies this
      ensures Valid()
      ensures form == old(form).(name := value) && buttons == old(Changed(recordId != "", buttons))
      ensures recordId == old(recordId) && previews == old(previews) && formError == old(formError)
    {
      form := form.(name := value);
      buttons := Changed(recordId != "", buttons);
    }

    /** `handleInputChange` for the description. */
    method DescriptionChanged(value: string)
      requires Valid() && buttons.isFormEditable
      modifies this
      ensures Valid()
      ensures form == old(form).(description := value) && buttons == old(Changed(recordId != "", buttons))
      ensures recordId == old(recordId) && previews == old(previews) && formError == old(formError)
    {
      form := form.(description := value);
      buttons := Changed(recordId != "", buttons);
    }

    /** `handleImageChange`: the chosen file becomes the upload and the
        preview (its name stands in for the object URL); no choice changes nothing. */
    method ImageChosen(chosen: Option<FileRef>)
      requires Valid() && buttons.isFormEditable
      modifies this
      ensures Valid()
      ensures chosen.None? ==> form == old(form) && previews == old(previews) && buttons == old(buttons)
      ensures chosen.Some? ==> form == old(form).(image := chosen) && previews == old(previews).(image := Some(chosen.value.name))
      ensures chosen.Some? ==> buttons == old(Changed(recordId != "", buttons))
      ensures recordId == old(recordId) && formError == old(formError)
    {
      if chosen.Some? {
        form := form.(image := chosen);
        previews := previews.(image := Some(chosen.value.name));
        buttons := Changed(recordId != "", buttons);
      }
    }

    /** `handleVideoChange`, as `ImageChosen` for the video. */
    method VideoChosen(chosen: Option<FileRef>)
      requires Valid() && buttons.isFormEditable
      modifies this
      ensures Valid()
      ensures chosen.None? ==> form == old(form) && previews == old(previews) && buttons == old(buttons)
      ensures chosen.Some? ==> form == old(form).(video := chosen) && previews == old(previews).(video := Some(chosen.value.name))
      ensures chosen.Some? ==> buttons == old(Changed(recordId != "", buttons))
      ensures recordId == old(recordId) && formError == old(formError)
    {
      if chosen.Some? {
        form := form.(video := chosen);
        previews := previews.(video := Some(chosen.value.name));
        buttons := Changed(recordId != "", buttons);
      }
    }
  }
}
