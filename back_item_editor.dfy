/** One entry of a flashcard's back: an editor for a single back item whose
    variant and position are fixed when it is created, with its own
    create / edit / update / delete lifecycle against the record store. */
module BackItemEditor {
  import opened Outcomes
  import opened Text
  import opened Records
  import opened Forms
  import opened BackItems
  import opened Lifecycle

  /** The variants that carry an uploaded file. */
  predicate IsMedia(t: BackItemType) {
    t == Image || t == Video || t == Audio || t == File
  }

  /** `getLabel`: the caption of the main text field. */
  function Label(t: BackItemType): string {
    match t
    case RichText => "Rich Text: "
    case Code => "Code: "
    case Image => "Image Description: "
    case Video => "Video Description: "
    case Audio => "Audio Description: "
    case File => "File Description: "
    case Url => "Url Description: "
  }

  /** Each variant has its own caption, so the caption tells the variant. */
  lemma LabelsDistinct(t: BackItemType, u: BackItemType)
    ensures Label(t) == Label(u) <==> t == u
  {
  }

  /** Some character of `s` is not white space. */
  predicate HasText(s: string) {
    exists i :: 0 <= i < |s| && !IsSpace(s[i])
  }

  /** `isValid`: a Url item needs a description or a url; any other item
      needs a description or a chosen (or already stored) file. */
  function Submittable(t: BackItemType, text: string, url: string,
                       file: Option<FileRef>, preview: Option<string>, fileName: Option<string>): (ok: bool)
    ensures t == Url ==> (ok <==> HasText(text) || HasText(url))
    ensures t != Url ==> (ok <==> HasText(text) || file.Some? || preview.Some? || fileName.Some?)
  {
    BlankIffAllSpace(text);
    BlankIffAllSpace(url);
    if t == Url then !Blank(text) || !Blank(url)
    else !Blank(text) || file.Some? || preview.Some? || fileName.Some?
  }

  /** No entry names the owning front or the position. */
  predicate KeepsOwner(fd: FormData) {
    forall k :: 0 <= k < |fd| ==> fd[k].key != "flashcardFront" && fd[k].key != "sequential"
  }

  /** The text entries of a variant: the code for Code, otherwise the
      description, plus the url for Url and the subtitles for Video. */
  function TextFields(t: BackItemType, text: string, subtitles: string, url: string): (fd: FormData)
    ensures Trimmed(text) && Trimmed(subtitles) && Trimmed(url) ==> StringsTrimmed(fd)
    ensures KeepsOwner(fd) && 1 <= |fd| <= 2
  {
    match t
    case Code => [Entry("code", Str(text))]
    case Url => [Entry("richText", Str(text)), Entry("resource", Str(url))]
    case Video => [Entry("richText", Str(text)), Entry("subtitles", Str(subtitles))]
    case _ => [Entry("richText", Str(text))]
  }

  /** The file entry: present only for a media item with a chosen file. */
  function FileField(t: BackItemType, file: Option<FileRef>): (fd: FormData)
    ensures KeepsOwner(fd)
    ensures fd != [] <==> IsMedia(t) && file.Some?
    ensures fd != [] ==> fd == [Entry(MediaKey(t), Upload(file.value))]
  {
    if IsMedia(t) && file.Some? then [Entry(MediaKey(t), Upload(file.value))] else []
  }

  /** The stored field an uploaded file goes to. */
  function MediaKey(t: BackItemType): string
    requires IsMedia(t)
  {
    match t
    case Image => "image"
    case Video => "video"
    case Audio => "audio"
    case File => "file"
  }

  /** The variant-dependent part of the form data, shared by create and
      update: the text entries, trimmed, then the file entry. */
  function TypeFields(t: BackItemType, text: string, subtitles: string, url: string,
                      file: Option<FileRef>): (fd: FormData)
    ensures StringsTrimmed(fd) && KeepsOwner(fd)
  {
    TrimIsTrimmed(text);
    TrimIsTrimmed(subtitles);
    TrimIsTrimmed(url);
    TextFields(t, Trim(text), Trim(subtitles), Trim(url)) + FileField(t, file)
  }

  /** The form data of `handleCreate`: the owning front and the position,
      then the variant's fields. */
  function CreatePayload(front: string, sequential: int, t: BackItemType, text: string,
                         subtitles: string, url: string, file: Option<FileRef>): FormData
  {
    [Entry("flashcardFront", Str(front)), Entry("sequential", Number(sequential))]
      + TypeFields(t, text, subtitles, url, file)
  }

  /** The record the store holds after receiving `fd` for a new record: each
      entry sets the field of the same name, a file sets it to the file's name. */
  function Stored(fd: FormData): BackRecord {
    Applied(EmptyBack, fd)
  }

  function Applied(r: BackRecord, fd: FormData): BackRecord
    decreases |fd|
  {
    if fd == [] then r else Applied(Put(r, fd[0]), fd[1..])
  }

  function Put(r: BackRecord, e: Entry): BackRecord {
    match e.value
    case Number(n) => if e.key == "sequential" then r.(sequential := n) else r
    case Str(s) => PutText(r, e.key, s)
    case Upload(f) => PutText(r, e.key, f.name)
  }

  function PutText(r: BackRecord, key: string, v: string): BackRecord {
    if key == "flashcardFront" then r.(flashcardFront := v)
    else if key == "richText" then r.(richText := v)
    else if key == "code" then r.(code := v)
    else if key == "resource" then r.(resource := v)
    else if key == "subtitles" then r.(subtitles := v)
    else if key == "image" then r.(image := v)
    else if key == "video" then r.(video := v)
    else if key == "audio" then r.(audio := v)
    else if key == "file" then r.(file := v)
    else r
  }


  lemma AppliedOne(r: BackRecord, e: Entry)
    ensures Applied(r, [e]) == Put(r, e)
  {
    assert [e][1..] == [];
  }

  lemma AppliedTwo(r: BackRecord, e: Entry, f: Entry)
    ensures Applied(r, [e, f]) == Put(Put(r, e), f)
  {
    assert [e, f][1..] == [f];
    AppliedOne(Put(r, e), f);
  }

  lemma AppliedThree(r: BackRecord, e: Entry, f: Entry, g: Entry)
    ensures Applied(r, [e, f, g]) == Put(Put(Put(r, e), f), g)
  {
    assert [e, f, g][1..] == [f, g];
    AppliedTwo(Put(r, e), f, g);
  }

  /** The record a create leaves in the store, written field by field: the
      owner and position, the code (Code) or description (any other variant),
      the url (Url), the subtitles (Video), and the file's name in the
      variant's media field. */
  function Expected(front: string, sequential: int, t: BackItemType, text: string,
                    subtitles: string, url: string, file: Option<FileRef>): BackRecord
  {
    var name := if IsMedia(t) && file.Some? then file.value.name else "";
    BackRecord("", front, sequential,
      if t == Code then "" else text,
      if t == Code then text else "",
      if t == Url then url else "",
      if t == Video then subtitles else "",
      if t == Image then name else "",
      if t == Video then name else "",
      if t == Audio then name else "",
      if t == File then name else "",
      "", "")
  }

  /** A create payload first sets the owner and the position. */
  lemma StoredWithHeader(front: string, sequential: int, fields: FormData)
    ensures Stored([Entry("flashcardFront", Str(front)), Entry("sequential", Number(sequential))] + fields)
      == Applied(EmptyBack.(flashcardFront := front, sequential := sequential), fields)
  {
    var e0 := Entry("flashcardFront", Str(front));
    var e1 := Entry("sequential", Number(sequential));
    var fd := [e0, e1] + fields;
    var r1 := Put(EmptyBack, e0);
    assert r1 == EmptyBack.(flashcardFront := front);
    assert fd[0] == e0 && fd[1..] == [e1] + fields;
    assert Applied(EmptyBack, fd) == Applied(r1, [e1] + fields);
    assert ([e1] + fields)[0] == e1 && ([e1] + fields)[1..] == fields;
    assert Applied(r1, [e1] + fields) == Applied(Put(r1, e1), fields);
  }

  /** The create payload, received by the store, yields the expected record
      with the trimmed texts. */
  lemma StoredIsExpected(front: string, sequential: int, t: BackItemType, text: string,
                         subtitles: string, url: string, file: Option<FileRef>)
    ensures Stored(CreatePayload(front, sequential, t, text, subtitles, url, file))
      == Expected(front, sequential, t, Trim(text), Trim(subtitles), Trim(url), file)
  {
    StoredWithHeader(front, sequential, TypeFields(t, text, subtitles, url, file));
    var head := EmptyBack.(flashcardFront := front, sequential := sequential);
    if IsMedia(t) {
      StoredMedia(head, t, Trim(text), Trim(subtitles), Trim(url), file);
    } else {
      StoredText(head, t, Trim(text), Trim(subtitles), Trim(url), file);
    }
  }

  lemma StoredText(head: BackRecord, t: BackItemType, text: string,
                   subtitles: string, url: string, file: Option<FileRef>)
    requires !IsMedia(t) && head == EmptyBack.(flashcardFront := head.flashcardFront, sequential := head.sequential)
    ensures Applied(head, TextFields(t, text, subtitles, url) + FileField(t, file))
      == Expected(head.flashcardFront, head.sequential, t, text, subtitles, url, file)
  {
    var x := Entry(if t == Code then "code" else "richText", Str(text));
    var fields := TextFields(t, text, subtitles, url) + FileField(t, file);
    if t == Url {
      var y := Entry("resource", Str(url));
      assert fields == [x, y];
      AppliedTwo(head, x, y);
    } else {
      assert fields == [x];
      AppliedOne(head, x);
    }
  }

  lemma StoredMedia(head: BackRecord, t: BackItemType, text: string,
                    subtitles: string, url: string, file: Option<FileRef>)
    requires IsMedia(t) && head == EmptyBack.(flashcardFront := head.flashcardFront, sequential := head.sequential)
    ensures Applied(head, TextFields(t, text, subtitles, url) + FileField(t, file))
      == Expected(head.flashcardFront, head.sequential, t, text, subtitles, url, file)
  {
    if t == Video {
      StoredVideo(head, text, subtitles, url, file);
    } else {
      StoredImageAudioFile(head, t, text, subtitles, url, file);
    }
  }

  lemma StoredVideo(head: BackRecord, text: string, subtitles: string, url: string, file: Option<FileRef>)
    requires head == EmptyBack.(flashcardFront := head.flashcardFront, sequential := head.sequential)
    ensures Applied(head, TextFields(Video, text, subtitles, url) + FileField(Video, file))
      == Expected(head.flashcardFront, head.sequential, Video, text, subtitles, url, file)
  {
    var x := Entry("richText", Str(text));
    var y := Entry("subtitles", Str(subtitles));
    var fields := TextFields(Video, text, subtitles, url) + FileField(Video, file);
    if file.Some? {
      var z := Entry("video", Upload(file.value));
      assert fields == [x, y, z];
      AppliedThree(head, x, y, z);
    } else {
      assert fields == [x, y];
      AppliedTwo(head, x, y);
    }
  }

  lemma StoredImageAudioFile(head: BackRecord, t: BackItemType, text: string,
                             subtitles: string, url: string, file: Option<FileRef>)
    requires IsMedia(t) && t != Video
    requires head == EmptyBack.(flashcardFront := head.flashcardFront, sequential := head.sequential)
    ensures Applied(head, TextFields(t, text, subtitles, url) + FileField(t, file))
      == Expected(head.flashcardFront, head.sequential, t, text, subtitles, url, file)
  {
    var x := Entry("richText", Str(text));
    var fields := TextFields(t, text, subtitles, url) + FileField(t, file);
    if file.Some? {
      var z := Entry(MediaKey(t), Upload(file.value));
      assert fields == [x, z];
      AppliedTwo(head, x, z);
      MediaFileStored(head, t, text, subtitles, url, file.value);
    } else {
      assert fields == [x];
      AppliedOne(head, x);
    }
  }

  lemma MediaFileStored(head: BackRecord, t: BackItemType, text: string,
                        subtitles: string, url: string, file: FileRef)
    requires IsMedia(t) && t != Video
    requires head == EmptyBack.(flashcardFront := head.flashcardFront, sequential := head.sequential)
    ensures Put(Put(head, Entry("richText", Str(text))), Entry(MediaKey(t), Upload(file)))
      == Expected(head.flashcardFront, head.sequential, t, text, subtitles, url, Some(file))
  {
  }

  /** Whether the saved item still carries the content its variant is
      recognised by: trimmed code, a trimmed url, or a file with a name. */
  predicate KeepsVariant(t: BackItemType, text: string, url: string, file: Option<FileRef>) {
    match t
    case RichText => true
    case Code => Trim(text) != ""
    case Url => Trim(url) != ""
    case _ => file.Some? && file.value.name != ""
  }

  /** A created item, read back from the store and typed again by the list,
      keeps its owner and position and is recognised as its own variant
      exactly when it carries that variant's content; otherwise it comes back
      as Rich Text (a Url item with only a description, or an Image item
      without a file). */
  lemma CreatedItemReadBack(front: string, sequential: int, t: BackItemType, text: string,
                            subtitles: string, url: string, file: Option<FileRef>)
    ensures var r := Stored(CreatePayload(front, sequential, t, text, subtitles, url, file));
      && r.flashcardFront == front && r.sequential == sequential
      && DeriveType(r) == (if KeepsVariant(t, text, url, file) then t else RichText)
  {
    StoredIsExpected(front, sequential, t, text, subtitles, url, file);
    ExpectedVariant(front, sequential, t, Trim(text), Trim(subtitles), Trim(url), file);
  }

  lemma ExpectedVariant(front: string, sequential: int, t: BackItemType, text: string,
                        subtitles: string, url: string, file: Option<FileRef>)
    ensures var r := Expected(front, sequential, t, text, subtitles, url, file);
      && r.flashcardFront == front && r.sequential == sequential
      && DeriveType(r) == (if t == RichText || (t == Code && text != "") || (t == Url && url != "")
                              || (IsMedia(t) && file.Some? && file.value.name != "") then t else RichText)
  {
  }

  /** `handleUpdate`'s form data never moves the item to another front or position. */
  lemma UpdateKeepsOwnerAndPosition(r: BackRecord, t: BackItemType, text: string, subtitles: string,
                                    url: string, file: Option<FileRef>)
    ensures var u := Applied(r, TypeFields(t, text, subtitles, url, file));
      u.flashcardFront == r.flashcardFront && u.sequential == r.sequential && u.id == r.id
  {
    AppliedKeepsOwner(r, TypeFields(t, text, subtitles, url, file));
  }

  lemma {:induction false} AppliedKeepsOwner(r: BackRecord, fd: FormData)
    requires KeepsOwner(fd)
    ensures Applied(r, fd).flashcardFront == r.flashcardFront
    ensures Applied(r, fd).sequential == r.sequential && Applied(r, fd).id == r.id
    decreases |fd|
  {
    if fd != [] {
      var r1 := Put(r, fd[0]);
      assert r1.flashcardFront == r.flashcardFront && r1.sequential == r.sequential && r1.id == r.id;
      AppliedKeepsOwner(r1, fd[1..]);
    }
  }

  /** The values the editor shows besides its buttons. */
  datatype Shown = Shown(text: string, subtitles: string, url: string,
                         preview: Option<string>, fileName: Option<string>)

  /** The edit-mode fetch applied to what was shown before: the main text
      always comes from the record, the url only for a Url item, the
      subtitles only for a Video item, a preview only for an Image or Video
      item with a stored file, and a display name only for an Audio or File
      item with a stored file (its stored name, else the last path segment). */
  function Loaded(t: BackItemType, rec: BackRecord, before: Shown): (s: Shown)
    ensures s.text == (if t == Code then rec.code else rec.richText)
    ensures s.url == (if t == Url then rec.resource else before.url)
    ensures s.subtitles == (if t == Video then rec.subtitles else before.subtitles)
    ensures !IsMedia(t) ==> s.preview == before.preview && s.fileName == before.fileName
    ensures t == Image && rec.image != "" ==> s.preview == Some(rec.image)
    ensures t == Video && rec.video != "" ==> s.preview == Some(rec.video)
    ensures !(t == Image && rec.image != "") && !(t == Video && rec.video != "") ==> s.preview == before.preview
    ensures t == Audio && rec.audio != "" ==>
      s.fileName == Some(if rec.audioName != "" then rec.audioName else LastSegment(rec.audio, '/'))
    ensures t == File && rec.file != "" ==>
      s.fileName == Some(if rec.fileName != "" then rec.fileName else LastSegment(rec.file, '/'))
    ensures !(t == Audio && rec.audio != "") && !(t == File && rec.file != "") ==> s.fileName == before.fileName
  {
    var preview :=
      if t == Image && rec.image != "" then Some(rec.image)
      else if t == Video && rec.video != "" then Some(rec.video)
      else before.preview;
    var name :=
      if t == Audio && rec.audio != "" then Some(if rec.audioName != "" then rec.audioName else LastSegment(rec.audio, '/'))
      else if t == File && rec.file != "" then Some(if rec.fileName != "" then rec.fileName else LastSegment(rec.file, '/'))
      else before.fileName;
    Shown(if t == Code then rec.code else rec.richText,
          if t == Video then rec.subtitles else before.subtitles,
          if t == Url then rec.resource else before.url,
          preview, name)
  }

  /** Saving and loading again shows the trimmed text, subtitles and url that
      were entered. */
  lemma CreateThenLoad(front: string, sequential: int, t: BackItemType, text: string,
                       subtitles: string, url: string, file: Option<FileRef>, before: Shown)
    ensures var s := Loaded(t, Stored(CreatePayload(front, sequential, t, text, subtitles, url, file)), before);
      && s.text == Trim(text)
      && (t == Video ==> s.subtitles == Trim(subtitles))
      && (t == Url ==> s.url == Trim(url))
  {
    StoredIsExpected(front, sequential, t, text, subtitles, url, file);
  }

  /** What the editor asks its list to do after a handler. */
  datatype Signal = Quiet | ItemChanged | RemoveLocally

  const InvalidMessage := "Please enter text or select a file."

  class BackItemEditorState {
    const flashcardFrontId: string
    const localType: BackItemType
    const sequential: int
    var recordId: string
    var textValue: string
    var subtitlesValue: string
    var urlValue: string
    var file: Option<FileRef>
    var filePreview: Option<string>
    var fileName: Option<string>
    var formError: Option<string>
    var buttons: Controls
    var deleteButtonDisabled: bool

    /** The buttons agree with the lifecycle phase, and only media items ever
        hold a file, preview or file name. */
    ghost predicate Valid()
      reads this
    {
      && Consistent(recordId != "", buttons)
      && (!IsMedia(localType) ==> file.None? && filePreview.None? && fileName.None?)
    }

    function Form(): Shown
      reads this
    {
      Shown(textValue, subtitlesValue, urlValue, filePreview, fileName)
    }

    function CurrentSubmittable(): bool
      reads this
    {
      Submittable(localType, textValue, urlValue, file, filePreview, fileName)
    }

    /** The form data `handleCreate` would send now. */
    function CreateRequest(): FormData
      reads this
    {
      CreatePayload(flashcardFrontId, sequential, localType, textValue, subtitlesValue, urlValue, file)
    }

    /** The form data `handleUpdate` would send now. */
    function UpdateRequest(): FormData
      reads this
    {
      TypeFields(localType, textValue, subtitlesValue, urlValue, file)
    }

    /** The component as first rendered from `initial`, after its mode-setup
        effect; `reload` is the fetch of the stored record in edit mode. */
    constructor (flashcardFrontId: string, initial: BackItemData, reload: Outcome<BackRecord>)
      ensures Valid()
      ensures this.flashcardFrontId == flashcardFrontId
      ensures localType == initial.itemType && sequential == initial.sequential && recordId == initial.id
      ensures file.None? && !deleteButtonDisabled
      ensures buttons == Setup(recordId != "", InitialControls)
      ensures recordId == "" || reload.Failure? ==> Form() == Shown("", "", "", None, None)
      ensures recordId != "" && reload.Success? ==> Form() == Loaded(localType, reload.value, Shown("", "", "", None, None))
      ensures formError == (if recordId != "" && reload.Failure? then Some("Back item record not found.") else None)
    {
      this.flashcardFrontId := flashcardFrontId;
      localType := initial.itemType;
      sequential := initial.sequential;
      recordId := initial.id;
      textValue := "";
      subtitlesValue := "";
      urlValue := "";
      file := None;
      filePreview := None;
      fileName := None;
      formError := None;
      buttons := InitialControls;
      deleteButtonDisabled := false;
      new;
      SetUpMode(reload);
    }

    /** The effect that runs whenever `recordId` changes: it sets up the
        buttons and, for a saved item, fetches the record into the form. */
    method SetUpMode(reload: Outcome<BackRecord>)
      requires !IsMedia(localType) ==> file.None? && filePreview.None? && fileName.None?
      modifies this
      ensures Valid()
      ensures recordId == old(recordId) && file == old(file) && deleteButtonDisabled == old(deleteButtonDisabled)
      ensures buttons == Setup(recordId != "", old(buttons))
      ensures recordId != "" && reload.Success? ==> Form() == Loaded(localType, reload.value, old(Form()))
      ensures recordId == "" || reload.Failure? ==> Form() == old(Form())
      ensures formError == (if recordId != "" && reload.Failure? then Some("Back item record not found.") else old(formError))
    {
      if recordId != "" {
        match reload {
          case Success(rec) =>
            // Fields the fetch does not touch keep their value in `Loaded`.
            var shown := Loaded(localType, rec, Form());
            textValue, subtitlesValue, urlValue := shown.text, shown.subtitles, shown.url;
            filePreview, fileName := shown.preview, shown.fileName;
          case Failure(_) =>
            formError := Some("Back item record not found.");
        }
      }
      buttons := Setup(recordId != "", buttons);
    }

    /** `handleCreate`: refused with a message when there is nothing to save;
        otherwise sends the create payload, and on success takes the new id
        (the effect then reloads the record as `reload`) and tells the list. */
    method Create(created: Outcome<string>, reload: Outcome<BackRecord>) returns (sent: Option<FormData>, signal: Signal)
      requires Valid() && recordId == "" && buttons.createVisible && !buttons.createDisabled
      requires created.Success? ==> created.value != ""
      modifies this
      ensures Valid()
      ensures old(CurrentSubmittable()) <==> sent.Some?
      ensures sent.Some? ==> sent.value == old(CreateRequest())
      ensures sent.None? ==> formError == Some(InvalidMessage) && recordId == "" && buttons == old(buttons) && signal == Quiet
      ensures sent.Some? && created.Failure? ==>
        formError == Some("Failed to create back item.") && recordId == "" && buttons == old(buttons) && signal == Quiet
      ensures sent.Some? && created.Success? ==>
        recordId == created.value && buttons == Saved(old(buttons)) && signal == ItemChanged
      ensures sent.Some? && created.Success? ==>
        Form() == (if reload.Success? then Loaded(localType, reload.value, old(Form())) else old(Form()))
      ensures sent.Some? && created.Success? ==>
        formError == (if reload.Failure? then Some("Back item record not found.") else None)
      ensures recordId == "" ==> Form() == old(Form())
      ensures file == old(file) && deleteButtonDisabled == old(deleteButtonDisabled)
    {
      formError := None;
      if !CurrentSubmittable() {
        formError := Some(InvalidMessage);
        return None, Quiet;
      }
      sent := Some(CreateRequest());
      match created {
        case Success(id) =>
          TakeRecord(id, reload);
          signal := ItemChanged;
        case Failure(_) =>
          formError := Some("Failed to create back item.");
          signal := Quiet;
      }
    }

    /** A successful create: the new id is kept and the mode-setup effect
        runs for a saved item. */
    method TakeRecord(id: string, reload: Outcome<BackRecord>)
      requires Valid() && recordId == "" && id != ""
      modifies this
      ensures Valid() && recordId == id && buttons == Saved(old(buttons))
      ensures file == old(file) && deleteButtonDisabled == old(deleteButtonDisabled)
      ensures reload.Success? ==> Form() == Loaded(localType, reload.value, old(Form()))
      ensures reload.Failure? ==> Form() == old(Form())
      ensures formError == (if reload.Failure? then Some("Back item record not found.") else old(formError))
    {
      recordId := id;
      buttons := buttons.(createDisabled := true, createText := "Saved", editVisible := true, editDisabled := false);
      SetUpMode(reload);
    }

    /** `handleEdit`. */
    method Edit()
      requires Valid() && recordId != "" && buttons.editVisible && !buttons.editDisabled
      modifies this
      ensures Valid()
      ensures buttons == Edited(old(buttons))
      ensures recordId == old(recordId) && Form() == old(Form()) && file == old(file)
      ensures formError == old(formError) && deleteButtonDisabled == old(deleteButtonDisabled)
    {
      buttons := Edited(buttons);
    }

    /** `handleUpdate`: refused with a message when there is nothing to save;
        otherwise sends the variant's fields only, and on success shows
        "updated" and tells the list. */
    method Update(updated: Outcome<()>) returns (sent: Option<FormData>, signal: Signal)
      requires Valid() && recordId != "" && buttons.updateVisible && !buttons.updateDisabled
      modifies this
      ensures Valid()
      ensures old(CurrentSubmittable()) <==> sent.Some?
      ensures sent.Some? ==> sent.value == old(UpdateRequest())
      ensures sent.None? ==> formError == Some(InvalidMessage) && buttons == UpdateRejected(old(buttons)) && signal == Quiet
      ensures sent.Some? && updated.Failure? ==>
        formError == Some("Failed to update back item.") && buttons == UpdateRejected(old(buttons)) && signal == Quiet
      ensures sent.Some? && updated.Success? ==>
        formError == None && buttons == Updated(old(buttons), "updated") && signal == ItemChanged
      ensures recordId == old(recordId) && Form() == old(Form()) && file == old(file)
      ensures deleteButtonDisabled == old(deleteButtonDisabled)
    {
      formError := None;
      if !CurrentSubmittable() {
        formError := Some(InvalidMessage);
        buttons := UpdateRejected(buttons);
        return None, Quiet;
      }
      sent := Some(UpdateRequest());
      match updated {
        case Success(_) =>
          buttons := Updated(buttons, "updated");
          signal := ItemChanged;
        case Failure(_) =>
          formError := Some("Failed to update back item.");
          buttons := UpdateRejected(buttons);
          signal := Quiet;
      }
    }

    /** `handleDelete`: an unsaved item is removed from the list without a
        call; a saved one is deleted in the store and the list refreshed, or
        Delete is offered again with a message. */
    method Delete(deleted: Outcome<()>) returns (called: bool, signal: Signal)
      requires !deleteButtonDisabled
      modifies this
      ensures called <==> old(recordId) != ""
      ensures !called ==> signal == RemoveLocally && deleteButtonDisabled && formError == None
      ensures called && deleted.Success? ==> signal == ItemChanged && deleteButtonDisabled && formError == None
      ensures called && deleted.Failure? ==>
        signal == Quiet && !deleteButtonDisabled && formError == Some("Failed to delete back item.")
      ensures recordId == old(recordId) && buttons == old(buttons) && Form() == old(Form()) && file == old(file)
    {
      formError := None;
      deleteButtonDisabled := true;
      if recordId == "" {
        return false, RemoveLocally;
      }
      called := true;
      match deleted {
        case Success(_) =>
          signal := ItemChanged;
        case Failure(_) =>
          formError := Some("Failed to delete back item.");
          deleteButtonDisabled := false;
          signal := Quiet;
      }
    }

    /** `handleTextChange`: the description (or code) field. */
    method TextChanged(value: string)
      requires Valid() && buttons.isFormEditable
      modifies this
      ensures Valid()
      ensures textValue == value && buttons == old(Changed(recordId != "", buttons))
      ensures subtitlesValue == old(subtitlesValue) && urlValue == old(urlValue)
      ensures file == old(file) && filePreview == old(filePreview) && fileName == old(fileName)
      ensures recordId == old(recordId) && formError == old(formError) && deleteButtonDisabled == old(deleteButtonDisabled)
    {
      textValue := value;
      buttons := Changed(recordId != "", buttons);
    }

    /** `handleSubtitlesChange`: the subtitles field of a Video item. */
    method SubtitlesChanged(value: string)
      requires Valid() && buttons.isFormEditable && localType == Video
      modifies this
      ensures Valid()
      ensures subtitlesValue == value && buttons == old(Changed(recordId != "", buttons))
      ensures textValue == old(textValue) && urlValue == old(urlValue)
      ensures file == old(file) && filePreview == old(filePreview) && fileName == old(fileName)
      ensures recordId == old(recordId) && formError == old(formError) && deleteButtonDisabled == old(deleteButtonDisabled)
    {
      subtitlesValue := value;
      buttons := Changed(recordId != "", buttons);
    }

    /** `handleUrlChange`: the url field of a Url item. */
    method UrlChanged(value: string)
      requires Valid() && buttons.isFormEditable && localType == Url
      modifies this
      ensures Valid()
      ensures urlValue == value && buttons == old(Changed(recordId != "", buttons))
      ensures textValue == old(textValue) && subtitlesValue == old(subtitlesValue)
      ensures file == old(file) && filePreview == old(filePreview) && fileName == old(fileName)
      ensures recordId == old(recordId) && formError == old(formError) && deleteButtonDisabled == old(deleteButtonDisabled)
    {
      urlValue := value;
      buttons := Changed(recordId != "", buttons);
    }

    /** `handleFileChange`: a chosen file becomes the upload, its preview
        and its shown name; an empty choice changes nothing. The preview is
        the browser's object URL for the file, which the file's name stands
        in for here. */
    method FileChosen(chosen: Option<FileRef>)
      requires Valid() && buttons.isFormEditable && IsMedia(localType)
      modifies this
      ensures Valid()
      ensures chosen.None? ==> file == old(file) && filePreview == old(filePreview) && fileName == old(fileName) && buttons == old(buttons)
      ensures chosen.Some? ==> file == chosen && filePreview == Some(chosen.value.name) && fileName == Some(chosen.value.name)
      ensures chosen.Some? ==> buttons == old(Changed(recordId != "", buttons))
      ensures textValue == old(textValue) && subtitlesValue == old(subtitlesValue) && urlValue == old(urlValue)
      ensures recordId == old(recordId) && formError == old(formError) && deleteButtonDisabled == old(deleteButtonDisabled)
    {
      if chosen.Some? {
        file := chosen;
        filePreview := Some(chosen.value.name);
        fileName := Some(chosen.value.name);
        buttons := Changed(recordId != "", buttons);
      }
    }
  }

  /** The controls before the first effect: form locked, Create shown and
      enabled, Edit and Update hidden and disabled. */
  const InitialControls := Controls(false, true, false, "Create", false, true, false, true, "Update")

  /** A Code, Url or Rich Text item never holds a file, so for those only the
      text (and for Url the url) decides whether it can be saved. */
  lemma TextOnlyItemsNeedText(e: BackItemEditorState)
    requires e.Valid() && !IsMedia(e.localType) && e.localType != Url
    ensures e.CurrentSubmittable() <==> HasText(e.textValue)
  {
  }
}
