/** The page that hosts the front and back editors of one flashcard: it
    holds the front's id once there is one, switches between the two sides,
    and hands the front editor the directory and the `sequential` number
    read from the route. */
module EditorPage {
  import opened Outcomes
  import opened Text
  import opened Decimal
  import FrontEditor
  import DirectoryList
  import ListItem

  datatype Side = FrontSide | BackSide

  /** The `sequential` prop: `parseInt(sequential, 10)` of the route segment,
      `None` (`undefined`, or `NaN` when no digit is read) otherwise. */
  function SequentialProp(param: string): (r: Option<int>)
    ensures param == "" ==> r.None?
    ensures param != "" ==> r == ParseInt(param)
  {
    if param == "" then None else ParseInt(param)
  }

  /** The number the directory listing puts in a new flashcard's route is the
      number the front editor stores: `n + 1` for a directory holding `n`
      flashcards survives the trip through the route text. */
  lemma RouteSequentialReachesPayload(n: nat)
    ensures SequentialProp(NatToString(n + 1)) == Some(n + 1)
    ensures FrontEditor.SequentialSent(SequentialProp(NatToString(n + 1))) == n + 1
  {
    ParseNatToString(n + 1);
  }

  /** Whatever segment text carries a positive position, the front editor
      stores that position: so the number in the listing's
      `create-edit-flashcard` route is the card's `sequential`. */
  lemma ParsedSegmentReachesPayload(seg: string, n: int)
    requires ParseInt(seg) == Some(n) && n != 0
    ensures SequentialProp(seg) == Some(n)
    ensures FrontEditor.SequentialSent(SequentialProp(seg)) == n
  {
  }

  /** A segment without a number in it (or none at all) makes the front
      editor fall back to `sequential = 1`. */
  lemma UnreadableSequentialIsOne(param: string)
    requires DigitPrefix(Unsigned(TrimStart(param))) == []
    ensures FrontEditor.SequentialSent(SequentialProp(param)) == 1
  {
  }

  /** The text of `undefined` in a template string. */
  const Undefined := "undefined"

  class FlashcardEditorPage {
    /** The route's directory id, "" when the route has none. */
    const directoryId: string
    /** The route's `sequential` segment, "" when the route has none. */
    const sequentialParam: string
    /** The id of the front being edited, "" until one exists. */
    var frontId: string
    var activeSide: Side

    /** The back editor is shown only for a front that exists. */
    ghost predicate Valid()
      reads this
    {
      activeSide == BackSide ==> frontId != ""
    }

    /** Create mode for `/directories/{dir}/create-edit-flashcard/{sequential}/`,
        edit mode when the route carries a front id. */
    constructor (directoryId: string, sequentialParam: string, routeFrontId: string)
      ensures this.directoryId == directoryId && this.sequentialParam == sequentialParam
      ensures frontId == routeFrontId && activeSide == FrontSide && Valid()
    {
      this.directoryId := directoryId;
      this.sequentialParam := sequentialParam;
      frontId := routeFrontId;
      activeSide := FrontSide;
    }

    predicate FrontButtonDisabled()
      reads this
    {
      activeSide == FrontSide
    }

    predicate BackButtonDisabled()
      reads this
    {
      frontId == "" || activeSide == BackSide
    }

    /** The props of the front editor: the route's directory, its
        `sequential` number and the current front id. */
    function FrontProps(): (props: (string, Option<int>, string))
      reads this
    {
      (directoryId, SequentialProp(sequentialParam), frontId)
    }

    /** `handleFrontCreated`, called by the front editor, which is shown only
        on the front side. */
    method FrontCreated(newFrontId: string)
      requires Valid() && activeSide == FrontSide
      modifies this
      ensures frontId == newFrontId && activeSide == FrontSide && Valid()
    {
      frontId := newFrontId;
    }

    /** `handleSwitchToFront`, from the enabled Front button. */
    method SwitchToFront()
      requires Valid() && !FrontButtonDisabled()
      modifies this
      ensures activeSide == FrontSide && frontId == old(frontId) && Valid()
      ensures FrontButtonDisabled() && !BackButtonDisabled()
    {
      activeSide := FrontSide;
    }

    /** `handleSwitchToBack`, from the Back button, which is enabled only
        once the front exists. */
    method SwitchToBack()
      requires Valid() && !BackButtonDisabled()
      modifies this
      ensures activeSide == BackSide && frontId == old(frontId) && Valid()
      ensures BackButtonDisabled() && !FrontButtonDisabled()
    {
      if frontId != "" {
        activeSide := BackSide;
      }
    }

    /** `handleDone`: the front's study view once the front exists (the
        page a collapsed list item opens), the directory otherwise. */
    method Done() returns (route: string)
      ensures frontId != "" ==> route == ListItem.ClickRoute(frontId, false)
      ensures frontId == "" && directoryId != "" ==> route == "/directories/" + directoryId
      ensures frontId == "" && directoryId == "" ==> route == "/directories/" + Undefined
    {
      if frontId != "" {
        route := ListItem.StudyPrefix + frontId + "/front";
      } else {
        route := "/directories/" + (if directoryId != "" then directoryId else Undefined);
      }
    }
  }

  /** The two side buttons: never both enabled, the enabled one leads to
      the other side, and Back is offered only for an existing front. */
  lemma SideButtons(page: FlashcardEditorPage)
    requires page.Valid()
    ensures !(!page.FrontButtonDisabled() && !page.BackButtonDisabled())
    ensures !page.FrontButtonDisabled() <==> page.activeSide == BackSide
    ensures !page.BackButtonDisabled() <==> page.activeSide == FrontSide && page.frontId != ""
  {
  }
}
