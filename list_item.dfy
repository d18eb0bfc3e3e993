/** One flashcard in a directory listing: a click opens the card, on its
    back when the details are expanded, and the expand toggle is offered
    only for a card with something to show. */
module ListItem {
  import opened Records

  /** The prefix of every study-view route. */
  const StudyPrefix := "/flashcard/"

  /** `handleClick`'s target. */
  function ClickRoute(id: string, expanded: bool): (route: string)
    ensures StudyPrefix + id + "/" <= route
    ensures route[|StudyPrefix + id + "/"|..] == (if expanded then "back" else "front")
  {
    StudyPrefix + id + "/" + (if expanded then "back" else "front")
  }

  /** The target tells the card and the side apart: different cards or
      sides never share a route. */
  lemma ClickRouteInjective(id1: string, e1: bool, id2: string, e2: bool)
    requires '/' !in id1 && '/' !in id2
    requires ClickRoute(id1, e1) == ClickRoute(id2, e2)
    ensures id1 == id2 && e1 == e2
  {
    RouteLayout(id1, e1);
    RouteLayout(id2, e2);
    assert |id1| == |id2|;
    assert id1 == id2;
  }

  /** Where the id and the slash after it sit in a route. */
  lemma RouteLayout(id: string, expanded: bool)
    ensures forall k :: 0 <= k < |id| ==> ClickRoute(id, expanded)[|StudyPrefix| + k] == id[k]
    ensures ClickRoute(id, expanded)[|StudyPrefix| + |id|] == '/'
  {
  }

  class FlashcardListItem {
    const flashcard: Front
    var expanded: bool

    /** The toggle is rendered when the card has a description, an image or a video. */
    predicate ToggleOffered()
      reads this
    {
      flashcard.richText != "" || flashcard.image != "" || flashcard.video != ""
    }

    /** Details are only ever expanded for a card that has some to show. */
    ghost predicate Valid()
      reads this
    {
      expanded ==> ToggleOffered()
    }

    constructor (flashcard: Front)
      ensures this.flashcard == flashcard && !expanded && Valid()
    {
      this.flashcard := flashcard;
      expanded := false;
    }

    /** The toggle button: flips `expanded`, so two presses restore it. */
    method Toggle()
      requires Valid() && ToggleOffered()
      modifies this
      ensures Valid() && expanded == !old(expanded)
    {
      expanded := !expanded;
    }

    /** `handleClick`. */
    method Click() returns (route: string)
      requires Valid()
      ensures route == ClickRoute(flashcard.id, expanded)
      ensures expanded ==> ToggleOffered()
    {
      route := ClickRoute(flashcard.id, expanded);
    }
  }
}
