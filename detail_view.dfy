/** The study view of one flashcard among its siblings: the fronts of the
    card's directory in store order, wrap-around stepping through them, and
    the Back toggle whose caption reports the loading of the back items. */
module DetailView {
  import opened Outcomes
  import opened Decimal
  import opened Records

  datatype Direction = Prev | Next

  datatype Side = FrontSide | BackSide

  /** The index `navigateFlashcard` moves to among `n` fronts: one step in
      `dir`, wrapping past either end. */
  function Step(i: int, n: int, dir: Direction): (j: int)
    requires n > 0
    ensures 0 <= j < n
    ensures dir == Next && i == n - 1 ==> j == 0
    ensures dir == Prev && i == 0 ==> j == n - 1
    ensures dir == Next && 0 <= i + 1 < n ==> j == i + 1
    ensures dir == Prev && 0 <= i - 1 < n ==> j == i - 1
  {
    var k := if dir == Next then i + 1 else i - 1;
    if 0 <= k < n then k else if k < 0 then n - 1 else 0
  }

  /** From a shown card, stepping is counting modulo the number of cards. */
  lemma StepIsModular(i: int, n: int)
    requires 0 <= i < n
    ensures Step(i, n, Next) == (i + 1) % n
    ensures Step(i, n, Prev) == (i - 1) % n
  {
    if i + 1 < n {
      ModUnique(i + 1, n, 0, i + 1);
    } else {
      ModUnique(i + 1, n, 1, 0);
    }
    if i >= 1 {
      ModUnique(i - 1, n, 0, i - 1);
    } else {
      ModUnique(i - 1, n, -1, n - 1);
    }
  }

  /** Next then previous comes back to the same card, and so does previous then next. */
  lemma StepsCancel(i: int, n: int)
    requires 0 <= i < n
    ensures Step(Step(i, n, Next), n, Prev) == i
    ensures Step(Step(i, n, Prev), n, Next) == i
  {
  }

  /** `k` presses of the next button. */
  function NextTimes(i: int, n: int, k: nat): (j: int)
    requires n > 0
    ensures k > 0 ==> 0 <= j < n
  {
    if k == 0 then i else Step(NextTimes(i, n, k - 1), n, Next)
  }

  /** Pressing next `k` times from card `i` shows card `(i + k) mod n`: after
      `n` presses the first card is back. */
  lemma {:induction false} NextTimesIsModular(i: int, n: int, k: nat)
    requires 0 <= i < n
    ensures NextTimes(i, n, k) == (i + k) % n
  {
    if k > 0 {
      NextTimesIsModular(i, n, k - 1);
      var j := NextTimes(i, n, k - 1);
      StepIsModular(j, n);
      ModSucc(i + k - 1, n);
    }
  }

  lemma ModSucc(a: int, n: int)
    requires n > 0
    ensures ((a % n) + 1) % n == (a + 1) % n
  {
    var q, r := a / n, a % n;
    assert a == q * n + r;
    if r + 1 < n {
      ModUnique(r + 1, n, 0, r + 1);
      ModUnique(a + 1, n, q, r + 1);
    } else {
      ModUnique(r + 1, n, 1, 0);
      assert (q + 1) * n == q * n + n;
      ModUnique(a + 1, n, q + 1, 0);
    }
  }

  /** Quotient and remainder are unique. */
  lemma ModUnique(x: int, n: int, q: int, r: int)
    requires n > 0 && 0 <= r < n && x == q * n + r
    ensures x % n == r
  {
    var q', r' := x / n, x % n;
    assert x == q' * n + r';
    assert (q - q') * n == q * n - q' * n;
    if q > q' {
      MulAtLeast(q - q', n);
    } else if q < q' {
      MulAtLeast(q' - q, n);
    }
  }

  lemma {:induction false} MulAtLeast(d: int, n: int)
    requires d >= 1 && n > 0
    ensures d * n >= n
  {
    if d > 1 {
      MulAtLeast(d - 1, n);
      assert d * n == (d - 1) * n + n;
    }
  }

  /** `findIndex` on the id: the first front with that id, -1 when none has it. */
  function FindIndex(fronts: seq<Front>, id: string): (r: int)
    ensures -1 <= r < |fronts|
    ensures r == -1 <==> forall k :: 0 <= k < |fronts| ==> fronts[k].id != id
    ensures r >= 0 ==> fronts[r].id == id && forall k :: 0 <= k < r ==> fronts[k].id != id
  {
    if fronts == [] then -1
    else if fronts[0].id == id then 0
    else
      var r := FindIndex(fronts[1..], id);
      if r == -1 then -1 else r + 1
  }

  /** The caption and enabledness of the Back toggle. */
  datatype BackButton = BackButton(text: string, disabled: bool)

  const Loading := BackButton("Loading the Back", true)

  /** "Back (n)" for `n` back items. */
  function CountCaption(n: nat): string {
    "Back (" + NatToString(n) + ")"
  }

  /** The toggle after the back items of the shown card were fetched: the
      count when there are some, and only then enabled. */
  function AfterFetch(fetched: Outcome<seq<BackRecord>>): (b: BackButton)
    ensures !b.disabled <==> fetched.Success? && |fetched.value| > 0
    ensures fetched.Success? && |fetched.value| > 0 ==> b.text == CountCaption(|fetched.value|)
    ensures fetched.Success? && |fetched.value| == 0 ==> b.text == "Back (empty)"
    ensures fetched.Failure? ==> b.text == "Back (error)"
  {
    match fetched
    case Success(records) =>
      if |records| > 0 then BackButton(CountCaption(|records|), false)
      else BackButton("Back (empty)", true)
    case Failure(_) => BackButton("Back (error)", true)
  }

  /** The count sits between "Back (" and ")", and starts with a digit. */
  lemma CountCaptionShape(n: nat)
    ensures var c := CountCaption(n);
      |c| == |NatToString(n)| + 7 && c[6..|c| - 1] == NatToString(n) && IsDigit(c[6])
  {
    var c := CountCaption(n);
    assert c[6] == NatToString(n)[0];
  }

  /** The caption alone tells the outcome: different counts read
      differently, and no count reads as empty, error or loading. */
  lemma CaptionsDistinct(n: nat, m: nat)
    ensures CountCaption(n) == CountCaption(m) ==> n == m
    ensures CountCaption(n) != "Back (empty)" && CountCaption(n) != "Back (error)"
    ensures CountCaption(n) != Loading.text
  {
    CountCaptionShape(n);
    CountCaptionShape(m);
    assert "Back (empty)"[6] == 'e' && "Back (error)"[6] == 'e';
    assert CountCaption(n)[0] == 'B' && Loading.text[0] == 'L';
    if CountCaption(n) == CountCaption(m) {
      ParseNatToString(n);
      ParseNatToString(m);
    }
  }

  /** The label over a back item's text: "Subtitles" beside a video, "Rich
      Text" otherwise, nothing when there is no text. */
  function TextLabel(back: BackRecord): (caption: Option<string>)
    ensures caption.Some? <==> back.richText != ""
    ensures caption.Some? ==> (caption.value == "Subtitles: " <==> back.video != "")
  {
    if back.richText != "" && back.video != "" then Some("Subtitles: ")
    else if back.richText != "" then Some("Rich Text: ")
    else None
  }

  class FlashcardDetail {
    /** The route's card id. */
    const routeId: string
    var fronts: seq<Front>
    var backs: seq<BackRecord>
    var currentIndex: int
    var viewSide: Side
    var backButton: BackButton

    /** A card is on screen. Otherwise the view renders "Loading..." while
        no fronts are loaded; with fronts loaded but the route's card not
        among them, the page reads the name of a missing card and fails to
        render. */
    predicate Showing()
      reads this
    {
      0 <= currentIndex < |fronts|
    }

    /** The view for `/flashcard/{id}/{side}`; `side` is `None` when the
        segment is missing, which shows the front. */
    constructor (id: string, side: Option<Side>)
      ensures routeId == id && fronts == [] && backs == [] && currentIndex == 0
      ensures viewSide == (if side.Some? then side.value else FrontSide)
      ensures backButton == Loading
    {
      routeId := id;
      fronts, backs := [], [];
      currentIndex := 0;
      viewSide := if side.Some? then side.value else FrontSide;
      backButton := Loading;
    }

    /** `fetchFlashcardBacks`: the toggle shows loading; when a card is
        shown, its back items are taken from `fetched` and the toggle reports
        them; a failure keeps the old items. */
    method FetchBacks(fetched: Outcome<seq<BackRecord>>)
      modifies this
      ensures backButton == (if old(Showing()) then AfterFetch(fetched) else Loading)
      ensures backs == (if old(Showing()) && fetched.Success? then fetched.value else old(backs))
      ensures fronts == old(fronts) && currentIndex == old(currentIndex) && viewSide == old(viewSide)
    {
      backButton := Loading;
      if !Showing() {
        return;
      }
      match fetched {
        case Success(records) =>
          backs := records;
          backButton := AfterFetch(fetched);
        case Failure(_) =>
          backButton := AfterFetch(fetched);
      }
    }

    /** `fetchFlashcardFronts` on mount: the fronts of the card's directory
        (`siblings`, in store order) and the route card's position among
        them; then, when that card is shown, its back items (`backsFetched`). */
    method LoadFronts(siblings: Outcome<seq<Front>>, backsFetched: Outcome<seq<BackRecord>>)
      requires fronts == []
      modifies this
      ensures siblings.Success? ==> fronts == siblings.value && currentIndex == FindIndex(siblings.value, routeId)
      ensures siblings.Failure? ==> fronts == old(fronts) && currentIndex == old(currentIndex)
      ensures siblings.Success? && Showing() ==> backButton == AfterFetch(backsFetched)
      ensures siblings.Success? && Showing() ==>
                backs == if backsFetched.Success? then backsFetched.value else old(backs)
      ensures !(siblings.Success? && Showing()) ==> backs == old(backs) && backButton == old(backButton)
      ensures viewSide == old(viewSide)
    {
      match siblings {
        case Success(records) =>
          fronts := records;
          currentIndex := FindIndex(records, routeId);
          if Showing() {
            FetchBacks(backsFetched);
          }
        case Failure(_) =>
      }
    }

    /** `navigateFlashcard`: clears the back items, shows the front, and
        moves one card with wrap-around; a move to another card fetches that
        card's back items (`fetched`). */
    method Navigate(dir: Direction, fetched: Outcome<seq<BackRecord>>)
      requires Showing()
      modifies this
      ensures Showing() && fronts == old(fronts) && viewSide == FrontSide
      ensures currentIndex == Step(old(currentIndex), |fronts|, dir)
      ensures currentIndex == old(currentIndex) ==> backs == [] && backButton == old(backButton)
      ensures currentIndex != old(currentIndex) ==> backButton == AfterFetch(fetched)
      ensures currentIndex != old(currentIndex) ==> backs == (if fetched.Success? then fetched.value else [])
    {
      var previous := currentIndex;
      backs := [];
      currentIndex := Step(currentIndex, |fronts|, dir);
      viewSide := FrontSide;
      if currentIndex != previous {
        FetchBacks(fetched);
      }
    }

    /** The Front toggle. */
    method ShowFront()
      modifies this
      ensures viewSide == FrontSide
      ensures fronts == old(fronts) && backs == old(backs) && currentIndex == old(currentIndex)
      ensures backButton == old(backButton)
    {
      viewSide := FrontSide;
    }

    /** The Back toggle: shows the back side, fetching the items when none
        are loaded (after a move to a card with the same index). */
    method ShowBack(fetched: Outcome<seq<BackRecord>>)
      requires !backButton.disabled
      modifies this
      ensures viewSide == BackSide && fronts == old(fronts) && currentIndex == old(currentIndex)
      ensures old(backs) != [] ==> backs == old(backs) && backButton == old(backButton)
      ensures old(backs) == [] ==> backButton == (if Showing() then AfterFetch(fetched) else Loading)
      ensures old(backs) == [] ==> backs == (if Showing() && fetched.Success? then fetched.value else [])
    {
      viewSide := BackSide;
      if backs == [] {
        FetchBacks(fetched);
      }
    }

    /** The "Back to Directory" target. */
    function DirectoryRoute(): string
      requires Showing()
      reads this
    {
      "/directories/" + fronts[currentIndex].directory
    }
  }
}
