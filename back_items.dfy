/** The back side of a flashcard as an ordered list of back items: the
    variant of a stored item is inferred from which content field is set,
    fetched items are ordered by `sequential`, a new local item is appended
    with `sequential = length + 1`, and an unsaved item is removed by index
    without renumbering the others. */
module BackItems {
  import opened Outcomes
  import opened Records

  /** The seven content variants of a back item. */
  datatype BackItemType = RichText | Code | Image | Video | Audio | File | Url

  /** The row of type buttons, in display order. */
  const TypeButtons: seq<BackItemType> := [RichText, Code, Image, Video, Audio, File, Url]

  /** The buttons offer every variant, and each one once. */
  lemma TypeButtonsOfferEachOnce()
    ensures |TypeButtons| == 7
    ensures forall t: BackItemType :: t in TypeButtons
    ensures forall i, j :: 0 <= i < j < |TypeButtons| ==> TypeButtons[i] != TypeButtons[j]
  {
    forall t: BackItemType ensures t in TypeButtons {
      match t
      case RichText => assert TypeButtons[0] == t;
      case Code => assert TypeButtons[1] == t;
      case Image => assert TypeButtons[2] == t;
      case Video => assert TypeButtons[3] == t;
      case Audio => assert TypeButtons[4] == t;
      case File => assert TypeButtons[5] == t;
      case Url => assert TypeButtons[6] == t;
    }
  }

  /** The stored field that carries the content of variant `t`. */
  function ContentField(r: BackRecord, t: BackItemType): string {
    match t
    case Code => r.code
    case Url => r.resource
    case Video => r.video
    case Image => r.image
    case Audio => r.audio
    case File => r.file
    case RichText => r.richText
  }

  /** The order in which the content fields are inspected. */
  const Precedence: seq<BackItemType> := [Code, Url, Video, Image, Audio, File]

  /** The first variant of `order` whose content field is set, RichText when none is. */
  function FirstSet(r: BackRecord, order: seq<BackItemType>): (t: BackItemType)
    requires RichText !in order
    ensures t == RichText || (t in order && ContentField(r, t) != "")
    ensures t == RichText ==> forall k :: 0 <= k < |order| ==> ContentField(r, order[k]) == ""
  {
    if order == [] then RichText
    else if ContentField(r, order[0]) != "" then order[0]
    else FirstSet(r, order[1..])
  }

  /** `deriveBackItemType`. */
  function DeriveType(r: BackRecord): (t: BackItemType)
    ensures t != RichText ==> ContentField(r, t) != ""
    ensures t == RichText <==> forall u :: u != RichText ==> ContentField(r, u) == ""
  {
    if r.code != "" then Code
    else if r.resource != "" then Url
    else if r.video != "" then Video
    else if r.image != "" then Image
    else if r.audio != "" then Audio
    else if r.file != "" then File
    else RichText
  }

  /** The if-chain of `deriveBackItemType` is the precedence order read front to back. */
  lemma DeriveTypeIsFirstSet(r: BackRecord)
    ensures DeriveType(r) == FirstSet(r, Precedence)
  {
    var order := Precedence;
    assert order[1..] == [Url, Video, Image, Audio, File];
    assert order[2..] == [Video, Image, Audio, File];
    assert order[3..] == [Image, Audio, File];
    assert order[4..] == [Audio, File];
    assert order[5..] == [File];
    assert order[6..] == [];
    calc {
      FirstSet(r, order);
      if r.code != "" then Code else FirstSet(r, order[1..]);
      { assert order[1..][1..] == order[2..]; }
      if r.code != "" then Code else if r.resource != "" then Url else FirstSet(r, order[2..]);
      { assert order[2..][1..] == order[3..]; assert order[3..][1..] == order[4..]; }
      if r.code != "" then Code else if r.resource != "" then Url else if r.video != "" then Video
      else if r.image != "" then Image else FirstSet(r, order[4..]);
      { assert order[4..][1..] == order[5..]; assert order[5..][1..] == order[6..]; }
      DeriveType(r);
    }
  }

  /** The position of a variant in the precedence order. */
  function Rank(t: BackItemType): nat {
    match t
    case Code => 0
    case Url => 1
    case Video => 2
    case Image => 3
    case Audio => 4
    case File => 5
    case RichText => 6
  }

  /** Precedence decides between several set fields: the derived variant is
      the set one that comes first in the order (so code and image both set
      gives Code). */
  lemma PrecedenceHonoured(r: BackRecord, u: BackItemType)
    requires u != RichText && ContentField(r, u) != ""
    ensures DeriveType(r) != RichText && Rank(DeriveType(r)) <= Rank(u)
  {
  }

  /** One entry of the list: `{ id, type, sequential, data }`; the id is ""
      for an item that has not been created yet. */
  datatype BackItemData = BackItemData(id: string, itemType: BackItemType, sequential: int, data: BackRecord)

  /** The mapping applied to a fetched record. */
  function ToItem(r: BackRecord): (item: BackItemData)
    ensures item.id == r.id && item.sequential == r.sequential && item.itemType == DeriveType(r)
  {
    BackItemData(r.id, DeriveType(r), r.sequential, r)
  }

  function MapItems(records: seq<BackRecord>): (r: seq<BackItemData>)
    ensures |r| == |records|
    ensures forall k :: 0 <= k < |records| ==> r[k] == ToItem(records[k])
  {
    seq(|records|, k requires 0 <= k < |records| => ToItem(records[k]))
  }

  ghost predicate SortedBySequential(s: seq<BackItemData>) {
    forall p, q :: 0 <= p < q < |s| ==> s[p].sequential <= s[q].sequential
  }

  /** The items of `s` whose `sequential` is `k`, in their order in `s`. */
  function WithSequential(s: seq<BackItemData>, k: int): seq<BackItemData> {
    if s == [] then []
    else (if s[0].sequential == k then [s[0]] else []) + WithSequential(s[1..], k)
  }

  lemma {:induction false} WithSequentialAppend(s: seq<BackItemData>, t: seq<BackItemData>, k: int)
    ensures WithSequential(s + t, k) == WithSequential(s, k) + WithSequential(t, k)
  {
    if s == [] {
      assert s + t == t;
    } else {
      assert (s + t)[0] == s[0];
      assert (s + t)[1..] == s[1..] + t;
      WithSequentialAppend(s[1..], t, k);
    }
  }

  lemma WithSequentialPair(u: BackItemData, v: BackItemData, k: int)
    ensures WithSequential([u, v], k) == (if u.sequential == k then [u] else []) + (if v.sequential == k then [v] else [])
  {
    assert [u, v][1..] == [v];
    assert [v][1..] == [];
    var tail := if v.sequential == k then [v] else [];
    assert WithSequential([v], k) == tail + WithSequential([], k);
    assert tail + [] == tail;
  }

  /** Exchanging two neighbours whose `sequential` values differ keeps, for
      every value, the order of the items that carry it. */
  lemma SwapKeepsEqualKeysInOrder(x: seq<BackItemData>, u: BackItemData, v: BackItemData,
                                  y: seq<BackItemData>, k: int)
    requires u.sequential != v.sequential
    ensures WithSequential(x + [v, u] + y, k) == WithSequential(x + [u, v] + y, k)
  {
    WithSequentialAppend(x + [u, v], y, k);
    WithSequentialAppend(x, [u, v], k);
    WithSequentialAppend(x + [v, u], y, k);
    WithSequentialAppend(x, [v, u], k);
    WithSequentialPair(u, v, k);
    WithSequentialPair(v, u, k);
  }

  /** `mapped.sort((a, b) => a.sequential - b.sequential)`, in place. Like
      `Array.prototype.sort`, the sort is stable: items with the same
      `sequential` keep their order, so an already sorted list is left as it is. */
  method SortBySequential(a: array<BackItemData>)
    modifies a
    ensures SortedBySequential(a[..])
    ensures multiset(a[..]) == multiset(old(a[..]))
    ensures forall k :: WithSequential(a[..], k) == WithSequential(old(a[..]), k)
    ensures SortedBySequential(old(a[..])) ==> a[..] == old(a[..])
  {
    for i := 0 to a.Length
      invariant forall p, q :: 0 <= p < q < i ==> a[p].sequential <= a[q].sequential
      invariant multiset(a[..]) == multiset(old(a[..]))
      invariant forall k :: WithSequential(a[..], k) == WithSequential(old(a[..]), k)
      invariant SortedBySequential(old(a[..])) ==> a[..] == old(a[..])
    {
      Insert(a, i);
    }
  }

  /** Moves `a[i]` left past every larger element of the sorted prefix `a[..i]`. */
  method Insert(a: array<BackItemData>, i: nat)
    requires i < a.Length
    requires forall p, q :: 0 <= p < q < i ==> a[p].sequential <= a[q].sequential
    modifies a
    ensures forall p, q :: 0 <= p < q <= i ==> a[p].sequential <= a[q].sequential
    ensures multiset(a[..]) == multiset(old(a[..]))
    ensures forall k :: WithSequential(a[..], k) == WithSequential(old(a[..]), k)
    ensures i == 0 || old(a[i - 1].sequential <= a[i].sequential) ==> a[..] == old(a[..])
  {
    var j := i;
    while j > 0 && a[j - 1].sequential > a[j].sequential
      invariant 0 <= j <= i
      invariant forall p, q :: 0 <= p < q <= i && p != j && q != j ==> a[p].sequential <= a[q].sequential
      invariant forall q :: j < q <= i ==> a[j].sequential < a[q].sequential
      invariant multiset(a[..]) == multiset(old(a[..]))
      invariant forall k :: WithSequential(a[..], k) == WithSequential(old(a[..]), k)
      invariant i == 0 || old(a[i - 1].sequential <= a[i].sequential) ==> j == i && a[..] == old(a[..])
    {
      Swap(a, j - 1, j);
      j := j - 1;
    }
  }

  /** Exchanges two neighbouring elements. */
  method Swap(a: array<BackItemData>, i: nat, j: nat)
    requires i < j < a.Length && j == i + 1
    modifies a
    ensures a[i] == old(a[j]) && a[j] == old(a[i])
    ensures forall k :: 0 <= k < a.Length && k != i && k != j ==> a[k] == old(a[k])
    ensures multiset(a[..]) == multiset(old(a[..]))
    ensures old(a[i].sequential != a[j].sequential) ==>
      forall k :: WithSequential(a[..], k) == WithSequential(old(a[..]), k)
  {
    ghost var before := a[..];
    a[i], a[j] := a[j], a[i];
    assert a[..] == before[..i] + [before[j], before[i]] + before[j + 1..];
    assert before == before[..i] + [before[i], before[j]] + before[j + 1..];
    if before[i].sequential != before[j].sequential {
      forall k ensures WithSequential(a[..], k) == WithSequential(before, k) {
        SwapKeepsEqualKeysInOrder(before[..i], before[i], before[j], before[j + 1..], k);
      }
    }
  }

  /** The item `handleAddNewItem(t)` appends to a list of `n` items. */
  function NewItem(t: BackItemType, n: nat): (item: BackItemData)
    ensures item.id == "" && item.itemType == t && item.sequential == n + 1 && item.data == EmptyBack
  {
    BackItemData("", t, n + 1, EmptyBack)
  }

  /** `prev.filter((_, i) => i !== index)`. */
  function RemovedAt(items: seq<BackItemData>, index: int): (r: seq<BackItemData>)
    ensures !(0 <= index < |items|) ==> r == items
    ensures 0 <= index < |items| ==> |r| == |items| - 1
    ensures 0 <= index < |items| ==> multiset(r) + multiset{items[index]} == multiset(items)
  {
    if 0 <= index < |items| then
      assert items == items[..index] + [items[index]] + items[index + 1..];
      items[..index] + items[index + 1..]
    else items
  }

  /** Removing keeps the other items, in order, with their own `sequential`
      values: nothing is renumbered. */
  lemma RemovedAtKeepsOthers(items: seq<BackItemData>, index: int)
    requires 0 <= index < |items|
    ensures forall k :: 0 <= k < index ==> RemovedAt(items, index)[k] == items[k]
    ensures forall k :: index <= k < |items| - 1 ==> RemovedAt(items, index)[k] == items[k + 1]
  {
  }

  /** The `sequential` values are exactly 1, 2, ..., |items|. */
  predicate Contiguous(items: seq<BackItemData>) {
    forall k :: 0 <= k < |items| ==> items[k].sequential == k + 1
  }

  /** While no item has been removed, appending keeps the numbering 1..n. */
  lemma AppendKeepsContiguous(items: seq<BackItemData>, t: BackItemType)
    requires Contiguous(items)
    ensures Contiguous(items + [NewItem(t, |items|)])
  {
  }

  /** Because adding numbers by count and removing does not renumber,
      removing the first of 1..n and adding again yields two items with
      `sequential == n`. */
  lemma RemoveThenAddRepeatsSequential(items: seq<BackItemData>, t: BackItemType)
    requires Contiguous(items) && |items| >= 2
    ensures var after := RemovedAt(items, 0) + [NewItem(t, |items| - 1)];
      after[|after| - 1].sequential == after[|after| - 2].sequential == |items|
  {
    RemovedAtKeepsOthers(items, 0);
  }

  /** The list held by the back-side editor of one flashcard. */
  class BackItemList {
    const flashcardFrontId: string
    var backItems: seq<BackItemData>
    var loading: bool
    var error: Option<string>

    constructor (flashcardFrontId: string)
      ensures this.flashcardFrontId == flashcardFrontId
      ensures backItems == [] && loading && error == None
    {
      this.flashcardFrontId := flashcardFrontId;
      backItems := [];
      loading := true;
      error := None;
    }

    /** `fetchBackItems`: the records of this front, mapped and sorted by
        `sequential`; on failure the list is kept and an error is shown. */
    method FetchBackItems(fetched: Outcome<seq<BackRecord>>)
      modifies this
      ensures !loading
      ensures fetched.Success? ==> SortedBySequential(backItems)
      ensures fetched.Success? ==> multiset(backItems) == multiset(MapItems(fetched.value))
      ensures fetched.Success? ==> forall k :: WithSequential(backItems, k) == WithSequential(MapItems(fetched.value), k)
      ensures fetched.Success? && SortedBySequential(MapItems(fetched.value)) ==> backItems == MapItems(fetched.value)
      ensures fetched.Success? ==> error == old(error)
      ensures fetched.Failure? ==> backItems == old(backItems) && error == Some("Failed to fetch back items.")
    {
      loading := true;
      match fetched {
        case Success(records) =>
          var mapped := new BackItemData[|records|](k requires 0 <= k < |records| => ToItem(records[k]));
          assert mapped[..] == MapItems(records);
          SortBySequential(mapped);
          backItems := mapped[..];
        case Failure(_) =>
          error := Some("Failed to fetch back items.");
      }
      loading := false;
    }

    /** `handleAddNewItem`: one new, unsaved item at the end. */
    method AddNewItem(t: BackItemType)
      modifies this
      ensures backItems == old(backItems) + [NewItem(t, |old(backItems)|)]
      ensures loading == old(loading) && error == old(error)
    {
      backItems := backItems + [NewItem(t, |backItems|)];
    }

    /** `handleLocalDelete`: drops the unsaved item at `index`. */
    method LocalDelete(index: int)
      modifies this
      ensures backItems == RemovedAt(old(backItems), index)
      ensures loading == old(loading) && error == old(error)
    {
      backItems := RemovedAt(backItems, index);
    }
  }
}
