/** The directory browser: loads every directory of the signed-in user once,
    keeps a stack of the directories entered (ids and names, for the
    breadcrumb), lists the children of the top of the stack, loads the
    flashcards of a directory that has no children, and decides which
    creation actions ("Directory", "Flashcard") to offer. */
module DirectoryList {
  import opened Outcomes
  import opened Records
  import Decimal

  /** One breadcrumb entry, `{ id, name }`. */
  datatype Crumb = Crumb(id: string, name: string)

  /** `directories.find(dir => dir.id === id)`: the first directory with that id. */
  function Find(dirs: seq<Dir>, id: string): (r: Option<Dir>)
    ensures r.None? <==> forall i :: 0 <= i < |dirs| ==> dirs[i].id != id
    ensures r.Some? ==> r.value in dirs && r.value.id == id
  {
    if dirs == [] then None
    else if dirs[0].id == id then Some(dirs[0])
    else Find(dirs[1..], id)
  }

  /** `find` returns the first directory with the id: the one at `k` when
      no directory before `k` has it. */
  lemma {:induction false} FindFirst(dirs: seq<Dir>, id: string, k: int)
    requires 0 <= k < |dirs| && dirs[k].id == id
    requires forall j :: 0 <= j < k ==> dirs[j].id != id
    ensures Find(dirs, id) == Some(dirs[k])
  {
    if k > 0 {
      FindFirst(dirs[1..], id, k - 1);
    }
  }

  /** The walk stops at `d` when `d` has no parent or its parent is not loaded. */
  predicate StopsAt(dirs: seq<Dir>, d: Dir) {
    d.parentDirectory == "" || Find(dirs, d.parentDirectory).None?
  }

  /** Each element of `s` is the loaded parent of the element after it. */
  predicate ParentLinked(dirs: seq<Dir>, s: seq<Dir>) {
    forall i :: 1 <= i < |s| ==> Find(dirs, s[i].parentDirectory) == Some(s[i - 1])
  }

  /** The ancestor chain of `d`, root first and ending with `d`, taking at
      most `fuel` parent steps; `None` when the walk needs more steps. */
  function Chain(dirs: seq<Dir>, d: Dir, fuel: nat): Option<seq<Dir>>
    decreases fuel
  {
    if StopsAt(dirs, d) then Some([d])
    else if fuel == 0 then None
    else
      match Chain(dirs, Find(dirs, d.parentDirectory).value, fuel - 1)
      case None => None
      case Some(up) => Some(up + [d])
  }

  /** A chain that ends is a breadcrumb: it ends with `d`, each element is
      the loaded parent of the next, the walk stopped at its first element,
      and every element but `d` is loaded. */
  lemma {:induction false} ChainShape(dirs: seq<Dir>, d: Dir, fuel: nat)
    requires Chain(dirs, d, fuel).Some?
    ensures var s := Chain(dirs, d, fuel).value;
      && |s| >= 1 && s[|s| - 1] == d
      && ParentLinked(dirs, s) && StopsAt(dirs, s[0])
      && (forall i :: 0 <= i < |s| - 1 ==> s[i] in dirs)
      && |s| <= fuel + 1
    decreases fuel
  {
    if !StopsAt(dirs, d) {
      var p := Find(dirs, d.parentDirectory).value;
      ChainShape(dirs, p, fuel - 1);
      var up := Chain(dirs, p, fuel - 1).value;
      var s := up + [d];
      assert Chain(dirs, d, fuel).value == s;
      forall i | 1 <= i < |s|
        ensures Find(dirs, s[i].parentDirectory) == Some(s[i - 1])
      {
        if i < |up| {
          assert s[i] == up[i] && s[i - 1] == up[i - 1];
        }
      }
    }
  }

  /** Every loaded directory reaches the top within as many parent steps as
      there are directories: the parent relation has no cycle. */
  predicate Acyclic(dirs: seq<Dir>) {
    forall d {:trigger Chain(dirs, d, |dirs|)} :: d in dirs ==> Chain(dirs, d, |dirs|).Some?
  }

  /** What `getFullPath` computes: the root-first ancestor chain of the
      directory with id `id`, or nothing when no such directory is loaded. */
  function Ancestry(dirs: seq<Dir>, id: string): (r: seq<Dir>)
    requires Acyclic(dirs)
    ensures Find(dirs, id).None? ==> r == []
    ensures Find(dirs, id).Some? ==> r != [] && r[|r| - 1] == Find(dirs, id).value && r[|r| - 1].id == id
    ensures ParentLinked(dirs, r) && (r != [] ==> StopsAt(dirs, r[0]))
    ensures forall i :: 0 <= i < |r| ==> r[i] in dirs
  {
    match Find(dirs, id)
    case None => []
    case Some(d) => ChainShape(dirs, d, |dirs|); Chain(dirs, d, |dirs|).value
  }

  function Crumbs(s: seq<Dir>): (r: seq<Crumb>)
    ensures |r| == |s|
  {
    seq(|s|, i requires 0 <= i < |s| => Crumb(s[i].id, s[i].name))
  }

  /** `getFullPath`: walks the parent chain upwards, putting each directory in
      front of the path, and stops at a directory without a parent or whose
      parent is not loaded. The source loop has no bound; `Acyclic` is what
      makes it end. */
  method FullPath(dirs: seq<Dir>, directoryId: string) returns (path: seq<Crumb>)
    requires Acyclic(dirs)
    ensures path == Crumbs(Ancestry(dirs, directoryId))
  {
    assert Ancestry(dirs, directoryId) == AncestryByChain(dirs, directoryId);
    path := [];
    ghost var walked: seq<Dir> := [];
    ghost var fuel: nat := |dirs|;
    ghost var goal := AncestryByChain(dirs, directoryId);
    var current := Find(dirs, directoryId);
    while current.Some?
      invariant path == Crumbs(walked)
      invariant current.None? ==> walked == goal
      invariant current.Some? ==> Chain(dirs, current.value, fuel).Some?
      invariant current.Some? ==> Chain(dirs, current.value, fuel).value + walked == goal
      decreases if current.Some? then fuel + 1 else 0
    {
      var c := current.value;
      WalkStep(dirs, c, fuel, walked, goal);
      CrumbsCons(c, walked);
      path := [Crumb(c.id, c.name)] + path;
      walked := [c] + walked;
      if c.parentDirectory == "" {
        break;
      }
      var next := Find(dirs, c.parentDirectory);
      if next.Some? {
        fuel := fuel - 1;
      }
      current := next;
    }
  }

  /** `Ancestry` without its contract, for the loop's invariants. */
  ghost function AncestryByChain(dirs: seq<Dir>, id: string): seq<Dir>
    requires Acyclic(dirs)
  {
    match Find(dirs, id)
    case None => []
    case Some(d) => Chain(dirs, d, |dirs|).value
  }

  lemma CrumbsCons(c: Dir, s: seq<Dir>)
    ensures Crumbs([c] + s) == [Crumb(c.id, c.name)] + Crumbs(s)
  {
  }

  /** One step of the walk: `c` is put in front of what was walked, and the
      rest of the goal is the chain of its parent, unless the walk stops. */
  lemma WalkStep(dirs: seq<Dir>, c: Dir, fuel: nat, walked: seq<Dir>, goal: seq<Dir>)
    requires Chain(dirs, c, fuel).Some? && Chain(dirs, c, fuel).value + walked == goal
    ensures StopsAt(dirs, c) ==> [c] + walked == goal
    ensures !StopsAt(dirs, c) ==>
              && fuel > 0
              && Chain(dirs, Find(dirs, c.parentDirectory).value, fuel - 1).Some?
              && Chain(dirs, Find(dirs, c.parentDirectory).value, fuel - 1).value + ([c] + walked) == goal
  {
    if !StopsAt(dirs, c) {
      var up := Chain(dirs, Find(dirs, c.parentDirectory).value, fuel - 1).value;
      assert up + [c] + walked == up + ([c] + walked);
    }
  }

  /** A directory that is its own parent never reaches the top: this is the
      cycle on which the unbounded source loop would spin forever. */
  lemma {:induction false} SelfParentNeverStops(dirs: seq<Dir>, d: Dir, fuel: nat)
    requires d.parentDirectory != "" && Find(dirs, d.parentDirectory) == Some(d)
    ensures Chain(dirs, d, fuel).None?
    decreases fuel
  {
    if fuel > 0 {
      SelfParentNeverStops(dirs, d, fuel - 1);
    }
  }

  /** A chain found with some fuel is found, unchanged, with more fuel: the
      breadcrumb does not depend on the bound. */
  lemma {:induction false} ChainMoreFuel(dirs: seq<Dir>, d: Dir, fuel: nat, more: nat)
    requires Chain(dirs, d, fuel).Some?
    requires fuel <= more
    ensures Chain(dirs, d, more) == Chain(dirs, d, fuel)
    decreases fuel
  {
    if !StopsAt(dirs, d) {
      ChainMoreFuel(dirs, Find(dirs, d.parentDirectory).value, fuel - 1, more - 1);
    }
  }

  /** `getSubdirectories`: the directories whose parent is `parentId`. */
  function Subdirectories(dirs: seq<Dir>, parentId: string): (r: seq<Dir>)
    ensures forall d :: d in r <==> d in dirs && d.parentDirectory == parentId
    ensures |r| <= |dirs|
  {
    if dirs == [] then []
    else (if dirs[0].parentDirectory == parentId then [dirs[0]] else [])
         + Subdirectories(dirs[1..], parentId)
  }

  /** The filter keeps the loaded order: it distributes over concatenation. */
  lemma {:induction false} SubdirectoriesAppend(a: seq<Dir>, b: seq<Dir>, parentId: string)
    ensures Subdirectories(a + b, parentId) == Subdirectories(a, parentId) + Subdirectories(b, parentId)
  {
    if a == [] {
      assert a + b == b;
    } else {
      assert (a + b)[1..] == a[1..] + b;
      SubdirectoriesAppend(a[1..], b, parentId);
    }
  }

  /** The two creation actions the browser may offer. */
  datatype Actions = Actions(directory: bool, flashcard: bool)

  /** The button-visibility table: depth below 2 offers Directory; depth 2 or
      3 offers both on an empty directory, else Flashcard when it holds
      flashcards, else Directory; depth 4 offers Flashcard; deeper offers
      nothing. */
  function Decide(depth: nat, subdirectories: nat, flashcards: nat): (r: Actions)
    ensures r.directory <==> depth < 2 || (depth < 4 && flashcards == 0)
    ensures r.flashcard <==> depth == 4 || (2 <= depth < 4 && (subdirectories == 0 || flashcards > 0))
    ensures r.directory && r.flashcard <==> 2 <= depth < 4 && subdirectories == 0 && flashcards == 0
    ensures r.directory || r.flashcard <==> depth <= 4
  {
    if depth < 2 then Actions(true, false)
    else if depth < 4 then
      if subdirectories == 0 && flashcards == 0 then Actions(true, true)
      else if flashcards > 0 then Actions(false, true)
      else if subdirectories > 0 then Actions(true, false)
      else Actions(false, false)
    else if depth == 4 then Actions(false, true)
    else Actions(false, false)
  }

  /** `directory ? directory.name : ""`. */
  function NameOf(dirs: seq<Dir>, id: string): string {
    match Find(dirs, id)
    case Some(d) => d.name
    case None => ""
  }

  /** `currentPath.map(c => c.id)`. */
  function Ids(s: seq<Crumb>): (r: seq<string>)
    ensures |r| == |s| && forall i :: 0 <= i < |s| ==> r[i] == s[i].id
  {
    seq(|s|, i requires 0 <= i < |s| => s[i].id)
  }

  /** `currentPath.map(c => c.name)`. */
  function Names(s: seq<Crumb>): (r: seq<string>)
    ensures |r| == |s| && forall i :: 0 <= i < |s| ==> r[i] == s[i].name
  {
    seq(|s|, i requires 0 <= i < |s| => s[i].name)
  }

  /** `currentPath.slice(0, -1)`. */
  function DropLast<T>(s: seq<T>): (r: seq<T>)
    ensures s != [] ==> r == s[..|s| - 1]
    ensures s == [] ==> r == []
  {
    if s == [] then [] else s[..|s| - 1]
  }

  class DirectoryBrowser {
    /** The directory id of the route, "" when the route has none. */
    const initialDirId: string
    var directories: seq<Dir>
    var flashcards: seq<Front>
    /** The ids of the directories entered, outermost first. */
    var currentPath: seq<string>
    /** Their names, for the breadcrumb. */
    var currentPathName: seq<string>
    var loading: bool
    var flashcardsLoading: bool
    var error: Option<string>

    ghost predicate Valid()
      reads this
    {
      |currentPath| == |currentPathName|
    }

    constructor (initialDirId: string)
      ensures Valid()
      ensures this.initialDirId == initialDirId
      ensures directories == [] && flashcards == [] && currentPath == [] && currentPathName == []
      ensures loading && !flashcardsLoading && error == None
    {
      this.initialDirId := initialDirId;
      directories, flashcards := [], [];
      currentPath, currentPathName := [], [];
      loading, flashcardsLoading := true, false;
      error := None;
    }

    /** The id whose children are listed: the top of the stack, or "" (the
        parent id of the top-level directories) when the stack is empty. */
    function CurrentDirectoryId(): (r: string)
      reads this
      ensures currentPath != [] ==> r == currentPath[|currentPath| - 1]
      ensures currentPath == [] ==> r == ""
    {
      if |currentPath| > 0 then currentPath[|currentPath| - 1] else ""
    }

    /** The creation actions offered at the current position. */
    function Offered(): (r: Actions)
      reads this
      ensures r.directory && r.flashcard ==>
                flashcards == [] && Subdirectories(directories, CurrentDirectoryId()) == []
      ensures r.flashcard ==> 2 <= |currentPath| <= 4
    {
      Decide(|currentPath|, |Subdirectories(directories, CurrentDirectoryId())|, |flashcards|)
    }

    /** `fetchFlashcards`: the flashcards of one directory, in store order
        (the store sorts them by `sequential`). */
    method FetchFlashcards(fetched: Outcome<seq<Front>>)
      modifies this
      ensures fetched.Success? ==> flashcards == fetched.value && error == old(error)
      ensures fetched.Failure? ==> flashcards == old(flashcards) && error == Some("Failed to fetch flashcards.")
      ensures !flashcardsLoading
      ensures directories == old(directories) && currentPath == old(currentPath)
      ensures currentPathName == old(currentPathName) && loading == old(loading)
    {
      flashcardsLoading := true;
      match fetched {
        case Success(cards) => flashcards := cards;
        case Failure(_) => error := Some("Failed to fetch flashcards.");
      }
      flashcardsLoading := false;
    }

    /** `fetchDirectories` on mount, then the effect that opens the route's
        directory: its breadcrumb becomes the path, and its flashcards are
        loaded when it has no subdirectories. */
    method Load(fetched: Outcome<seq<Dir>>, cards: Outcome<seq<Front>>)
      requires Valid()
      requires fetched.Success? ==> Acyclic(fetched.value)
      modifies this
      ensures Valid() && !loading
      ensures fetched.Failure? ==>
                directories == old(directories) && error == Some("Failed to fetch directories.")
                && currentPath == old(currentPath) && currentPathName == old(currentPathName)
                && flashcards == old(flashcards)
      ensures fetched.Success? ==> directories == fetched.value
      ensures fetched.Success? && (directories == [] || initialDirId == "") ==>
                currentPath == old(currentPath) && currentPathName == old(currentPathName)
                && flashcards == old(flashcards) && error == old(error)
      ensures fetched.Success? && directories != [] && initialDirId != "" ==>
                var trail := Crumbs(Ancestry(directories, initialDirId));
                currentPath == Ids(trail) && currentPathName == Names(trail)
      ensures fetched.Success? && directories != [] && initialDirId != "" ==>
                if Subdirectories(directories, initialDirId) == [] && cards.Success?
                then flashcards == cards.value else flashcards == old(flashcards)
      ensures fetched.Success? && directories != [] && initialDirId != "" ==>
                error == if Subdirectories(directories, initialDirId) == [] && cards.Failure?
                         then Some("Failed to fetch flashcards.") else old(error)
      ensures flashcardsLoading == if fetched.Success? && directories != [] && initialDirId != ""
                                      && Subdirectories(directories, initialDirId) == []
                                   then false else old(flashcardsLoading)
    {
      loading := true;
      match fetched {
        case Success(all) => directories := all;
        case Failure(_) => error := Some("Failed to fetch directories.");
      }
      loading := false;
      if fetched.Success? && |directories| > 0 && initialDirId != "" {
        var trail := FullPath(directories, initialDirId);
        currentPath := Ids(trail);
        currentPathName := Names(trail);
        if |Subdirectories(directories, initialDirId)| == 0 {
          FetchFlashcards(cards);
        }
      }
    }

    /** `handleNavigate`: enter a directory; its flashcards are loaded only
        when it has no subdirectories. */
    method Navigate(directoryId: string, cards: Outcome<seq<Front>>)
      requires Valid()
      modifies this
      ensures Valid()
      ensures currentPath == old(currentPath) + [directoryId]
      ensures currentPathName == old(currentPathName) + [NameOf(directories, directoryId)]
      ensures directories == old(directories) && loading == old(loading)
      ensures Subdirectories(directories, directoryId) == [] && cards.Success? ==> flashcards == cards.value
      ensures Subdirectories(directories, directoryId) != [] || cards.Failure? ==> flashcards == old(flashcards)
      ensures error == if Subdirectories(directories, directoryId) == [] && cards.Failure?
                       then Some("Failed to fetch flashcards.") else old(error)
      ensures flashcardsLoading == if Subdirectories(directories, directoryId) == [] then false
                                   else old(flashcardsLoading)
    {
      var subDirs := Subdirectories(directories, directoryId);
      var name := NameOf(directories, directoryId);
      currentPath := currentPath + [directoryId];
      currentPathName := currentPathName + [name];
      if |subDirs| == 0 {
        FetchFlashcards(cards);
      }
    }

    /** `handleBack`: leave the current directory and forget its flashcards. */
    method Back()
      requires Valid()
      modifies this
      ensures Valid()
      ensures currentPath == DropLast(old(currentPath))
      ensures currentPathName == DropLast(old(currentPathName))
      ensures flashcards == []
      ensures directories == old(directories) && error == old(error)
      ensures loading == old(loading) && flashcardsLoading == old(flashcardsLoading)
    {
      currentPath := DropLast(currentPath);
      currentPathName := DropLast(currentPathName);
      flashcards := [];
    }

    /** Entering a directory and going back restores the breadcrumb. */
    method NavigateThenBack(directoryId: string, cards: Outcome<seq<Front>>)
      requires Valid()
      modifies this
      ensures Valid()
      ensures currentPath == old(currentPath) && currentPathName == old(currentPathName)
      ensures flashcards == []
    {
      Navigate(directoryId, cards);
      Back();
    }

    /** `handleCreateDirectory`: the editor route for a new directory under
        the current one (its last `navigate` call is the one that takes
        effect). */
    function CreateDirectoryRoute(): (r: string)
      reads this
      ensures currentPath == [] ==> r == "/directories/create-edit-directory/"
      ensures CurrentDirectoryId() == "" ==> r == "/directories/create-edit-directory/"
      ensures CurrentDirectoryId() != "" ==>
                r == "/directories/" + CurrentDirectoryId() + "/create-edit-directory/"
    {
      if CurrentDirectoryId() == "" then "/directories/create-edit-directory/"
      else "/directories/" + CurrentDirectoryId() + "/create-edit-directory/"
    }

    /** `handleCreateFlashcard`: the editor route for a new flashcard, which
        carries `sequential = flashcards.length + 1`. */
    function CreateFlashcardRoute(): (r: string)
      reads this
      ensures exists seg :: r == FlashcardEditorPrefix(CurrentDirectoryId()) + seg + "/"
                            && seg != [] && Decimal.AllDigits(seg) && Decimal.ParseInt(seg) == Some(|flashcards| + 1)
    {
      FlashcardCreateRoute(CurrentDirectoryId(), |flashcards| + 1)
    }
  }

  /** The route of the flashcard editor for a new card in a directory, up to
      the `sequential` segment. */
  function FlashcardEditorPrefix(directoryId: string): string {
    "/directories/" + directoryId + "/create-edit-flashcard/"
  }

  /** `/directories/{dir}/create-edit-flashcard/{sequential}/`: the segment
      after the prefix reads back, with `parseInt`, as the position. */
  function FlashcardCreateRoute(directoryId: string, sequential: nat): (r: string)
    ensures exists seg :: r == FlashcardEditorPrefix(directoryId) + seg + "/"
                          && seg != [] && Decimal.AllDigits(seg) && Decimal.ParseInt(seg) == Some(sequential)
  {
    Decimal.ParseNatToString(sequential);
    FlashcardEditorPrefix(directoryId) + Decimal.NatToString(sequential) + "/"
  }
}
