# Flashcard study front end: a Dafny model

This project models the logic of the React front end of a flashcard study application. The application's data lives in a record store with three collections:

- `directories`: a tree of named directories, linked by `parentDirectory`;
- `flashcardFronts`: ordered study cards that belong to a directory;
- `flashcardBackItems`: ordered back items of one of seven variants (Rich Text, Code, Image, Video, Audio, File, Url) that belong to a front.

The model covers these parts of the front end:

- the directory browser: loading, the breadcrumb walk up the parent chain, entering and leaving directories, and the depth-based choice of creation actions;
- the three record editors (directory, flashcard front, back item), which share one create / edit / update lifecycle of their Create, Edit and Update buttons, build the form data they send, and reload the stored record;
- the back-side list: deriving an item's variant from its stored fields, ordering by `sequential`, appending and removing unsaved items;
- the flashcard editor page that hosts the front and back editors;
- a flashcard's entry in a directory listing;
- the study view that steps through the cards of a directory with wrap-around;
- the sign-up page: the e-mail and password rules, the username availability check, the "Missing" errors and the user record it sends.

Every call to the record store is a parameter of type `Outcome<T>` (`Success(value)` or `Failure(reason)`), so each handler is modelled for every reply the store can give. A handler, together with the mode-setup effect it triggers by changing the record id, is one method. State that the components keep in React state becomes the fields of a class. Pure helpers are functions, and each is related to a partner: an independent reference definition, an inverse, or an invariant, connected by a lemma.

Modules:

- `Outcomes`, `Text`, `Decimal`, `Records`, `Forms`: shared vocabulary. This covers replies, `trim`/`toLowerCase`/`split(..).pop()`, number text and `parseInt`, record shapes, and `FormData` bodies.
- `Lifecycle`: the button state machine shared by the three editors.
- `DirectoryList`: the directory browser.
- `BackItems`: the back-side list.
- `BackItemEditor`: one back item's editor.
- `FrontEditor`: the front editor.
- `DirectoryEditor`: the directory create/edit page.
- `EditorPage`: the flashcard create/edit page.
- `ListItem`: a listing entry.
- `Media`: `getMimeType`.
- `DetailView`: the study view.
- `Account`: the sign-up page.

## Model

| member | source | states |
|---|---|---|
| Text.TrimStart | frontend/src/pages/CreateOrEditDirectoryPage.tsx:143 | the result is a suffix of the input, starts with no white space, and only white space was dropped |
| Text.TrimEnd | frontend/src/pages/CreateOrEditDirectoryPage.tsx:143 | the result is a prefix of the input, ends with no white space, and only white space was dropped |
| Text.BlankIffAllSpace | frontend/src/pages/CreateOrEditDirectoryPage.tsx:143 | `!s.trim()` holds exactly when every character of `s` is white space |
| Text.TrimIsTrimmed | frontend/src/components/FlashcardBackListItemComponent.tsx:203 | a trimmed value neither starts nor ends with white space |
| Text.TrimIdempotent | frontend/src/components/FlashcardBackListItemComponent.tsx:203 | trimming a trimmed value changes nothing |
| Text.ToLower | frontend/src/pages/CreateAccountPage.tsx:31 | lower-casing keeps the length and maps every character on its own |
| Text.ToLowerIdempotent | frontend/src/pages/CreateAccountPage.tsx:31 | lower-casing twice is lower-casing once |
| Text.ToLowerHasNoUpper | frontend/src/pages/CreateAccountPage.tsx:31 | a lower-cased string has no upper-case letter |
| Text.LastSegment | frontend/src/components/FlashcardBackListItemComponent.tsx:122 | `split(sep).pop()` is the separator-free tail of the input that follows the last separator, or the whole input when there is none |
| Text.LastSegmentToLower | frontend/src/components/FlashcardDetailViewComponent.tsx:125 | taking the extension and lower-casing it commute |
| Decimal.NatToString | frontend/src/components/DirectoryListComponent.tsx:174-178 | a count's text is a non-empty run of digits |
| Decimal.ParseInt | frontend/src/pages/FlashcardCreateOrEditPage.tsx:62 | `parseInt(s, 10)` is `NaN` exactly when no digit follows the leading white space and optional sign |
| Decimal.ParseNatToString | frontend/src/pages/FlashcardCreateOrEditPage.tsx:62 | `parseInt` reads back the text of any count as that count |
| Forms.When | frontend/src/pages/CreateOrEditDirectoryPage.tsx:153-158 | a guarded append contributes its entry exactly when the guard holds |
| Lifecycle.Setup | frontend/src/components/FlashcardBackListItemComponent.tsx:90-146 | the mode-setup effect leaves the buttons consistent with the phase: a saved record opens read-only with Edit enabled and Update disabled, a draft opens editable with Create enabled |
| Lifecycle.SetupHidingCreate | frontend/src/pages/CreateOrEditDirectoryPage.tsx:60-95 | as `Setup`, and a saved record's Create is hidden |
| Lifecycle.Saved | frontend/src/components/FlashcardBackListItemComponent.tsx:224-228 | after a successful create the record is read-only, Create is disabled and reads "Saved", and Edit is enabled |
| Lifecycle.Edited | frontend/src/components/FlashcardBackListItemComponent.tsx:237-243 | Edit moves a read-only record to editing, with Update enabled and reading "Update" |
| Lifecycle.Changed | frontend/src/components/FlashcardBackListItemComponent.tsx:158-163 | an input change in an editable form leaves the buttons as they were, because Update is already enabled whenever a saved record is editable |
| Lifecycle.UpdateRejected | frontend/src/components/FlashcardBackListItemComponent.tsx:247-251 | a refused or failed update keeps the record editing with Update enabled |
| Lifecycle.Updated | frontend/src/components/FlashcardBackListItemComponent.tsx:278-280 | a successful update moves editing to read-only, with Update disabled under the given caption |
| Lifecycle.EditThenUpdateRestores | frontend/src/components/FlashcardBackListItemComponent.tsx:237-280 | Edit followed by a successful update restores the read-only buttons, with only the Update caption changed |
| DirectoryList.Find | frontend/src/components/DirectoryListComponent.tsx:49 | `find` by id returns a loaded directory with that id, and nothing exactly when none has it |
| DirectoryList.FindFirst | frontend/src/components/DirectoryListComponent.tsx:49 | `find` returns the first loaded directory with the id: the one at an index with no earlier match |
| DirectoryList.ChainShape | frontend/src/components/DirectoryListComponent.tsx:45-58 | a finished parent walk ends at the start directory, links each element to its loaded parent, and starts where the walk stops |
| DirectoryList.Ancestry | frontend/src/components/DirectoryListComponent.tsx:45-58 | the breadcrumb of an id is empty when the id is not loaded; otherwise it is a root-first parent-linked chain of loaded directories ending with that directory |
| DirectoryList.FullPath | frontend/src/components/DirectoryListComponent.tsx:47-58 | the `while` loop that walks up and unshifts builds exactly the breadcrumb of `Ancestry` |
| DirectoryList.SelfParentNeverStops | frontend/src/components/DirectoryListComponent.tsx:50-56 | a directory that is its own parent never reaches the top, so the loop needs the acyclicity precondition |
| DirectoryList.ChainMoreFuel | frontend/src/components/DirectoryListComponent.tsx:50-56 | the breadcrumb does not depend on the bound used to define it |
| DirectoryList.Subdirectories | frontend/src/components/DirectoryListComponent.tsx:94-96 | the children of a parent are exactly the loaded directories with that parent |
| DirectoryList.SubdirectoriesAppend | frontend/src/components/DirectoryListComponent.tsx:94-96 | the filter keeps the loaded order |
| DirectoryList.Decide | frontend/src/components/DirectoryListComponent.tsx:127-157 | Directory is offered below depth 2, or below depth 4 without flashcards; Flashcard at depth 4, or at depth 2-3 when the directory is empty or holds flashcards; both only on an empty directory at depth 2-3; something exactly up to depth 4 |
| DirectoryList.Ids | frontend/src/components/DirectoryListComponent.tsx:65 | one id per breadcrumb entry, the i-th id being the i-th entry's id |
| DirectoryList.Names | frontend/src/components/DirectoryListComponent.tsx:66 | one name per breadcrumb entry, the i-th name being the i-th entry's name |
| DirectoryList.DropLast | frontend/src/components/DirectoryListComponent.tsx:113-114 | `slice(0, -1)` drops the last element, and of an empty list leaves it empty |
| DirectoryList.DirectoryBrowser.constructor | frontend/src/components/DirectoryListComponent.tsx:11-22 | the browser starts loading with an empty path and no flashcards |
| DirectoryList.DirectoryBrowser.CurrentDirectoryId | frontend/src/components/DirectoryListComponent.tsx:120-121 | the listed directory is the top of the path, the root ("") when the path is empty |
| DirectoryList.DirectoryBrowser.Offered | frontend/src/components/DirectoryListComponent.tsx:128-157 | both actions are offered only on an empty directory, and Flashcard only at depth 2 to 4 |
| DirectoryList.DirectoryBrowser.FetchFlashcards | frontend/src/components/DirectoryListComponent.tsx:77-91 | the fetched flashcards replace the list, and a failure keeps it and shows the error |
| DirectoryList.DirectoryBrowser.Load | frontend/src/components/DirectoryListComponent.tsx:26-75 | after loading, the route's directory's breadcrumb (ids and names) is the path, and its flashcards are fetched exactly when it has no subdirectories, leaving the flashcard spinner off and showing "Failed to fetch flashcards." on a failed fetch; a failed directory fetch shows its error, and without a walk the path, names and flashcards are kept |
| DirectoryList.DirectoryBrowser.Navigate | frontend/src/components/DirectoryListComponent.tsx:99-109 | entering pushes the id and name onto the path, and fetches flashcards only for a directory without children, leaving the spinner off and showing the error on a failed fetch; the directory list and its loading flag are untouched |
| DirectoryList.DirectoryBrowser.Back | frontend/src/components/DirectoryListComponent.tsx:112-117 | Back pops the path and its names and clears the flashcards; the directories, the error and both loading flags are untouched |
| DirectoryList.DirectoryBrowser.NavigateThenBack | frontend/src/components/DirectoryListComponent.tsx:99-117 | entering a directory and going back restores the breadcrumb |
| DirectoryList.DirectoryBrowser.CreateDirectoryRoute | frontend/src/components/DirectoryListComponent.tsx:160-169 | the new-directory route is the root editor at the top or when the current id is empty, and otherwise the editor under the current directory |
| DirectoryList.DirectoryBrowser.CreateFlashcardRoute | frontend/src/components/DirectoryListComponent.tsx:171-178 | the new-flashcard route is the flashcard editor under the current directory, ending in a non-empty run of digits that `parseInt` reads as the number of loaded flashcards plus one |
| DirectoryList.FlashcardCreateRoute | frontend/src/components/DirectoryListComponent.tsx:171-178 | the flashcard editor route for a directory ends in a non-empty run of digits that `parseInt` reads back as the given position |
| BackItems.TypeButtonsOfferEachOnce | frontend/src/components/FlashcardBackCreateOrEditComponent.tsx:85-99 | the type buttons offer each of the seven variants exactly once |
| BackItems.FirstSet | frontend/src/components/FlashcardBackCreateOrEditComponent.tsx:14-23 | reference definition: the first variant in a given order whose field is set, Rich Text when none is |
| BackItems.DeriveType | frontend/src/components/FlashcardBackCreateOrEditComponent.tsx:14-23 | a derived variant's field is set, and Rich Text is derived exactly when no other variant's field is set |
| BackItems.DeriveTypeIsFirstSet | frontend/src/components/FlashcardBackCreateOrEditComponent.tsx:14-23 | the if-chain is the precedence order Code, Url, Video, Image, Audio, File |
| BackItems.PrecedenceHonoured | frontend/src/components/FlashcardBackCreateOrEditComponent.tsx:14-23 | when several fields are set, the one earliest in the precedence order wins |
| BackItems.ToItem | frontend/src/components/FlashcardBackCreateOrEditComponent.tsx:40-45 | a fetched record keeps its id and position and is typed by `DeriveType` |
| BackItems.MapItems | frontend/src/components/FlashcardBackCreateOrEditComponent.tsx:40-45 | the mapping is element-wise |
| BackItems.SortBySequential | frontend/src/components/FlashcardBackCreateOrEditComponent.tsx:46 | the in-place sort orders by `sequential`, is a permutation, and is stable: the items sharing a `sequential` keep their order, so a sorted list is left unchanged |
| BackItems.Insert | frontend/src/components/FlashcardBackCreateOrEditComponent.tsx:46 | one insertion step extends the sorted prefix by one element, as a permutation that keeps the order of equal `sequential` values and changes nothing when the new element is already in place |
| BackItems.Swap | frontend/src/components/FlashcardBackCreateOrEditComponent.tsx:46 | exchanging neighbours is a permutation that touches only those two cells, and keeps the order of equal `sequential` values when theirs differ |
| BackItems.SwapKeepsEqualKeysInOrder | frontend/src/components/FlashcardBackCreateOrEditComponent.tsx:46 | exchanging neighbours with different `sequential` values keeps, for every value, the items carrying it in order |
| BackItems.NewItem | frontend/src/components/FlashcardBackCreateOrEditComponent.tsx:61-67 | a new item is unsaved, has the chosen variant, empty data and position length + 1 |
| BackItems.RemovedAt | frontend/src/components/FlashcardBackCreateOrEditComponent.tsx:77-79 | filtering out an index removes exactly that item, and an index outside the list removes nothing |
| BackItems.RemovedAtKeepsOthers | frontend/src/components/FlashcardBackCreateOrEditComponent.tsx:77-79 | the other items keep their order and their own `sequential` values |
| BackItems.AppendKeepsContiguous | frontend/src/components/FlashcardBackCreateOrEditComponent.tsx:61-69 | while nothing is removed, positions stay 1..n |
| BackItems.RemoveThenAddRepeatsSequential | frontend/src/components/FlashcardBackCreateOrEditComponent.tsx:61-79 | removing an item and adding one gives two items the same `sequential` |
| BackItems.BackItemList.constructor | frontend/src/components/FlashcardBackCreateOrEditComponent.tsx:28-30 | the list starts empty and loading |
| BackItems.BackItemList.FetchBackItems | frontend/src/components/FlashcardBackCreateOrEditComponent.tsx:32-54 | the list becomes the fetched records mapped and stably sorted by `sequential` (already sorted records are kept as they are); a failure keeps it and shows the error |
| BackItems.BackItemList.AddNewItem | frontend/src/components/FlashcardBackCreateOrEditComponent.tsx:61-69 | a type button appends one new item at the end |
| BackItems.BackItemList.LocalDelete | frontend/src/components/FlashcardBackCreateOrEditComponent.tsx:77-79 | a local delete removes the item at that index |
| BackItemEditor.LabelsDistinct | frontend/src/components/FlashcardBackListItemComponent.tsx:69-88 | each variant has its own label |
| BackItemEditor.Submittable | frontend/src/components/FlashcardBackListItemComponent.tsx:178-188 | a Url item needs a description or a url with a non-space character; any other item needs such a description or a file, preview or file name |
| BackItemEditor.TextFields | frontend/src/components/FlashcardBackListItemComponent.tsx:202-223 | the text entries never name the owner or the position, and are trimmed when their inputs are |
| BackItemEditor.FileField | frontend/src/components/FlashcardBackListItemComponent.tsx:207-219 | a file entry is sent exactly for a media item with a chosen file, under that variant's field |
| BackItemEditor.TypeFields | frontend/src/components/FlashcardBackListItemComponent.tsx:202-223 | the variant's entries are trimmed and never name the owner or the position |
| BackItemEditor.StoredWithHeader | frontend/src/components/FlashcardBackListItemComponent.tsx:198-200 | a create first sets the owner and the position |
| BackItemEditor.StoredIsExpected | frontend/src/components/FlashcardBackListItemComponent.tsx:197-224 | the store, given the create payload, holds the expected record: trimmed code or description, url, subtitles, and the file's name in the variant's field |
| BackItemEditor.CreatedItemReadBack | frontend/src/components/FlashcardBackListItemComponent.tsx:190-235 | a created item, read back and typed by the list, keeps owner and position and is its own variant exactly when it carries that variant's content, Rich Text otherwise |
| BackItemEditor.UpdateKeepsOwnerAndPosition | frontend/src/components/FlashcardBackListItemComponent.tsx:256-278 | an update never moves the item to another front or position |
| BackItemEditor.Loaded | frontend/src/components/FlashcardBackListItemComponent.tsx:90-131 | the edit-mode fetch sets the text from code or description, the url for Url, the subtitles for Video; an Image or Video with a stored file gets it as preview, and an Audio or File with a stored file gets its stored name or else its last path segment; otherwise preview and name are kept |
| BackItemEditor.CreateThenLoad | frontend/src/components/FlashcardBackListItemComponent.tsx:98-108 | saving and reloading shows the trimmed text, subtitles and url that were entered |
| BackItemEditor.BackItemEditorState.constructor | frontend/src/components/FlashcardBackListItemComponent.tsx:28-65 | the editor takes the item's variant, position and id, and runs the mode setup |
| BackItemEditor.BackItemEditorState.SetUpMode | frontend/src/components/FlashcardBackListItemComponent.tsx:90-146 | the effect sets up the buttons for the phase and loads a saved record into the form, or reports it missing |
| BackItemEditor.BackItemEditorState.Create | frontend/src/components/FlashcardBackListItemComponent.tsx:190-235 | a create is sent exactly when the item is submittable, and then sends the create payload; success saves the record, notifies the list and shows the reloaded record (or "Back item record not found."), failure or refusal keeps the draft with a message |
| BackItemEditor.BackItemEditorState.TakeRecord | frontend/src/components/FlashcardBackListItemComponent.tsx:224-229 | a created id moves the editor to the saved, read-only phase and reloads the record |
| BackItemEditor.BackItemEditorState.Edit | frontend/src/components/FlashcardBackListItemComponent.tsx:237-243 | Edit unlocks the form and changes nothing else |
| BackItemEditor.BackItemEditorState.Update | frontend/src/components/FlashcardBackListItemComponent.tsx:245-288 | an update is sent exactly when the item is submittable and carries only the variant's fields; success locks the form under "updated", failure or refusal keeps it editable |
| BackItemEditor.BackItemEditorState.Delete | frontend/src/components/FlashcardBackListItemComponent.tsx:290-305 | the store is called exactly for a saved item; an unsaved one is removed locally, and a failure re-enables Delete |
| BackItemEditor.BackItemEditorState.TextChanged | frontend/src/components/FlashcardBackListItemComponent.tsx:158-163 | typing changes only the text |
| BackItemEditor.BackItemEditorState.SubtitlesChanged | frontend/src/components/FlashcardBackListItemComponent.tsx:165-170 | typing changes only the subtitles |
| BackItemEditor.BackItemEditorState.UrlChanged | frontend/src/components/FlashcardBackListItemComponent.tsx:172-175 | typing changes only the url |
| BackItemEditor.BackItemEditorState.FileChosen | frontend/src/components/FlashcardBackListItemComponent.tsx:148-156 | a chosen file becomes the upload, preview and name; no choice changes nothing |
| BackItemEditor.TextOnlyItemsNeedText | frontend/src/components/FlashcardBackListItemComponent.tsx:178-188 | a Code or Rich Text item can be saved exactly when its text has a non-space character |
| FrontEditor.ClampMemory | frontend/src/components/FlashcardFrontCreateOrEditComponent.tsx:298-302 | the stored memory is within 0..10: empty gives 0, in-range values are kept, others are clamped to the nearer end |
| FrontEditor.ClampMemoryIdempotent | frontend/src/components/FlashcardFrontCreateOrEditComponent.tsx:298-302 | re-entering a clamped value keeps it |
| FrontEditor.SequentialSent | frontend/src/components/FlashcardFrontCreateOrEditComponent.tsx:163 | the sent position is never 0; it is the given one when that is a non-zero number, else 1 |
| FrontEditor.CommonEntriesHas | frontend/src/components/FlashcardFrontCreateOrEditComponent.tsx:158-162 | the shared entries are exactly name, richText, subtitles, memory and muted |
| FrontEditor.CommonHas | frontend/src/components/FlashcardFrontCreateOrEditComponent.tsx:158-162 | create and update always send exactly those five names |
| FrontEditor.OptionalHas | frontend/src/components/FlashcardFrontCreateOrEditComponent.tsx:167-172 | a link is sent exactly when non-empty, a file exactly when chosen |
| FrontEditor.CreateSends | frontend/src/components/FlashcardFrontCreateOrEditComponent.tsx:158-159 | a create sends the trimmed name as `name` and the rich text as `richText` |
| FrontEditor.CreatePlacementSends | frontend/src/components/FlashcardFrontCreateOrEditComponent.tsx:163-166 | a create sends `SequentialSent` as `sequential`, and the directory id as `directory` when one is given |
| FrontEditor.CreateHas | frontend/src/components/FlashcardFrontCreateOrEditComponent.tsx:157-172 | a create sends the common names, the position, the directory exactly when given, and the set optional fields |
| FrontEditor.UpdateHas | frontend/src/components/FlashcardFrontCreateOrEditComponent.tsx:208-219 | an update sends the common names and the set optional fields, never a position or directory |
| FrontEditor.CommonWithoutPlacement | frontend/src/components/FlashcardFrontCreateOrEditComponent.tsx:209-213 | the shared entries carry no position or directory |
| FrontEditor.OptionalWithoutPlacement | frontend/src/components/FlashcardFrontCreateOrEditComponent.tsx:214-219 | the optional entries carry no position or directory |
| FrontEditor.UpdateIsCreateWithoutPlacement | frontend/src/components/FlashcardFrontCreateOrEditComponent.tsx:157-219 | an update body is the create body, in order, without position and directory |
| FrontEditor.LoadedForm | frontend/src/components/FlashcardFrontCreateOrEditComponent.tsx:73-80 | the edit-mode fetch sets name, rich text, subtitles, memory, muted and the YouTube, GitHub and blog links from the record, and leaves the chosen files alone |
| FrontEditor.FrontEditorState.constructor | frontend/src/components/FlashcardFrontCreateOrEditComponent.tsx:13-64 | the editor takes the props and runs the mode setup: a stored front's fields load into the empty form and its video becomes the only preview, or "Record not found." is shown |
| FrontEditor.FrontEditorState.SetUpMode | frontend/src/components/FlashcardFrontCreateOrEditComponent.tsx:65-109 | the effect sets up buttons and Delete for the phase, loads a stored front and its video preview, or reports it missing |
| FrontEditor.FrontEditorState.Create | frontend/src/components/FlashcardFrontCreateOrEditComponent.tsx:148-187 | a blank name is refused; otherwise the create payload is sent, and success saves, reports the new id to the page, hides Create, shows Delete enabled, and loads the stored front and its video preview (or "Record not found.") |
| FrontEditor.FrontEditorState.TakeRecord | frontend/src/components/FlashcardFrontCreateOrEditComponent.tsx:174-179 | a created id makes the editor a saved front with Delete enabled, and the mode setup reloads its form and video preview |
| FrontEditor.FrontEditorState.Edit | frontend/src/components/FlashcardFrontCreateOrEditComponent.tsx:189-195 | Edit unlocks the form |
| FrontEditor.FrontEditorState.Update | frontend/src/components/FlashcardFrontCreateOrEditComponent.tsx:197-230 | a blank name is refused; otherwise the update payload is sent, and success locks the form under "Updated" |
| FrontEditor.FrontEditorState.Delete | frontend/src/components/FlashcardFrontCreateOrEditComponent.tsx:232-263 | a successful delete resets every input and returns to a draft with Create enabled; a failure re-enables Delete |
| FrontEditor.FrontEditorState.TextChanged | frontend/src/components/FlashcardFrontCreateOrEditComponent.tsx:140-145 | typing changes only that text field |
| FrontEditor.FrontEditorState.MemoryChanged | frontend/src/components/FlashcardFrontCreateOrEditComponent.tsx:298-303 | the memory input stores the clamped value |
| FrontEditor.FrontEditorState.MutedChanged | frontend/src/components/FlashcardFrontCreateOrEditComponent.tsx:313 | the checkbox sets muted |
| FrontEditor.FrontEditorState.FileChosen | frontend/src/components/FlashcardFrontCreateOrEditComponent.tsx:112-137 | a chosen file becomes that slot's upload and preview |
| FrontEditor.DeleteReturnsToDraft | frontend/src/components/FlashcardFrontCreateOrEditComponent.tsx:253-257 | after a delete the editor is a consistent draft with Create enabled under "Create" |
| DirectoryEditor.BackRoute | frontend/src/pages/CreateOrEditDirectoryPage.tsx:135-137 | Back leads to the parent's listing, the root listing without a parent |
| DirectoryEditor.DirFieldsHas | frontend/src/pages/CreateOrEditDirectoryPage.tsx:151-158 | create and update always send name and description, and a file exactly when one was chosen |
| DirectoryEditor.CreateHas | frontend/src/pages/CreateOrEditDirectoryPage.tsx:150-164 | a create names the parent exactly when the route gave one, and always names the owner |
| DirectoryEditor.CreateSends | frontend/src/pages/CreateOrEditDirectoryPage.tsx:151-152 | a create sends the trimmed name as `name` and the description as `richText` |
| DirectoryEditor.CreatePlacementSends | frontend/src/pages/CreateOrEditDirectoryPage.tsx:160-164 | a create sends the route's parent as `parentDirectory` when there is one, and the signed-in user as `user` |
| DirectoryEditor.UpdateIsCreateWithoutPlacement | frontend/src/pages/CreateOrEditDirectoryPage.tsx:208-218 | an update body is the create body without parent and owner |
| DirectoryEditor.LoadedForm | frontend/src/pages/CreateOrEditDirectoryPage.tsx:66-68 | the edit-mode fetch sets name and description and leaves the chosen files alone |
| DirectoryEditor.DirectoryEditorState.constructor | frontend/src/pages/CreateOrEditDirectoryPage.tsx:12-53 | the page takes the route's parent and id and runs the mode setup |
| DirectoryEditor.DirectoryEditorState.SetUpMode | frontend/src/pages/CreateOrEditDirectoryPage.tsx:60-95 | the effect sets up the buttons for the phase and loads a stored directory, or reports it missing |
| DirectoryEditor.DirectoryEditorState.Back | frontend/src/pages/CreateOrEditDirectoryPage.tsx:135-137 | Back navigates to `BackRoute` |
| DirectoryEditor.DirectoryEditorState.Create | frontend/src/pages/CreateOrEditDirectoryPage.tsx:140-181 | a blank name is refused; otherwise the create payload is sent, and success saves, hides Create and loads the stored directory (or "Record not found."), while failure shows the store's reason after the message |
| DirectoryEditor.DirectoryEditorState.TakeRecord | frontend/src/pages/CreateOrEditDirectoryPage.tsx:167-176 | a created id makes the page a saved directory with Create hidden, and the mode setup reloads its form |
| DirectoryEditor.DirectoryEditorState.Edit | frontend/src/pages/CreateOrEditDirectoryPage.tsx:184-193 | Edit unlocks the form |
| DirectoryEditor.DirectoryEditorState.Update | frontend/src/pages/CreateOrEditDirectoryPage.tsx:196-230 | a blank name is refused; otherwise the update payload is sent, and success locks the form under "updated" |
| DirectoryEditor.DirectoryEditorState.NameChanged | frontend/src/pages/CreateOrEditDirectoryPage.tsx:120-128 | typing changes only the name |
| DirectoryEditor.DirectoryEditorState.DescriptionChanged | frontend/src/pages/CreateOrEditDirectoryPage.tsx:120-128 | typing changes only the description |
| DirectoryEditor.DirectoryEditorState.ImageChosen | frontend/src/pages/CreateOrEditDirectoryPage.tsx:100-108 | a chosen image becomes the upload and preview |
| DirectoryEditor.DirectoryEditorState.VideoChosen | frontend/src/pages/CreateOrEditDirectoryPage.tsx:110-117 | a chosen video becomes the upload and preview |
| EditorPage.SequentialProp | frontend/src/pages/FlashcardCreateOrEditPage.tsx:62 | a missing segment gives no number, and a present one is read with `parseInt` |
| EditorPage.RouteSequentialReachesPayload | frontend/src/pages/FlashcardCreateOrEditPage.tsx:62 | the `length + 1` the listing puts in the route is the `sequential` the front editor sends |
| EditorPage.ParsedSegmentReachesPayload | frontend/src/pages/FlashcardCreateOrEditPage.tsx:62 | a route segment that `parseInt` reads as a non-zero number, such as the one `FlashcardCreateRoute` builds, is the `sequential` the front editor sends |
| EditorPage.UnreadableSequentialIsOne | frontend/src/pages/FlashcardCreateOrEditPage.tsx:62 | a segment without a number makes the front editor send 1 |
| EditorPage.FlashcardEditorPage.constructor | frontend/src/pages/FlashcardCreateOrEditPage.tsx:18-28 | the page starts on the front side with the route's front id |
| EditorPage.FlashcardEditorPage.FrontCreated | frontend/src/pages/FlashcardCreateOrEditPage.tsx:31-33 | a created front's id is kept |
| EditorPage.FlashcardEditorPage.SwitchToFront | frontend/src/pages/FlashcardCreateOrEditPage.tsx:45-47 | switching shows the front and enables Back |
| EditorPage.FlashcardEditorPage.SwitchToBack | frontend/src/pages/FlashcardCreateOrEditPage.tsx:50-54 | switching shows the back of an existing front and enables Front |
| EditorPage.FlashcardEditorPage.Done | frontend/src/pages/FlashcardCreateOrEditPage.tsx:36-42 | Done opens the front's study view once a front exists, and the directory listing otherwise |
| EditorPage.SideButtons | frontend/src/pages/FlashcardCreateOrEditPage.tsx:72-79 | the two side buttons are never both enabled, and Back is enabled only for an existing front |
| ListItem.ClickRoute | frontend/src/components/FlashcardListItemComponent.tsx:43-49 | a click opens `/flashcard/{id}/` followed by "back" when expanded and "front" otherwise |
| ListItem.ClickRouteInjective | frontend/src/components/FlashcardListItemComponent.tsx:43-49 | different cards or sides never share a route |
| ListItem.FlashcardListItem.constructor | frontend/src/components/FlashcardListItemComponent.tsx:15 | an entry starts collapsed |
| ListItem.FlashcardListItem.Toggle | frontend/src/components/FlashcardListItemComponent.tsx:57-62 | the toggle flips the expansion, and exists only for a card with content |
| ListItem.FlashcardListItem.Click | frontend/src/components/FlashcardListItemComponent.tsx:43-49 | the click's route; an expanded card always has content to show |
| Media.Extension | frontend/src/components/FlashcardListItemComponent.tsx:23 | the extension is the lower-cased, dot-free text after the last dot (the character before it is a dot), and the whole name when there is no dot |
| Media.Lookup | frontend/src/components/FlashcardDetailViewComponent.tsx:126-139 | reference definition: a listed type or the default |
| Media.SwitchIsLookup | frontend/src/components/FlashcardDetailViewComponent.tsx:126-139 | the switch is the lookup in the table of known extensions |
| Media.MimeTypeIsLookup | frontend/src/components/FlashcardDetailViewComponent.tsx:124-140 | `getMimeType` is that lookup on the extension |
| Media.MimeTypeIgnoresCase | frontend/src/components/FlashcardListItemComponent.tsx:22-38 | names equal up to case get the same type |
| DetailView.Step | frontend/src/components/FlashcardDetailViewComponent.tsx:142-155 | a step stays in range and wraps from the last card to the first and back |
| DetailView.StepIsModular | frontend/src/components/FlashcardDetailViewComponent.tsx:142-155 | stepping from a shown card is counting modulo the number of cards |
| DetailView.StepsCancel | frontend/src/components/FlashcardDetailViewComponent.tsx:142-155 | next then previous (or previous then next) returns to the same card |
| DetailView.NextTimes | frontend/src/components/FlashcardDetailViewComponent.tsx:291-296 | repeated presses of next stay in range |
| DetailView.NextTimesIsModular | frontend/src/components/FlashcardDetailViewComponent.tsx:142-155 | k presses of next from card i show card (i + k) mod n |
| DetailView.FindIndex | frontend/src/components/FlashcardDetailViewComponent.tsx:76 | `findIndex` gives the first card with the id, -1 exactly when none has it |
| DetailView.AfterFetch | frontend/src/components/FlashcardDetailViewComponent.tsx:96-122 | the Back toggle is enabled exactly when some back items were fetched, and reads the count, "empty" or "error" |
| DetailView.CountCaptionShape | frontend/src/components/FlashcardDetailViewComponent.tsx:113 | the count sits between "Back (" and ")" |
| DetailView.CaptionsDistinct | frontend/src/components/FlashcardDetailViewComponent.tsx:112-121 | the caption tells the outcome: counts differ, and no count reads as empty, error or loading |
| DetailView.TextLabel | frontend/src/components/FlashcardDetailViewComponent.tsx:233-244 | a back item's text is labelled exactly when present, and as subtitles exactly beside a video |
| DetailView.FlashcardDetail.constructor | frontend/src/components/FlashcardDetailViewComponent.tsx:39-46 | the view starts on the route's side (front when missing) with the loading toggle |
| DetailView.FlashcardDetail.FetchBacks | frontend/src/components/FlashcardDetailViewComponent.tsx:96-122 | the toggle reports the fetch for a shown card, and a failure keeps the old items |
| DetailView.FlashcardDetail.LoadFronts | frontend/src/components/FlashcardDetailViewComponent.tsx:49-80 | the siblings are loaded in order, the route's card is located, and when it is shown its back items are fetched: they replace the shown items on success and are kept on failure |
| DetailView.FlashcardDetail.Navigate | frontend/src/components/FlashcardDetailViewComponent.tsx:142-155 | a move steps with wrap-around, shows the front, clears the items, and refetches for a new card |
| DetailView.FlashcardDetail.ShowFront | frontend/src/components/FlashcardDetailViewComponent.tsx:264-269 | Front shows the front side |
| DetailView.FlashcardDetail.ShowBack | frontend/src/components/FlashcardDetailViewComponent.tsx:58-62 | Back shows the back side and fetches only when no items are loaded; the fetched items (none on a failure) then become the shown backs when a card is on screen |
| Account.EmailShape | frontend/src/pages/CreateAccountPage.tsx:34-37 | the e-mail pattern holds exactly when there is no white space, exactly one "@" with text before it, and a "." with text on both sides after it |
| Account.EmailShapeSound | frontend/src/pages/CreateAccountPage.tsx:34-37 | a matching address has that shape |
| Account.EmailShapeComplete | frontend/src/pages/CreateAccountPage.tsx:34-37 | an address of that shape matches |
| Account.BlankEmailIsInvalid | frontend/src/pages/CreateAccountPage.tsx:48-59 | a blank address never matches, so it is never looked up |
| Account.PasswordError | frontend/src/pages/CreateAccountPage.tsx:67-73 | the password error is empty exactly for ten or more characters, else the minimum-length message |
| Account.EmailError | frontend/src/pages/CreateAccountPage.tsx:47-64 | "Invalid email" exactly for a malformed non-blank address, "Email already exists" exactly for a well-formed one that is found, empty otherwise |
| Account.SexText | frontend/src/pages/CreateAccountPage.tsx:194 | `male` is sent for male and `female` otherwise |
| Account.MissingMessages | frontend/src/pages/CreateAccountPage.tsx:154-185 | each field reads "Missing" exactly when blank (birthday: unpicked); otherwise it is cleared, and the password is re-checked |
| Account.RefusalIsReported | frontend/src/pages/CreateAccountPage.tsx:146-186 | a refused submission always shows some "Missing" |
| Account.NewUserOf | frontend/src/pages/CreateAccountPage.tsx:198-207 | the sent user has the lower-cased username, the password twice, the other inputs, and the sex as text |
| Account.SentUsernameIsLowerCase | frontend/src/pages/CreateAccountPage.tsx:31 | the sent username has no upper-case letter, and names differing only in case are sent alike |
| Account.GeneralErrorAsWritten | frontend/src/pages/CreateAccountPage.tsx:213 | as written, the general error is always the "Error: " prefix followed by the error's text |
| Account.FallbackUnreachable | frontend/src/pages/CreateAccountPage.tsx:213 | as written, the fallback text is never shown, and an error without text reads "Error: " |
| Account.GeneralError | frontend/src/pages/CreateAccountPage.tsx:213 | the general error is never empty; it is the fallback text for an error without text, and "Error: " followed by the reason otherwise |
| Account.MissingMessagesKnown | frontend/src/pages/CreateAccountPage.tsx:154-185 | a refusal shows only messages the page defines |
| Account.CreateAccountPage.constructor | frontend/src/pages/CreateAccountPage.tsx:9-27 | the page starts with empty inputs, no messages and no success |
| Account.CreateAccountPage.Fill | frontend/src/pages/CreateAccountPage.tsx:9-17 | typing changes only the inputs |
| Account.CreateAccountPage.CheckEmail | frontend/src/pages/CreateAccountPage.tsx:47-64 | the store is queried exactly for a well-formed address, and the e-mail message becomes `EmailError` |
| Account.CreateAccountPage.PasswordSettled | frontend/src/pages/CreateAccountPage.tsx:102-108 | the password message is empty exactly for an empty or long-enough password |
| Account.CreateAccountPage.UsernameSettled | frontend/src/pages/CreateAccountPage.tsx:76-99 | a non-empty username is searched lower-cased and reported taken or available; an empty one clears both messages, and a failed search changes nothing |
| Account.CreateAccountPage.CreateAccount | frontend/src/pages/CreateAccountPage.tsx:145-215 | nothing is sent exactly when the form is incomplete, which shows the "Missing" messages; a complete form sends `NewUserOf`, and the reply sets success or the general error |
| Account.CreateAccountPage.ReportMissing | frontend/src/pages/CreateAccountPage.tsx:146-186 | the refusal sets the "Missing" messages |
| Account.CreateAccountPage.Submit | frontend/src/pages/CreateAccountPage.tsx:189-214 | a complete form is sent as `NewUserOf`; success sets the flag, failure the general error |

## Left out

- Network calls, timers and the DOM are not modelled. Each store reply is an `Outcome` parameter, and a handler runs to completion atomically.
  - Debouncing (the 300 ms timers of the sign-up page) and the `focusout` listener are not modelled.
  - Replies that arrive out of order, or after the user changed the input, are not modelled.
  - `console` logging is not modelled.
- Navigation (`useNavigate`) is modelled as the returned route text only. Routing itself, and the sign-up page's "Back to Login" link, are not modelled.
- File URLs are not modelled.
  - `pb.files.getURL` and `URL.createObjectURL` are represented by the file's stored name.
  - Thumbnail options are not modelled.
  - The contents of a `File` are not modelled. A file is its name.
- The study view's Edit button is not modelled. It navigates to a route whose directory and sequential segments are the literal text `undefined`.
- The "Back to Directory" route is not modelled. The detail view's `DirectoryRoute` has no contract.
- Rendering is not modelled: HTML markup, `dangerouslySetInnerHTML`, CSS classes and the "Loading..." / "Empty" texts.
- White space and case are ASCII-based.
  - `\s` and `trim` cover the common white-space characters listed in `Text.IsSpace`, not every Unicode space.
  - `toLowerCase` maps only ASCII letters.
- The memory input's `Number(...)` conversion is not modelled. `Number` can give `NaN` or a fraction; the model receives an integer or "empty".
- The birthday is modelled as its ISO text. `Date` and `toISOString` are not modelled.
- Authentication is not modelled. The signed-in user's id is a parameter of the directory page.
- A directory tree with a cycle is not modelled.
  - `DirectoryList.FullPath` requires `Acyclic`; on a cycle, the source loop never ends (see `SelfParentNeverStops`).
  - A loaded list of directories is assumed to have been fetched whole. The store's own `sequential` sort order is taken as given.
- `EditorPage.FlashcardEditorPage.FrontProps` only passes values on, so it has no contract of its own. Its `sequential` part is `SequentialProp`.
- EditorPage.FlashcardEditorPage.SwitchToBack: the source's `if (frontId)` guard is kept, but it cannot fail, because the Back button is disabled without a front id.
- Account.CreateAccountPage.CheckEmail: a lookup that fails for any reason (not only "no such user") counts as "not found". `getFirstListItem` gives no other distinction.
- Account.CreateAccountPage.Submit: a failed submission shows the corrected `GeneralError`. As written, line 213 shows "Error: " for an error without text, not "An error occurred." (see Findings and `GeneralErrorAsWritten`).
- Account.CreateAccountPage.CreateAccount: the general error it sets is the corrected one of `Submit`, with the same difference for an error without text.
- DetailView.FlashcardDetail.constructor: the route's side is either front or back or missing. A side segment with other text (`/flashcard/x/foo`) makes the source show neither side, and the model cannot express that.
- BackItemEditor.BackItemEditorState.Create/Update/Delete: the `ItemChanged` signal they return makes the back-side list refetch (`FetchBackItems`). While it loads, the list renders no editors, so every item editor is unmounted and mounted again from the stored records. The "Saved" and "updated" captions these methods set are therefore replaced at once by the mode setup of a fresh editor, and an unsaved draft in another item is discarded. The model keeps the editor and the list as separate objects and does not replay that remount.
- `FlashcardListComponent.tsx` and `LoginPage.tsx` are not part of this model.
- The back end (`main.go`) and `useDirectories.tsx` are not part of this model.

## Findings

| source | as written | input that shows it | evidently intended | confidence | as-written member | corrected member |
|---|---|---|---|---|---|---|
| frontend/src/pages/CreateAccountPage.tsx:213 | `"Error: " + err \|\| "An error occurred."` concatenates first, so the left operand is never empty and the fallback is never chosen | an error whose text is empty shows "Error: " | the fallback text when the error has none, otherwise "Error: " and the error | not executed | Account.FallbackUnreachable | Account.GeneralError |
