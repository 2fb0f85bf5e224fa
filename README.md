# LinkVault in Dafny

LinkVault is a personal bookmark manager. An Express router (`/links`) keeps
links and tags in SQLite. A React front end lists the links, filters them
by search text, by tag and by sort order, and adds and edits them through two
modal forms with a comma-separated tag input. This project models the core of
both halves and proves properties of the model:

- `links.dfy` (module `Links`): the three tables as a `Store` class (links
  keyed by id, tag names with their AUTOINCREMENT ids, link/tag pairs). It
  holds the tag helpers (`getTagsForLink`, `addTagsToLink`,
  `removeTagsFromLink`), the POST / GET / PATCH / DELETE handlers, and the
  statement and parameters that `GET /links` builds.
- `add_link_form.dfy` (module `AddLinkForm`): the add-link modal. This covers
  `processTags` (split on commas, trim, lower-case, drop blanks, keep the
  unselected), the key handling of the tag input, and submit validation.
- `edit_link_form.dfy` (module `EditLinkForm`): the edit modal. Its tags are
  added verbatim, and only one title check guards submission.
- `tag_filter.dfy` (module `TagFilter`): the tag dropdown. It covers toggling
  a tag, clearing the selection, open and close, and the button caption. A
  menu row's checkbox shows whether its tag is selected.
- `app.dfy` (module `App`): the application state. It covers the active-filter
  test, the request URL of `fetchLinks`, how the server reads that URL back,
  the tag collection after a fetch, the sort select, and the add / delete /
  update handlers.
- `tag_lists.dfy`, `text.dfy`, `wrappers.dfy`: helpers shared by the modules
  above.
  - `tag_lists.dfy` holds the list operations on tags: filter-out,
    append-if-absent, toggle, first-appearance de-duplication and suggestion
    filtering.
  - `text.dfy` holds the JavaScript string operations the code relies on:
    `trim` with the ECMAScript white-space set, ASCII `toLowerCase`, `split`
    on one character, `includes`, and decimal rendering.
  - `wrappers.dfy` holds `Option`.

Each React component's state is a class. Each state setter is a field write
whose `modifies` clause names exactly the fields it changes. The handlers and
helpers that loop (the tag helpers, the join of tags onto result rows, the
tag collection) are methods with loop invariants. Each is proved against a
specification function. The properties are then proved about those
functions as lemmas.

## Model

| member | source | states |
|---|---|---|
| Text.TrimIdempotent | frontend/src/components/AddLinkForm.js:66 | trimming a trimmed string changes nothing |
| Text.TrimEmptyIffAllSpace | frontend/src/components/AddLinkForm.js:62 | `input.trim()` is empty exactly when every character is white space, which is the early return of `processTags` |
| Text.TrimPadded | frontend/src/components/AddLinkForm.js:66 | trimming removes exactly the white-space padding around a word whose ends are not white space |
| Text.LowerFacts | frontend/src/components/AddLinkForm.js:66 | the lower-cased string has no upper-case letter, and lower-casing leaves an already lower-case string and every non-letter as they were |
| Text.SplitPartsFree | frontend/src/components/AddLinkForm.js:65 | no field produced by `split(',')` contains a comma, and there is always at least one field |
| Text.JoinSplit | frontend/src/components/AddLinkForm.js:65 | joining the fields of a split with the separator gives the input back |
| Text.SplitJoin | frontend/src/components/AddLinkForm.js:65 | splitting a join of comma-free fields gives those fields back |
| Text.SplitAt | frontend/src/components/AddLinkForm.js:65 | splitting at the first comma gives the comma-free head followed by the split of the rest |
| Text.SplitNone | frontend/src/components/AddLinkForm.js:65 | a string without a comma splits into itself alone |
| Text.DecimalRoundTrip | frontend/src/components/TagFilter.js:45 | reading back the decimal rendering of a count gives the count |
| TagLists.RemoveAll | frontend/src/components/AddLinkForm.js:86 | `filter(t => t !== x)` keeps exactly the elements other than `x` |
| TagLists.RemoveAllKeepsRest | frontend/src/components/AddLinkForm.js:86 | the filter keeps the order and every occurrence of each other element |
| TagLists.RemoveAllDistinct | frontend/src/components/EditLinkForm.js:64 | removing a tag from a repeat-free list leaves it repeat-free |
| TagLists.RemoveAppended | frontend/src/components/TagFilter.js:24-26 | removing a tag just appended to a list that lacked it gives the list back |
| TagLists.AppendIfAbsent | frontend/src/components/AddLinkForm.js:90-94 | a tag already in the list leaves it unchanged; an absent tag is appended at the end |
| TagLists.AppendIfAbsentDistinct | frontend/src/components/EditLinkForm.js:68-72 | a suggestion click keeps a repeat-free list repeat-free |
| TagLists.ToggleFlips | frontend/src/components/TagFilter.js:22-28 | toggling flips the membership of that tag and of no other, so exactly the clicked menu row's checkbox (`selectedTags.includes(tag)`) changes |
| TagLists.ToggleTwiceRestores | frontend/src/components/TagFilter.js:22-28 | toggling an unselected tag twice restores the selection |
| TagLists.ToggleTwiceMovesSelected | frontend/src/components/TagFilter.js:22-28 | toggling a selected tag twice gives the list without it followed by the tag, so it moves to the end and the order is not restored |
| TagLists.DropLast | frontend/src/components/AddLinkForm.js:181 | `slice(0, -1)` followed by the removed last element is the original list |
| TagLists.Unselected | frontend/src/components/AddLinkForm.js:70 | keeps exactly the tokens not already selected |
| TagLists.UnselectedOrdered | frontend/src/components/AddLinkForm.js:70 | the kept tokens keep their order and every occurrence, so repeats in one input survive |
| TagLists.UnselectedNothing | frontend/src/components/AddLinkForm.js:70 | with nothing selected every token is kept |
| TagLists.FilteredSuggestions | frontend/src/components/AddLinkForm.js:97-100 | a tag is suggested exactly when it exists, is not selected and, once something is typed, contains it case-insensitively |
| TagLists.SuggestionsOrdered | frontend/src/components/AddLinkForm.js:97-100 | suggestions keep the order and the multiplicity of the existing tags |
| TagLists.SuggestionsWithoutTyping | frontend/src/components/EditLinkForm.js:75-78 | with nothing typed every unselected existing tag is suggested |
| TagLists.ShownSuggestions | frontend/src/components/AddLinkForm.js:198-201 | the list is shown only while something is typed, and then holds exactly the matching unselected existing tags |
| TagLists.DedupSpec | frontend/src/App.js:50-57 | `Array.from(new Set(...))` keeps every element once, ordered by first appearance |
| Links.Store.constructor | src/database.js:18-46 | the tables start empty with the tag counter at 1 |
| Links.Store.GetTagsForLink | src/routes/links.js:8-24 | the names returned are exactly the tags associated with the link, each once |
| Links.Store.AddTagToLink | src/routes/links.js:35-75 | an existing name is reused and a new one is inserted under the next id; either way exactly that name is associated with the link and no other link changes |
| Links.Store.AddTagsToLink | src/routes/links.js:27-81 | a missing or empty list changes nothing; otherwise every supplied name is associated with the link, existing tag rows keep their ids, and no other link changes |
| Links.Store.RemoveTagsFromLink | src/routes/links.js:84-91 | every association of the link is deleted and nothing else |
| Links.AddOneSpec | src/routes/links.js:38-72 | one tag keeps names unique with distinct ids below the counter, adds the name only if missing, and associates it with that link only |
| Links.AddAllRows | src/routes/links.js:27-81 | adding a list keeps the tables consistent and adds exactly the supplied names as tag rows |
| Links.AddAllNames | src/routes/links.js:27-81 | adding a list associates exactly the supplied names with that link and nothing with others |
| Links.Create | src/routes/links.js:170-210 | 400 and no change without a truthy url and title; 500 and no change on an id collision; otherwise the row with `notes \|\| ''`, `createdAt \|\| now`, `updatedAt = now`, the tags added, and 201 echoing `tags \|\| []` |
| Links.Get | src/routes/links.js:148-167 | 404 exactly for an unknown id; otherwise 200 with the row and its tag names, each once |
| Links.Patched | src/routes/links.js:230-258 | title replaced only when truthy, notes whenever supplied (`null` too), `updatedAt` refreshed only when one of the two was supplied, url and `createdAt` kept |
| Links.Patch | src/routes/links.js:213-279 | 404 and no change for an unknown id; otherwise the row becomes `Patched`, supplied tags (even `[]`) replace the tag set, other links keep theirs, and 200 answers the row with its tags |
| Links.Delete | src/routes/links.js:282-296 | 404 exactly when no row was removed, else 204; only the links row goes |
| Links.DeleteThenGet | src/routes/links.js:282-296 | after a delete, a GET of that id answers 404, while the link's tag associations remain |
| Links.WithTags | src/routes/links.js:133-140 | every matched row is answered in order, joined with its tag names, each once |
| Links.FilterCounts | src/routes/links.js:100-117 | the filter part has one WHERE when a filter is given, one AND only when both are, and one condition per given filter |
| Links.Order | src/routes/links.js:120 | ORDER BY pastes the supplied `sortBy` text, `createdAt` when none is supplied, and ASC exactly when `sortOrder` is `asc` |
| Links.ListPiecesCounts | src/routes/links.js:97-123 | the list statement has one SELECT, one LIMIT/OFFSET, one WHERE when some filter is given and one AND when both are |
| Links.ListSlots | src/routes/links.js:97-123 | the statement's placeholders, in order: the tag name, the three LIKE patterns, one for each `?` pasted in with `sortBy`, then LIMIT and OFFSET |
| Links.ListPlaceholders | src/routes/links.js:97-123 | the statement has one placeholder for the tag, three for the search, one per `?` in the sort text and two for paging |
| Links.ListStatementWellFormed | src/routes/links.js:97-124 | the placeholders and the parameters agree in number exactly when the sort text holds no `?`, and then the i-th parameter is the one meant for the i-th placeholder (tag name, `%search%` pattern, limit, offset) |
| Links.QuestionMarkInSortBy | src/routes/links.js:120-124 | one `?` in `sortBy` shifts the binding: the ORDER BY placeholder receives the limit, LIMIT receives the offset, and OFFSET receives nothing |
| Links.BuildListQuery | src/routes/links.js:95-124 | the appended statement and parameters are the specified ones, and they agree in number exactly when the sort text holds no `?` |
| Links.List | src/routes/links.js:94-145 | `GET /links` builds the specified statement and answers 200 with the matched rows joined with their tags |
| AddLinkForm.NormalizeFacts | frontend/src/components/AddLinkForm.js:66 | a normalised field is lower-case, has no white space at either end, is empty exactly for a blank field and holds no comma the field did not |
| AddLinkForm.NormalizeAllSpec | frontend/src/components/AddLinkForm.js:65-67 | the tokens are exactly the non-empty normalised fields |
| AddLinkForm.TokensWellFormed | frontend/src/components/AddLinkForm.js:65-67 | every token is non-empty, lower-case, trimmed, comma-free and comes from a field; every non-blank field yields its token |
| AddLinkForm.NewTagsSpec | frontend/src/components/AddLinkForm.js:65-70 | the new tags are exactly the tokens not already selected, in order and with their repeats |
| AddLinkForm.TokensOfField | frontend/src/components/AddLinkForm.js:65-67 | a comma-free field yields its normalised form, or nothing when blank |
| AddLinkForm.TokensAppend | frontend/src/components/AddLinkForm.js:65-67 | the tokens of comma-joined fields are the tokens of each, in order |
| AddLinkForm.NormalizeWord | frontend/src/components/AddLinkForm.js:66 | a padded word normalises to the lower-cased word (`'  Redux  '` gives `redux`) |
| AddLinkForm.NothingSelected | frontend/src/components/AddLinkForm.js:70 | with no tags selected every token is new |
| AddLinkForm.RepeatedFieldAddedTwice | frontend/src/components/AddLinkForm.js:65-73 | a field typed twice in one input is added twice |
| AddLinkForm.BlankFieldDropped | frontend/src/components/AddLinkForm.js:65-67 | a blank field between commas yields no token |
| AddLinkForm.Form.constructor | frontend/src/components/AddLinkForm.js:4-10 | all fields empty, not loading, no error |
| AddLinkForm.Form.SetUrl | frontend/src/components/AddLinkForm.js:128 | the url input sets `url` only |
| AddLinkForm.Form.SetTitle | frontend/src/components/AddLinkForm.js:143 | the title input sets `title` only |
| AddLinkForm.Form.SetNotes | frontend/src/components/AddLinkForm.js:157 | the notes input sets `notes` only |
| AddLinkForm.Form.SetCurrentTag | frontend/src/components/AddLinkForm.js:173 | the tag input sets `currentTag` only |
| AddLinkForm.Form.ProcessTags | frontend/src/components/AddLinkForm.js:61-77 | a blank input changes nothing; otherwise the unselected tokens are appended and the input is cleared |
| AddLinkForm.Form.AddTag | frontend/src/components/AddLinkForm.js:80-82 | the Add button processes the typed text |
| AddLinkForm.Form.Blur | frontend/src/components/AddLinkForm.js:184 | leaving the tag input processes the typed text |
| AddLinkForm.Form.KeyDown | frontend/src/components/AddLinkForm.js:174-183 | Enter and Tab process the text; Backspace on an empty input drops the last tag; anything else changes nothing |
| AddLinkForm.Form.RemoveTag | frontend/src/components/AddLinkForm.js:85-87 | the chip's button filters the tag out |
| AddLinkForm.Form.SuggestionClick | frontend/src/components/AddLinkForm.js:90-94 | a suggestion is appended unless already selected |
| AddLinkForm.Form.Submit | frontend/src/components/AddLinkForm.js:35-52 | url checked before title, each failure sets its message and submits nothing; otherwise loading starts, the error clears and the draft is submitted |
| AddLinkForm.Form.FinishSubmit | frontend/src/components/AddLinkForm.js:53-57 | a thrown message becomes the error and loading always stops |
| AddLinkForm.EnterThenBackspace | frontend/src/components/AddLinkForm.js:174-183 | typing a new single tag, pressing Enter, then Backspace on the emptied input restores the tags |
| EditLinkForm.Form.constructor | frontend/src/components/EditLinkForm.js:4-9 | title, notes and tags start from the link with `''`, `''` and `[]` as defaults |
| EditLinkForm.Form.SetTitle | frontend/src/components/EditLinkForm.js:111 | the title input sets `title` only |
| EditLinkForm.Form.SetNotes | frontend/src/components/EditLinkForm.js:125 | the notes input sets `notes` only |
| EditLinkForm.Form.SetCurrentTag | frontend/src/components/EditLinkForm.js:141 | the tag input sets `currentTag` only |
| EditLinkForm.Form.AddTag | frontend/src/components/EditLinkForm.js:55-60 | a non-empty unselected text is appended verbatim and cleared; otherwise nothing changes; repeat-freedom is kept |
| EditLinkForm.Form.KeyDown | frontend/src/components/EditLinkForm.js:142-147 | Enter adds the tag; any other key changes nothing |
| EditLinkForm.Form.RemoveTag | frontend/src/components/EditLinkForm.js:63-65 | the tag is filtered out and repeat-freedom is kept |
| EditLinkForm.Form.SuggestionClick | frontend/src/components/EditLinkForm.js:68-72 | a suggestion is appended unless selected and repeat-freedom is kept |
| EditLinkForm.Form.Submit | frontend/src/components/EditLinkForm.js:34-46 | an empty title sets its message and submits nothing; otherwise title, notes and tags are submitted |
| EditLinkForm.Form.FinishSubmit | frontend/src/components/EditLinkForm.js:47-51 | a thrown message becomes the error and loading always stops |
| TagFilter.Dropdown.constructor | frontend/src/components/TagFilter.js:4 | the menu starts closed |
| TagFilter.Dropdown.ToggleOpen | frontend/src/components/TagFilter.js:39 | the button flips the menu |
| TagFilter.Dropdown.MouseDown | frontend/src/components/TagFilter.js:8-19 | a press outside closes the menu, one inside leaves it |
| TagFilter.ToggleTag | frontend/src/components/TagFilter.js:22-28 | the selection becomes the toggle of the tag: its membership flips, no other tag's does, and repeat-freedom is kept |
| TagFilter.ClearTags | frontend/src/components/TagFilter.js:31-33 | the selection becomes empty |
| TagFilter.ToggleKeepsDistinct | frontend/src/components/TagFilter.js:22-28 | toggling never creates a repeat |
| TagFilter.Label | frontend/src/components/TagFilter.js:43-45 | the prompt appears exactly when nothing is selected; otherwise the count in decimal without a leading zero, then "tag" or "tags" |
| App.HasActiveFilters | frontend/src/App.js:20 | filters are active exactly when some control differs from its default |
| App.Lookup | src/routes/links.js:95 | a query option is missing exactly when no parameter has its name, and otherwise has the value of one that does |
| App.LookupFirst | src/routes/links.js:95 | an option takes the value of the first parameter with its name |
| App.FetchReachesServer | frontend/src/App.js:28-38 | with a decoder that undoes the encoder, the server reads the sort, the search when given and the first selected tag, and no paging |
| App.FetchSendsNoPaging | frontend/src/App.js:28-38 | neither `limit` nor `offset` is sent |
| App.FetchSendsSort | frontend/src/App.js:28 | both sort parameters are always sent |
| App.FetchSendsSearch | frontend/src/App.js:30-32 | the search term is sent, encoded, exactly when non-empty |
| App.FetchSendsTag | frontend/src/App.js:34-38 | the first selected tag is sent, encoded, exactly when one is selected |
| App.OnlyFirstTagFilters | frontend/src/App.js:34-38 | selections with the same first tag send the same request |
| App.FetchedListQuery | frontend/src/App.js:28-38 | the server sorts ascending exactly for `asc`, filters by tag exactly when the first selected tag is non-empty, and by search exactly when the term is non-empty |
| App.AllTagsMembers | frontend/src/App.js:50-55 | a tag is collected exactly when some link carries it |
| App.FetchedTagsSpec | frontend/src/App.js:49-57 | the offered tags are exactly those on some fetched link, each once, in order of first appearance |
| App.SortValueRoundTrip | frontend/src/App.js:171-175 | splitting `sortBy-sortOrder` on `-` gives both back when neither holds a dash |
| App.SortOptionsRoundTrip | frontend/src/App.js:179-182 | every option of the select round-trips |
| App.AddParam | frontend/src/App.js:30-37 | appending `&name=value` to a URL that ends in a query string adds that parameter at the end of the query string |
| App.FetchUrl | frontend/src/App.js:28-38 | the URL built piece by piece is the base followed by the query string of the sent parameters |
| App.AddEach | frontend/src/App.js:53 | adding a link's tags to the set extends the first-appearance list by them |
| App.CollectTags | frontend/src/App.js:50-57 | the tags collected through the set are the de-duplicated tags of all links |
| App.AppState.constructor | frontend/src/App.js:9-17 | links and tags empty, modal closed, loading, no error, filters at their defaults |
| App.AppState.SetSearchTerm | frontend/src/App.js:159 | the search bar sets the term only |
| App.AppState.ClearFilters | frontend/src/App.js:131-136 | the filters return to their defaults, so none is active |
| App.AppState.SelectSort | frontend/src/App.js:172-176 | after picking an option, the select shows that option |
| App.AppState.BeginFetch | frontend/src/App.js:24-38 | loading starts, the error clears and the request URL comes from the current filters |
| App.AppState.FinishFetch | frontend/src/App.js:40-62 | a 2xx answer replaces the links and the offered tags; a non-2xx answer or a thrown error sets the error and keeps both; loading always stops |
| App.AppState.OpenAddModal | frontend/src/App.js:144 | the modal opens |
| App.AppState.CloseAddModal | frontend/src/App.js:221 | the modal closes |
| App.AppState.HandleAddLink | frontend/src/App.js:71-90 | success closes the modal and refetches; failure keeps it open and sets the error |
| App.AppState.HandleDeleteLink | frontend/src/App.js:93-107 | success refetches; failure sets "Failed to delete link" or the thrown message |
| App.AppState.HandleUpdateLink | frontend/src/App.js:110-128 | success refetches; failure sets "Failed to update link" or the thrown message |
| App.AppState.Settle | frontend/src/App.js:99-106 | the shared settle step: refetch exactly on success, else the failure message |

## Left out

- Concurrency. Each request and each fetch is modelled as one step. `Promise.all` in `addTagsToLink` runs every tag's look-up before any insert. Two requests, or one request naming the same new tag twice, can therefore both insert that name and break the unique constraint. The model processes the tags one after another, where the second occurrence reuses the first.
- SQL execution. The statement and parameters of `GET /links` are modelled as pieces. The rows the database matches (filter, sort, LIMIT/OFFSET) are a parameter of `Links.List`, and sort columns are not checked against the schema.
- Storage failures. Every path that answers 500 on a database error is left out, except the id collision in `Links.Create`. Also left out: a thrown error in PATCH after the row was already updated, and `GET /links` failing part-way through joining tags.
- Non-string JSON values for `url`, `title`, `notes` and the tag entries. A field is missing, `null` or a string.
- `parseInt` of `limit` and `offset` is kept uninterpreted (`ParseIntOf`). The uuid and the clock are parameters (`id`, `now`).
- `encodeURIComponent` and the server's URL decoding are function parameters (`enc`, `dec`). Parsing the query string into key/value pairs is modelled at the level of the pairs (`App.Lookup`), not on characters.
- App.Lookup and App.LookupFirst: a name repeated in the query string is outside the model. Express's query parser turns a repeated name into an array of all its values, and that array would reach `search`, `tag` or `sortBy`. The modelled client never repeats a name (`App.FetchUrl` sends each at most once), so the model reads the first pair with the name.
- `toLowerCase` is modelled on ASCII letters only. Unicode case mapping is left out.
- Foreign keys. SQLite enforces them only after `PRAGMA foreign_keys = ON`, which the server never issues. So the declared `ON DELETE CASCADE` does not fire, and `Links.Delete` leaves the link's tag associations in place. The schema declares `ON DELETE CASCADE` (src/database.js:43), so the associations were evidently meant to go. The model follows the code.
- `Links.Patched`: a PATCH that only sends `tags` does not refresh `updatedAt`, because the row update runs only when `title` is truthy or `notes` is given. The model follows the code.
- `AddLinkForm.Form.ProcessTags`: a tag repeated within one input is added twice (`AddLinkForm.RepeatedFieldAddedTwice`), since the uniqueness filter only compares against tags already selected. The model follows the code.
- Links.Order / Links.ListStatementWellFormed / Links.List: `sortBy` is pasted into the SQL text unescaped. The model counts each `?` in it as a placeholder (`Links.QuestionMarkInSortBy`), but otherwise reads it as a plain column name. A comment (`--`, `/*`), a `;` or a quoted string in `sortBy` changes the statement further. It can cut off `LIMIT ? OFFSET ?`, so SQLite refuses the two parameters and the handler answers 500, or it can inject SQL. None of that is modelled, and `Links.List` answers 200 whatever the sort text holds.
- `AddLinkForm.Form.FinishSubmit`: in the running application `onAdd` never throws. `handleAddLink` catches every error and sets the App's banner instead. So the form's own error path is only reachable with another `onAdd`.
- `EditLinkForm.Form.FinishSubmit`: in the running application `onUpdate` never throws. `LinkList` passes a wrapper that calls the App's `handleUpdateLink` without awaiting it and then closes the modal, and `handleUpdateLink` catches every error itself. So the form's own error path is only reachable with another `onUpdate`.
- `App.AppState.SelectSort` requires one of the four option values, which is all the select can produce. A value without `-` would set the order to `undefined`, and that is not modelled.
- React rendering, focus, the click-outside listener wiring (`TagFilter.Dropdown.MouseDown` takes where the press landed), and the `useEffect` that refetches when a filter changes. Refetching is returned as a boolean (`refetch`) or left to the caller.
- `LinkList`, `LinkItem` (edit, delete and copy-URL buttons) and `SearchBar` are not part of this model beyond the state they set.
- Stale responses. An older fetch finishing after a newer one overwrites its result. The model has no interleaving, so this is not captured.
