# AI Prompt Injector: storage, backup ring and popup helpers in Dafny

This project models the persistence layer of the AI Prompt Injector browser
extension and proves properties of it. The extension keeps a user's prompt
templates under the `prompts` key of `browser.storage.local`.

The model covers:

- **`PromptStorage`** (storage.js). It provides:
  - a self-healing read of the collection;
  - a normalising upsert;
  - delete and lookup by id;
  - the sorted tag list;
  - the export document;
  - the three-shape, alias-tolerant, case-insensitively deduplicating import;
  - the per-host input selectors.
- **`createAutoBackup`** (background.js) and the two runtime listeners that call it. It keeps a newest-first ring of at most three snapshots. No snapshot is taken when there are no prompts, and none is taken when the newest one is less than an hour old.
- **The storage area** with the `get`, `set`, `remove` and `clear` semantics of the extension's test double (tests/mocks/browser-mock.js). It is one map of items that `get` reads and `set`, `remove` and `clear` change in place. Stored values are copied in and out, as `browser.storage.local` does; the test double's sharing of stored objects with its callers is not modelled (see "Left out").
- **The non-DOM logic of the popup** (popup.js):
  - the tag-autocomplete fragment, the entered tags and the suggestions;
  - the text a chosen suggestion produces;
  - the highlight-index state machine of the suggestion list;
  - the theme cycle;
  - the search and tag filters;
  - the form's tag parsing and rejection of empty input;
  - the three-way classification of an import result.

JavaScript values are a `Json` datatype that includes `Undefined`. The model covers these JavaScript behaviours:

- truthiness;
- property reads that throw on null or undefined;
- string methods that throw on non-strings;
- strict equality;
- `filter` that stops at the first throw.

Each operation follows its source's own catch, rethrow and swallow policy. The storage area has a `reachable` flag for a browser storage that rejects calls. The test double itself never rejects.

The modules are:

- results.dfy (`Results`): `Option`, `Result` and the error kinds.
- json.dfy (`JsonValues`): JavaScript values, truthiness, property reads, `String()`.
- sequences.dfy (`Sequences`): subsequences and small sequence facts.
- text.dfy (`Text`): trim, toLowerCase, split/join, the comma list, lastIndexOf, the default sort.
- kv_store.dfy (`KeyValueStore`): the storage area class.
- prompt_records.dfy (`PromptRecords`): the collection operations of storage.js as functions.
- prompt_import.dfy (`PromptImport`): importPrompts as functions, and its round trip with exportPrompts.
- prompt_storage.dfy (`Storage`): the `PromptStorage` class, proved against the functions above.
- auto_backup.dfy (`AutoBackup`): createAutoBackup and the listeners.
- popup_logic.dfy (`Popup`): the popup helpers and the `PromptManager` state.

## Model

| member | source | states |
|---|---|---|
| KeyValueStore.StorageArea.constructor | tests/mocks/browser-mock.js:5-6 | a new store is empty |
| KeyValueStore.StorageArea.Get | tests/mocks/browser-mock.js:9-23 | one key gives a one-entry result holding the stored value, possibly undefined; a key array gives exactly the listed keys whose value is defined, with their values; anything else gives the whole store; a rejecting store gives nothing |
| KeyValueStore.StorageArea.Set | tests/mocks/browser-mock.js:25-28 | the given keys are overwritten and every other key is kept |
| KeyValueStore.StorageArea.Remove | tests/mocks/browser-mock.js:30-34 | exactly the given keys are deleted |
| KeyValueStore.StorageArea.Clear | tests/mocks/browser-mock.js:36-39 | the store becomes empty |
| JsonValues.Prop | background.js:11 | a property read throws exactly on null or undefined; a defined result is the object's own field |
| Text.Trim | storage.js:36-37 | the result has no white space at either end, and an already-trimmed string is returned unchanged |
| Text.TrimStartDropsSpaces | storage.js:36-37 | trimStart removes only a white-space prefix |
| Text.TrimEndDropsSpaces | storage.js:36-37 | trimEnd removes only a white-space suffix |
| Text.LowerTrimCommute | storage.js:131 | lower-casing then trimming (storage.js:131) gives the same title as trimming then lower-casing (storage.js:152-156) |
| Text.LowerTwice | popup.js:474 | toLowerCase is idempotent |
| Text.JoinSplit | popup.js:279 | joining the pieces of a split restores the string |
| Text.SplitJoin | popup.js:279 | splitting a join of separator-free pieces restores the pieces |
| Text.SplitConcat | popup.js:487-488 | the pieces of `a + sep + b` are those of `a` followed by those of `b` |
| Text.CommaListPieces | storage.js:41 | every comma-list element is non-empty, trimmed and comma-free; every piece with non-empty trim appears trimmed; every element comes from a piece |
| Text.DropEmptyKeepsFull | storage.js:41 | `filter(Boolean)` keeps a list of non-empty strings unchanged |
| Text.LastIndexOf | popup.js:483 | -1 or the index of the last occurrence: the character is there and nowhere after |
| Text.InsertSorted | storage.js:99 | insertion keeps a strictly ascending sequence and adds exactly the new element |
| Text.SortStrings | storage.js:99 | `Array.from(set).sort()`: strictly ascending, with exactly the input's elements |
| Text.StrLessTransitive | storage.js:99 | the default string order is transitive |
| Text.StrLessTotal | storage.js:99 | the default string order is total |
| PromptRecords.ReadPrompts | storage.js:11-28 | an array is returned with no write; a `{prompts: [...]}` wrapper is unwrapped and written back; any other defined value is reset to [] and [] returned; an absent key or a store error gives [] with no write; other keys are untouched |
| PromptRecords.ReadIsStable | storage.js:11-28 | a second read returns the same collection and writes nothing more |
| PromptRecords.CleanText | storage.js:36-37 | cleaning a field throws exactly on a truthy non-string; otherwise it gives the trimmed string, or "" for a falsy value |
| PromptRecords.SaveTags | storage.js:38-45 | an array is kept as is; a string becomes its trimmed non-empty comma pieces; anything else becomes [] |
| PromptRecords.Normalize | storage.js:36-51 | a null or undefined prompt throws; otherwise it succeeds exactly when label and template can be cleaned; the record holds the cleaned label and template, the normalised tags, and the given id when truthy, else the fresh one |
| PromptRecords.FindIndexById | storage.js:55 | the index of the first record with the id, with every earlier record readable and different; -1 when none matches; a TypeError exactly when a null or undefined record comes before any match |
| PromptRecords.FindIndexStops | storage.js:55 | the search stops at the first null record or the first match |
| PromptRecords.FindIndexMisses | storage.js:55 | a search that meets neither a null record nor the id returns -1 |
| PromptRecords.Place | storage.js:52-58 | the result either appends the record with every old record kept, or replaces one record that holds the id; only a search with an id can throw |
| PromptRecords.PlaceWithoutId | storage.js:52-53 | without an id exactly one record is appended at the end and all existing records are unchanged |
| PromptRecords.PlaceReplacesFirstMatch | storage.js:54-56 | with an id first held by record i, only index i is replaced and the length is unchanged |
| PromptRecords.PlaceAppendsUnmatched | storage.js:57 | with an id no record holds, the record is appended |
| PromptRecords.SaveOutcome | storage.js:30-65 | an unreachable store throws and keeps the store; on success the written collection is Place of the healed read with the normalised prompt, which is also what is returned; on error the store is as the read left it; no other key changes |
| PromptRecords.RemoveById | storage.js:69-71 | a TypeError exactly when some record is null or undefined; otherwise an order-preserving subsequence with no record of the id, and every other record kept with its multiplicity |
| PromptRecords.RemoveMissing | storage.js:69-71 | deleting an id no record holds leaves the collection equal |
| PromptRecords.RemoveIdempotent | storage.js:69-71 | filtering twice is filtering once |
| PromptRecords.DeleteOutcome | storage.js:67-76 | succeeds exactly when the store is reachable and the filter does not throw; then the written collection is the filtered healed read: a subsequence of it with no record of the id, keeping every other record with its multiplicity; on error the store is as the read left it; no other key changes |
| PromptRecords.DeleteTwice | storage.js:67-76 | a second delete of the same id changes nothing |
| PromptRecords.FindById | storage.js:78-86 | the first record with the id; null exactly when none matches or a null record comes before the first match |
| PromptRecords.FindIndexOfAppended | storage.js:55 | a record appended after records that cannot match is found at the end |
| PromptRecords.SaveThenFind | storage.js:30-86 | a prompt saved without an id is found again under its fresh id |
| PromptRecords.TrimTags | storage.js:95 | succeeds exactly when every tag is a string, giving each trimmed |
| PromptRecords.RecordTags | storage.js:94-95 | throws exactly for a null record or an array of tags with a non-string |
| PromptRecords.AddAll | storage.js:95 | a Set after adding strings holds exactly the old members and the new strings |
| PromptRecords.TagOrder | storage.js:93-97 | the forEach completes exactly when every record's tags can be read |
| PromptRecords.TaggedBySnoc | storage.js:93-97 | a record added at the end contributes exactly its own trimmed tags |
| PromptRecords.TagOrderMembers | storage.js:91-97 | the Set holds exactly the trimmed tags of records whose `tags` is an array |
| PromptRecords.AllTags | storage.js:88-104 | strictly ascending (so duplicate-free); exactly the trimmed tags of records whose `tags` is an array; [] when a tag cannot be read |
| PromptRecords.ExportDocument | storage.js:109-113 | the document has version "1.0", the export time, and the collection under `prompts` |
| PromptRecords.DefaultSelectors | storage.js:187-197 | every host maps to one of the three input selectors |
| PromptRecords.SelectorsFrom | storage.js:177-185 | the stored selectors when readable and truthy, else the defaults |
| PromptImport.Candidates | storage.js:123-128 | a parse failure is "Invalid JSON file"; a `prompts` array field wins, then a bare array, then a `data` array field; anything else is exactly "Invalid file format" |
| PromptImport.ExportIsShapeOne | storage.js:109-113 | the exported document is read back through the first shape, giving the same collection |
| PromptImport.FirstPresentIsFirst | storage.js:134-139 | pick is undefined exactly when no key is present, else the value of the first present key |
| PromptImport.Pick | storage.js:134-139 | the loop returns the value of the first own, non-null key |
| PromptImport.ToTagsArrayShape | storage.js:140-145 | every tag is non-empty and trimmed; a string gives its comma list; an array gives exactly the non-empty trimmed `String()` forms of its elements; anything else gives [] |
| PromptImport.ReadCandidate | storage.js:148-153 | throws exactly when the picked label or template is a truthy non-string; otherwise both are trimmed |
| PromptImport.ImportStep | storage.js:148-166 | one iteration throws exactly when the candidate's label or template throws |
| PromptImport.ImportStepCases | storage.js:154-165 | a candidate with an empty label or template, or a title already seen, is skipped; any other is pushed under its lower-cased title |
| PromptImport.ImportRunFails | storage.js:147-167 | the loop throws exactly when some candidate throws |
| PromptImport.PushKeepsGood | storage.js:159-165 | pushing a well-formed record with a new title keeps titles distinct and the title set exact |
| PromptImport.NewRecordWellFormed | storage.js:152-164 | a pushed record has a non-empty trimmed label and template |
| PromptImport.ImportRunKeepsGood | storage.js:147-167 | accepted records are well formed, their titles are new and pairwise distinct case-insensitively, and the title set is the existing titles plus theirs |
| PromptImport.ImportRunExtends | storage.js:147-167 | the accepted records so far stay a prefix, at most one record is accepted per candidate, and titles are only added |
| PromptImport.ImportRunCoversKeys | storage.js:147-167 | after the loop every importable candidate's title is in the title set |
| PromptImport.ImportRunKnownTitles | storage.js:154-157 | when every title is already known the loop accepts nothing |
| PromptImport.TitleOf | storage.js:131 | throws exactly for a null record or a truthy non-string label; otherwise the lower-cased trimmed label, or "" |
| PromptImport.ExistingTitles | storage.js:131 | the Set is built exactly when every record's title can be computed |
| PromptImport.ExistingTitlesMembers | storage.js:131 | the Set holds exactly the titles of the existing records |
| PromptImport.TitleOfImported | storage.js:131 | a record built by the import has its lower-cased label as title |
| PromptImport.ImportOutcome | storage.js:121-175 | a shape error is reported before the store is touched; on success `imported <= total` and total is the candidate count; no other key changes |
| PromptImport.ImportAddsNewTitles | storage.js:130-170 | existing records stay an unchanged prefix; the added records are as many as reported, well formed, new and pairwise distinct in title |
| PromptImport.ImportTwiceImportsNothing | storage.js:121-175 | importing the same document again imports 0 of the same total and leaves the store as it was |
| PromptImport.TitlesAfterImport | storage.js:131-165 | after an import, the titles of the stored collection are exactly the loop's title set |
| PromptImport.SecondRunIsIdle | storage.js:147-167 | the same candidates run again from the final titles accept nothing |
| PromptImport.TagsRoundTrip | storage.js:140-150 | the tags of an exported record come back unchanged through toTagsArray |
| PromptImport.StepOfExported | storage.js:148-166 | an exported record with a new title is imported with the same label, template and tags under the next fresh id |
| PromptImport.RunOfExported | storage.js:147-167 | exported records with distinct new titles are all accepted, in order, under consecutive fresh ids |
| PromptImport.ExportImportRoundTrip | storage.js:106-175 | exporting records with distinct titles and importing into an empty store restores every record in order with the same label, template and tags and fresh ids, and reports all imported |
| PromptImport.OutcomeOfRun | storage.js:130-170 | a successful loop writes the existing records followed by the accepted ones and reports their count and the total |
| Storage.PromptStorage.constructor | storage.js:2-5 | the storage object works on the given storage area |
| Storage.PromptStorage.GetPrompts | storage.js:11-28 | the returned collection and the store left are those of ReadPrompts |
| Storage.PromptStorage.FindIndex | storage.js:55 | the findIndex loop computes FindIndexById |
| Storage.PromptStorage.SavePrompt | storage.js:30-65 | the result and the store left are those of SaveOutcome |
| Storage.PromptStorage.Upsert | storage.js:52-58 | the in-place push or replacement computes Place |
| Storage.PromptStorage.DeletePrompt | storage.js:67-76 | the result and the store left are those of DeleteOutcome |
| Storage.PromptStorage.GetPromptById | storage.js:78-86 | the first record with the id, after the healing read |
| Storage.PromptStorage.GetAllTags | storage.js:88-104 | the nested forEach into a Set and the sort compute AllTags of the healed collection |
| Storage.PromptStorage.AddTrimmed | storage.js:95 | the inner forEach succeeds exactly when every tag is a string and adds their trimmed forms |
| Storage.PromptStorage.ExportPrompts | storage.js:106-119 | the export document of the healed collection |
| Storage.PromptStorage.ImportPrompts | storage.js:121-175 | the result and the store left are those of ImportOutcome |
| Storage.PromptStorage.ImportLoop | storage.js:147-167 | the for-of loop computes ImportRun: the existing records followed by the accepted ones, and their count; a TypeError when a candidate throws |
| Storage.PromptStorage.GetSelectors | storage.js:177-185 | the stored selectors when truthy, else the defaults |
| Storage.PromptStorage.SaveSelectors | storage.js:199-206 | on success only `selectors` is overwritten; a store error is rethrown with the store unchanged |
| Storage.NoTagsAfterFailure | storage.js:100-103 | one unreadable record or tag makes getAllTags return [] |
| Storage.SaveThenGetSelectors | storage.js:177-206 | truthy selectors that were saved are returned next |
| Storage.OutcomeOfFailedRun | storage.js:171-173 | a throwing loop writes nothing beyond the healing read |
| Storage.OutcomeUnreachable | storage.js:169 | with the store unreachable, the write fails and the store is unchanged |
| AutoBackup.RingShape | background.js:24-25 | the ring holds 1 to 3 snapshots, the new one first, followed by the newest earlier ones in their order; only the oldest tail is dropped; below three nothing is dropped |
| AutoBackup.CreateAutoBackup | background.js:1-31 | the store left is BackupOutcome: nothing is written without prompts, on a rate limit, or when the backups cannot be read, and the failure is swallowed; otherwise only `backups` is written, with the new ring |
| AutoBackup.DropOldest | background.js:25 | popping while more than three remain leaves the first three, in order |
| AutoBackup.NoPromptsNoBackup | background.js:4-5 | a missing, non-array or empty `prompts` means no write |
| AutoBackup.RateLimitForEveryReason | background.js:10-13 | a newest snapshot less than an hour old means no write, whatever the reason |
| AutoBackup.BackupWritten | background.js:15-27 | a write means the prompts were a non-empty array; the new snapshot comes first with the reason, the count and the prompts; then come the newest earlier snapshots, three at most in all; no other key changes |
| AutoBackup.BackupTaken | background.js:4-27 | with a non-empty prompts array and a falsy `backups`, or an array that is empty or whose readable newest snapshot is at least an hour old, the new ring is written under `backups` and nothing else changes |
| AutoBackup.OnInstalled | background.js:33-37 | an install event with reason "update" leaves the store as createAutoBackup with reason "update" does; any other install reason leaves it unchanged |
| AutoBackup.OnStartup | background.js:39-41 | a startup leaves the store as createAutoBackup with reason "startup" does |
| Popup.NormalEachAppend | popup.js:489 | normalising pieces maps over concatenation |
| Popup.MatchingTags | popup.js:497-501 | exactly the tags whose lower-case form contains the fragment and is not entered, in original order, each as often as in allTags |
| Popup.Suggestions | popup.js:492-501 | an empty fragment gives no suggestions; otherwise the matching tags, a subsequence of allTags |
| Popup.LastCommaAt | popup.js:483 | the last comma of `head + "," + tail`, for a comma-free tail, is at `|head|` |
| Popup.FragmentAfterLastComma | popup.js:483-490 | the fragment is the trimmed lower-cased text after the last comma; the entered tags are the normalised non-empty pieces before it |
| Popup.FragmentWithoutComma | popup.js:483-490 | without a comma the whole input is the fragment and nothing is entered |
| Popup.EnteredAtLastComma | popup.js:487-490 | the entered tags are the normalised non-empty pieces of the text before the last comma |
| Popup.InsertedText | popup.js:556-563 | after a selection the fragment is empty |
| Popup.ChosenFirstTag | popup.js:559-563 | with no comma, a chosen tag becomes the only entered tag |
| Popup.ChosenLaterTag | popup.js:559-563 | after a comma, a chosen tag is added after the entered tags |
| Popup.ChosenTagIsEntered | popup.js:553-566 | choosing a tag empties the fragment, leaves no suggestion, and appends the normalised tag to the entered tags |
| Popup.ThemeIndex | popup.js:167 | indexOf with strict equality: the position of the theme in the order, or -1 when it is none of them |
| Popup.NextTheme | popup.js:166-167 | the next theme is one of auto, light, dark |
| Popup.ThemeOrder | popup.js:166-167 | auto goes to light, light to dark, dark to auto, and an unknown theme to auto |
| Popup.ThemeCycle | popup.js:165-170 | three steps from a known theme return to it |
| Popup.InitialTheme | popup.js:143-146 | the stored theme when truthy, else "auto"; never falsy |
| Popup.Keep | popup.js:370-378 | `filter` throws exactly when some test throws; otherwise it keeps, in order, exactly the elements whose test holds, each as often as in the input |
| Popup.VisiblePromptsSpec | popup.js:366-380 | the shown list is a subsequence of the prompts in the same order, holding exactly the prompts whose lower-cased label contains the search term, when one is set, and whose tags include the tag filter, when one is set |
| Popup.NoFilterShowsAll | popup.js:366-380 | with neither filter set, every prompt is shown |
| Popup.FormTags | popup.js:298 | every parsed tag is non-empty, trimmed and comma-free |
| Popup.Submission | popup.js:286-305 | rejected exactly when the trimmed title or content is empty; otherwise the prompt has the edit id, the trimmed title as label, the trimmed content as template, and the comma-parsed trimmed tag text as tags |
| Popup.SubmissionIsSaved | popup.js:300-308 | savePrompt normalises a submitted form to the trimmed title and content, the parsed tags, and the edit id when set, else a fresh one |
| Popup.SplitTagsText | popup.js:279 | the tags written into the form split back into the first tag and the others with a leading space |
| Popup.TrimSpaced | popup.js:279 | trimming the space-prefixed tags restores them |
| Popup.EditKeepsTags | popup.js:279-298 | tags shown for editing and submitted unchanged are saved as the same tags |
| Popup.CommaListOfTagsText | popup.js:279-298 | the comma list of the joined tags is the tags |
| Popup.TagsTextTrimmed | popup.js:279 | the joined text of trimmed non-empty tags is itself trimmed |
| Popup.Classify | popup.js:722-728 | exactly one of three cases: none imported, all imported, or some imported |
| Popup.PartialImportIsPartial | popup.js:722-728 | a successful import is classified as partial exactly when `0 < imported < total` |
| Popup.AcceptsAnyCase | popup.js:709 | the ".json" name check ignores letter case |
| Popup.PromptManager.constructor | popup.js:2-7 | no edit id, empty filters, no tags, highlight index -1, no suggestions shown |
| Popup.PromptManager.HideSuggestions | popup.js:546-551 | the list is hidden and emptied, the index is -1, the text is kept, and no other field changes |
| Popup.PromptManager.HandleTagInput | popup.js:478-514 | the list shows Suggestions of the input, hidden exactly when empty, with the index reset to -1; no other field changes |
| Popup.PromptManager.SelectTagSuggestion | popup.js:553-566 | the input becomes the text before the last comma, a space, the tag and ", "; the list is hidden and emptied with index -1; no other field changes |
| Popup.PromptManager.HandleTagKeydown | popup.js:568-617 | with the list hidden or empty nothing changes; otherwise ArrowDown sets the index to `min(i+1, n-1)` and ArrowUp to `max(i-1, -1)`, keeping text and list; Enter and Tab select the highlighted tag only when `0 <= i < n`; Enter with nothing highlighted and other keys change nothing; Escape closes the list, and Tab closes it when nothing is highlighted; the index stays in `[-1, n-1]`; no field outside the tag field changes |
| Popup.PromptManager.SearchPrompts | popup.js:473-476 | the search filter becomes the lower-cased, trimmed term and nothing else changes |
| Popup.PromptManager.FilterPrompts | popup.js:468-471 | the tag filter becomes the given tag and nothing else changes |
| Popup.PromptManager.InitTheme | popup.js:143-149 | the current theme becomes the stored theme or "auto", or stays when the read is rejected; nothing else changes |
| Popup.PromptManager.CycleTheme | popup.js:165-170 | the current theme moves to the next one and is stored under `theme`; nothing else changes |
| Popup.ThemeSurvivesReopen | popup.js:143-170 | after cycleTheme, a popup opened on the same storage area runs initTheme and starts with the theme the cycle chose |
| Popup.SearchTermSettled | popup.js:474 | normalising the search term twice is normalising it once |

## Left out

- The undefined operations. `toggleFavorite`, favourites-first sorting, `getBackups`, `restoreBackup` and a storage-side `createBackup` are called by popup.js but not defined in storage.js. They are not part of this model.
- handleImportFile beyond its file-name check and result classification. popup.js:718 awaits `promptStorage.createBackup`, which storage.js does not define, so the flow throws before importing.
- JSON text. `JSON.parse` and `JSON.stringify` are not modelled: the import takes a parsed document or a parse failure, and the export gives the document before it is stringified.
- Clocks and randomness. `Date.now`, `Math.random`, `generateId` and the ISO date strings are parameters: `freshId`, `mint`, `now`, `stamp`, `id` and `date`.
- AutoBackup.CreateAutoBackup: the three `Date.now()` reads of one run are taken as one value `now`.
- AutoBackup.ToNumber: strings, arrays and objects count as NaN, so a numeric string timestamp does not rate-limit. Numbers are integers, not floating point.
- Text.Lower: only ASCII letters are lower-cased. The default sort compares characters, not UTF-16 code units.
- Concurrency and async interleavings between the popup and the background script are not modelled. Each operation is one atomic read-modify-write.
- Shared objects. The test double's `get` hands out the stored objects themselves and `set` keeps the caller's objects (tests/mocks/browser-mock.js:11, 17, 22, 26). The model copies values on `get` and `set`, as `browser.storage.local` does. So two effects of that sharing are not modelled:
  - an importPrompts that throws midway leaves no accepted records in the store;
  - a backup's `prompts` array does not grow with later saves.
- Store failures. `reachable` is fixed for a store, so a `get` that succeeds followed by a `set` that fails is not modelled.
- `===` on arrays and objects is modelled as false: two distinct objects are never strictly equal.
- savePrompt's check at storage.js:33-35 is dead code, because getPrompts always returns an array. It has no counterpart in the model.
- Where the prose description and the code differ, the model follows the code:
  - savePrompt does not reject an empty label or template;
  - there is no favourites-first sort;
  - the one-hour rate limit applies to every backup reason.
- PromptRecords.DefaultSelectors: states only that every host maps to one of the three selectors, not the exact host list.
- Console logging, i18n, notifications, alerts, the DOM, the theme attribute, rendering and drag-and-drop are not modelled.
- The browser-polyfill wrapper and the content-script tests are not modelled.
