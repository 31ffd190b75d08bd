# Tab store model

A Dafny model of the panel (tab) session store of the dockit desktop client
(`useTabStore` in `src/store/tabStore.ts`). The store keeps an ordered list of
open panels and a reference to the active one. Its actions talk to the file
store (`sourceFileApi`):

- `establishPanel` opens or refocuses a file, or opens a new `.search` panel
  for a database connection.
- `checkFileExists` asks whether a panel's file exists.
- `closePanel` optionally saves the panel, then removes it.
- `setActivePanel` selects a panel by id.
- `saveContent` commits content to a panel and writes it out.
- `loadDefaultSnippet` resets the active panel's content.

Files:

- `wrappers.dfy`: `Option` and `Result`. A rejected promise is a `Failure`.
- `decimal.dfy`: the decimal rendering of a count, as `${n}` renders it, with
  its inverse.
- `file_store.dfy`: the abstract file store. `FsState` holds the existing
  files and their contents, the paths whose existence check, read or write
  fails, and what the folder prompt answers. `FileApi` is the object the actions
  await, and it logs every call it receives.
- `tab_store.dfy`: `Panel` (a class: `file` and `content` are written in place
  on the shared object), the lookups, the splice and the file-name building,
  the file-store runs of saveContent and of connection-content resolution as
  functions of the file store's state, and `Store` with the six actions.
  `Store.Valid` (no panel object is listed twice) holds initially and is kept
  by every action; it is what makes a close take out exactly one panel object
  (`CloseRemovesOnePanel`).
- `tab_store_properties.dfy`: lemmas about the helpers and the runs, over all
  inputs.
- `tab_store_scenarios.dfy`: whole sessions that show the intended
  behaviour and the quirks of the code.

The model follows the code as written. Some consequences of the code worth
knowing:

- Ids are `panels.length + 1`, so they are not unique: they repeat after a
  close. Lookups by id then pick the first match, and closing a panel can
  remove a different panel with the same id.
- A panel whose id is not listed gives `findIndex` = -1, and `splice(-1, 1)`
  then removes the last panel.
- Nothing protects the home panel. Closing the last remaining panel leaves
  `panels` empty and the active panel undefined (`null` here).
- The active panel can end up outside the list: when the closed panel is not
  listed, the last entry is removed even if it is the active one.
- The "Folder not found" (404) check in saveContent tests the path after
  `<folder>/` has been prepended, so it can never fire. An empty-string
  folder answer still rewrites the path, to `/<file>`.
- The panel's `file` is rewritten only when saveContent gets as far as that
  line. A failed existence check or a failed folder prompt ends the action
  before it, and the path stays as it was.

## Model

| member | source | states |
|---|---|---|
| `FileStore.ExistsReply` | src/store/tabStore.ts:53 | the file store's answer to an existence check: the fault recorded for the path, else whether the path is a file |
| `FileStore.ReadReply` | src/store/tabStore.ts:38 | the file store's answer to a read: the fault recorded for the path, else the file's content, else a missing-file failure |
| `FileStore.SaveReply` | src/store/tabStore.ts:125 | the file store's answer to a write: the fault recorded for the path, else success |
| `FileStore.FolderReply` | src/store/tabStore.ts:116 | the folder prompt's answer: a folder (possibly the empty string) or a failure |
| `FileStore.FileApi.Exists` | src/store/tabStore.ts:115 | the existence check answers whether the path is a file, or fails with the fault recorded for it; the call is logged |
| `FileStore.FileApi.ReadFile` | src/store/tabStore.ts:38 | a read returns the file's content, or fails for a faulty or missing path; the call is logged |
| `FileStore.FileApi.SaveFile` | src/store/tabStore.ts:125 | a write replaces the file's content unless it fails, and then nothing changes; the call is logged |
| `FileStore.FileApi.SelectFolder` | src/store/tabStore.ts:116 | the folder prompt returns its answer, which may be empty, or fails; the call is logged |
| `Decimal.NatToString` | src/store/tabStore.ts:50 | a count renders as a canonical numeral (digits only, no leading zero) |
| `Decimal.ValueOfNatToString` | src/store/tabStore.ts:50 | reading back a rendered count gives the count |
| `Decimal.NatToStringOfValue` | src/store/tabStore.ts:50 | every canonical numeral is the rendering of its value (the other direction) |
| `Decimal.NatToStringInjective` | src/store/tabStore.ts:50 | different counts render differently |
| `TabStore.Panel.constructor` | src/store/tabStore.ts:7-13 | a panel has an id, a name, an optional connection, a file and optional content |
| `TabStore.FirstWithFile` | src/store/tabStore.ts:30 | `find` by file gives the first panel with that file, or -1 exactly when no panel has it |
| `TabStore.FirstWithId` | src/store/tabStore.ts:89 | `findIndex` by id gives the first index with that id, or -1 exactly when no panel has it |
| `TabStore.BoundTo` | src/store/tabStore.ts:45 | a panel is bound to a connection id when it has a connection and that connection has the id (`connection?.id === id`) |
| `TabStore.BoundPanels` | src/store/tabStore.ts:44-46 | `panels.filter(...)` by connection id: only listed panels bound to the id, in list order |
| `TabStore.SameConnectionCount` | src/store/tabStore.ts:44-46 | the number of panels bound to a connection id: zero exactly when none is, the whole length exactly when all are |
| `TabStore.CandidateFileName` | src/store/tabStore.ts:48-50 | the default file name starts with the connection's name and ends in `.search`, and it is `<name>.search` exactly when the count is 0 |
| `TabStore.ContentOrEmpty` | src/store/tabStore.ts:87 | the content to save on close: the panel's content, or the empty string when it has none |
| `TabStore.SpliceStart` | src/store/tabStore.ts:91 | where `splice` starts: a start in range is kept, and a negative one counts back from the end |
| `TabStore.SpliceOne` | src/store/tabStore.ts:91 | `splice(start, 1)` removes exactly the element at the normalised start, if there is one, and keeps the others in order |
| `TabStore.ActiveAfterClose` | src/store/tabStore.ts:93 | the new active panel is the one at `min(removed, length - 1)`; it is undefined exactly when the index was -1 or the list is empty |
| `TabStore.ReadInto` | src/store/tabStore.ts:54-57 | the read that ends resolution: its reply is the outcome, under the path read, and adds no call of its own beyond those given |
| `TabStore.ResolveRunOf` | src/store/tabStore.ts:51-58 | resolution of a connection panel's file and content: one to three calls, starting with the existence check of the candidate; no write and no prompt; a success either read its file last or is the candidate with the snippet |
| `TabStore.CommitRun` | src/store/tabStore.ts:123-126 | the tail of saveContent: the panel's file becomes the settled path; one existence check of it, then a write only if it exists; the file store changes only by that write, which is then a success |
| `TabStore.SaveRunOf` | src/store/tabStore.ts:113-126 | the whole file-store run of saveContent: one to four calls, starting with the existence check of the panel's file; the folder prompt is asked only with validation, as the second call, and the file changes only then |
| `TabStore.Store.constructor` | src/store/tabStore.ts:15-24 | the initial state is the home panel (id 0, name "home", file "", no content) alone, and active |
| `TabStore.Store.TargetOf` | src/store/tabStore.ts:74 | the panel an action works on: the one given, else the active one (`panel ?? this.activePanel`, also at line 109) |
| `TabStore.Store.ClosedById` | src/store/tabStore.ts:89-94 | the state after removing a panel by id: the first entry with the id (the last entry, if none has it) is spliced out, and the active panel moves to `panels[min(i, length - 1)]` only when it has that id |
| `TabStore.Store.EstablishPanel` | src/store/tabStore.ts:27-71 | an open file is refocused with no call to the file store; otherwise one read, and on success one fresh panel (id = old length + 1, name = file = path, the file's content) is appended and made active; on failure nothing changes; a connection panel gets its candidate name from the count of panels on that connection, its file and content from the resolution run, and is appended and made active unless a call fails |
| `TabStore.Store.CheckFileExists` | src/store/tabStore.ts:73-81 | false, with no call, when there is no target panel; otherwise the file store's answer for the target's file, failure included, unchanged |
| `TabStore.Store.SaveContent` | src/store/tabStore.ts:108-127 | no target: nothing happens; otherwise the content is committed to the target whatever follows, and the file, the calls, the file store and the outcome are those of the save run |
| `TabStore.Store.ClosePanel` | src/store/tabStore.ts:83-100 | no panel: nothing happens; otherwise an optional save with validation, whose failure leaves panels and active panel as they were and comes back as code 500 with the original message; then the first entry with the panel's id (the last entry, if none has it) is spliced out, and the active panel moves if it had that id |
| `TabStore.Store.SetActivePanel` | src/store/tabStore.ts:102-106 | the first panel with the id becomes active; an unknown id changes nothing |
| `TabStore.Store.LoadDefaultSnippet` | src/store/tabStore.ts:129-132 | the active panel's content becomes the default snippet, and nothing else changes |
| `TabStoreProperties.CandidateRoundTrip` | src/store/tabStore.ts:48-50 | the count a connection file name was built from can be read back from it (`<name>.search` for 0, `<name>-<k>.search` otherwise) |
| `TabStoreProperties.CandidateNamesDistinct` | src/store/tabStore.ts:48-50 | different counts give different file names for the same connection name |
| `TabStoreProperties.CountAfterAppend` | src/store/tabStore.ts:44-46 | appending a panel raises the count of its own connection by one and no other count |
| `TabStoreProperties.BoundPanelsAppend` | src/store/tabStore.ts:44-46 | filtering a list with one more panel gives the old filter, plus that panel when it is bound to the id |
| `TabStoreProperties.CountIsFilterLength` | src/store/tabStore.ts:44-48 | the count used for file names equals `exists.length`, the length of the filter |
| `TabStoreProperties.ResolutionPriority` | src/store/tabStore.ts:51-58 | a resolved connection panel uses either the top-level candidate or its `.dockit/` copy; the `.dockit/` copy only when the top-level file is missing; the snippet only when both are missing; otherwise that file's content |
| `TabStoreProperties.ResolutionWhenReliable` | src/store/tabStore.ts:51-58 | with a file store that never fails, resolution succeeds, probes `.dockit/` only when the top-level file is missing, and reads only the file it uses |
| `TabStoreProperties.SavePathRewrite` | src/store/tabStore.ts:113-123 | the path becomes `<folder>/<file>` exactly when validation was asked for, the file was reported missing and the prompt answered; otherwise it is unchanged |
| `TabStoreProperties.CancelledPromptRewritesToRoot` | src/store/tabStore.ts:115-123 | an empty-string folder answer still rewrites the path, to `/<file>` |
| `TabStoreProperties.SaveWritesOnlyExistingPath` | src/store/tabStore.ts:123-126 | the only write goes to the final path with the given content, and only if that path already exists; nothing else in the file store changes |
| `TabStoreProperties.SaveWithoutValidationKeepsMissingFileUnwritten` | src/store/tabStore.ts:113-126 | without validation, a missing file is neither renamed nor written |
| `TabStoreProperties.SaveNeverReportsFolderNotFound` | src/store/tabStore.ts:117-120 | the 404 branch cannot be reached, so every failure of saveContent comes from the file store |
| `TabStoreProperties.SaveWhenReliable` | src/store/tabStore.ts:113-126 | with a file store that never fails, saveContent succeeds, and the content reaches the file store exactly when the final path exists |
| `TabStoreProperties.CloseRemovesFirstIdMatch` | src/store/tabStore.ts:89-91 | closing a listed id removes exactly the first entry with it, and keeps the order of the rest |
| `TabStoreProperties.CloseAbsentRemovesLast` | src/store/tabStore.ts:89-91 | closing an unlisted id removes the last entry |
| `TabStoreProperties.CloseRemovesOnePanel` | src/store/tabStore.ts:89-91 | in a list with no panel object twice (the store's invariant), a close removes exactly one panel object, keeps every other one, and keeps the list free of repeats |
| `TabStoreProperties.ActiveAfterClosingAt` | src/store/tabStore.ts:91-93 | after closing the entry at index i, the panel that slid into slot i becomes active, or the previous one if i was last; closing the only panel leaves no active panel |
| `TabStoreScenarios.ConnectionPanelRoundTrip` | src/store/tabStore.ts:44-69 | from the home panel, connection "Acme" with no saved file opens panel 2, "Acme.search", holding the snippet; closing it returns to the home panel alone, active |
| `TabStoreScenarios.ReopenFile` | src/store/tabStore.ts:29-42 | opening one file twice yields one panel; the second call refocuses it and makes no call |
| `TabStoreScenarios.SameConnectionTwice` | src/store/tabStore.ts:44-50 | two panels for one connection are named "X.search", then "X-1.search" |
| `TabStoreScenarios.OpenTwoCloseFirst` | src/store/tabStore.ts:35-41 | opening "a" (id 2) and "b" (id 3) and closing "a" leaves the home panel and "b", which keeps id 3 |
| `TabStoreScenarios.RepeatedIdSession` | src/store/tabStore.ts:35-41 | opening "a" and "b", closing "a" and opening "c" leaves the home panel, "b" and "c", where "b" and "c" both have id 3 |
| `TabStoreScenarios.IdsRepeatAfterClose` | src/store/tabStore.ts:89-105 | with two panels of id 3, selecting id 3 picks the earlier one, and closing the later one removes the earlier one: the list's files are then exactly "" and "c", and the earlier panel is no longer listed |
| `TabStoreScenarios.CloseAbsentPanel` | src/store/tabStore.ts:89-94 | closing an unlisted panel removes the last one, here the active panel: the list is then the home panel alone, and the removed panel stays active outside it |
| `TabStoreScenarios.CloseHomePanel` | src/store/tabStore.ts:84-94 | closing the home panel leaves no panels and no active panel; checkFileExists then answers false, and the next panel gets id 1 |
| `TabStoreScenarios.SaveIsSeenThroughTheList` | src/store/tabStore.ts:109-111 | content saved through the active panel shows in the list's entry too, because both are the same object |
| `TabStoreScenarios.SaveNewPanelUnderFolder` | src/store/tabStore.ts:113-126 | a never-written connection panel keeps its path without validation and moves under the chosen folder with it; nothing is written either way |
| `TabStoreScenarios.FailedSaveKeepsPanel` | src/store/tabStore.ts:86-98 | a failed save aborts the close: the panel stays open and active, and the error is code 500 with the original message |
| `TabStoreScenarios.OpenFromDockit` | src/store/tabStore.ts:55-57 | with only a `.dockit/` copy present, the panel opens it, and its name and file are the prefixed path |

## Left out

- The internals of `sourceFileApi` (`src/datasources`) are not part of this
  model. It is the abstract `FileApi`. The message of a failed read of a
  missing file is a stand-in constant.
- `defaultCodeSnippet` (`src/common/monaco`) is not part of this model. Its
  text is the `snippet` given to the `Store` constructor.
- `Connection` (`src/store/connectionStore.ts`) is not part of this model. A
  connection is its `id` (an integer that is always present) and its `name`.
  If the real id can be undefined, more panels would match in the count; that
  case is not modelled.
- `CustomError` (`src/common`) is modelled only by its code and message.
- Asynchrony: each action runs to completion against the file store.
  Interleaved or concurrent actions, and the races between them, are not
  modelled.
- The `console.log` diagnostics and the `JSON.stringify` of errors in
  closePanel are output only and are left out.
- The `persist` block (localStorage under the `currentPanel` key) is external
  storage. It names a state path that does not exist, and it is left out.
- The module-level `homePanel` object shared by every store instance: each
  `Store` allocates its own home panel.
- Pinia store creation and plugin registration (`src/store/index.ts`), the
  Electron bridge (`src/electron/preload.ts`) and the localisation strings
  (`src/lang/enUS.ts`) have no behaviour of the store and are left out.
- The folder prompt is interactive. Here it gives a fixed answer per file-store
  state.
