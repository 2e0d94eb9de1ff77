# PodAI workflow core, modelled in Dafny

PodAI is a browser application. The user uploads an audio recording. A hosted
generative-AI model transcribes it, and a second call rewrites the transcript in the
voice of one of six personas. The user can then chat with that persona about the
content. Every generation from an uploaded file is kept in a local history of at most
50 items, most recent first.

This project models the logic around those remote calls:

- the workflow controller of `App.tsx`, as the class `App.Controller`. Its fields are
  the component's state: `stage`, `audioFile`, `transcript`, `selectedPersona`,
  `result`, `error`, `history`, `folderFiles`, `activeTab`, `chatMessages`,
  `isChatLoading` and the chat-session reference. Its methods are the event handlers.
- the pure history computations (save with the cap, delete by id).
- the text and file name of the script download.
- upload validation and the folder filter (`components/UploadZone.tsx`).
- the chat box's submit guard and disabled flags (`components/ChatInterface.tsx`).
- the persona catalog and the lookup by id (`constants.tsx`).
- the loading view's dots cycle and texts (`components/LoadingView.tsx`).

Every awaited call is settled before its handler is entered. Its result is a
parameter of type `Outcome = Ok(text) | Err(message)`. This covers reading the file as
base64, transcription, transformation and the chat reply. `message` is `None` when the
thrown value is not an `Error`, which selects the handler's fallback text. The
transcription and transformation services throw on empty text
(`services/geminiService.ts:39`, `:81`). So the handlers require an `Ok` from them to
carry non-empty text. Clock readings (`Date.now()`) and the random history pick are
parameters too.

The ghost field `stageTrail` records every stage the controller writes, in order.
This lets a contract say that a handler passes through an intermediate stage, such as
Transcribing or Generating, before it settles.

Modules: `Wrappers` (Option), `Text` (the JavaScript string operations used: `\s`,
`trim`, `split('.')[0]`, `replace(/\s+/g, …)`, integer `toString`), `Seqs` (filter),
`Types`, `Constants`, `History`, `Script`, `Upload`, `ChatInterface`, `Loading` and `App`.

Three behaviours of the code worth knowing:

- Picking a persona does not close an open chat session (`App.tsx:567-570`). The
  effect at `App.tsx:169-173` only opens one when none exists. So a session opened
  for one persona can outlive a later pick.
- A history item whose persona id is not in the catalog is restored with no selected
  persona, and its result keeps that id (`App.tsx:111-117`). So a result's persona id
  need not resolve in the catalog. Its download then reads `Persona: undefined`, and
  its file name starts with `PodAI_undefined_`.
- `reset` leaves `activeTab` as it was (`App.tsx:271-280`).

## Model

| member | source | states |
|---|---|---|
| `Constants.CatalogIds` | constants.tsx:4-59 | the catalog holds six personas with ids comedian, analyst, storyteller, debater, minimalist, futurist, in that order and pairwise distinct |
| `Constants.FindById` | App.tsx:111 | `find` yields the first entry with the id, or nothing exactly when no entry has it |
| `Constants.FindPersona` | App.tsx:111 | a found persona has the asked id, and the lookup succeeds exactly when the id is one of the six catalog ids |
| `Constants.FoundInCatalog` | App.tsx:111 | what the lookup finds is an entry of the catalog |
| `Constants.FindByIdUnique` | App.tsx:147 | with distinct ids, looking up an entry's id returns that entry |
| `Constants.LookupCatalogId` | constants.tsx:4-59 | looking up any catalog id returns that unique persona |
| `Constants.PersonasComplete` | constants.tsx:5-58 | every persona has a non-empty name, role and prompt instruction |
| `Constants.MaxFileBytesValue` | constants.tsx:61 | the ceiling is 10 MB, i.e. 10485760 bytes |
| `Text.Trim` | components/ChatInterface.tsx:36 | `trim()` returns a slice of the input with no white space at either end, empty exactly when the input is all white space |
| `Text.BetweenBlanks` | components/ChatInterface.tsx:36 | a prefix of a suffix, with blank text cut on both sides, is a slice of the input between two blank pieces — the cut `trim()` makes |
| `Text.TrimStart` | components/ChatInterface.tsx:36 | the result is the input minus a blank prefix and does not start with white space |
| `Text.TrimEnd` | components/ChatInterface.tsx:36 | the result is the input minus a blank suffix and does not end with white space |
| `Text.BeforeFirst` | App.tsx:148 | `split('.')[0]` is a prefix with no `.`, ending where the input ends or at its first `.` |
| `Text.Decimal` | App.tsx:89 | `Date.now().toString()` for a non-negative time is a non-empty string of decimal digits with no leading zero |
| `Text.ReplaceWhitespaceRuns` | App.tsx:155 | `replace(/\s+/g, sub)` never makes the text longer |
| `Text.ReplaceLeavesNoWhitespace` | App.tsx:155 | replacing runs by a character that is not white space leaves no white space |
| `Text.ReplaceIdentity` | App.tsx:155 | text without white space is left unchanged |
| `Text.TrimStartBlankPrefix` | App.tsx:155 | a blank prefix followed by a non-blank start is exactly what `TrimStart` removes, so a run is consumed whole |
| `Text.ReplacePlainPrefix` | App.tsx:155 | a white-space-free prefix passes through unchanged, whatever follows it |
| `Text.LeadingRun` | App.tsx:155 | a whole leading white-space run becomes one `sub` |
| `Text.ReplaceRun` | App.tsx:155 | a maximal white-space run after a white-space-free stretch becomes exactly one `sub`, and the rest is replaced alike |
| `Text.DecimalRoundTrip` | App.tsx:89 | an id written as `Date.now().toString()` reads back as the time it was made from |
| `Text.DecimalInjective` | App.tsx:89 | different times give different ids |
| `Seqs.Filter` | App.tsx:105 | `filter` keeps only elements that pass, keeps every element that passes, and never lengthens the list |
| `History.Snippet` | App.tsx:94 | the snippet is the transcript's first 100 characters (or all of it if shorter) followed by `...` |
| `History.NewItem` | App.tsx:88-96 | the new item's timestamp is the time, its id is a string of digits with no leading zero that reads back as that time, and its file name, persona id, transcript, snippet and content come from the result and the file |
| `History.Save` | App.tsx:98 | the new item comes first, then a prefix of the old list, for a length of min(old length + 1, 50) |
| `History.SavePrependsResult` | App.tsx:88-98 | the saved item carries the result's persona id, transcript and content, the time-derived id and timestamp, and the snippet; the old items that fit follow |
| `History.Delete` | App.tsx:105 | deletion never lengthens the list, and every surviving item was in it |
| `History.SaveBounded` | App.tsx:98 | saving never leaves more than 50 items, and it adds exactly one item to a list that is under the cap |
| `History.SaveBelowCap` | App.tsx:98 | under the cap the result is the new item followed by the whole old list |
| `History.SaveAtCap` | App.tsx:98 | at the cap only the oldest items are evicted: the new item followed by the 49 most recent |
| `History.DeleteRemovesId` | App.tsx:105 | no item with the deleted id remains |
| `History.DeleteExactly` | App.tsx:105 | every item with another id keeps its multiplicity; every item with that id is gone |
| `History.DeleteKeepsOrder` | App.tsx:105 | deletion distributes over concatenation, so the survivors keep their relative order |
| `History.DeleteAbsent` | App.tsx:105 | deleting an id no item has changes nothing |
| `History.DeleteUndoesSave` | App.tsx:98-105 | under the cap, deleting a just-saved fresh id gives back the list as it was before the save |
| `Script.SourceName` | App.tsx:148 | the "based on" name is the file name up to its first `.`, or `restored_session` without audio |
| `Script.PersonaName` | App.tsx:149 | `${persona?.name}`: the persona's name, or the text `undefined` when the lookup found none |
| `Script.Footer` | App.tsx:149 | the footer is `\n\n---\nBased on: `, the source name, `\nPersona: `, and the persona name, each at its fixed position |
| `Script.PersonaSlug` | App.tsx:155 | the persona part of the file name contains no white space, and is `undefined` when the lookup found no persona |
| `Script.DownloadScript` | App.tsx:145-158 | a download exists exactly when there is a result |
| `Script.DownloadShape` | App.tsx:147-155 | the text is the transformed content, then `\n\n---\nBased on: ` name `\nPersona: ` persona name; the file name is `PodAI_` slug `_` name `.txt` |
| `Script.SlugOfTwoWords` | App.tsx:155 | a name of two white-space-free words separated by one space, such as "The Stand-Up", has the slug `first_rest` |
| `Upload.Check` | components/UploadZone.tsx:26-37 | a non-audio type is refused with the type message before the size is looked at; an audio file over the ceiling gets the size message; others are accepted |
| `Upload.IsAudio` | components/UploadZone.tsx:28 | a file is audio exactly when its type starts with the six characters `audio/` |
| `Upload.IsAcceptable` | components/UploadZone.tsx:56-57 | the folder filter keeps a file exactly when it is audio and at most 10485760 bytes |
| `Upload.SizeMessageText` | components/UploadZone.tsx:33 | the size message reads "File size exceeds 10MB limit." |
| `Upload.SizeBoundary` | components/UploadZone.tsx:32 | an audio file of exactly 10485760 bytes is accepted; one byte more is refused |
| `Upload.CheckMatchesFolder` | components/UploadZone.tsx:28-35 | the single-file check and the folder filter accept the same files |
| `Upload.FolderFilter` | components/UploadZone.tsx:56-58 | every kept file is audio and within the ceiling |
| `Upload.FolderFilterExactly` | components/UploadZone.tsx:56-58 | every passing file keeps its multiplicity; every other file is dropped |
| `Upload.FolderFilterOrder` | components/UploadZone.tsx:56-58 | the filter distributes over concatenation, so the original order is kept |
| `Upload.Zone.constructor` | components/UploadZone.tsx:11-12 | no error and no drag at first |
| `Upload.Zone.DragOver` | components/UploadZone.tsx:16-19 | marks a drag in progress; the error is untouched |
| `Upload.Zone.DragLeave` | components/UploadZone.tsx:21-24 | clears the drag mark; the error is untouched |
| `Upload.Zone.ValidateAndPassFile` | components/UploadZone.tsx:26-37 | the error becomes the check's message, or is cleared; the file is passed on once exactly when it is accepted |
| `Upload.Zone.HandleDrop` | components/UploadZone.tsx:39-45 | ends the drag and validates only the first file; with no file nothing is passed and the error stays |
| `Upload.Zone.HandleFileInput` | components/UploadZone.tsx:47-51 | validates only the first chosen file; with none nothing happens |
| `Upload.Zone.HandleFolderInput` | components/UploadZone.tsx:53-67 | an empty pick does nothing; otherwise an empty filter result sets "No valid audio files found in this folder." and passes nothing, and a non-empty one clears the error and passes exactly the filtered list |
| `ChatInterface.SendDisabled` | components/ChatInterface.tsx:131 | the send button is disabled iff the input is all white space or a reply is loading |
| `ChatInterface.InputDisabled` | components/ChatInterface.tsx:127 | the text field is disabled exactly while a reply is loading |
| `ChatInterface.LockedWhileLoading` | components/ChatInterface.tsx:127-131 | while loading both the field and the button are disabled; otherwise the field is enabled |
| `ChatInterface.ChatBox.constructor` | components/ChatInterface.tsx:18 | the input starts empty |
| `ChatInterface.ChatBox.Edit` | components/ChatInterface.tsx:124 | typing replaces the input |
| `ChatInterface.ChatBox.HandleSubmit` | components/ChatInterface.tsx:34-41 | a submit is sent iff the input is not blank and nothing is loading; a sent submit carries the untrimmed input and clears the field; an ignored one leaves the field as it was |
| `Loading.LoadingStageOf` | App.tsx:503-505 | the loading view is shown for Transcribing and Generating, with the matching variant |
| `Loading.NextDots` | components/LoadingView.tsx:12 | from three or more dots a tick clears them; from fewer it appends exactly one `.` |
| `Loading.Ticks` | components/LoadingView.tsx:10-13 | repeated ticks from at most three dots never give more than three |
| `Loading.NextDotsCycle` | components/LoadingView.tsx:12 | zero to two dots gain one dot; three dots wrap to none |
| `Loading.TicksFromEmpty` | components/LoadingView.tsx:8-12 | from the empty start, n ticks give n mod 4 dots |
| `Loading.DotsCycle` | components/LoadingView.tsx:8-12 | from the empty start the dot count stays in 0..3, and the sequence has period 4 |
| `Loading.Heading` | components/LoadingView.tsx:26-28 | the heading is never empty |
| `Loading.Caption` | components/LoadingView.tsx:29-33 | the caption is a 28-character stage sentence followed by exactly the current dots |
| `Loading.ProgressBarStages` | components/LoadingView.tsx:36-42 | of all workflow stages, only Generating shows the loading view with the progress bar |
| `Loading.TextsByStage` | components/LoadingView.tsx:27-33 | heading and caption depend only on the stage and differ between the two stages; the caption ends with the dots |
| `Loading.DotsTicker.constructor` | components/LoadingView.tsx:8 | the dots start empty |
| `Loading.DotsTicker.Tick` | components/LoadingView.tsx:12 | one tick applies the update rule and keeps the count within 3 |
| `App.ReplyText` | App.tsx:190-204 | the model's message is never empty: the reply when it is non-empty, the fixed "trouble thinking" text when it is empty, the fixed apology on failure |
| `App.Describe` | App.tsx:231 | `err instanceof Error ? err.message : fallback` (here and at App.tsx:266): the thrown error's message, or the fallback for anything else |
| `App.Restored` | App.tsx:113-117 | the restored result takes its transcript, content and persona id from the history item |
| `App.RestoreUndoesRecord` | App.tsx:88-96 | restoring the item saved for a result gives back exactly that result |
| `App.Controller.constructor` | App.tsx:57-71 | Upload stage, nothing selected, empty history and chat, script tab, no session |
| `App.Controller.SetStage` | App.tsx:57 | `setStage` writes the stage and appends it to the recorded trail; nothing else changes |
| `App.Controller.HandleFileSelect` | App.tsx:213-234 | always enters Transcribing first; on success ends in ReviewTranscript with the transcript and the file kept; on any failure ends in Error with the message (default "Failed to process audio"), never ReviewTranscript; nothing else changes |
| `App.Controller.HandleFolderSelected` | App.tsx:236-237 | the folder list is replaced by the passed files |
| `App.Controller.SyncChatSession` | App.tsx:169-173 | opens a session from the result's transcript and the selected persona exactly when the chat tab is shown, a result and a persona exist and no session is open |
| `App.Controller.SelectTab` | App.tsx:637-644 | switches the tab, then the session effect runs |
| `App.Controller.PickPersona` | App.tsx:567-570 | selects the catalog persona and enters SelectPersona; an open session is kept |
| `App.Controller.HandlePersonaSelect` | App.tsx:244-269 | a no-op without a persona or transcript; otherwise enters Generating first. On success: the result is built from the transcript, the content and the persona id, history gains the saved item iff an audio file is present, the tab is script, the chat is cleared, there is no session and the stage is Result. On failure: Error with the message (default "Failed to generate persona content"), with result and history unchanged |
| `App.Controller.Reset` | App.tsx:271-280 | stage Upload with audio, transcript, persona, result, error, chat and session cleared; history and folder files unchanged |
| `App.Controller.LoadFromHistory` | App.tsx:110-125 | from any state: stage Result, script tab, empty chat, no session, no audio, the result and transcript from the item, and the catalog persona or none |
| `App.Controller.LoadRandomHistory` | App.tsx:127-131 | a no-op on an empty history; otherwise exactly a load of the picked item |
| `App.Controller.DeleteHistoryItem` | App.tsx:103-108 | the history becomes the list without that id |
| `App.Controller.HandleNavigate` | App.tsx:293-310 | at Upload nothing changes; elsewhere "top" resets and any other section only sets the stage to Upload |
| `App.Controller.HandleSendMessage` | App.tsx:175-211 | a no-op without a session; otherwise appends the user's exact text, then exactly one model message, and ends not loading |
| `App.MeetingScenario` | App.tsx:213-269 | after uploading meeting.mp3, transcribing it, picking the comedian and generating, the first history item is for meeting.mp3 and the comedian, and the stage is Result |

The controller's invariant `Valid()`, kept by every handler, states four things:

- the history holds at most 50 items;
- a selected persona's id is one of the six catalog ids;
- an open chat session implies a result and a selected persona;
- the last recorded stage is the current stage.

## Left out

- Storage: reading and writing history in `localStorage`, and the JSON encoding
  (`App.tsx:76-85`, `:100`, `:107`). The controller starts with an empty history.
  With history loaded from storage, the 50-item bound would not be guaranteed.
  The write in `saveToHistory` (`App.tsx:100`) is treated as unable to fail. In the app,
  a throwing `localStorage.setItem` is caught by `handlePersonaSelect`
  (`App.tsx:265-267`), which then ends in Error with `result` and `history` already
  set. `App.Controller.HandlePersonaSelect` does not cover that end state.
- `fileToBase64` (`App.tsx:42-54`) uses the browser's FileReader. Only its outcome is
  modelled, as the `read` parameter of `HandleFileSelect`.
- `exportHistory` (`App.tsx:133-143`) depends on Blob, object URLs and the date string.
- The Blob, object-URL and anchor-click mechanics of `downloadScript`. Only the text
  and the file name are modelled.
- Clipboard, the audio element and playback (`App.tsx:160-166`, `:282-291`). Scrolling
  (`window.scrollTo` in `loadFromHistory` at `App.tsx:124`, and in `handleNavigate`) and
  `setTimeout` in `handleNavigate` and `handleFolderSelected` are left out too.
- `services/geminiService.ts`: the prompts and the remote calls to the provider. Only
  their outcomes are modelled, as `Outcome` parameters.
- The interleaving of asynchronous handlers. Each handler runs atomically, with its
  awaited results given up front. So the stale-closure reads of `history` in
  `saveToHistory` are not modelled.
- The `setInterval` timer of the loading view. `DotsTicker.Tick` is one callback.
- JSX rendering, `components/PersonaCard.tsx` and `components/Header.tsx`.
  `Header.tsx` only forwards section ids to `HandleNavigate`.
- `App.Controller.HandleSendMessage`: the user message reads `Date.now()` twice, for its
  id (`App.tsx:180`) and its timestamp (`:183`); both are the one parameter `sentAt`. The
  model message's two reads, for its id and its timestamp, are the one parameter
  `repliedAt`, and its id is `repliedAt + 1`.
- `App.Controller.SyncChatSession`: opening the session is treated as unable to fail.
  `createPersonaChat` calls `getAI()`, which throws when the API key is missing
  (`services/geminiService.ts:5-6`, `:93`). Nothing in the effect at `App.tsx:169-173`
  catches that throw. It can happen with no earlier remote call, for example on the chat
  tab of a result loaded from history. The model then records an open session.
- `History.NewItem`: `Date.now()` is read twice, for the id and for the timestamp. Both
  are the one parameter `now`.
- `History.Snippet`: strings are sequences of Unicode characters, not UTF-16 code
  units. So the 100-character snippet counts characters, not code units.
