# LMenu request relay — a Dafny model

LMenu is a browser extension. The user selects text on a page and sends it, with a chosen system
prompt and target language, to a chat-completion API. The answer streams back into a floating
window on the page. This project models the extension's request/response relay:

- the background side: the service worker's message handler, request table, prompt resolution,
  the server-sent-event stream reader with its `[DONE]` sentinel, and cancellation;
- the page side: the content-script client that issues requests, filters stream events by request
  id, and cancels;
- the conversation buffer that collects streamed answers;
- the pieces around them: the context menu, the drag-to-move window, the selector, and both
  options pages.

Two generations of the extension are in the repository, and both are modelled:

- the bundled one under `src/` (`openaiApi.js`, `messageHandler.js`, `MessageHandler.js`,
  `Options.jsx`, …);
- the older unbundled one at the top level (`background.js`, `options.js`), whose page-side client
  survives as `src/common/api.js`.

Modules, one per source file plus shared helpers:

| module | source | form |
|---|---|---|
| `Wrappers`, `Text`, `Decimal`, `Lists` | helpers | `Option`/`Result`; JavaScript `trim`, `startsWith` and the `{language}` substitution; the canonical decimal numeral of an array index; `splice(i, 1)` and the drag-reorder |
| `Protocol` | message shapes shared by all files | datatypes |
| `EventStream` | framing inside `readStream` | functions and lemmas |
| `PromptResolver` | prompt lookup and message building in `sendToOpenAI` | functions |
| `Relay` | `src/background/openaiApi.js` | `Coordinator` and `StreamReader` classes, a loop method |
| `Dispatcher` | `src/background/messageHandler.js` | method over `Coordinator` |
| `LegacyRelay` | `background.js` | `Background` and `LegacyReader` classes |
| `ChatContext` | `src/common/chatUtils.js` | `ChatStore` class |
| `ContentClient` | `src/content/MessageHandler.js` | `ContentMessageHandler` class |
| `LegacyClient` | `src/common/api.js` | `ApiClient` class |
| `PageUtils` | `src/common/utils.js` | `SelectElement` and `WindowDrag` classes |
| `ContextMenu` | `src/background/background.js` | functions and the `ContextMenus` class |
| `OptionsPage` | `src/options/Options.jsx` | `SettingsPage` class |
| `LegacyOptions` | `options.js` | `OptionsForm` class |

## How the outside world appears

- **Browser calls become parameters of the methods that use them.** Storage reads, the HTTP
  response, the reader's chunks, `chrome.runtime.lastError` and reply objects are passed in.
  `Date.now() + Math.random()` is passed in as a fresh request id. The result of
  `JSON.parse(data).choices[0].delta.content` is an `extract` function that yields `None` where
  the parse or the property path throws.
- **Messages sent are recorded, not delivered.** Messages to a tab are appended to an `outbox`
  sequence. Messages to the background are appended to the client's own `outbox`. Alerts are
  appended to an `alerts` sequence.
- **The request table is a `map`.** `ongoingRequests` becomes a map from request id to an entry
  holding an `AbortController` object, whose `Abort` sets its `aborted` field.
- **Undefined becomes `None`.** JavaScript `undefined`/`null` are `None` of an `Option`.
  Truthiness of a string is `Truthy` (present and non-empty).

## What the model shows about the code

The model follows the code, including where it departs from the extension's intended design:

- **The bundled page client never learns its tab.**
  - `getCurrentTabId` goes through `sendMessage`, which rejects any reply without `success`.
  - The service worker answers `getTabId` with `{tabId}` alone, so the client always gets
    `null` (`ContentClient.TabIdNeverLearned`).
- **The bundled page client nests its fields.**
  - It sends `{action, payload}`, while the service worker reads `tabId` and the other fields at
    the top level.
  - Every `sendToOpenAI` therefore fails with "Invalid tab ID."
    (`ContentClient.NestedRequestRefused`).
- **Cancellation is not silent.** A `streamError` for a cancelled request is alerted like any
  other error (`ContentClient.ContentMessageHandler.OnMessage`).
- **Request entries can leak.** In `openaiApi.js` the request entry is inserted before the fetch.
  If the server answers with an error or the fetch fails, the entry is never removed
  (`Relay.SendToOpenAI`).
- **The older background removes entries only on cancellation.**
  - `background.js` removes an entry only when it is cancelled.
  - Completion and read errors leave the entry in place (`LegacyRelay.LegacyReader.ProcessDone`,
    `LegacyRelay.LegacyReader.HandleError`).
- **Only one `streamComplete` is sent per stream.** A `[DONE]` frame stops the reader before it
  asks for another chunk, so exactly one terminal message reaches the tab, and it comes last
  (`Relay.StreamReader.Valid`, `EventStream.RunToEnd`).
- **Chunk boundaries do not matter.** The page receives the same events however the byte stream is
  cut into chunks (`EventStream.RechunkingPreservesEvents`).

## Model

| member | source | states |
|---|---|---|
| Text.Trim | options.js:13 | the result is the input with exactly its leading and trailing white space removed: it is a slice of the input, what lies before and after it is all white space, and it neither starts nor ends with white space |
| Text.TrimEmptyIffBlank | options.js:13-14 | trimming yields "" exactly when the input is all white space, which is the "empty input" test of the options form |
| Text.TrimIdempotent | options.js:159-160 | trimming a trimmed string changes nothing |
| Text.FillWithoutPlaceholder | src/background/openaiApi.js:55-61 | a prompt without `{language}` is left unchanged by the language substitution |
| Text.FillPieceThenPlaceholder | src/background/openaiApi.js:57-60 | substitution replaces the first `{language}` after a placeholder-free prefix and carries on with the rest |
| Text.FillIsJoin | src/background/openaiApi.js:57-60 | substituting the language into placeholder-free pieces joined by `{language}` joins them with the language instead, so every occurrence is replaced |
| Decimal.ParseIndex | src/background/background.js:83-86 | a string indexes the prompt array exactly when it is a canonical decimal numeral |
| Decimal.NatToStringCanonical | src/background/background.js:42 | the numeral written into a menu item id is canonical, with a leading zero only for 0 |
| Decimal.ParseNatToString | src/background/background.js:42 | reading back the numeral of an index yields that index |
| Decimal.NatToStringOfParse | src/background/background.js:86 | every canonical numeral is the numeral of the index it denotes |
| Decimal.NatToStringInjective | src/background/background.js:42 | different indexes give different numerals |
| Lists.SpliceOut | src/options/Options.jsx:98-102 | removing entry i keeps the other entries in order and removes exactly one copy of a[i]; an index past the end changes nothing |
| Lists.SpliceIn | src/options/Options.jsx:9 | inserting adds exactly one element at the clamped position |
| Lists.SpliceOutOfSpliceIn | src/options/Options.jsx:8-9 | removing what was just inserted restores the list |
| Lists.Reorder | src/options/Options.jsx:6-11 | a drag reorder is a permutation that puts the dragged entry at the clamped destination |
| Lists.ReorderKeepsOthers | src/options/Options.jsx:6-11 | apart from the moved entry, the others keep their relative order |
| Lists.ReorderUndo | src/options/Options.jsx:6-11 | dragging back from the destination to the source undoes a reorder |
| Lists.ReorderSamePlace | src/options/Options.jsx:6-11 | dropping an entry where it was leaves the list unchanged |
| Protocol.OrUnknown | src/content/MessageHandler.js:29 | an error text is never empty: a truthy error is shown as is, otherwise "Unknown error." |
| EventStream.FindDelimSpec | src/background/openaiApi.js:117 | the delimiter search finds the first blank-line delimiter at or after the start, or none exists |
| EventStream.SplitFramesSpec | src/background/openaiApi.js:116-118 | splitting on blank lines and popping the last piece loses nothing: frames and fragment concatenate back to the input, and none contains a delimiter |
| EventStream.NoDelimSplit | src/background/openaiApi.js:117-118 | text without a delimiter yields no frame and is kept whole as the fragment |
| EventStream.SplitAppend | src/background/openaiApi.js:116-118 | splitting a longer text is splitting its prefix, then splitting the kept fragment plus the rest |
| EventStream.FrameEvents | src/background/openaiApi.js:121-141 | a frame yields one data event exactly when it starts with `data: ` and its content is truthy, and otherwise nothing |
| EventStream.DataEvents | src/background/openaiApi.js:120-144 | the frames before a `[DONE]` yield only data events |
| EventStream.FirstDone | src/background/openaiApi.js:123 | the index found holds a `[DONE]` frame, or is the end of the frames |
| EventStream.FirstDoneSpec | src/background/openaiApi.js:120-127 | no frame before that index is `[DONE]`: it is the first one |
| EventStream.ProcessPartsSpec | src/background/openaiApi.js:120-144 | the loop over the frames of a chunk stops exactly when it meets `[DONE]`; it emits the data events of the frames before it, then `Complete` |
| EventStream.ProcessPartsShape | src/background/openaiApi.js:120-144 | all emitted events are data except a final `Complete` when `[DONE]` was met |
| EventStream.ProcessPartsAppend | src/background/openaiApi.js:120-144 | scanning two runs of frames one after the other is scanning their concatenation, and nothing is scanned after `[DONE]` |
| EventStream.FeedIsOneShot | src/background/openaiApi.js:108-148 | reading chunk by chunk, with a kept fragment, emits the same events as splitting all chunks at once |
| EventStream.ChunkBoundaryIndependence | src/background/openaiApi.js:116-148 | a stream read from the empty buffer emits the events of the frames of the whole concatenated text |
| EventStream.RechunkingPreservesEvents | src/background/openaiApi.js:116-148 | two chunkings of the same text emit the same events |
| EventStream.RunToEnd | src/background/openaiApi.js:108-127 | a stream read to its end emits data events followed by exactly one `Complete`, last |
| EventStream.ReaderStep | src/background/openaiApi.js:116-146 | one more chunk extends the frames and events of all chunks so far by those of the kept fragment plus the chunk |
| PromptResolver.FindPrompt | src/background/openaiApi.js:46-48 | the prompt found has the requested name and is in the list; none is found exactly when no prompt has that name |
| PromptResolver.ResolveSystemContent | src/background/openaiApi.js:42-64 | no prompt type gives no system message; an unknown type is an error; a known one gives its content with the language substituted |
| PromptResolver.BuildMessages | src/background/openaiApi.js:39-72 | the messages are the optional system message, then the previous context in order, then the user's text last |
| PromptResolver.TranslateExample | src/background/openaiApi.js:57-60 | "Translate to {language}" with "French" becomes "Translate to French" (one instance of `Text.FillIsJoin`, which states it for all inputs) |
| Relay.AbortController.Abort | src/background/openaiApi.js:190 | aborting marks the controller aborted |
| Relay.Coordinator.constructor | src/background/messageHandler.js:6 | the service worker starts with no ongoing request and nothing sent |
| Relay.AdmissionError | src/background/openaiApi.js:19-32 | a missing, zero or non-numeric tab id is refused first with "Invalid tab ID."; otherwise the request is refused exactly when the API key is not truthy |
| Relay.ComposeMessages | src/background/openaiApi.js:39-72 | message composition fails exactly when the prompt type is unknown, and the user's text is the last message |
| Relay.SendOutcome | src/background/openaiApi.js:19-95 | a send succeeds exactly when it is admitted, its messages compose and the server answers ok; an admission error is reported as is |
| Relay.ErrorText | src/background/openaiApi.js:163-178 | a read error is reported as "Request was canceled." exactly when it is an AbortError, and otherwise as "Error reading data." |
| Relay.ScanFrames | src/background/openaiApi.js:120-144 | the loop over the frames of a chunk sends the messages of the specification `ProcessParts` and stops at `[DONE]` |
| Relay.ChunkStep | src/background/openaiApi.js:115-148 | a chunk keeps the reader's invariant: it goes on streaming only data messages, or stops after exactly one terminal message |
| Relay.StreamReader.constructor | src/background/openaiApi.js:104-106 | a new reader has an empty buffer, is reading and has sent nothing |
| Relay.StreamReader.ProcessDone | src/background/openaiApi.js:109-113 | the end of the stream sends `streamComplete` to the tab, removes the request entry and stops the reader |
| Relay.StreamReader.ProcessChunk | src/background/openaiApi.js:115-148 | a chunk sends the messages of its complete frames, keeps the new fragment, removes the entry and stops at `[DONE]`, and keeps the invariant that what was sent equals one-shot processing of all chunks so far |
| Relay.StreamReader.HandleError | src/background/openaiApi.js:163-180 | a read error sends one `streamError` with the error text, removes the entry and stops the reader |
| Relay.SendToOpenAI | src/background/openaiApi.js:9-95 | the outcome is `SendOutcome`; an admitted request gets a fresh, not yet aborted controller in the table (left there when the send later fails); a reader exists exactly when the send succeeded |
| Relay.CancelCurrentRequest | src/background/openaiApi.js:187-196 | cancelling an ongoing request aborts its controller and removes its entry; an unknown id changes nothing |
| Dispatcher.DispatchReply | src/background/messageHandler.js:8-29 | `getTabId` answers the tab id without a `success` field; `sendToOpenAI` answers success exactly when the send succeeds, and any failure, a thrown `sender.tab.id` included, becomes "Internal error occurred."; other actions get no reply |
| Dispatcher.HandleMessages | src/background/messageHandler.js:8-29 | the reply is `DispatchReply`; an admitted send adds the request's entry; a cancel removes it and aborts its controller; anything else leaves the table unchanged |
| ChatContext.Appended | src/common/chatUtils.js:34-55 | streamed text accumulates in the buffer; completion appends the buffer as one assistant message and empties the buffer |
| ChatContext.StreamedAnswer | src/common/chatUtils.js:34-55 | streaming pieces and then a completing piece adds exactly one assistant message holding all of them in order |
| ChatContext.ChatStore.constructor | src/common/chatUtils.js:17-19 | the conversation starts empty with an empty buffer |
| ChatContext.ChatStore.AppendResultText | src/common/chatUtils.js:34-55 | the store's state moves as `Appended` says |
| ChatContext.ChatStore.AddUserMessage | src/common/chatUtils.js:61-70 | the user's message is appended to the context and the buffer is kept |
| ChatContext.ChatStore.AddAssistantMessage | src/common/chatUtils.js:76-78 | the assistant's message is appended to the context |
| ChatContext.ChatStore.ResetContext | src/common/chatUtils.js:83-88 | the context and the buffer are emptied |
| ChatContext.ChatStore.GetContext | src/common/chatUtils.js:94-96 | the context returned is the stored one, and no message in it has the system role |
| ContentClient.AsReceived | src/content/MessageHandler.js:43 | the background sees the action, but none of the fields, of a nested `{action, payload}` message |
| ContentClient.Settle | src/content/MessageHandler.js:41-53 | a reply resolves, with its `data`, exactly when it has `success` true; a channel error rejects with its message; any other reply rejects with its error or "Unknown error." |
| ContentClient.AlertText | src/content/MessageHandler.js:74 | the alert shows the error message, or "Unknown error." when it is empty |
| ContentClient.TabFieldOf | src/content/MessageHandler.js:65 | the payload carries a numeric tab id exactly when one was learned |
| ContentClient.TabIdNeverLearned | src/content/MessageHandler.js:118-126 | the reply to `getTabId` always rejects, so the client never learns its tab |
| ContentClient.NestedRequestRefused | src/content/MessageHandler.js:61-70 | every request sent this way is refused with "Invalid tab ID." and the client sees "Internal error occurred." |
| ContentClient.ContentMessageHandler.constructor | src/content/MessageHandler.js:6-11 | no request, no tab, an empty buffer |
| ContentClient.ContentMessageHandler.ClearContext | src/content/MessageHandler.js:129-137 | the buffer is emptied and the current request forgotten |
| ContentClient.ContentMessageHandler.GetCurrentTabId | src/content/MessageHandler.js:118-126 | asks for the tab and returns the settled data, or nothing when the reply rejects |
| ContentClient.ContentMessageHandler.SendRequest | src/content/MessageHandler.js:56-76 | clears, takes a fresh id, asks for the tab, sends the nested request with that id and tab, and alerts a rejected reply |
| ContentClient.ContentMessageHandler.SendRequestWithContext | src/content/MessageHandler.js:79-100 | asks for the tab and stops, because the chat module's `getContext` is not imported here and throws: nothing is sent and nothing alerted |
| ContentClient.ContentMessageHandler.CancelCurrentRequest | src/content/MessageHandler.js:103-115 | with a current id, sends `cancelRequest` for it and clears only when the reply resolves; with none, does nothing |
| ContentClient.ContentMessageHandler.OnMessage | src/content/MessageHandler.js:14-37 | messages for another request are ignored; data is appended to the conversation buffer; every error, cancellation included, is alerted; completion changes nothing |
| LegacyRelay.Background.constructor | background.js:4 | the older service worker starts with no ongoing request |
| LegacyRelay.Prepare | background.js:13-39 | prompts that failed to load, an unknown prompt and a missing key are refused in that order; otherwise the messages are the substituted system prompt and the user's text |
| LegacyRelay.LegacyFillsEveryPlaceholder | background.js:30 | the older worker replaces every `{language}` too, with "undefined" when no language is given |
| LegacyRelay.ImmediateReply | background.js:7-39 | the reply `background.js` passes to `sendResponse` for `getTabId` and for a failed preparation: `getTabId` gets the sender's tab exactly when the sender has one; a send gets a reply exactly when its preparation fails, with that step's error; no other action gets one |
| LegacyRelay.OnMessage | background.js:7-159 | the reply is `ImmediateReply`; a prepared send records a fresh controller and a pending fetch; a cancel aborts and removes the entry; nothing else changes the table |
| LegacyRelay.FetchReply | background.js:65-140 | an ok response answers success; a server error answers its status; a failed fetch answers a connection error unless it was aborted, when no reply is sent |
| LegacyRelay.SettleFetch | background.js:49-140 | the reply is `FetchReply`; an aborted fetch sends `streamError` to the tab; a reader starts exactly on an ok response; the table is unchanged |
| LegacyRelay.LegacyReader.constructor | background.js:73-75 | a new reader has an empty buffer, is reading and has sent nothing |
| LegacyRelay.LegacyReader.ProcessDone | background.js:79-82 | the end of the stream sends `streamComplete` and stops, but leaves the entry in the table |
| LegacyRelay.LegacyReader.ProcessChunk | background.js:84-114 | a chunk sends the messages of its complete frames, keeps the fragment, stops at `[DONE]`, and keeps the one-shot invariant |
| LegacyRelay.LegacyReader.HandleError | background.js:115-123 | a read error sends one `streamError`, the cancellation text when the controller was aborted, and stops |
| LegacyClient.TabIdOf | src/common/api.js:58-69 | the tab id is learned exactly when the reply carries one |
| LegacyClient.SendAlert | src/common/api.js:25-35 | a reply without `success` true is alerted with its error, or "Unknown error."; a missing reply alerts nothing |
| LegacyClient.TabIdLearned | src/common/api.js:58-69 | against the older worker, the client learns the sender's tab |
| LegacyClient.ApiClient.constructor | src/common/api.js:6-8 | no request, no tab, an empty buffer |
| LegacyClient.ApiClient.ClearContext | src/common/api.js:71-79 | the buffer is emptied and the current request forgotten |
| LegacyClient.ApiClient.GetCurrentTabId | src/common/api.js:58-69 | asks for the tab and returns `TabIdOf` the reply |
| LegacyClient.ApiClient.SendRequest | src/common/api.js:10-37 | clears, takes a fresh id, asks for the tab, sends the flat request and alerts a failed reply |
| LegacyClient.ApiClient.CancelCurrentRequest | src/common/api.js:39-47 | with a current id, sends `cancelRequest` for it and clears at once; with none, does nothing |
| LegacyClient.ApiClient.OnMessage | src/common/api.js:49-56 | only data of the current request is passed on to `appendResultText` |
| PageUtils.ChooseValue | src/common/utils.js:68 | the selector shows the stored value when it is one of the options, otherwise the first option, and nothing when there are none |
| PageUtils.SelectElement.PopulateSelector | src/common/utils.js:60-69 | the options are replaced by the given values and the value chosen is `ChooseValue` |
| PageUtils.WindowDrag.constructor | src/common/utils.js:28-31 | the window starts at its position and not dragging |
| PageUtils.WindowDrag.MouseDown | src/common/utils.js:33-41 | starts dragging from the pointer and the window's computed position without moving it |
| PageUtils.WindowDrag.MouseMove | src/common/utils.js:43-50 | while dragging, the window sits at its start position plus the pointer's displacement; otherwise it stays put |
| PageUtils.WindowDrag.MouseUp | src/common/utils.js:52-57 | ends the drag and leaves the window where it is |
| ContextMenu.LastItemTitle | src/background/background.js:21-26 | the first item names the last selected prompt, or "Last used prompt" when there is none |
| ContextMenu.OrDefault | src/background/background.js:73 | a stored value is used when truthy, otherwise the fallback |
| ContextMenu.MenuItems | src/background/background.js:20-48 | the menu is the last-prompt item, the prompts parent, then one child per prompt in order, titled by its name |
| ContextMenu.SubItemIdsDistinct | src/background/background.js:42 | child ids differ from each other and from the two fixed ids |
| ContextMenu.MenuIdsDistinct | src/background/background.js:20-48 | all ids of the menu built are distinct |
| ContextMenu.LastSegment | src/background/background.js:83 | the last dash-separated segment is a dash-free suffix preceded by a dash or the start |
| ContextMenu.LastSegmentAfterDash | src/background/background.js:83 | the last segment after a dash is the text after it |
| ContextMenu.SubItemIndexRoundTrip | src/background/background.js:42-86 | the index read back from a child's id is the index it was built with |
| ContextMenu.ChosenPrompt | src/background/background.js:86 | an index string selects that prompt's name when it is a canonical in-range index, otherwise "" |
| ContextMenu.SelectedText | src/background/background.js:55-68 | the selection is used when truthy, otherwise the page script's result, or "" when the script fails |
| ContextMenu.OnClicked | src/background/background.js:54-94 | exactly clicks on the last-prompt item or on a child open the window in the clicked tab, with the selected text and the last or clicked prompt |
| ContextMenu.ClickChoosesBuiltPrompt | src/background/background.js:40-92 | clicking the child built for prompt i opens the window with prompt i's name |
| ContextMenu.BuildItems | src/background/background.js:38-47 | the loop builds exactly `MenuItems` |
| ContextMenu.ContextMenus.CreateOrUpdateContextMenu | src/background/background.js:16-51 | the menu created is `MenuItems` of the stored last prompt and prompts |
| OptionsPage.ApiKey.constructor | src/options/Options.jsx:84-88 | a key entry holds the given name, key and model |
| OptionsPage.PromptEntry.constructor | src/options/Options.jsx:111-115 | a prompt entry holds the given name, content and key name |
| OptionsPage.SettingsPage.constructor | src/options/Options.jsx:14-17 | the page starts with empty lists and the floating button off |
| OptionsPage.SettingsPage.Load | src/options/Options.jsx:19-44 | stored keys are loaded; stored prompts and languages when both exist, else the defaults file when it loads, else nothing; the button flag defaults to off |
| OptionsPage.SettingsPage.HandleDragStart | src/options/Options.jsx:46-48 | marks the page as dragging and changes no list |
| OptionsPage.SettingsPage.HandleDragEnd | src/options/Options.jsx:50-70 | a drop without destination changes nothing; otherwise only the dragged list is reordered |
| OptionsPage.SettingsPage.HandleShowFloatingButtonChange | src/options/Options.jsx:72-76 | the flag takes the checkbox value |
| OptionsPage.SettingsPage.AddApiKey | src/options/Options.jsx:83-90 | appends one fresh key named after the time, with an empty key and the default model |
| OptionsPage.SettingsPage.UpdateApiKey | src/options/Options.jsx:92-96 | only the chosen field of the chosen key changes |
| OptionsPage.SettingsPage.DeleteApiKey | src/options/Options.jsx:98-102 | removes the key at the index, as `SpliceOut` |
| OptionsPage.SettingsPage.AddPrompt | src/options/Options.jsx:109-117 | appends one fresh prompt bound to the first key's name, or "" without keys |
| OptionsPage.SettingsPage.UpdatePrompt | src/options/Options.jsx:119-123 | only the chosen field of the chosen prompt changes |
| OptionsPage.SettingsPage.DeletePrompt | src/options/Options.jsx:125-129 | removes the prompt at the index |
| OptionsPage.SettingsPage.AddLanguage | src/options/Options.jsx:136-138 | appends "New Language" |
| OptionsPage.SettingsPage.UpdateLanguage | src/options/Options.jsx:140-144 | replaces the language at the index |
| OptionsPage.SettingsPage.DeleteLanguage | src/options/Options.jsx:146-150 | removes the language at the index |
| LegacyOptions.AssignAt | options.js:169 | assigning past the end extends the array with holes up to the index; every other slot keeps its value |
| LegacyOptions.SavedPrompts | options.js:164-173 | a new prompt is appended, an edited one is written at its index, and no other prompt changes |
| LegacyOptions.FormPrompt | options.js:159-162 | the form yields a prompt exactly when neither name nor content is blank, and then holds both trimmed |
| LegacyOptions.SpliceOutNoDuplicates | options.js:230-238 | deleting a language keeps the list free of duplicates |
| LegacyOptions.AppendNewNoDuplicates | options.js:215-216 | appending a language not yet listed keeps the list free of duplicates |
| LegacyOptions.OptionsForm.constructor | options.js:3 | the page starts with the stored key, empty lists and hidden forms |
| LegacyOptions.OptionsForm.ShowStoredKey | options.js:5-9 | a truthy stored key is shown in the key field |
| LegacyOptions.OptionsForm.SaveApiKey | options.js:12-21 | a non-blank key is stored trimmed and confirmed; a blank one is refused with an alert and nothing is stored |
| LegacyOptions.OptionsForm.StoreApiKey | options.js:14-20 | a non-empty key is stored and confirmed; an empty one is refused with an alert and the stored key is kept |
| LegacyOptions.OptionsForm.InitializePromptsAndLanguages | options.js:52-75 | stored prompts and languages are used when both exist, else the defaults file when it loads |
| LegacyOptions.OptionsForm.ShowNewPromptForm | options.js:144-149 | opens an empty form for a new prompt |
| LegacyOptions.OptionsForm.EditPrompt | options.js:185-187 | opens the form filled with the prompt at the index, remembering the index |
| LegacyOptions.OptionsForm.HidePromptForm | options.js:152-156 | hides the form and forgets the index |
| LegacyOptions.OptionsForm.SavePrompt | options.js:158-183 | a form with a blank field is refused with an alert and changes nothing; otherwise the trimmed prompt is saved as `SavedPrompts` says and the form closes |
| LegacyOptions.OptionsForm.StorePrompt | options.js:162-181 | stores a validated prompt, or alerts when there is none |
| LegacyOptions.OptionsForm.DeletePrompt | options.js:189-197 | removes the prompt at the index |
| LegacyOptions.OptionsForm.ShowLanguageForm | options.js:199-203 | opens an empty language form |
| LegacyOptions.OptionsForm.HideLanguageForm | options.js:205-208 | hides the language form |
| LegacyOptions.OptionsForm.SaveLanguage | options.js:210-228 | a blank name and an existing name are refused with their alerts; otherwise the trimmed name is appended; a duplicate-free list stays duplicate-free |
| LegacyOptions.OptionsForm.StoreLanguage | options.js:212-227 | an empty name and one already listed are refused with their alerts; otherwise the name is appended and the form hidden, so a duplicate-free list stays duplicate-free |
| LegacyOptions.OptionsForm.DeleteLanguage | options.js:230-238 | removes the language at the index and keeps the list duplicate-free |

## Left out

- Network, storage and browser APIs (`fetch`, `chrome.storage`, `chrome.tabs`,
  `chrome.contextMenus`, `chrome.scripting`, `TextDecoder`, `JSON.parse`) are parameters of the
  methods that use them. In `LegacyOptions` the fields `storedKey`, `prompts` and `languages` model
  the values held in `chrome.storage.sync`. Every handler there reads storage, changes the value
  and writes it back (`options.js:15`, `:65`, `:175`, `:193`, `:217`, `:234`). Elsewhere the
  model holds what the page or worker keeps, and the storage writes are not modelled separately:
  the lists of `src/options/Options.jsx` and the last selected prompt and language that
  `src/common/ui.js:112` and `:120` store.
- Asynchronous interleaving is not modelled. Each handler runs to completion as one method call.
  A promise continuation is a separate method: `SettleFetch`, `ProcessChunk`, `ProcessDone`,
  `HandleError`.
- The DOM and rendering are not modelled. This covers the floating window and markdown rendering in
  `content.js` and `src/common/ui.js`, the list rendering of both options pages, and
  `innerHTML`. Only the state those functions read or write is modelled.
- `String.prototype.replace` special patterns (`$&`, `$1`, …) in a language name are not
  modelled. The language is inserted literally.
- `LegacyRelay.OnMessage`: the listener in `background.js` returns `undefined` on every path. The
  `return true` at `background.js:143` is the result of a `.then` callback, not of the listener.
  So every reply to `sendToOpenAI` reaches a closed channel: the failed preparations at
  `background.js:24`, `:37` and `:147` as much as the replies after the post settles. Only
  `getTabId` (`background.js:10`) is answered. The model records the reply the code sends and
  does not model the closed channel. On the page side, the callback in `src/common/api.js`
  therefore sees `undefined` and never alerts a missing key or an unknown prompt. It then reads
  `response.error`, which throws; that is not modelled. `SendAlert(None)` is the value this case
  takes: no alert.
- `src/background/background.js` imports a default export that `messageHandler.js` does not
  provide, and it never registers `handleMessages` as a listener. `Dispatcher` is modelled as the
  handler the service worker would run once registered.
- Two calls target functions that their modules do not export, and are modelled as calls that
  throw and change nothing:
  - `setNeedNewMessage` in `src/content/MessageHandler.js`;
  - `appendResultText` as `src/common/api.js` imports it. `LegacyClient.ApiClient.OnMessage`
    records the attempted call in `appendCalls`.
- A failed load of `prompts.json` in `openaiApi.js` rejects the whole send. The model treats
  prompts as loaded; the failed load is modelled only for `background.js`, as `Prepare`'s
  `promptsFile == None`.
- The request id's `Date.now() + Math.random()` and the key name's `Date.now()` are parameters.
  Ids are compared for equality only.
- `OptionsPage.SettingsPage.HandleDragEnd` requires the source index to lie inside the dragged
  list. The drag library guarantees this, and the model does not model a drag from outside the
  list.
- `OptionsPage.SettingsPage.UpdateLanguage`, `UpdateApiKey` and `UpdatePrompt` require an index
  inside the list. They are bound to rendered rows; writing past the end of a JavaScript array is
  not modelled for them.
- `LegacyOptions.OptionsForm.EditPrompt` requires a prompt at the index. Editing a hole throws in
  the source and is not modelled.
- Array indexes of 2^32 - 1 and above are not modelled, nor `NaN`. An index string that is not a
  canonical numeral finds no prompt.
- Integers are unbounded. Screen coordinates in the drag handlers are integers, and the
  floating-point pixel values of the source are not modelled.
- Build and configuration files (`build.js`, `webpack.config.js`, `.eslintrc.js`,
  `src/options/index.js`, `src/content/content.js`) hold no behaviour of the relay.
