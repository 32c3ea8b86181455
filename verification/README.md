# Church teleprompter state store, in Dafny

A model of the state store at the core of a church teleprompter. One
operator edits tab content and prayer requests on a controller page. A
display page shows the result live. Both pages hold the same
`TeleprompterState` inside a React provider. The provider saves the state
to one `localStorage` slot, posts it on a `BroadcastChannel`, adopts states
posted by other browsing contexts, and polls the slot when there is no
channel.

The model follows the code as written:

- **Updaters** (`Store`). Each provider operation is a pure function from
  the old state to the new one. Lemmas cover clamping, the frame of each
  operation, idempotence, commutation, removal undoing an addition, and
  invariants kept by any sequence of operations.
- **Provider** (`Provider.TeleprompterProvider`). A class with `state`, an
  `outbox` of posted messages and a shared `Storage` slot. Serialisation is
  a `Codec` value of abstract functions, and a parse that throws is `None`.
  After every change the slot holds the serialised state and exactly one
  `STATE_UPDATE` is posted (`CommittedSince`). With a channel, the last
  posted message always carries the current state (`Valid`). An inbound
  `STATE_UPDATE` replaces the state wholesale. Because the adopted state is
  a new object, it is saved and posted again (`Receive`, `Deliver`). So two
  contexts with channels never stop: they keep sending each other the same
  state and rewriting the slot (`EchoRound`). The poll runs only
  without a channel, and changes the state only when the stored text
  differs from the current serialisation.
- **Loader** (`Persistence`). String ids, arrays and the font size fall
  back through `||`. The speed and the auto-scroll flag fall back through
  `??`, so a stored `0` is kept. A missing, empty or unparseable slot gives
  the default state.
- **Views and form validators**: grouping by type, the empty-list messages,
  content-or-placeholder selection, animation start and stop, swipe
  navigation, speed stepping, and trimming of form input.

The code has no origin tags, no echo suppression, no relay client, no
category add/remove/reassign, no reordering, no unknown-id no-ops and no
font-size validation. For example, `setActiveTab` stores any id, and
`updateTabContent` with an unknown id still commits.

Naming: the source field `label` is `name` here (`label` is a Dafny
keyword). A request's `type` is `prayerType`. The font size `'2xl'` is
`Xxl`.

## Model

| member | source | states |
|---|---|---|
| `Text.TrimStart` | src/components/teleprompter/PrayerRequestInput.tsx:14 | Result is a suffix of the input; the dropped prefix is all white space; the result does not start with white space |
| `Text.TrimEnd` | src/components/teleprompter/PrayerRequestInput.tsx:14 | Result is a prefix of the input; the dropped suffix is all white space; the result does not end with white space |
| `Text.Trim` | src/pages/Request.tsx:15 | `s.trim()` is `s` with a blank prefix and a blank suffix removed (`s == pre + r + post`), and has no white space at either end |
| `Text.TrimEmptyIffBlank` | src/components/teleprompter/PrayerRequestInput.tsx:14 | `s.trim()` is empty exactly when every character of `s` is white space |
| `Text.TrimIdempotent` | src/pages/Request.tsx:17 | Trimming twice equals trimming once |
| `Seqs.Filter` | src/contexts/TeleprompterContext.tsx:141 | `filter` keeps exactly the elements satisfying the predicate, with their multiplicities, as an in-order subsequence |
| `Seqs.FilterAppend` | src/components/teleprompter/PrayerDisplay.tsx:22 | Filtering distributes over concatenation |
| `Seqs.FilterKeepsAll` | src/contexts/TeleprompterContext.tsx:141 | When every element passes, filtering returns the sequence unchanged |
| `Seqs.FilterIdempotent` | src/contexts/TeleprompterContext.tsx:141 | Filtering twice by one predicate equals filtering once |
| `Seqs.FindIndex` | src/pages/Display.tsx:19 | `findIndex` returns the first index that satisfies the predicate, or -1 exactly when none does |
| `Seqs.FindIndexAgree` | src/components/teleprompter/TeleprompterDisplay.tsx:23 | Two sequences whose elements pass the predicate at the same positions have the same `findIndex` |
| `TeleprompterTypes.DefaultPrayerTypesShape` | src/types/teleprompter.ts:15-22 | Six default prayer types with pairwise distinct ids; `healing` first, `other` last |
| `TeleprompterTypes.DefaultTabsShape` | src/types/teleprompter.ts:67-143 | Four default tabs with the `TabId` union's ids in order; each has empty content and a non-empty placeholder |
| `Store.SetActiveTab` | src/contexts/TeleprompterContext.tsx:108-110 | Stores any id as `activeTab` without checking it; nothing else changes |
| `Store.SetDisplayTab` | src/contexts/TeleprompterContext.tsx:112-114 | Stores any id as `displayTab` without checking it; nothing else changes |
| `Store.ReplaceContent` | src/contexts/TeleprompterContext.tsx:119-121 | Keeps tab count, order, ids, labels, icons and placeholders; only tabs with the given id get the new content |
| `Store.UpdateTabContent` | src/contexts/TeleprompterContext.tsx:116-123 | Only `tabs` changes, as `ReplaceContent` says |
| `Store.UpdateUnknownTabKeepsTabs` | src/contexts/TeleprompterContext.tsx:119-121 | An id no tab has leaves the state equal |
| `Store.UpdateTabContentIdempotent` | src/contexts/TeleprompterContext.tsx:116-123 | Writing the same content twice equals writing it once |
| `Store.UpdateDistinctTabsCommute` | src/contexts/TeleprompterContext.tsx:116-123 | Edits of two different tab ids commute |
| `Store.AddPrayerRequest` | src/contexts/TeleprompterContext.tsx:125-136 | Appends exactly one request with the given type, content, id and time; earlier requests unchanged; no validation |
| `Store.RemovePrayerRequest` | src/contexts/TeleprompterContext.tsx:138-143 | Drops every request with the id; keeps the others with their multiplicities, in order; nothing else changes |
| `Store.RemoveAbsentIsNoop` | src/contexts/TeleprompterContext.tsx:141 | Removing an absent id leaves the state equal |
| `Store.RemoveIdempotent` | src/contexts/TeleprompterContext.tsx:138-143 | Removing an id twice equals removing it once |
| `Store.RemoveUndoesAdd` | src/contexts/TeleprompterContext.tsx:125-143 | Removing a request just added under a fresh id restores the state |
| `Store.Clamp` | src/contexts/TeleprompterContext.tsx:146 | `max(0, min(100, speed))` lies in [0,100] and is the input when the input is in range |
| `Store.SetScrollSpeed` | src/contexts/TeleprompterContext.tsx:145-147 | Stored speed is in [0,100] and equals the input when that is in range; nothing else changes |
| `Store.ToggleAutoScroll` | src/contexts/TeleprompterContext.tsx:149-151 | Negates `isAutoScrolling`; every other field stays equal |
| `Store.ToggleTwiceRestores` | src/contexts/TeleprompterContext.tsx:149-151 | Toggling twice restores the state |
| `Store.SetFontSize` | src/contexts/TeleprompterContext.tsx:153-155 | Overwrites `fontSize` only |
| `Store.Apply` | src/contexts/TeleprompterContext.tsx:108-155 | Each provider operation (`Store.Action`, one constructor per updater) writes only the field it is named for; the two request operations write only the request list |
| `Store.ApplyAll` | src/contexts/TeleprompterContext.tsx:108-155 | A sequence of operations without tab edits keeps the tabs; without request operations keeps the requests; without speed changes keeps the speed |
| `Store.OperationsKeepSpeedInRange` | src/contexts/TeleprompterContext.tsx:108-155 | From a speed in [0,100], any sequence of provider operations keeps it there |
| `Store.OperationsKeepTabIds` | src/contexts/TeleprompterContext.tsx:108-155 | No sequence of provider operations changes the number, order or ids of the tabs |
| `Persistence.DefaultState` | src/contexts/TeleprompterContext.tsx:44-52 | The default state shows the first default tab on both pages, has no requests and has a speed in range |
| `Persistence.OrString` | src/contexts/TeleprompterContext.tsx:31-32 | `value \|\| fallback` for strings: a missing or empty string gives the fallback |
| `Persistence.FromParsed` | src/contexts/TeleprompterContext.tsx:30-38 | Each field of a parsed snapshot, or its default (`'prayers'`, `DEFAULT_TABS`, `[]`, 30, false, `'lg'`) |
| `Persistence.LoadInitial` | src/contexts/TeleprompterContext.tsx:23-53 | A missing, empty or unparseable slot gives the default state; otherwise the parsed snapshot with defaults |
| `Persistence.ReloadRestoresState` | src/contexts/TeleprompterContext.tsx:23-53 | Storing a state with non-empty tab ids and loading it back gives the same state |
| `Persistence.ReloadReplacesEmptyTabId` | src/contexts/TeleprompterContext.tsx:31 | A stored empty `activeTab` comes back as `prayers`; the other fields are restored |
| `Persistence.LoadKeepsFalsyValuesOfNullishFields` | src/contexts/TeleprompterContext.tsx:33-36 | A stored speed 0, `isAutoScrolling` false and an empty tab array are kept |
| `Persistence.EmptySnapshotLoadsDefaults` | src/contexts/TeleprompterContext.tsx:30-38 | A parsed snapshot with no usable field loads as the default state |
| `Provider.HandleMessage` | src/contexts/TeleprompterContext.tsx:71-77 | A message is adopted exactly when there is a channel and its type is `STATE_UPDATE`; the adopted state is its state |
| `Provider.PollDecision` | src/contexts/TeleprompterContext.tsx:84-98 | The poll adopts the parsed slot exactly when there is no channel, the slot is non-empty and parses, and it differs from the current serialisation |
| `Provider.PollIdleWhenPersisted` | src/contexts/TeleprompterContext.tsx:94-97 | A slot holding the current state's serialisation makes the poll change nothing |
| `Provider.Storage.Write` | src/contexts/TeleprompterContext.tsx:65 | `localStorage.setItem` leaves the slot holding exactly the written text |
| `Provider.TeleprompterProvider.constructor` | src/contexts/TeleprompterContext.tsx:23-67 | Loads the initial state from the slot, then persists it and posts it once |
| `Provider.TeleprompterProvider.Commit` | src/contexts/TeleprompterContext.tsx:63-67 | After a change, the slot holds the serialised state and exactly one `STATE_UPDATE` with it is posted (none without a channel) |
| `Provider.TeleprompterProvider.SetActiveTab` | src/contexts/TeleprompterContext.tsx:108-110 | Commits `Store.SetActiveTab` of the old state; keeps `Valid` |
| `Provider.TeleprompterProvider.SetDisplayTab` | src/contexts/TeleprompterContext.tsx:112-114 | Commits `Store.SetDisplayTab` of the old state; keeps `Valid` |
| `Provider.TeleprompterProvider.UpdateTabContent` | src/contexts/TeleprompterContext.tsx:116-123 | Commits `Store.UpdateTabContent`, even for an unknown id; keeps `Valid` |
| `Provider.TeleprompterProvider.AddPrayerRequest` | src/contexts/TeleprompterContext.tsx:125-136 | Commits `Store.AddPrayerRequest` with the supplied id and time; keeps `Valid` |
| `Provider.TeleprompterProvider.RemovePrayerRequest` | src/contexts/TeleprompterContext.tsx:138-143 | Commits `Store.RemovePrayerRequest`; keeps `Valid` |
| `Provider.TeleprompterProvider.SetScrollSpeed` | src/contexts/TeleprompterContext.tsx:145-147 | Commits the clamped speed, which is in [0,100]; keeps `Valid` |
| `Provider.TeleprompterProvider.ToggleAutoScroll` | src/contexts/TeleprompterContext.tsx:149-151 | Commits `Store.ToggleAutoScroll`; keeps `Valid` |
| `Provider.TeleprompterProvider.SetFontSize` | src/contexts/TeleprompterContext.tsx:153-155 | Commits `Store.SetFontSize`; keeps `Valid` |
| `Provider.TeleprompterProvider.Receive` | src/contexts/TeleprompterContext.tsx:70-81 | An inbound `STATE_UPDATE` replaces the state wholesale, is persisted and posted again; other messages change nothing |
| `Provider.TeleprompterProvider.Tick` | src/contexts/TeleprompterContext.tsx:84-106 | One poll commits the state `PollDecision` picks, or changes nothing |
| `Provider.Deliver` | src/contexts/TeleprompterContext.tsx:66-77 | A delivered last message gives the receiver the sender's state, which the receiver saves and posts back |
| `Provider.EchoRound` | src/contexts/TeleprompterContext.tsx:63-77 | Two contexts with channels answer each other's answers: after one round each has saved and posted the same state again and can start another round |
| `Provider.PollConverges` | src/contexts/TeleprompterContext.tsx:84-106 | Without a channel, one poll gives a reader the state another context persisted to the shared slot |
| `Grouping.OfType` | src/components/teleprompter/PrayerDisplay.tsx:22 | Exactly the requests of one type, each as often as in the list, in list order |
| `Grouping.AllGroups` | src/components/teleprompter/PrayerDisplay.tsx:20-22 | One group per type-table entry, in table order, with that type's requests |
| `Grouping.Groups` | src/components/teleprompter/PrayerDisplay.tsx:20-23 | Groups follow table order (a subsequence of `AllGroups`) and are exactly its non-empty groups, each as often as in `AllGroups` |
| `Grouping.GroupsAreTheNonEmptyTypes` | src/components/teleprompter/PrayerRequestInput.tsx:21-24 | Every group is a table entry with exactly its requests and is non-empty; every entry with requests has its group |
| `Grouping.ShownIffTypeKnown` | src/components/teleprompter/PrayerDisplay.tsx:20-23 | A request appears in some group exactly when its type is in the table |
| `Grouping.NoGroupsIffNoKnownType` | src/components/teleprompter/PrayerDisplay.tsx:25 | There are no groups exactly when no request has a type from the table |
| `Grouping.AddedRequestEndsItsGroup` | src/components/teleprompter/PrayerDisplay.tsx:22 | A request appended to the list shows last in its type's group |
| `Grouping.AddedRequestLeavesOtherGroups` | src/components/teleprompter/PrayerDisplay.tsx:22 | Appending a request leaves the other types' groups unchanged |
| `PrayerDisplay.Rank` | src/types/teleprompter.ts:47 | Each of the five font sizes has its own position below 5, in the order `sm`, `md`, `lg`, `xl`, `2xl` |
| `PrayerDisplay.RankInjective` | src/types/teleprompter.ts:47 | Different font sizes take different positions |
| `PrayerDisplay.BodyClass` | src/components/teleprompter/PrayerDisplay.tsx:4-10 | `FONT_SIZE_CLASSES` gives each size its own step of the text-size scale `text-lg` … `text-6xl` |
| `PrayerDisplay.HeaderIconClass` | src/components/teleprompter/PrayerDisplay.tsx:42-47 | The header icon class is two steps up the scale from the size's body step |
| `PrayerDisplay.HeadingClass` | src/components/teleprompter/PrayerDisplay.tsx:50-56 | The heading class is one step up the scale from the size's body step |
| `PrayerDisplay.ItemIconClass` | src/components/teleprompter/PrayerDisplay.tsx:72-78 | The per-prayer icon class is the size's body step |
| `PrayerDisplay.BodyClassInjective` | src/components/teleprompter/PrayerDisplay.tsx:4-10 | The font-size class map is total and gives each size its own class |
| `PrayerDisplay.ItemIconMatchesBody` | src/components/teleprompter/PrayerDisplay.tsx:72-78 | The per-prayer icon class chain equals `FONT_SIZE_CLASSES` |
| `PrayerDisplay.HeaderSizesStepUp` | src/components/teleprompter/PrayerDisplay.tsx:42-56 | For every size, 2xl included, the heading is one step of the scale above the prayer text and the header icon one step above the heading |
| `PrayerDisplay.Render` | src/components/teleprompter/PrayerDisplay.tsx:20-31 | The placeholder appears exactly when no request has a known type; otherwise the non-empty groups; text sized by `FONT_SIZE_CLASSES` |
| `PrayerRequestInput.InitialTypeIsFirstDefault` | src/components/teleprompter/PrayerRequestInput.tsx:10 | The initially selected type `healing` is the first default prayer type |
| `PrayerRequestInput.SubmitDecision` | src/components/teleprompter/PrayerRequestInput.tsx:12-18 | White-space-only content adds nothing; otherwise one request with the trimmed, non-empty content and the selected type |
| `PrayerRequestInput.AddDisabled` | src/components/teleprompter/PrayerRequestInput.tsx:72 | The Add button is disabled exactly when the content is all white space |
| `PrayerRequestInput.AddEnabledIffSubmitAdds` | src/components/teleprompter/PrayerRequestInput.tsx:72 | The Add button is enabled exactly when submitting would add a request |
| `PrayerRequestInput.List` | src/components/teleprompter/PrayerRequestInput.tsx:88-91 | "No prayer requests yet" appears exactly when there are no non-empty groups |
| `PrayerRequestInput.PrayerForm.constructor` | src/components/teleprompter/PrayerRequestInput.tsx:9-10 | The form starts with empty content and `healing` selected |
| `PrayerRequestInput.PrayerForm.Edit` | src/components/teleprompter/PrayerRequestInput.tsx:60 | Typing replaces the content only |
| `PrayerRequestInput.PrayerForm.SelectType` | src/components/teleprompter/PrayerRequestInput.tsx:41 | A type button replaces the selection only |
| `PrayerRequestInput.PrayerForm.Submit` | src/components/teleprompter/PrayerRequestInput.tsx:12-18 | Non-blank content commits one trimmed request and clears the field; blank content changes nothing |
| `TeleprompterDisplay.FontClass` | src/components/teleprompter/TeleprompterDisplay.tsx:5-11 | The class of each size is `text-teleprompter-` followed by the size's name |
| `TeleprompterDisplay.FontClassInjective` | src/components/teleprompter/TeleprompterDisplay.tsx:5-11 | Distinct sizes get distinct classes |
| `TeleprompterDisplay.CurrentTab` | src/components/teleprompter/TeleprompterDisplay.tsx:23 | The first tab whose id is `activeTab`, or none exactly when no tab has it |
| `TeleprompterDisplay.DisplayContent` | src/components/teleprompter/TeleprompterDisplay.tsx:23-24 | The active tab's content if non-empty, else its placeholder, else `''` when no tab matches |
| `TeleprompterDisplay.ShownTextIgnoresDisplayTab` | src/components/teleprompter/TeleprompterDisplay.tsx:19-24 | The shown text is chosen by `activeTab`, never by `displayTab` |
| `TeleprompterDisplay.ShownTextAfterEdit` | src/components/teleprompter/TeleprompterDisplay.tsx:23-24 | After editing the active tab, the new text is shown, or the placeholder if the new text is empty |
| `TeleprompterDisplay.DefaultStateShowsPrayersPlaceholder` | src/components/teleprompter/TeleprompterDisplay.tsx:24 | The default state shows the prayers tab's placeholder |
| `TeleprompterDisplay.StartsAnimation` | src/components/teleprompter/TeleprompterDisplay.tsx:48 | The loop starts exactly when auto-scroll is on and the speed is positive, and then its first frame schedules the next |
| `TeleprompterDisplay.FrameContinues` | src/components/teleprompter/TeleprompterDisplay.tsx:28-31 | A frame stops the loop when the element is gone, auto-scroll is off or the speed is 0, and otherwise schedules the next frame |
| `TeleprompterDisplay.StartAndStopAgree` | src/components/teleprompter/TeleprompterDisplay.tsx:28-48 | For speed ≥ 0 the loop starts exactly when a frame would continue it; a negative speed never starts it |
| `TeleprompterDisplay.ShowsTabIndicator` | src/components/teleprompter/TeleprompterDisplay.tsx:74 | The indicator shows exactly when requested and a tab has the active id |
| `DisplayPage.TabIndex` | src/pages/Display.tsx:19 | Index of the first tab with the active id, or -1 exactly when none has it |
| `DisplayPage.SwipeTarget` | src/pages/Display.tsx:18-25 | Left goes to the next tab unless the current is last; right goes to the previous unless it is first; an unknown id (index -1) goes left to `tabs[0]` and not right; any target is a tab's id |
| `DisplayPage.HandleSwipe` | src/pages/Display.tsx:18-25 | A swipe sets `activeTab` to the `SwipeTarget` neighbour when there is one and otherwise keeps it; nothing else changes, and the new id is an existing tab's |
| `DisplayPage.LeftThenRightReturns` | src/pages/Display.tsx:20-23 | With distinct ids, left then right returns to the starting tab unless it was last |
| `DisplayPage.SwipeDirection` | src/pages/Display.tsx:50-56 | Left exactly when start − end > 50; right exactly when end − start > 50; no recorded start means no swipe |
| `DisplayPage.SwipeArea.TouchStart` | src/pages/Display.tsx:46-49 | Records the touch's start x |
| `DisplayPage.SwipeArea.TouchEnd` | src/pages/Display.tsx:50-57 | A swipe that selects a tab commits `setActiveTab`; otherwise the store is unchanged |
| `ScrollControls.DecreaseDisabled` | src/components/teleprompter/ScrollControls.tsx:34 | The decrease button is disabled exactly when a click could not lower the clamped speed |
| `ScrollControls.IncreaseDisabled` | src/components/teleprompter/ScrollControls.tsx:55 | The increase button is disabled exactly when a click could not raise the clamped speed |
| `ScrollControls.SliderOffers` | src/components/teleprompter/ScrollControls.tsx:70-73 | The slider offers exactly the values at its 21 positions 0, 5, …, 100 |
| `ScrollControls.ControlAction` | src/components/teleprompter/ScrollControls.tsx:17-75 | Play/pause calls only `toggleAutoScroll`; decrease and increase ask for speed ∓ 10 and make no call when disabled (speed ≤ 0, speed ≥ 100); the slider asks for its value |
| `ScrollControls.Press` | src/components/teleprompter/ScrollControls.tsx:33-75 | An enabled step moves the speed strictly its way and into [0,100]; a disabled one does nothing; an offered slider value (0..100, step 5) is stored exactly |
| `ScrollControls.PressesKeepSpeedInRange` | src/components/teleprompter/ScrollControls.tsx:33-54 | With the store's clamp, any sequence of clicks keeps the speed in [0,100] |
| `ScrollControls.RepeatedDecrease` | src/components/teleprompter/ScrollControls.tsx:33-34 | n decrease clicks from a speed in range give `max(0, speed − 10n)` |
| `ScrollControls.RepeatedIncrease` | src/components/teleprompter/ScrollControls.tsx:54-55 | n increase clicks from a speed in range give `min(100, speed + 10n)` |
| `RequestPage.InitialType` | src/pages/Request.tsx:10 | The first table id, or `''` for an empty table |
| `RequestPage.SubmitArgs` | src/pages/Request.tsx:15-17 | Rejected exactly when the name is blank or no type is selected; otherwise the type, the trimmed name, and the trimmed detail, with a blank detail becoming `undefined` |
| `RequestPage.EmptyTableRejectsEverything` | src/pages/Request.tsx:10-15 | With an empty table the initial selection rejects every submission |
| `RequestPage.RequestForm.constructor` | src/pages/Request.tsx:8-11 | Empty fields, no notice, the initial type selected |
| `RequestPage.RequestForm.SetName` | src/pages/Request.tsx:61 | Typing replaces the name only |
| `RequestPage.RequestForm.SetDetail` | src/pages/Request.tsx:77 | Typing replaces the detail only |
| `RequestPage.RequestForm.SelectType` | src/pages/Request.tsx:43 | Selecting an option sets its id |
| `RequestPage.RequestForm.Submit` | src/pages/Request.tsx:13-22 | An accepted submission commits a request with the type and trimmed name (the provider drops the detail), clears both fields and sets `submitted`; a rejected one changes nothing; an empty table never changes the store |
| `RequestPage.RequestForm.NoticeExpires` | src/pages/Request.tsx:21 | The timeout clears `submitted` only |

## Left out

- server/sync-server.mjs: the relay server is not part of this model. It is HTTP/WebSocket plumbing with no state. It forwards each message to every open client, including the sender.
- Browser APIs are abstract. `localStorage` is the `Storage` class. `BroadcastChannel` is the `outbox`, with `Deliver` as delivery. Each firing of the 500 ms `setInterval` is one `Tick`, and its timing is not modelled. `JSON.stringify`/`JSON.parse` are the `Codec` functions.
- Id and timestamp generation (`Date.now()`, `Math.random()`): the fresh id and the time are parameters. Id uniqueness is not claimed.
- Per-frame scroll arithmetic, `requestAnimationFrame`, resetting `scrollTop` on a tab change, and the fullscreen API: floating-point pixels and the DOM. Only the start and stop conditions are modelled.
- Index.tsx, Controller.tsx, TabSelector.tsx, DisplayTabSelector.tsx, ContentEditor.tsx and FontSizeControl.tsx: they only render state and forward clicks to the modelled operations.
- `addPrayerType`, `updatePrayerTypeInfo`, `removePrayerType`, `reorderPrayerRequest` and `updatePrayerType` are declared in the types file but the provider does not implement them, so they are not modelled.
- Origin tags, echo suppression, the relay-socket client and its reconnect backoff, category removal and reassignment, reordering, and unknown-id rejection: the code has none of them.
- `prayerTypes` is not part of the provider's state. Request.tsx and PrayerDisplay.tsx read it anyway, and PrayerRequestInput.tsx imports a `PRAYER_TYPES` that the types file does not export. The type table is an input everywhere, and these mismatches are not reconciled.
- Stored values of the wrong JSON type are not modelled: a string `fontSize` outside the five sizes, a non-string tab id, or the text `null` adopted by the poll. The fields of `Persistence.Parsed` and the poll's parse carry their declared types.
- Persistence.LoadInitial: the `typeof window` guard for non-browser rendering is not modelled.
- `scrollSpeed` is an integer. Fractional or `NaN` speeds from storage are not modelled.
- Touch input: coordinates are reals, only the first touch is used, and a missing start (`undefined`, which gives `NaN`) is `None`.
- React scheduling: each updater call is one commit (new state, one save, one post). This holds even when the new state is structurally equal to the old one, since every updater returns a new object. Batching of several updates into one render is not modelled.
- DEFAULT_TABS, DEFAULT_PRAYER_TYPES: their icons and the placeholder bullets are the characters the source file holds. These are emoji and U+2022 whose UTF-8 bytes were read as Mac Roman, for example U+201A U+00C4 U+00A2 for each bullet. The model keeps them as stored, which is the text the program shows. It does not model the intended emoji.
- The `console.error` calls in the catch blocks of the loader (line 40) and the poll (line 100) are logging only. The effect cleanups are not modelled: removing the message listener (line 80) and clearing the interval (line 105). The channel itself is never closed.
- Inbound channel messages are adopted without validation (lines 73-77). `Receive` takes any message whose type is `STATE_UPDATE` and its state as given. The model's `Message` carries a well-typed state, so malformed payloads are not represented.
- Provider.PollConverges: it assumes the two contexts serialise the state alike and that parsing undoes serialisation. The code relies on `JSON` for this.
