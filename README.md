# Tab recorder control channel — Dafny model

This project models the background script of a browser extension that records a tab on command (`background.js`). A local controller connects over a WebSocket and sends `start-recording` and `stop-recording` commands. The script picks the tab to record, keeps at most one recording in its `currentRecording` slot, and answers with `{type: "response", success, message}` records. It reconnects after every close. The popup is a second caller of the same start and stop routines.

Modules:

- `Wrappers` (`wrappers.dfy`): `Option` and `Result`.
- `Tabs` (`tabs.dfy`): gathers the tabs of all windows (a loop, `CollectTabs`) and filters out internal pages (`Recordable`, `ValidTabs`). It then takes the head of the stable sort by descending `lastAccessed` (`SortByRecency`, `SelectTarget`). The head of a stable sort is the first tab, in gathered order, whose `lastAccessed` is maximal; `SelectTargetIsFirstMostRecent` proves this characterisation.
- `Protocol` (`protocol.dfy`): the already-parsed incoming message, its decoding into a command, and the response record.
- `Link` (`link.dfy`): the socket handle with its ready state, `connectWebSocket`, `onclose`, and reconnect timers. These are pure transitions on a `Conn` value. The invariant `Inv` says that a live socket and a pending reconnect never coexist and that no socket is ever left behind.
- `Coordinator` (`coordinator.dfy`): `startRecording`, `stopRecording`, `handleStartRecording` and `onmessage` as functions of the slot. It also proves a trace property: over any run whose tab ids are non-zero, a capture is never requested while a recording is active.
- `Background` (`background.dfy`): class `BackgroundScript`, whose fields are the script's module-level state. Each event handler is a method proved against the functions above.

Notes on how the model reads the code:

- The guards `if (currentRecording)` are JavaScript truthiness tests. `Held` is "non-null and non-zero", so a recording on tab id 0 would not block a second start (`ZeroTabIdNotGuarded`, `ZeroTabIdStacks`). The at-most-one trace property is therefore stated for runs whose tab ids are non-zero.
- `connectWebSocket` checks only for OPEN. With the handle CONNECTING or CLOSING, it creates a second socket and leaves the first one behind (`ConnectWhileConnecting`). The model keeps this missing guard. What prevents duplicate sockets and duplicate timers is that the function has only two callers: start-up and the reconnect timer. `Link.Reachable` proves that every reachable state has at most one live socket and at most one pending timer, and that no timer is pending while a socket is live.
- Equal `lastAccessed` values are broken by position in the gathered list (window order, then tab order), because `Array.prototype.sort` is stable. The tab id plays no part.
- Browser calls are parameters. The result of `chrome.windows.getAll` is a `Result<seq<Window>, string>`. The outcome of the tab activation, the offscreen document and `tabCapture.getMediaStreamId` is one flag, `backendOk`. The active tabs returned by `chrome.tabs.query` are a sequence.

## Model

| member | source | states |
|---|---|---|
| `Tabs.CollectTabs` | background.js:71-75 | The push loop over all windows yields exactly `Flatten(windows)`, the windows' tabs concatenated in window order |
| `Tabs.FlattenMembership` | background.js:71-75 | A tab is gathered iff some window holds it |
| `Tabs.FlattenAppend` | background.js:72-75 | Gathering keeps each window's tabs together and windows in order |
| `Tabs.FlattenLength` | background.js:71-75 | The number of gathered tabs is the sum of the windows' tab counts |
| `Tabs.Recordable` | background.js:90-101 | A tab passes the filter iff its url is a non-empty string that starts with none of `chrome://`, `chrome-extension://`, `edge://`, `about:` |
| `Tabs.InternalPagesRefused` | background.js:95-98 | Any url beginning `chrome://`, `chrome-extension://`, `edge://` or `about:` is refused, whatever follows |
| `Tabs.WebPagesAccepted` | background.js:95-101 | Every `http://` and `https://` url is accepted |
| `Tabs.ValidTabs` | background.js:80-102 | The filtered list holds exactly the recordable tabs of the input and is no longer than it |
| `Tabs.ValidTabsSingle` | background.js:80-102 | A single tab is kept iff it is recordable |
| `Tabs.ValidTabsAppend` | background.js:80-102 | Filtering keeps order and duplicates: the filter of a concatenation is the concatenation of the filters |
| `Tabs.Insert` | background.js:113 | Insertion into a recency-sorted list keeps the multiset and the order; the inserted tab becomes the head exactly when the list is empty or its head was accessed no later than it |
| `Tabs.SortByRecency` | background.js:113 | The sort is a permutation of its input and is ordered by non-increasing `lastAccessed` |
| `Tabs.SelectTarget` | background.js:104-113 | No target iff no tab is recordable; otherwise the target is a recordable member of the gathered tabs |
| `Tabs.SelectTargetCharacterised` | background.js:113 | Whenever position i is the first most-recent recordable tab, the selection is exactly that tab |
| `Tabs.FirstMostRecentUnique` | background.js:113 | At most one position is the first most-recent recordable tab |
| `Tabs.SelectTargetIsFirstMostRecent` | background.js:113 | The target is the first recordable tab (in gathered order) with maximal `lastAccessed`; no recordable tab was accessed later |
| `Protocol.Decode` | background.js:28-42 | A command is decoded iff the message parsed and its type is `start-recording` or `stop-recording`; the decoded command's type is the message's |
| `Protocol.DecodeTypeOf` | recorder_control.py:47-50 | Every command the controller sends decodes back to itself |
| `Protocol.ResponseFrame` | background.js:133-137 | A response record always has type `response` |
| `Link.Connect` | background.js:10-19 | No-op when the handle is OPEN (background.js:13-16); otherwise a new CONNECTING socket, one more socket alive, timers untouched |
| `Link.Apply` | background.js:45-49 | A close event nulls the handle and schedules exactly one more reconnect; no event un-creates a socket |
| `Link.InitInv` | background.js:212-214 | The state after script load satisfies the connection invariant |
| `Link.StepInv` | background.js:10-54 | Every deliverable event preserves the invariant: no leftover socket, exactly one of a live socket or a pending reconnect |
| `Link.RunInv` | background.js:10-54 | The invariant holds after any sequence of deliverable events |
| `Link.Reachable` | background.js:10-54 | From start-up, there is always at most one live socket and at most one pending timer, and no reconnect is pending while a socket is live |
| `Link.ConnectWhileConnecting` | background.js:13-19 | There is no CONNECTING guard: a call then creates a second socket and leaves the first behind |
| `Coordinator.Held` | background.js:147 | The guard `if (currentRecording)`: a slot is held iff it is non-null and non-zero (also background.js:200) |
| `Coordinator.Start` | background.js:144-196 | Held slot: false and unchanged, no backend call; otherwise the result is `backendOk`, and the slot holds the tab on success and is null on failure |
| `Coordinator.Stop` | background.js:198-210 | Succeeds iff a recording is held; nothing is held afterwards; a failed stop changes nothing |
| `Coordinator.StopTwice` | background.js:198-210 | A second consecutive stop always returns false and changes nothing |
| `Coordinator.ZeroTabIdNotGuarded` | background.js:147-150 | A recording on tab id 0 reads as no recording, so the next start passes the guard |
| `Coordinator.HandleStart` | background.js:56-127 | startRecording is reached iff windows exist and a recordable tab exists; otherwise false and the slot is unchanged; while held, false and unchanged; success means idle, backend ok, and the slot holds the chosen tab; an idle start that reaches the backend replies `backendOk`, and on a backend failure leaves the slot null (background.js:191-194, 120) |
| `Coordinator.NoRecordableTabs` | background.js:106-110 | Windows exist but no tab is recordable: reply false with "No recordable tabs found. Please open a website.", slot unchanged, startRecording not reached |
| `Coordinator.StartedReply` | background.js:117-120 | An idle successful start replies true with "Recording started on " plus the target's url, and holds its id |
| `Coordinator.Receive` | background.js:25-43 | No reply iff the message is not a command; stop replies exactly once with stopRecording's result and its message; start replies with handleStartRecording's outcome |
| `Coordinator.TraceBracketed` | background.js:144-210 | For runs with non-zero tab ids, successful captures and releases alternate: no capture is requested while a recording is active, and no release happens without one |
| `Coordinator.ZeroTabIdStacks` | background.js:147-180 | With tab id 0, two successful captures can follow each other |
| `Coordinator.ExampleSelection` | background.js:80-113 | Among `chrome://x`@10, `http://a`@5 and `http://b`@9, the tab `http://b` is chosen |
| `Coordinator.ExampleStarts` | background.js:56-127 | On those tabs, an idle start records tab 3, and a start while tab 3 records fails with "Failed to start recording" |
| `Coordinator.ExampleSession` | background.js:25-43 | The controller sends start, start, stop, stop; the replies are success, failure, "Recording stopped", "No recording to stop" |
| `Background.BackgroundScript.constructor` | background.js:7-8 | Script load: null slot, nothing sent, one `connectWebSocket` call; the connection invariant holds |
| `Background.BackgroundScript.ConnectWebSocket` | background.js:10-19 | The handle changes as `Link.Connect`; the slot and sent records are untouched |
| `Background.BackgroundScript.SocketOpened` | background.js:21-23 | The current socket becomes OPEN; the invariant is kept |
| `Background.BackgroundScript.SocketClosing` | background.js:132 | Browser event with no code of its own in the script (the server starts closing): OPEN becomes CLOSING, whose effect is seen by the OPEN test at background.js:132 (replies dropped); the invariant is kept |
| `Background.BackgroundScript.OnClose` | background.js:45-49 | The handle is null and one more reconnect is pending; the invariant is kept |
| `Background.BackgroundScript.OnRetryTimer` | background.js:48 | A pending reconnect fires and calls `connectWebSocket`; the invariant is kept |
| `Background.BackgroundScript.SendResponse` | background.js:129-142 | Appends `{type: "response", success, message}` iff the handle is OPEN, and otherwise changes nothing |
| `Background.BackgroundScript.StartRecording` | background.js:144-196 | Result and new slot are those of `Coordinator.Start`; a held slot is left as it was |
| `Background.BackgroundScript.StopRecording` | background.js:198-210 | Result and new slot are those of `Coordinator.Stop`; returns true iff a recording was held; nothing held afterwards |
| `Background.BackgroundScript.HandleStartRecording` | background.js:56-127 | The new slot and the records sent are those of `Coordinator.HandleStart`, delivered only on an OPEN socket |
| `Background.BackgroundScript.OnMessage` | background.js:25-43 | Non-commands change nothing; commands change the slot and send records as `Coordinator.Receive` says |
| `Background.BackgroundScript.OnPopupMessage` | background.js:217-229 | start-button runs the same start on the first active tab; stop-button runs the same stop; no active tab or an unknown kind gives no reply and no change |
| `Background.SharedSlot` | background.js:217-229 | While a controller-started recording runs, a popup start is refused and a popup stop ends it; the slot stays empty after the controller's next stop |

## Left out

- Browser APIs (`chrome.windows.getAll`, `tabs.update`, `windows.update`, `runtime.getContexts`, `offscreen.createDocument`, `tabCapture.getMediaStreamId`, `runtime.sendMessage`, `tabs.query`) are foreign calls. They become parameters: the window list as a `Result`, the capture path as `backendOk`, and the active tabs as a sequence. The stop message to the offscreen recorder is the `Release` effect.
- The 500 ms settle delay and the 3 s reconnect delay are timing. A reconnect is a pending timer that fires at some later step.
- Interleaving across `await`s is not modelled: each handler runs to completion. In the code, a second start that arrives while the first awaits the browser passes the guard, because the slot is set only after the stream id arrives. Likewise, the socket may change state between a command and its reply.
- `debugLog` and `onerror` only log.
- offscreen.js (media recording and download), recorder_control.py, simple_server.py, test_client.py and recorder_monitor.py (controller-side servers and I/O) are not part of this model.
- JSON text is not parsed. A message arrives as parsed (`Msg` with its `type`) or as `Malformed`. `Malformed` also covers JSON that parses to `null`, whose `type` access throws inside the same `try`.
- `lastAccessed` is an integer. Fractional timestamps and a missing `lastAccessed`, for which the sort comparator yields NaN, are not modelled. Tab ids are integers; an undefined id is not modelled.
- A url that is not a string is `None`, like a missing one.
- `Coordinator.HandleStart` reports an `Error:` reply only for a failure of the window query. Other exceptions would come from browser objects outside the model.
