# ClawTabs core, modelled in Dafny

ClawTabs is a browser front end for several OpenClaw-style agent gateways.
This project models its core in Dafny and proves properties of the model.

The core has two parts:

- **The gateway protocol client** (`GatewayClient.Gateway`, src/gateway.ts).
  It is a WebSocket state machine. A challenge event starts the handshake, and a
  successful handshake response makes the client 'connected'. Every request is
  sent under a fresh decimal id, and its promise settles when the response with
  that id arrives. A close the client did not ask for schedules a reconnect; a
  deliberate `disconnect()` rejects everything pending and schedules nothing.
- **The multi-gateway registry** (`GatewayRegistry.GatewayManager`,
  src/store/GatewayManager.ts). It keeps one configuration per gateway id and at
  most one live client per id. It mirrors each client's status into the
  configuration and re-emits status changes and chat events to its listeners.
  It routes chat, history, abort, delete and rename requests to the right
  client, and it fans `listSessions` out over every connected client.
  `testConnection` is modelled in `ConnectionProbe.ConnectionTest`.

Around them are the pure helpers of the React views:

- session tabs and keyboard cycling (`AppShell`);
- fuzzy command scoring and palette navigation (`Palette`);
- `@mention` routing in a channel (`ChannelView`);
- the channel form (`ChannelForm`) and the task form (`TaskForm`);
- Kanban and mission-control columns (`Board`, `Kanban`, `Mission`);
- dashboard counters (`Ops`, `Agents`);
- the activity feed (`Feed`);
- task cards (`Card`);
- the two-click delete of the session and channel lists (`Confirm`, `SessionList`, `ChannelList`);
- relative time labels (`Elapsed`).

The model takes the shape of the code it models:

- **`Gateway` and `GatewayManager` are classes.** Their fields are the
  source's fields. A JavaScript `Map` or `Set` becomes a Dafny `map` plus a
  `seq` of keys in insertion order, because iteration order decides
  `getFirstConnected`, `getConnected`, `emit` and the fan-outs.
- **The source's loops are `while` loops with invariants**, each proved
  against a specification function:
  - `rejectAll`, `emit`, the `initialize` load loop;
  - `getConnected` and `getFirstConnected`;
  - `connectAll` and `disconnectAll`;
  - the `listSessions` fan-out;
  - the greedy scan of `fuzzyMatch`;
  - the grouping loops of the boards and the tallies of the sidebars.
- **Outward effects are written to logs that the contracts state.**
  - A request frame written to the socket is appended to `sent`.
  - Each promise settlement goes to `outcomes` as `Resolved(id, payload)` or
    `Rejected(id, reason)`.
  - Each handler call a client makes is appended to `notices`. The registry
    relays these into its configurations and into `delivered`, a log of
    (listener, event) pairs.
- **Inputs from outside the program are parameters**:
  - socket events and server frames;
  - whether the browser accepts a URL;
  - `Date.now()` (as `now`);
  - the random part of an idempotency key;
  - the configurations IndexedDB returns;
  - each server's answer to `sessions.list`;
  - fresh ids.
- **Timers become explicit events.**
  - The reconnect timer is `FireReconnect`.
  - The test timeout is `ConnectionTest.Fire`.
  - The delete-confirmation timeouts are `DeleteConfirm.Fire`. They all wait
    3 s, so they fire oldest first.
- **Text is `seq<char>`.**
  - Lengths and positions count characters, not the UTF-16 code units
    JavaScript counts; "## Left out" names the members where this differs.
  - Case mapping is ASCII.
  - White space is exactly JavaScript's `trim` set.
  - Each regular expression is a hand-written predicate. For example, `\w` is
    `[A-Za-z0-9_]`, and an ops pattern is a case-insensitive literal substring.

Every `.dfy` file is given to Dafny together. There are no `include`s and no
library imports.

## Model

| member | source | states |
|---|---|---|
| GatewayClient.Gateway.constructor | src/gateway.ts:16-29 | a new client has no socket, no pending request, reqId 0, status 'disconnected', no reconnect scheduled and empty logs |
| GatewayClient.Gateway.SetStatus | src/gateway.ts:37-40 | the status is set and exactly one `onConnectionChange(s)` call is made |
| GatewayClient.Gateway.Connect | src/gateway.ts:42-48 | with a socket present nothing changes; otherwise the close flag is cleared, the status becomes 'connecting' with one report, a socket exists iff the browser accepts the URL, and connect throws iff it does not; no frame is sent |
| GatewayClient.Gateway.OnOpen | src/gateway.ts:50-52 | the socket's ready state becomes OPEN; nothing else changes and no frame is sent (the handshake waits for the challenge) |
| GatewayClient.Gateway.OnFrame | src/gateway.ts:54-79 | a malformed frame (bad JSON or an unknown type) leaves the whole client unchanged; a response or an event is handled as below |
| GatewayClient.Gateway.OnResponse | src/gateway.ts:58-73 | an unknown id changes nothing; otherwise exactly that pending entry is removed (others untouched, order kept), and it is resolved with the payload if `ok` or rejected with the error; a successful handshake response makes the status 'connected' with one report, and a failed one closes the socket |
| GatewayClient.Gateway.TakePending | src/gateway.ts:59-61 | returns the waiter for the id and removes that id alone from the pending map and its order |
| GatewayClient.Gateway.OnEvent | src/gateway.ts:65-77 | `connect.challenge` issues the handshake request and nothing else; a `chat`/`agent` event makes one `onChatEvent(payload, name)` call with the payload and name unchanged; any other event changes nothing |
| GatewayClient.Gateway.Handshake | src/gateway.ts:126-140 | over an open socket the `connect` request goes out under a fresh id and waits as the handshake; otherwise it is refused and the socket is closed (the catch at lines 70-73) |
| GatewayClient.ConnectParamsCarryToken | src/gateway.ts:127-139 | the handshake asks for protocol 3 at both ends, with role operator, and authenticates with the client's token |
| GatewayClient.Gateway.Request | src/gateway.ts:113-124 | without an open socket it is refused with 'not connected', and the pending map, reqId and sent frames are unchanged; otherwise the id is String(reqId+1), is not already pending, and is added to pending, and the frame is appended to the sent log |
| GatewayClient.Gateway.SentIdsDistinct | src/gateway.ts:118 | no two requests a client ever sent share an id |
| GatewayClient.Gateway.RejectAll | src/gateway.ts:108-111 | the pending map ends empty, and every previously pending id is rejected once with the reason, in insertion order |
| GatewayClient.Rejections | src/gateway.ts:109 | one rejection per id, in order, with the given reason |
| GatewayClient.Gateway.OnClose | src/gateway.ts:81-89 | the socket is gone, every pending request is rejected with 'disconnected', the status is 'disconnected' with one report, and a reconnect is scheduled iff the close was not intentional |
| GatewayClient.Gateway.FireReconnect | src/gateway.ts:87 | a scheduled reconnect runs `connect()` once and is then no longer pending; without one nothing changes |
| GatewayClient.Gateway.Disconnect | src/gateway.ts:96-106 | the close is marked intentional, any reconnect is cancelled, the socket is gone, every pending request is rejected with 'disconnected', and the status is 'disconnected' with one report |
| GatewayClient.AfterClose | src/gateway.ts:72 | `ws.close()` leaves a present socket in the closing state and has no effect without one |
| GatewayClient.Base64PayloadOfDataUrl | src/gateway.ts:158-164 | stripping the prefix of `data:<mime>;base64,<data>` gives back exactly the data |
| GatewayClient.Base64PayloadNeedsPrefix | src/gateway.ts:161-164 | content that does not start with `data:` is sent unchanged |
| GatewayClient.SemicolonFrom | src/gateway.ts:161 | finds the first `;` at or after a position, or reports that there is none (the `[^;]+` run of the pattern) |
| GatewayClient.AttachmentFromDataUrl | src/gateway.ts:158-169 | a data-URL attachment is sent as its bare base64 data together with its declared mime type |
| GatewayClient.ChatSendAttachments | src/gateway.ts:171-176 | the message text and session key are carried unchanged; the `attachments` key is present iff the list is non-empty, and it then lists every attachment, re-encoded, in order |
| GatewayClient.Gateway.ChatSend | src/gateway.ts:156-177 | over an open socket a `chat.send` request with those parameters is issued; otherwise it is refused and nothing changes |
| GatewayClient.ChatAbortRunId | src/gateway.ts:180 | `runId` is included iff one is given and it is non-empty |
| GatewayClient.Gateway.ChatAbort | src/gateway.ts:179-181 | over an open socket a `chat.abort` request is issued; otherwise it is refused |
| GatewayClient.Gateway.ListSessions | src/gateway.ts:146-149 | over an open socket a `sessions.list` request with empty params is issued; otherwise it is refused |
| GatewayClient.Gateway.ChatHistory | src/gateway.ts:151-154 | over an open socket a `chat.history` request for the session key is issued; otherwise it is refused |
| GatewayClient.ListResultCases | src/gateway.ts:148 | the result is the list field when present, else the response itself, else an empty list |
| GatewayClient.ListResult | src/gateway.ts:153 | `res?.key ?? res ?? []` is never null |
| GatewayClient.Gateway.DeleteSession | src/gateway.ts:183-185 | over an open socket a `sessions.delete` request for the key is issued; otherwise it is refused |
| GatewayClient.Gateway.RenameSession | src/gateway.ts:187-189 | over an open socket a `session.update` request with the display name is issued; otherwise it is refused |
| GatewayRegistry.GatewayManager.constructor | src/store/GatewayManager.ts:25-29 | a new registry has no clients, configurations or listeners and is not initialised |
| GatewayRegistry.GatewayManager.Initialize | src/store/GatewayManager.ts:34-48 | a second call returns the current configurations and loads nothing; the first call files every stored configuration under its id, reset to 'disconnected', and returns them all reset |
| GatewayRegistry.GatewayManager.Load | src/store/GatewayManager.ts:40-44 | the loop leaves the configurations and their order as the successive `set` calls do |
| GatewayRegistry.Reset | src/store/GatewayManager.ts:42 | every returned configuration is the stored one with status 'disconnected' |
| GatewayRegistry.LoadConfigsLast | src/store/GatewayManager.ts:40-44 | after loading, an id is present iff it was present or loaded; it holds the last loaded configuration for it, reset to 'disconnected'; ids not loaded keep theirs |
| GatewayRegistry.LoadConfigsKeys | src/store/GatewayManager.ts:40-44 | an id is present after loading iff it was present before or some stored configuration carries it |
| GatewayRegistry.LoadConfigsUntouched | src/store/GatewayManager.ts:40-44 | an id that no stored configuration carries keeps the configuration it had |
| GatewayRegistry.LoadConfigsLastWins | src/store/GatewayManager.ts:40-44 | the last stored configuration with an id is the one the id holds, with its status reset to 'disconnected' |
| GatewayRegistry.LoadKeepsOrder | src/store/GatewayManager.ts:40-44 | after loading, the key order repeats no id and lists exactly the old and the loaded ids |
| GatewayRegistry.GatewayManager.AddListener | src/store/GatewayManager.ts:53-54 | a listener is subscribed at most once, at its first place |
| GatewayRegistry.GatewayManager.RemoveListener | src/store/GatewayManager.ts:55 | the unsubscribe function removes just that listener |
| GatewayRegistry.GatewayManager.Emit | src/store/GatewayManager.ts:58-66 | the event is delivered once to every listener, in subscription order |
| GatewayRegistry.Deliveries | src/store/GatewayManager.ts:59-61 | one delivery per listener, in order |
| GatewayRegistry.BroadcastReaches | src/store/GatewayManager.ts:58-66 | after several emits, a listener received an event iff it is subscribed and the event was emitted |
| GatewayRegistry.BroadcastAppend | src/store/GatewayManager.ts:58-66 | the deliveries of two runs of emits are the first run's followed by the second's |
| GatewayRegistry.GatewayManager.ConfigList | src/store/GatewayManager.ts:71-73 | every configuration, in insertion order |
| GatewayRegistry.GatewayManager.GetConfig | src/store/GatewayManager.ts:78-80 | the configuration filed under the id, or none iff there is none |
| GatewayRegistry.GatewayManager.GetGateway | src/store/GatewayManager.ts:85-87 | the client filed under the id, or none iff there is none |
| GatewayRegistry.GatewayManager.GetConnected | src/store/GatewayManager.ts:105-114 | in client-map order, each client that reports 'connected' and has a configuration, paired with that configuration |
| GatewayRegistry.ConnectedInMembers | src/store/GatewayManager.ts:105-114 | an id is listed iff it has a client that reports 'connected' and it has a configuration |
| GatewayRegistry.GatewayManager.GetFirstConnected | src/store/GatewayManager.ts:92-100 | none iff `getConnected()` is empty, else its first entry |
| GatewayRegistry.FirstConnectedAt | src/store/GatewayManager.ts:92-100 | the first qualifying id of the scan heads the list of connected ids |
| GatewayRegistry.GatewayManager.Register | src/store/GatewayManager.ts:120-123 | the configuration is filed under its id, and `gatewayAdded` is delivered to every listener |
| GatewayRegistry.GatewayManager.AddGateway | src/store/GatewayManager.ts:119-128 | the configuration is filed and announced; without autoConnect nothing else changes; with it, the id ends with an active client, and the result is an error iff a new socket was refused |
| GatewayRegistry.GatewayManager.UpdateGateway | src/store/GatewayManager.ts:133-155 | an unknown id changes nothing; if the client was connected and the update brings a new non-empty url or token, a disconnect, the assignment and a new client with the new credentials follow, and the id moves to the end of the client order; in every other case only the assignment happens |
| GatewayRegistry.Assign | src/store/GatewayManager.ts:148 | every field present in the update overwrites, even with an empty string; nothing else changes |
| GatewayRegistry.AssignStatus | src/store/GatewayManager.ts:148 | the assignment never touches status or error |
| GatewayRegistry.GatewayManager.Reconnect | src/store/GatewayManager.ts:140-154 | a connected client with new credentials: 'disconnected' then 'connecting' are delivered, and a fresh client with the assigned url and token is installed last in the order |
| GatewayRegistry.GatewayManager.Reassign | src/store/GatewayManager.ts:148-154 | when the credentials are unchanged or the client was not connected, only the assignment happens; the `connect` of line 153, if reached, returns at once |
| GatewayRegistry.GatewayManager.RemoveGateway | src/store/GatewayManager.ts:160-164 | the client, if any, is disconnected and dropped, the configuration is deleted, and 'disconnected' (if there was a client) then `gatewayRemoved` is delivered |
| GatewayRegistry.GatewayManager.Unregister | src/store/GatewayManager.ts:162-163 | the configuration is deleted and `gatewayRemoved` is delivered; clients are untouched |
| GatewayRegistry.GatewayManager.Connect | src/store/GatewayManager.ts:169-212 | an id without a configuration is rejected as not found and nothing changes; a client that is connected or connecting is left alone; otherwise any old client is disconnected ('disconnected' delivered), a fresh client with the configured url and token takes its place, the configuration becomes 'connecting', 'connecting' is delivered, and the result is an error iff the browser refuses the URL |
| GatewayRegistry.GatewayManager.Restart | src/store/GatewayManager.ts:181-211 | the part of connect after its early returns, with the same promise |
| GatewayRegistry.GatewayManager.Launch | src/store/GatewayManager.ts:186-211 | a fresh client is filed under the id and started, the configuration reads 'connecting', and one 'connecting' status change is delivered |
| GatewayRegistry.GatewayManager.Announce | src/store/GatewayManager.ts:190-201 | `updateStatus(id, 'connecting')`, then the handler's relay of the client's own 'connecting' report |
| GatewayRegistry.TagChatPayloadFields | src/store/GatewayManager.ts:202-208 | a relayed chat payload carries its event type and `_gatewayId`, and every other property of the original payload |
| GatewayRegistry.GatewayManager.RelayOne | src/store/GatewayManager.ts:192-208 | a status report becomes `updateStatus` plus a `statusChange` for the id; a chat event becomes a tagged `chatEvent`; each is delivered to every listener |
| GatewayRegistry.GatewayManager.Relay | src/store/GatewayManager.ts:192-209 | the client's reports are relayed in the order the callbacks ran |
| GatewayRegistry.RelayConfigsFrame | src/store/GatewayManager.ts:192-201 | relaying never adds or removes a configuration and leaves other ids alone |
| GatewayRegistry.RelayConfigsLastStatus | src/store/GatewayManager.ts:192-201 | after relaying, the configuration holds the last status its client reported, with no error |
| GatewayRegistry.GatewayManager.OnClientEvent | src/store/GatewayManager.ts:192-209 | a socket or timer callback of a client runs as the client's own contract says, and exactly the reports it produced are relayed |
| GatewayRegistry.GatewayManager.Disconnect | src/store/GatewayManager.ts:217-224 | the client, if any, is disconnected and dropped, the configuration reads 'disconnected' with no error, and 'disconnected' is delivered iff there was a client |
| GatewayRegistry.GatewayManager.ConnectAll | src/store/GatewayManager.ts:229-237 | every configured id ends with an active client; a configuration whose client was active is untouched, one whose new socket opened reads 'connecting', and one whose URL was refused reads 'error' with the message; no other client changes |
| GatewayRegistry.GatewayManager.StartAll | src/store/GatewayManager.ts:230-235 | connect ran on every configured id in configuration order, each outcome as connect promises |
| GatewayRegistry.GatewayManager.RecordFailures | src/store/GatewayManager.ts:231-234 | the rejection handlers mark each rejected id 'error' with its message, and nothing else changes |
| GatewayRegistry.ApplyFailuresAt | src/store/GatewayManager.ts:231-234 | each id's handler records that id's rejection, and no other handler touches it |
| GatewayRegistry.StartConfigsAt | src/store/GatewayManager.ts:230 | a configuration is 'connecting' after the loop iff its id was started and its client was not active |
| GatewayRegistry.ConnectAllConfigs | src/store/GatewayManager.ts:229-237 | the configuration `connectAll` leaves, given what connect did for that id |
| GatewayRegistry.GatewayManager.DisconnectAll | src/store/GatewayManager.ts:242-245 | no client remains; every configuration that had a client reads 'disconnected', the others are untouched; one 'disconnected' is delivered per client in client order; every old client is halted |
| GatewayRegistry.GatewayManager.StopAll | src/store/GatewayManager.ts:243 | disconnect ran on every id of the client order, in order |
| GatewayRegistry.StopConfigsAt | src/store/GatewayManager.ts:243 | every disconnected id reads 'disconnected', and other ids are untouched |
| GatewayRegistry.GatewayManager.UpdateStatus | src/store/GatewayManager.ts:284-295 | the configuration changes as `UpdatedStatus` says |
| GatewayRegistry.UpdatedStatus | src/store/GatewayManager.ts:284-295 | on a known id the status and error are set (an absent error clears it), `lastConnected` moves only on 'connected', and nothing else changes; an unknown id changes nothing |
| GatewayRegistry.UpdatedStatusTwice | src/store/GatewayManager.ts:284-295 | setting the same status twice equals setting it once |
| GatewayRegistry.GatewayManager.Route | src/store/GatewayManager.ts:301-309 | a non-empty id picks only the client filed under it; otherwise the first connected client with a configuration |
| GatewayRegistry.GatewayManager.FallbackTarget | src/store/GatewayManager.ts:306-308 | without an id, the routed client is connected, configured and first in map order, and there is none only when no client qualifies |
| GatewayRegistry.GatewayManager.ChatSend | src/store/GatewayManager.ts:300-316 | the message goes out on the routed client iff it reports 'connected', over that client alone; otherwise the call fails with 'No connected gateway available' and nothing changes |
| GatewayRegistry.GatewayManager.ChatHistory | src/store/GatewayManager.ts:354-360 | asks the named client iff it reports 'connected'; otherwise it fails naming the id, and nothing changes |
| GatewayRegistry.RouteErrorNamesId | src/store/GatewayManager.ts:357 | the error text is `Gateway <id> not connected` |
| GatewayRegistry.GatewayManager.ChatAbort | src/store/GatewayManager.ts:365-370 | asks the named client iff it reports 'connected'; otherwise it does nothing, silently |
| GatewayRegistry.GatewayManager.DeleteSession | src/store/GatewayManager.ts:375-380 | asks the named client iff it reports 'connected'; otherwise it does nothing, silently |
| GatewayRegistry.GatewayManager.RenameSession | src/store/GatewayManager.ts:385-390 | asks the named client iff it reports 'connected'; otherwise it does nothing, silently |
| GatewayRegistry.GatewayManager.ListSessions | src/store/GatewayManager.ts:321-349 | with a named id, that client's sessions tagged with the id if it reports 'connected' (empty otherwise), and its failure is passed on; without one, the fan-out below; no status changes |
| GatewayRegistry.GatewayManager.ListOne | src/store/GatewayManager.ts:325-331 | one connected client's sessions, each tagged with its id, or that client's rejection |
| GatewayRegistry.GatewayManager.ListAll | src/store/GatewayManager.ts:334-345 | the loop asks every connected client in map order and keeps what each listed |
| GatewayRegistry.GatherMembers | src/store/GatewayManager.ts:334-345 | an entry is gathered iff it comes from a successful listing by a connected client, tagged with that client's id; a failing client adds nothing and stops nobody |
| GatewayRegistry.FetchSessions | src/gateway.ts:146-149 | a client's `listSessions` settles as the server answered, and changes no socket, status or handler state |
| GatewayRegistry.SessionsOf | src/gateway.ts:146-149 | refused without an open socket, the server's error on failure, else the listed sessions |
| GatewayRegistry.Tag | src/store/GatewayManager.ts:328-330 | every listed session is tagged with the id, in order, and a failure is passed on |
| ConnectionProbe.ConnectionTest.constructor | src/store/GatewayManager.ts:250-281 | the promise executor builds a fresh client for the url and token, arms the timeout and starts connecting; the promise rejects iff the browser refuses the URL |
| ConnectionProbe.Verdict | src/store/GatewayManager.ts:263-277 | the handler's verdict on the reports it heard is pass or 'Connection failed' |
| ConnectionProbe.VerdictPassed | src/store/GatewayManager.ts:266-270 | the test passes iff the first decisive report is 'connected' |
| ConnectionProbe.VerdictNone | src/store/GatewayManager.ts:264-277 | there is no verdict iff neither 'connected' nor 'disconnected' was heard |
| ConnectionProbe.VerdictSettles | src/store/GatewayManager.ts:265 | once reached, a verdict is not changed by later reports (the `resolved` flag) |
| ConnectionProbe.VerdictSnoc | src/store/GatewayManager.ts:264-277 | until a verdict exists, each report decides by itself alone |
| ConnectionProbe.StaysReleased | src/store/GatewayManager.ts:255-270 | a client closed by the test stays closed whatever its socket and timer do later |
| ConnectionProbe.ConnectionTest.Settle | src/store/GatewayManager.ts:251 | only the first settlement of the promise counts |
| ConnectionProbe.ConnectionTest.Hear | src/store/GatewayManager.ts:263-277 | the handler runs on every new report; a settled result never changes |
| ConnectionProbe.ConnectionTest.HearNext | src/store/GatewayManager.ts:264-276 | while unresolved, 'connected' passes the test and closes the client, 'disconnected' fails it, and other reports decide nothing |
| ConnectionProbe.ConnectionTest.Step | src/store/GatewayManager.ts:263-280 | a client callback and the handler's reaction keep the test's invariant, and a settled result never changes |
| ConnectionProbe.ConnectionTest.Fire | src/store/GatewayManager.ts:255-261 | unless the handler decided first, the test resolves with 'Connection timeout' and the client is closed; afterwards the timeout is gone |
| AppShell.Initial | src/App.tsx:21-24 | the shell starts with exactly one tab, named 'General', with no messages and created now, and that tab is active |
| AppShell.CreateSession | src/App.tsx:31-41 | one blank tab named `Transmission <n+1>`, created now and not typing, is appended, the others are kept, and it becomes active |
| AppShell.CloseSession | src/App.tsx:43-58 | the tabs with the id are removed; if none is left, one fresh 'General' tab is active; otherwise the active id stays, or moves to the last tab if the closed tab was active |
| AppShell.CloseWellFormed | src/App.tsx:43-58 | closing keeps a tab and an active tab that exists, and the closed id is gone |
| AppShell.CloseLast | src/App.tsx:45-51 | closing the only tab leaves exactly one fresh, active 'General' tab |
| AppShell.CloseUndoesCreate | src/App.tsx:31-58 | closing a tab just created brings back the previous list |
| AppShell.RenameSession | src/App.tsx:60-62 | only the tab with the id changes, and only its name |
| AppShell.RenameTwice | src/App.tsx:60-62 | renaming twice equals renaming once to the second name |
| AppShell.Update | src/App.tsx:60-76 | the tab with the id is updated and every other tab is kept |
| AppShell.AddMessage | src/App.tsx:64-70 | the message goes at the end of that tab's messages, and nothing else changes |
| AppShell.AddMessageCount | src/App.tsx:64-70 | the message total grows by one per tab with that id |
| AppShell.SetTyping | src/App.tsx:72-76 | only the typing flag of the tab with the id changes |
| AppShell.Preview | src/App.tsx:78-82 | 'No messages yet' for an empty tab; otherwise the last message, cut to 60 characters plus '...' exactly when it is longer |
| Elapsed.TimeAgo | src/App.tsx:84-92 | 'now' exactly within the first whole minute |
| AppShell.Search | src/App.tsx:94-99 | every tab for an empty query; otherwise the tabs whose name or any message contains the query, ignoring case: a subsequence of the tab list (order kept) with as many entries as there are matching tabs, so every matching tab is kept and no other |
| AppShell.IndexOf | src/App.tsx:114 | the first position with the id, or -1 when there is none |
| AppShell.JsRem | src/App.tsx:116-117 | JavaScript `%`: agrees with the mathematical remainder on non-negative operands and stays strictly within (-n, n) |
| AppShell.Cycle | src/App.tsx:115-117 | Ctrl+Tab gives (idx+1) mod n and Shift gives (idx-1+n) mod n, always a valid position; with no active tab (-1), Shift goes to the second-to-last tab (the first when there is only one) |
| AppShell.CycleBackForth | src/App.tsx:115-117 | forward then back, or back then forward, returns to the same tab |
| AppShell.CycleTab | src/App.tsx:112-119 | the tab list is unchanged and the next or previous tab becomes active |
| AppShell.SelectByDigit | src/App.tsx:120-126 | Ctrl+k selects the tab at position k-1 when it exists, and otherwise changes nothing |
| Palette.FuzzyBands | src/components/CommandPalette.tsx:26-58 | 100 exactly for equal text, 90 for a prefix, 70 for another substring; a match iff the query is a subsequence; a pure subsequence scores in [10, 69]; a non-match scores 0 |
| Palette.FuzzyMatch | src/components/CommandPalette.tsx:26-58 | the loop computes the score `Fuzzy` defines |
| Palette.Scan | src/components/CommandPalette.tsx:39-50 | the greedy loop finds a match iff the greedy embedding exists, and returns its bonus and last position |
| Palette.GreedyEmbeds | src/components/CommandPalette.tsx:39-50 | a successful scan spells out the query at increasing positions of the text |
| Palette.GreedyComplete | src/components/CommandPalette.tsx:39-55 | the greedy scan succeeds iff the query is a subsequence of the text |
| Palette.SubseqOfContains | src/components/CommandPalette.tsx:36-37 | a substring is a subsequence, so each band lies within the matches |
| Palette.Commands | src/components/CommandPalette.tsx:78-127 | the four fixed commands followed by one switch command per session |
| Palette.SwitchCommands | src/components/CommandPalette.tsx:115-124 | the i-th switch command switches to tab i; it has shortcut `Ctrl+<i+1>` exactly for the first nine, and that shortcut selects the same tab; it is marked active exactly for the active tab |
| Palette.SomeActiveCommand | src/components/CommandPalette.tsx:115-124 | some switch command is marked active |
| Palette.FilteredRanking | src/components/CommandPalette.tsx:130-138 | a blank query lists every command unchanged; otherwise exactly the matching commands, with non-increasing scores, and equal scores keep list order |
| Palette.RankingContents | src/components/CommandPalette.tsx:132-137 | the ranking holds exactly the matching scored commands, sorted by score then position |
| Palette.RankedMembers | src/components/CommandPalette.tsx:132-137 | a command is listed iff it matches |
| Palette.RankedOrder | src/components/CommandPalette.tsx:136 | scores do not increase down the list |
| Palette.RankedStable | src/components/CommandPalette.tsx:136 | equal scores keep the original list order (a stable sort) |
| Palette.RankingDistinct | src/components/CommandPalette.tsx:132-137 | no entry is listed twice |
| Palette.SetQuery | src/components/CommandPalette.tsx:141-143 | a changed query resets the selection to the first entry; the same query keeps it |
| Palette.KeysStayInRange | src/components/CommandPalette.tsx:165-211 | on a non-empty list every key keeps the selection in range; Down wraps from the last entry to 0 and Up from 0 to the last; only Enter runs a command (the selected one), and only Escape closes the palette, when no shortcut list is shown |
| Palette.DownUpInverse | src/components/CommandPalette.tsx:174-185 | Up undoes Down and Down undoes Up |
| Palette.EmptyListSelection | src/components/CommandPalette.tsx:180-189 | on an empty list ArrowUp selects -1, and Enter then runs nothing |
| ChannelView.AgentColor | src/components/ChannelPanel.tsx:16-20 | the palette colour at the agent's position mod 7, or the dim colour for an unknown id |
| ChannelView.AgentName | src/components/ChannelPanel.tsx:22-24 | the name of the agent's first configuration when it is non-empty; 'Unknown' exactly when the id is unknown or the name is empty (or is itself 'Unknown') |
| ChannelView.MentionShape | src/components/ChannelPanel.tsx:52 | `^@(\w+)\s+` matches iff the text starts with `@`, a word and white space; the match captures the whole word and all the white space after it |
| ChannelView.WordRun | src/components/ChannelPanel.tsx:52 | the maximal run of word characters from a position |
| ChannelView.SpaceRun | src/components/ChannelPanel.tsx:52 | the maximal run of white space from a position |
| ChannelView.Addressed | src/components/ChannelPanel.tsx:53-58 | the first gateway whose lower-cased name equals the mention or starts with it |
| ChannelView.ParseTargets | src/components/ChannelPanel.tsx:51-67 | without a target the text is unchanged, and there is none iff no mention is present or no gateway is addressed; with one, the target is the first addressed gateway and the clean text is the suffix after the mention |
| ChannelView.SendOutcome | src/components/ChannelPanel.tsx:69-77 | blank input sends nothing and keeps the input; otherwise one non-empty message goes to the channel, addressed to the parsed target — the trimmed input unless the target id is truthy (present and non-empty), else exactly the text after the mention and its white space — and the input is cleared |
| ChannelView.TrimLastNotSpace | src/components/ChannelPanel.tsx:70 | a trimmed non-empty text ends in a non-space, so a mention cannot swallow it all |
| ChannelView.HandleRename | src/components/ChannelPanel.tsx:86-91 | renames to the trimmed value unless it is blank or the untrimmed value equals the current name |
| ChannelView.RenameToSameName | src/components/ChannelPanel.tsx:87 | a value that differs from the name only by padding still renames, to the same name |
| ChannelView.MemberAgents | src/components/ChannelPanel.tsx:94-96 | each member agent is the configuration found for its id |
| ChannelView.MemberAgentIds | src/components/ChannelPanel.tsx:94-96 | the member agents are exactly the known member ids, in member order |
| ChannelView.IdsOf | src/components/ChannelPanel.tsx:94-96 | the ids of configurations, in order |
| ChannelForm.Sanitize | src/components/ChannelModal.tsx:100 | one output character per input character (characters, not UTF-16 code units), every one in `[a-z0-9-]`; allowed characters are kept, upper-case letters lowered, everything else becomes `-` |
| ChannelForm.SanitizeIdempotent | src/components/ChannelModal.tsx:100 | sanitising twice equals sanitising once, and a sanitised name trims to itself |
| ChannelForm.NoSpaceTrim | src/components/ChannelModal.tsx:100 | a name of allowed characters only is unchanged by trimming |
| ChannelForm.SetOf | src/components/ChannelModal.tsx:31-33 | `new Set(ids)`: no repeats, the same members, a subsequence of the ids, and in order of first occurrence: each entry occurs in the ids before every occurrence of any later entry |
| ChannelForm.Opened | src/components/ChannelModal.tsx:29-33 | the form opens with the edited channel's name, description and members, or blank |
| ChannelForm.Toggle | src/components/ChannelModal.tsx:62-72 | the id's membership flips and every other id's stays |
| ChannelForm.ToggleTwice | src/components/ChannelModal.tsx:62-72 | toggling twice restores the membership (the same list when the id was absent) |
| ChannelForm.SubmitOutcome | src/components/ChannelModal.tsx:37-60 | nothing is submitted iff the name is blank or no agent is selected; otherwise the channel has the trimmed name and description and exactly the selected members, an edit keeps its id and creation time, and it goes to the update callback exactly when editing with one |
| ChannelForm.ModalColor | src/components/ChannelModal.tsx:16-19 | positions seven apart get the same colour |
| TaskForm.Opened | src/components/TaskModal.tsx:44-61 | the form opens with the edited task's fields, absent ones defaulted (medium priority), or blank |
| TaskForm.AddTag | src/components/TaskModal.tsx:106-112 | the normalised tag is appended unless it is blank or already listed, and the tag input is cleared |
| TaskForm.NormalizeIsTag | src/components/TaskModal.tsx:107 | a non-blank normalised tag is lower case and trimmed, and normalising again changes nothing |
| TaskForm.AddTagKeepsTags | src/components/TaskModal.tsx:106-112 | the tag list stays duplicate-free and normalised, and the tag is listed afterwards unless it was blank |
| TaskForm.AddTagTwice | src/components/TaskModal.tsx:106-112 | adding the same tag again changes nothing |
| TaskForm.RemoveTag | src/components/TaskModal.tsx:114-116 | every occurrence of the tag is removed and no other tag: the result is a subsequence of the tags (order kept) whose length is the old length minus the tag's occurrences |
| TaskForm.CountKeep | src/components/TaskModal.tsx:115 | filtering out a value removes exactly its occurrences |
| TaskForm.RemoveAfterAdd | src/components/TaskModal.tsx:106-116 | removing keeps the list normalised, and removing a tag just added restores the list |
| TaskForm.RemoveKeepsTags | src/components/TaskModal.tsx:114-116 | dropping a tag from a duplicate-free list of normalised tags leaves such a list |
| TaskForm.RemoveUndoesAdd | src/components/TaskModal.tsx:106-116 | removing the tag that adding just appended gives back the original list |
| TaskForm.SubmitOutcome | src/components/TaskModal.tsx:63-97 | nothing is submitted for a blank title; a new task is in the inbox with a fresh id, the current time and the caller's default source (manual when there is none); an edited task keeps its status, id, creation time and source, a blank id or zero creation time being replaced by the fresh id or the current time; the assignment is the form's agent; blank description, assignment and tags become absent; it goes to the update callback exactly when editing with one |
| TaskForm.Suggestions | src/components/TaskModal.tsx:221 | the first five (or all, when fewer) of the common tags not yet chosen, in list order |
| Board.ColumnOf | src/components/KanbanBoard.tsx:36-42 | the column a drop id names, or none when it names no column |
| Board.GroupByStatus | src/components/KanbanBoard.tsx:125-136 | the grouping loop leaves every column holding exactly the tasks of its status, in input order |
| Board.ColumnsPartition | src/components/MissionControl.tsx:126-134 | each task is in the column of its status and no other, and the columns hold as many tasks as the input |
| Board.FindTask | src/components/KanbanBoard.tsx:168 | the first task with the id (every task before it has another id), or none when no task has it |
| Board.DragEnd | src/components/KanbanBoard.tsx:161-180 | an update iff there is a target, the task exists, the target is a column and differs from the task's status; the update changes only the status (to that column) and `updatedAt` |
| Kanban.FilteredTasks | src/components/KanbanBoard.tsx:116-122 | a task passes iff the agent filter is unset or matches and the priority filter is unset or matches |
| Kanban.TasksByStatus | src/components/KanbanBoard.tsx:125-150 | each column is the filtered tasks of that status, sorted by the priority comparator |
| Kanban.SortStep | src/components/KanbanBoard.tsx:138-148 | sorting one more column keeps the columns already sorted |
| Kanban.SortedAll | src/components/KanbanBoard.tsx:138-150 | once every status is sorted, each column is its status's filtered tasks sorted by the comparator |
| Kanban.KanbanColumn | src/components/KanbanBoard.tsx:125-150 | a column holds exactly the passing tasks of its status, as a permutation of them, ordered by rank (high, medium, low, none), and newest first within a rank |
| Kanban.CardOrder | src/components/KanbanBoard.tsx:138-150 | a column sorted by the comparator never puts a lower-ranked task before a higher-ranked one, and within a rank puts newer tasks first |
| Mission.Selected | src/components/MissionControl.tsx:120-123 | every task when no agent is selected; otherwise each task assigned to that agent, as often as in the input, and no other, in input order |
| Mission.TasksByStatus | src/components/MissionControl.tsx:126-134 | one column per status, holding the selected tasks of that status in input order |
| Mission.ColumnsOfSelection | src/components/MissionControl.tsx:126-134 | the columns partition the selected tasks |
| Mission.TaskCountByAgent | src/components/MissionControl.tsx:137-145 | an agent is counted iff it has an open (not done) task, and its count is the number of those tasks |
| Mission.TotalTasks | src/components/MissionControl.tsx:167 | the number of tasks whose status is not done, never more than all tasks |
| Mission.TalliesWithinTotal | src/components/MissionControl.tsx:137-145 | the tallies of distinct agents sum to at most the open tasks |
| Mission.MiniColumn | src/components/MissionControl.tsx:74-88 | the first min(5, len) cards; `+N more` exactly when len > 5, with N = len-5; 'Empty' exactly for an empty column |
| Elapsed.Bucketed | src/components/MissionControl.tsx:94-100 | 'now' exactly under a minute |
| Elapsed.BucketedUnits | src/components/MissionControl.tsx:94-100 | past a minute the label is a number and a unit; the unit is m, h or d exactly in its range, and the number counts whole units |
| Ops.UptimeReadsBack | src/components/OpsPanel.tsx:23-28 | the clock reads back: hours, then two-digit minutes and seconds below 60; 3600h+60m+sec = s; hours are never cut |
| Ops.TotalMessagesCounts | src/components/OpsPanel.tsx:30 | the total is the number of all messages and adds up over a split of the sessions |
| Ops.ActiveSessions | src/components/OpsPanel.tsx:31 | the number of typing sessions |
| Ops.TagSession | src/components/OpsPanel.tsx:34 | exactly a session's system messages, each tagged with its name and id |
| Ops.TaggedMembers | src/components/OpsPanel.tsx:33-34 | an entry is tagged iff it is a system message of a session with that name and id |
| Ops.SystemFeedOrder | src/components/OpsPanel.tsx:33-35 | at most 50 entries, in non-increasing timestamp order, and none left out is later than one shown |
| Ops.SystemFeedMembers | src/components/OpsPanel.tsx:33-35 | the feed shows only tagged system messages, exactly min(50, their number) of them, and all of them when there are at most 50 |
| Ops.StatusLabel | src/components/OpsPanel.tsx:40 | ONLINE iff connected, CONNECTING iff connecting, OFFLINE otherwise |
| Agents.AnyPatternFound | src/components/AgentSidebar.tsx:15-17 | `some` holds iff one of the patterns occurs in the lower-cased name or id |
| Agents.OpsSessionIff | src/components/AgentSidebar.tsx:14-17 | a session is an ops session iff one of the eight words occurs in its lower-cased name or id |
| Types.ColorAt | src/components/AgentSidebar.tsx:20-23 | the palette colour of a position, cycling through the seven colours |
| Agents.StatusMarksDistinct | src/components/AgentSidebar.tsx:25-43 | each of the four statuses has an icon and a class of its own, never the fallback |
| Agents.SessionCounts | src/components/AgentSidebar.tsx:53-61 | a gateway is counted iff it has a chat (non-ops) session, and its count is the number of those |
| Agents.TotalChatSessions | src/components/AgentSidebar.tsx:64-66 | the number of sessions that are not ops sessions |
| Agents.SessionCountsWithinTotal | src/components/AgentSidebar.tsx:53-66 | the session counts of distinct gateways sum to at most the chat sessions |
| Agents.ActiveCounts | src/components/AgentSidebar.tsx:69-77 | a gateway is counted iff it has a typing session (ops sessions included), and its count is the number of those |
| Agents.TypingOpsSession | src/components/AgentSidebar.tsx:53-77 | a typing ops session raises its gateway's typing count and leaves its session count alone |
| Agents.ConnectedCount | src/components/AgentSidebar.tsx:79 | the connected gateways, never more than there are |
| Agents.Click | src/components/AgentSidebar.tsx:113 | a click selects the gateway iff it is connected |
| Feed.EventMarks | src/components/LiveFeed.tsx:11-31 | each of the five event types has its own icon and class; any other type gets the bullet and no class, and only such types do |
| Elapsed.FeedTime | src/components/LiveFeed.tsx:33-43 | a relative label exactly within the first day: 'now' under a minute, else the bucketed label plus ' ago' |
| Feed.FeedColor | src/components/LiveFeed.tsx:45-49 | the palette colour at the agent's position mod 7; an unknown agent gets the first colour |
| Feed.FilteredEvents | src/components/LiveFeed.tsx:57-60 | every event without a filter; otherwise each event of that agent, as often as in the feed, and no other, in feed order |
| Elapsed.TimeAgoIsBucketed | src/components/TaskCard.tsx:13-22 | counting minutes first, then hours and days, gives the same label as bucketing the milliseconds directly |
| Card.PriorityColorsDistinct | src/components/TaskCard.tsx:24-31 | three distinct colours for high, medium and low; the dim colour exactly for none |
| Card.Badge | src/components/TaskCard.tsx:34-36 | a badge iff the task is assigned to a known gateway: its avatar, or the first letter of its name |
| Card.CardTags | src/components/TaskCard.tsx:68-73 | the first min(2, len) tags; `+k` exactly when len > 2, with k = len-2 |
| Confirm.Click | src/components/Sidebar.tsx:39-47 | a click deletes iff the item was armed, and then disarms; otherwise it arms the item |
| Confirm.Expire | src/components/Sidebar.tsx:46 | a timeout disarms only if its own item is still armed |
| Confirm.DoubleClickDeletes | src/components/Sidebar.tsx:39-47 | two clicks on the same item delete it, and only the second click does |
| Confirm.OtherItemKeepsArming | src/components/ChannelSidebar.tsx:26-35 | a click on another item moves the confirmation there, and the first item's timeout no longer clears it |
| Confirm.DeleteConfirm.constructor | src/components/ChannelSidebar.tsx:24 | nothing armed, no timers, nothing deleted |
| Confirm.DeleteConfirm.HandleDelete | src/components/ChannelSidebar.tsx:26-35 | a click on the armed item deletes it; otherwise it arms the item and starts its timer |
| Confirm.DeleteConfirm.Fire | src/components/ChannelSidebar.tsx:33 | the oldest timer fires and disarms only its own item |
| Confirm.NoTimersNothingArmed | src/components/Sidebar.tsx:46 | once every timer has fired nothing is armed |
| SessionList.Sidebar.constructor | src/components/Sidebar.tsx:23-25 | not editing, nothing armed, nothing renamed |
| SessionList.Sidebar.StartRename | src/components/Sidebar.tsx:27-30 | editing that session, starting from its current name |
| SessionList.Sidebar.FinishRename | src/components/Sidebar.tsx:32-37 | editing always ends and the `onRename` call (if any) is logged |
| SessionList.Sidebar.Edit | src/components/Sidebar.tsx:96 | a keystroke replaces the rename text and keeps the edited session and the logged calls |
| SessionList.Sidebar.CancelRename | src/components/Sidebar.tsx:100 | Escape ends editing without any `onRename` call |
| SessionList.RenameCall | src/components/Sidebar.tsx:33-35 | one `onRename` call with the trimmed, non-empty text exactly when a session is being edited and the text is not blank |
| SessionList.RenameAppliesCall | src/components/Sidebar.tsx:32-37 | the call renames that session to the trimmed name and no other |
| SessionList.Sidebar.HandleDelete | src/components/Sidebar.tsx:39-48 | the two-click close of a session, as `Confirm.Click` decides: a second click deletes, a first click arms the session and starts its reset timer |
| SessionList.ShownTimeAfterMessage | src/components/Sidebar.tsx:77-78 | the shown time is the last message's; after a message arrives a tab shows its time, and the others are unchanged |
| ChannelList.ConnectedMembers | src/components/ChannelSidebar.tsx:60-64 | the member ids whose gateway is configured and connected, at most the members |
| ChannelList.OnlineAreKnown | src/components/ChannelSidebar.tsx:61-64 | the connected members are never more than the known member agents |
| Types.IndexOfGateway | src/components/LiveFeed.tsx:46 | the first position with that id, or none |
| Types.FindGateway | src/components/TaskCard.tsx:35 | the first configuration with that id (every one before it has another id), or none exactly when none has it |

## Left out

- WebSocket transport: `new WebSocket`, `send`, `close` and `JSON.parse`/`stringify` are
  not modelled. A frame is a datatype, and a frame that fails to parse is `Malformed`.
  The browser's decision to accept a URL is the parameter `accepted`.
- A late `onclose` from a previous socket is not modelled, because it is a
  cross-socket race. In the source it could null out a newer socket. Here a close
  always applies to the current socket.
- Console logging, and `onerror`, which only logs, are not modelled.
- Promises and `await` are sequential composition. A server that never replies leaves
  its request pending; per-request timeouts do not exist in the source.
- Timers are events, not time. `timeoutMs` and the 3-second delays only decide when
  `Fire` or `FireReconnect` runs. The uptime interval of the operations dashboard is
  not modelled: `FormatUptime` takes the elapsed seconds.
- IndexedDB persistence is not modelled: `saveGateway`, `updateGatewayStatus` and the
  loading in `initialize`. The loaded configurations are a parameter. src/store/db.ts is
  not part of this model.
- `Date.now()`, `Math.random()` and `generateId()` are parameters, so the uniqueness of
  their values is not claimed.
- The exact wording of browser error messages is not modelled beyond `ErrorText`.
- Each configuration is a value in the registry. The registry does not share mutable
  configuration objects with its callers.
- JSON numbers are integers (`JNum`); non-integer numbers are not modelled, since
  nothing modelled computes with a fractional value.
- `Object.assign` with a field explicitly set to `undefined` is not modelled. An update
  field is either present or absent.
- GatewayRegistry.GatewayManager.AddGateway: with autoConnect, the contract states only
  that the id ends with an active client, what the configuration reads, and the result.
  It does not restate connect's full effect on the clients and the delivery log.
- GatewayRegistry.GatewayManager.RemoveGateway: does not restate `DisconnectStep` of
  the client it drops. It states the registry's new maps and deliveries.
- GatewayRegistry.GatewayManager.DisconnectAll: each old client's end state is stated
  as `Halted` (closed on purpose, no socket, no reconnect, nothing pending,
  'disconnected'). It is not restated as the two-state `DisconnectStep`.
- GatewayRegistry.GatewayManager.ListSessions: each server's answer is a parameter
  (`answers`), and the request and its response are one step.
- `chatHistory` beyond `ListResult`: the shape of the messages returned is not
  modelled.
- LiveFeed's `formatTime` past one day prints a locale clock time; `Elapsed.FeedTime`
  gives `None` there. ChannelPanel's `formatTime` and the other `toLocaleTimeString`
  calls are not modelled either.
- Case mapping is ASCII only.
- Text is a sequence of characters. JavaScript strings are sequences of UTF-16
  code units, and a character outside the Basic Multilingual Plane takes two of
  them. The model treats such a character as one, so the lines below differ from
  the source on text that holds one. On text inside the Basic Multilingual Plane
  the two agree.
- AppShell.Preview: the 60-character cut and the test for adding "..." count
  characters, not UTF-16 code units. A last message of 59 ASCII characters and one
  emoji is 61 code units, which the source cuts, but it is 60 characters, which the
  model keeps whole.
- ChannelForm.Sanitize: one `-` replaces each disallowed character. The source
  replaces each UTF-16 code unit, so an emoji becomes `--` there and `-` here.
- Card.Badge: the first-letter fallback takes the first character of the name. The
  source's `charAt(0)` takes the first code unit, which is half of a surrogate pair
  when the name starts with an emoji.
- Palette.Fuzzy: the match positions, and therefore the score, count characters,
  not UTF-16 code units.
- `maxLength` limits on inputs are not modelled. They are enforced by the browser.
- Palette.SetQuery: the source also resets the selection when the number of filtered
  commands changes without a change to the query (line 142). The model resets on a
  query change only.
- TaskForm.SubmitOutcome: the `saving` flag and a callback that throws are not
  modelled.
- The `connectedGateways` display lists of the views are not modelled.
- OpsPanel's `chatSessions` difference and `statusColor` are not modelled.
- AgentSidebar's meta text is not modelled.
- AppShell.CycleTab: Ctrl+Tab with no tab cannot happen, because the shell always has
  a tab. It is excluded by `requires`.
- React rendering, dnd-kit, react-markdown and `handleDragStart` are not modelled. The
  model starts at the data a drag-end hands over.
- The `fetch` path of `handleSendMessage` in src/App.tsx is not modelled.
- Presentation-only components are not part of this model: GatewaySettings, TopBar,
  BottomBar, StatsBar, StatusBar, LandingPage, TabBar, SplitView and ChatPanel.

## Observations

These behaviours surfaced while stating the contracts. They follow the code as
written and are modelled as such.

- After `connectAll` records 'error' for a refused URL, no event announces it, and
  the new client keeps reporting 'connecting' (`GatewayManager.ConnectAll`).
- After a refused URL the client stays 'connecting' without a socket. A later
  `connect(id)` therefore returns at once (`GatewayManager.Connect` on an active id).
- A test connection that fails by 'disconnected' does not close its client, so the
  client's reconnect stays scheduled. Only a pass or a timeout closes it
  (`ConnectionTest.HearNext`).
- ChannelPanel's rename compares the untrimmed value with the current name
  (`ChannelView.RenameToSameName`).
- ArrowUp on an empty palette selects -1 (`Palette.EmptyListSelection`).
- A delete confirmation armed twice for the same item is cleared by the first
  timer's expiry, so it can disarm early.
- The `wasConnected && (url || token)` branch of `updateGateway`, taken when the
  credentials equal the current ones, calls `connect`. That call returns at once
  (`GatewayManager.Reassign`).
