# Messenger core, modelled in Dafny

This project models the realtime core of a small messenger. The system has a FastAPI
backend over MongoDB and a React client. The model covers:

- **Client push channel** (`WebSocketContext.js`). The provider holds one socket for the
  signed-in user. After every close it reconnects with a bounded linear back-off: at most
  5 retries, waiting 3000 ms times the attempt number. A successful open resets the
  counter. `new_message` frames are appended to a push buffer. Sends are silently dropped
  while the channel is down.
- **Phone chat window** (`MobileChatWindow.js`). REST history replaces the local list.
  Each change of the push buffer looks only at the buffer's last frame and appends it when
  it belongs to the open conversation and its id is new. A successful send empties the
  push buffer.
- **Backend registry** (`ConnectionManager` in `server.py`). It maps connection ids to
  sockets and user ids to ordered lists of connection ids, and no user ever maps to an
  empty list. Fan-out follows registration order. Frames are serialised with Python's
  `json.dumps`, modelled in `py_json.dfy`.
- **Backend route decisions**. `send_message` and `get_messages` answer 404 or 403.
  `get_messages` returns the newest `limit` messages in ascending order. `create_conversation`
  builds the participant set and looks up an existing direct conversation.
- **Two dashboards** (phone and desktop). They cover the prepend-if-absent list update and
  the navigation state.
- **Smaller pieces**:
  - the group dialog's member toggle and submit guard;
  - the sidebar's case-insensitive search and conversation titles;
  - avatar addresses, including the colour hash with JavaScript's 32-bit shift;
  - the settings form's initial values, field edits and avatar-file checks.

Imperative source is modelled in two layers. A `class` holds the source's fields. A pure
datatype snapshot of those fields, `State()`, has one transition function per handler, and
each method is proved to change its state exactly as its function says. The properties
are proved as lemmas over these functions, including invariants that hold over any
sequence of events. Network and database results, clocks and fresh ids are parameters. A
failed request is `None`.

Files:

- `wrappers.dfy`: `Option` and `Result`.
- `text.dfy`: the JavaScript string operations used: `trim`, ASCII `toLowerCase`,
  `includes`, `startsWith`, first-occurrence `replace`, `charCodeAt` code units,
  `encodeURIComponent`.
- `domain.dfy`: profiles, messages, conversations, and the prepend-if-absent updater.
- `py_json.dfy`: `json.dumps`.
- `websocket_context.dfy`, `mobile_chat_window.dfy`, `connection_manager.dfy`,
  `server_routes.dfy`, `mobile_dashboard.dfy`, `dashboard.dfy`, `create_group_modal.dfy`,
  `mobile_sidebar.dfy`, `avatar_utils.dfy`, `user_settings.dfy`: one per source file, as named.

## Model

| member | source | states |
|---|---|---|
| WebSocketContext.SecureOriginAddress | frontend/src/context/WebSocketContext.js:28-29 | an `https://` backend is reached at `wss://` + host + `/ws/` + user id |
| WebSocketContext.PlainOriginAddress | frontend/src/context/WebSocketContext.js:28-29 | an `http://` backend is reached at `ws://` + host + `/ws/` + user id |
| WebSocketContext.Connect | frontend/src/context/WebSocketContext.js:23-69 | without a user, or when the constructor throws, nothing changes; otherwise a fresh socket on the channel address becomes current, and connectivity, counter, timers and buffer are untouched |
| WebSocketContext.Opened | frontend/src/context/WebSocketContext.js:31-35 | open sets connected and resets the attempt counter to 0 |
| WebSocketContext.Closed | frontend/src/context/WebSocketContext.js:46-58 | close disconnects and drops the socket; below 5 attempts the counter goes up by one and exactly one retry with delay 3000 × new count is scheduled and held by the ref; at 5 nothing is scheduled |
| WebSocketContext.Dispatch | frontend/src/context/WebSocketContext.js:71-85 | `new_message` appends its message at the buffer's tail; every other type and an unparsable frame leave the buffer as it is |
| WebSocketContext.Received | frontend/src/context/WebSocketContext.js:37-44 | an inbound frame changes only the push buffer |
| WebSocketContext.WithoutTimer | frontend/src/context/WebSocketContext.js:93-95 | a cleared timer is no longer pending and every other pending timer stays |
| WebSocketContext.Fired | frontend/src/context/WebSocketContext.js:54-57 | a pending retry leaves the queue and runs `connectWebSocket`; a cleared or spent timer does nothing |
| WebSocketContext.CleanedUp | frontend/src/context/WebSocketContext.js:92-99 | cleanup clears the timer the ref holds and asks the current socket to close; nothing else changes |
| WebSocketContext.Sent | frontend/src/context/WebSocketContext.js:102-106 | a send goes out on the socket only when one exists and is connected; otherwise nothing at all happens |
| WebSocketContext.UserChanged | frontend/src/context/WebSocketContext.js:87-100 | a user change runs the cleanup, then connects for the new user (nothing when signed out) |
| WebSocketContext.RunKeepsInv | frontend/src/context/WebSocketContext.js:21-58 | over any sequence of events the counter stays in 0..5 and every pending retry waits 3000, 6000, 9000, 12000 or 15000 ms |
| WebSocketContext.RetryKeepsCounter | frontend/src/context/WebSocketContext.js:23-69 | the retry timer firing (`connectWebSocket`) leaves the attempt counter unchanged |
| WebSocketContext.BackoffDelays | frontend/src/context/WebSocketContext.js:52-57 | n consecutive failures from counter a, whatever retry follows each close as long as it keeps the counter, schedule 3000·(a+1), 3000·(a+2), … and nothing after the fifth attempt |
| WebSocketContext.FreshConnectionBackoff | frontend/src/context/WebSocketContext.js:52-57 | from a fresh connection, five or more failures with the real retry schedule exactly 3000, 6000, 9000, 12000, 15000 ms and then no retry |
| WebSocketContext.CleanupCancelsRetry | frontend/src/context/WebSocketContext.js:93-95 | the retry the ref held does nothing once cleanup has run |
| WebSocketContext.CloseAfterCleanupRetries | frontend/src/context/WebSocketContext.js:46-58 | `onclose` does not check for teardown: the close that cleanup requests still schedules a retry below 5 attempts |
| WebSocketContext.WebSocketProvider.constructor | frontend/src/context/WebSocketContext.js:16-20 | the provider starts with no socket, disconnected, an empty buffer and a zero counter |
| WebSocketContext.WebSocketProvider.ConnectWebSocket | frontend/src/context/WebSocketContext.js:23-69 | the fields change exactly as `Connect` says and the invariant holds |
| WebSocketContext.WebSocketProvider.OnOpen | frontend/src/context/WebSocketContext.js:31-35 | the fields change exactly as `Opened` says |
| WebSocketContext.WebSocketProvider.OnClose | frontend/src/context/WebSocketContext.js:46-58 | the fields change exactly as `Closed` says and the counter stays in 0..5 |
| WebSocketContext.WebSocketProvider.OnError | frontend/src/context/WebSocketContext.js:61-63 | an error changes no state |
| WebSocketContext.WebSocketProvider.HandleMessage | frontend/src/context/WebSocketContext.js:71-85 | the buffer changes exactly as `Dispatch` says |
| WebSocketContext.WebSocketProvider.OnMessage | frontend/src/context/WebSocketContext.js:37-44 | a frame that fails to parse changes nothing; a parsed one is dispatched |
| WebSocketContext.WebSocketProvider.OnRetryTimer | frontend/src/context/WebSocketContext.js:54-57 | the fields change exactly as `Fired` says |
| WebSocketContext.WebSocketProvider.Cleanup | frontend/src/context/WebSocketContext.js:92-99 | the fields change exactly as `CleanedUp` says |
| WebSocketContext.WebSocketProvider.SendMessage | frontend/src/context/WebSocketContext.js:102-106 | the fields change exactly as `Sent` says |
| WebSocketContext.WebSocketProvider.OnUserChange | frontend/src/context/WebSocketContext.js:87-100 | the fields change exactly as `UserChanged` says |
| WebSocketContext.WebSocketProvider.SetMessages | frontend/src/context/WebSocketContext.js:108-114 | the exposed setter replaces the push buffer and nothing else |
| MobileChatWindow.MergePushed | frontend/src/components/MobileChatWindow.js:33-38 | a listed id leaves the list unchanged; a new one goes to the tail with earlier entries untouched; distinct ids stay distinct |
| MobileChatWindow.PushEffect | frontend/src/components/MobileChatWindow.js:29-42 | only the buffer's last frame is considered, and only for the open conversation; then it is merged and a refresh is requested |
| MobileChatWindow.OnlyLastFrameCounts | frontend/src/components/MobileChatWindow.js:30-31 | buffers with the same last frame have the same effect |
| MobileChatWindow.PushesKeepLog | frontend/src/components/MobileChatWindow.js:29-42 | across any pushes the list only grows at its tail, keeps ids distinct, lists every pushed id of the open conversation and gains only that conversation's messages |
| MobileChatWindow.RedeliveryIsIgnored | frontend/src/components/MobileChatWindow.js:33-36 | replaying already-listed frames leaves the list as it is |
| MobileChatWindow.UnseenPushesGrowLog | frontend/src/components/MobileChatWindow.js:37 | distinct unseen frames of the open conversation add exactly one entry each |
| MobileChatWindow.SendRequest | frontend/src/components/MobileChatWindow.js:66-76 | nothing is posted exactly when the trimmed draft is empty, no conversation is open or a send is in flight; otherwise the trimmed draft is posted to the open conversation |
| MobileChatWindow.ChatWindow.constructor | frontend/src/components/MobileChatWindow.js:12-16 | empty list and draft, not loading, not sending |
| MobileChatWindow.ChatWindow.LoadMessages | frontend/src/components/MobileChatWindow.js:49-62 | fetched history replaces the list; a failure keeps it; `loading` ends false |
| MobileChatWindow.ChatWindow.OnPushBufferChanged | frontend/src/components/MobileChatWindow.js:29-42 | the list changes exactly as `PushEffect` says |
| MobileChatWindow.ChatWindow.TypeDraft | frontend/src/components/MobileChatWindow.js:234 | typing sets the draft |
| MobileChatWindow.ChatWindow.SubmitDraft | frontend/src/components/MobileChatWindow.js:64-76 | behind the guard: `sending` set, draft cleared before the request, the trimmed text posted |
| MobileChatWindow.ChatWindow.SendSettled | frontend/src/components/MobileChatWindow.js:72-86 | success empties the whole push buffer, failure restores the trimmed draft, and `sending` ends false |
| PyJson.Dumps | backend/server.py:66-75 | serialisation succeeds exactly when no `datetime` or `ObjectId` is inside, and its text is printable ASCII |
| PyJson.DumpMembers | backend/server.py:66-75 | an object's members serialise exactly when each value does |
| ConnectionManager.RemoveFirst | backend/server.py:56-57 | `list.remove` shortens a list holding the id by one and leaves any other list alone |
| ConnectionManager.RemoveFirstAt | backend/server.py:56-57 | exactly the first occurrence goes and the rest keep their order |
| ConnectionManager.RemoveAppended | backend/server.py:45-59 | removing the id just appended gives back the list before it |
| ConnectionManager.Connected | backend/server.py:45-50 | the connection is registered and appended to its user's list, created if absent; no user maps to an empty list |
| ConnectionManager.Disconnected | backend/server.py:52-59 | the connection is forgotten and removed from the user's list, which is deleted once empty; unknown ids raise nothing; no empty list survives |
| ConnectionManager.DisconnectUndoesConnect | backend/server.py:45-59 | a connection that comes and goes leaves the registry as it was |
| ConnectionManager.Writes | backend/server.py:61-64 | one write per registered id, in order, with the given text to that id's socket; unregistered ids are skipped |
| ConnectionManager.WritesAppend | backend/server.py:66-70 | the writes for a list are the writes for its prefix followed by those for the last id |
| ConnectionManager.WritesReach | backend/server.py:66-70 | every registered connection of the user receives the text, each send taken as atomic and successful |
| ConnectionManager.GroupReaches | backend/server.py:72-75 | every registered connection of every listed user receives the text, each send taken as atomic and successful |
| ConnectionManager.UserSend | backend/server.py:66-70 | an unknown user gets nothing and nothing is serialised; otherwise the `json.dumps` text goes to each connection in order, or the `TypeError` is raised |
| ConnectionManager.GroupSend | backend/server.py:72-75 | the frame is serialised up front, so a frame that cannot be serialised fails even for an empty group; otherwise `send_to_user` runs for each listed id in order |
| ConnectionManager.Manager.constructor | backend/server.py:41-43 | both maps start empty |
| ConnectionManager.Manager.Connect | backend/server.py:45-50 | the maps change exactly as `Connected` says and the invariant holds |
| ConnectionManager.Manager.Disconnect | backend/server.py:52-59 | the maps change exactly as `Disconnected` says and the invariant holds |
| ConnectionManager.Manager.SendPersonalMessage | backend/server.py:61-64 | one write to the registered socket, none for an unknown id |
| ConnectionManager.Manager.SendToUser | backend/server.py:66-70 | the loop performs exactly `UserSend`'s writes |
| ConnectionManager.Manager.SendToGroup | backend/server.py:72-75 | the loop performs exactly `GroupSend`'s writes |
| ServerRoutes.FindConversation | backend/server.py:319-321 | the first stored conversation with the id: no match exactly when none has it, and otherwise the match at the least index |
| ServerRoutes.Authorize | backend/server.py:319-325 | 404 exactly when the conversation is missing, 403 exactly when the caller is not a participant, the conversation otherwise |
| ServerRoutes.Accept | backend/server.py:313-337 | over-long content is 422, then 404/403; otherwise the new message carries the caller as sender, the request's content and conversation, and is pushed to the participants in stored order, the caller included |
| ServerRoutes.InsertedDocumentRejected | backend/server.py:328-353 | the frame built from the stored document cannot be serialised, whatever the message |
| ServerRoutes.SendAsWritten | backend/server.py:313-355 | past the checks the message is stored and the call fails with 500 with no push |
| ServerRoutes.SendAsWrittenFails | backend/server.py:313-355 | a participant posting "hi" with nobody connected still gets a 500 |
| ServerRoutes.MessageJsonAccepted | backend/server.py:328-337 | the message as plain JSON, timestamp as text, always serialises |
| ServerRoutes.FrameText | backend/server.py:350-353 | the corrected frame's `json.dumps` text, printable ASCII |
| ServerRoutes.Send | backend/server.py:313-355 | with the corrected frame the message is stored and returned and the frame goes to every participant's connections in order |
| ServerRoutes.SendReachesParticipants | backend/server.py:323-353 | every registered connection of every participant, the sender's own included, receives the new-message frame, each send taken as atomic and successful |
| ServerRoutes.SendMessageAsWritten | backend/server.py:313-355 | the route over the live registry behaves as `SendAsWritten` |
| ServerRoutes.SendMessage | backend/server.py:313-355 | the route over the live registry behaves as `Send` |
| ServerRoutes.InConversation | backend/server.py:372-373 | exactly the stored messages of the conversation |
| ServerRoutes.InsertNewest | backend/server.py:374 | inserting into a newest-first list keeps it newest first and adds just that message |
| ServerRoutes.InsertNewestKeeps | backend/server.py:374 | insertion adds exactly one copy of the message to the multiset |
| ServerRoutes.SortNewest | backend/server.py:374 | the sort is newest first and a permutation of its input |
| ServerRoutes.Reverse | backend/server.py:376 | element i of the result is element n-1-i of the input |
| ServerRoutes.ReverseKeepsMultiset | backend/server.py:376 | reversal is a permutation |
| ServerRoutes.GetMessages | backend/server.py:357-377 | fails exactly as `Authorize` does; otherwise the newest `limit` messages of the conversation, reversed |
| ServerRoutes.LatestInOrder | backend/server.py:372-377 | the answer is oldest first and holds `min(limit, count)` messages |
| ServerRoutes.LatestAndOmittedAreAll | backend/server.py:372-377 | returned and cut-off messages together are all of the conversation's messages |
| ServerRoutes.OmittedAreOlder | backend/server.py:372-377 | no cut-off message is newer than a returned one |
| ServerRoutes.LatestOfConversation | backend/server.py:372-374 | every returned message belongs to the asked conversation |
| ServerRoutes.ParticipantSet | backend/server.py:386 | the requested ids plus the caller, each once |
| ServerRoutes.FindDirect | backend/server.py:389-393 | the stored direct conversation at the least index whose participants include every wanted id, or none when no stored conversation does |
| ServerRoutes.UsersIn | backend/server.py:398-401 | exactly the stored users whose ids are wanted, as an order-preserving subsequence of the collection, each stored record as often as it is stored |
| ServerRoutes.CreateConversation | backend/server.py:380-414 | an existing conversation is returned only for a two-person direct request, and it is the first stored direct conversation covering both people; otherwise a new one has the fresh id, the request's kind and name, and at most 100 of the wanted users |
| ServerRoutes.NewConversationHasEveryone | backend/server.py:386-401 | when the wanted users exist and number at most 100, a new conversation has exactly the requested people plus the caller |
| ServerRoutes.LookupMatchesLargerConversation | backend/server.py:389-395 | the `$all` lookup also returns a three-person direct conversation for a two-person request |
| Domain.PrependIfAbsent | frontend/src/components/MobileDashboard.js:52-58 | the started conversation is listed afterwards; the list is unchanged if its id was there, else it goes in front; distinct ids stay distinct |
| MobileDashboard.Loaded | frontend/src/components/MobileDashboard.js:23-41 | both lists on success, neither on failure, and the spinner ends either way |
| MobileDashboard.Open | frontend/src/components/MobileDashboard.js:60-76 | the conversation is selected on the chat screen with the sidebar closed |
| MobileDashboard.Started | frontend/src/components/MobileDashboard.js:43-66 | the returned conversation is prepended only if its id is new, then opened; a failed request changes nothing |
| MobileDashboard.GroupCreated | frontend/src/components/MobileDashboard.js:68-80 | the new group is prepended without an id check and opened, users and spinner unchanged; a failure changes nothing |
| MobileDashboard.Refreshed | frontend/src/components/MobileDashboard.js:82-89 | the fetched list replaces the old one; a failure keeps it |
| MobileDashboard.Selected | frontend/src/components/MobileDashboard.js:91-95 | selection set, chat screen, sidebar closed |
| MobileDashboard.BackToList | frontend/src/components/MobileDashboard.js:97-101 | list screen, sidebar open, nothing selected |
| MobileDashboard.SettingsOpened | frontend/src/components/MobileDashboard.js:103-106 | settings screen with the sidebar closed; selection, lists and spinner unchanged |
| MobileDashboard.SettingsClosed | frontend/src/components/MobileDashboard.js:108-111 | list screen with the sidebar open; selection, lists and spinner unchanged |
| MobileDashboard.DesktopSettingsClosed | frontend/src/components/MobileDashboard.js:226-230 | the desktop settings pane's close sets the list view only: the sidebar flag, selection, lists and spinner stay |
| MobileDashboard.DesktopPane | frontend/src/components/MobileDashboard.js:216-248 | once the initial load has settled, the desktop main pane shows the chat on the chat view, the settings on the settings view, the placeholder on the list view with nothing open, and nothing exactly on the list view with a conversation open |
| MobileDashboard.StepKeepsCoherent | frontend/src/components/MobileDashboard.js:91-111 | every phone handler keeps the sidebar open exactly on the list screen and a selection on the chat screen |
| MobileDashboard.RunKeepsCoherent | frontend/src/components/MobileDashboard.js:43-111 | the same holds after any sequence of phone-handler actions |
| MobileDashboard.RunKeepsChatHasConversation | frontend/src/components/MobileDashboard.js:43-111 | every action, the desktop close included, keeps a conversation behind the chat view |
| MobileDashboard.DesktopCloseBlanksPane | frontend/src/components/MobileDashboard.js:91-248 | selecting a conversation, opening settings and closing them from the desktop pane leaves the list view with the sidebar flag off and the conversation open: the phone coherence is broken and the desktop main pane renders nothing |
| MobileDashboard.InitialCoherent | frontend/src/components/MobileDashboard.js:15-20 | the first render is coherent and loading |
| MobileDashboard.GroupCreatedDuplicates | frontend/src/components/MobileDashboard.js:73 | a group whose id is already listed ends up listed twice |
| MobileDashboard.MobileDashboardView.constructor | frontend/src/components/MobileDashboard.js:15-20 | the list screen, nothing selected, empty lists, loading, sidebar open |
| MobileDashboard.MobileDashboardView.LoadData | frontend/src/components/MobileDashboard.js:23-41 | the fields change exactly as `Loaded` says |
| MobileDashboard.MobileDashboardView.HandleStartConversation | frontend/src/components/MobileDashboard.js:43-66 | the fields change exactly as `Started` says |
| MobileDashboard.MobileDashboardView.HandleCreateGroup | frontend/src/components/MobileDashboard.js:68-80 | the fields change exactly as `GroupCreated` says |
| MobileDashboard.MobileDashboardView.RefreshConversations | frontend/src/components/MobileDashboard.js:82-89 | the fields change exactly as `Refreshed` says |
| MobileDashboard.MobileDashboardView.HandleSelectConversation | frontend/src/components/MobileDashboard.js:91-95 | the fields change exactly as `Selected` says |
| MobileDashboard.MobileDashboardView.HandleBackToList | frontend/src/components/MobileDashboard.js:97-101 | the fields change exactly as `BackToList` says |
| MobileDashboard.MobileDashboardView.HandleOpenSettings | frontend/src/components/MobileDashboard.js:103-106 | the fields change exactly as `SettingsOpened` says |
| MobileDashboard.MobileDashboardView.HandleCloseSettings | frontend/src/components/MobileDashboard.js:108-111 | the fields change exactly as `SettingsClosed` says |
| MobileDashboard.MobileDashboardView.DesktopCloseSettings | frontend/src/components/MobileDashboard.js:229 | the fields change exactly as `DesktopSettingsClosed` says |
| MobileDashboard.CreateGroupFromDialog | frontend/src/components/MobileDashboard.js:68-80 | with the dashboard's `handleCreateGroup` as the dialog's `onCreateGroup`, the dialog closes and stops loading whatever the server answered, its group name and selection stay as they were, and a failed request leaves the dashboard as it was |
| Dashboard.Loaded | frontend/src/components/Dashboard.js:22-40 | both lists on success, neither on failure, and the spinner ends either way |
| Dashboard.Started | frontend/src/components/Dashboard.js:42-65 | prepended only if its id is new, selected, chat pane; a failure changes nothing |
| Dashboard.GroupCreated | frontend/src/components/Dashboard.js:67-78 | prepended with no id check, selected, chat pane, users and spinner unchanged; a failure changes nothing |
| Dashboard.Refreshed | frontend/src/components/Dashboard.js:80-87 | the fetched list replaces the old one; a failure keeps it |
| Dashboard.Selected | frontend/src/components/Dashboard.js:106 | selecting changes only the selection: the pane, the lists and the spinner stay, so the settings pane stays up |
| Dashboard.SettingsOpened | frontend/src/components/Dashboard.js:109 | settings pane; selection, lists and spinner unchanged |
| Dashboard.SettingsClosed | frontend/src/components/Dashboard.js:128 | closing settings returns to the chat pane; selection, lists and spinner unchanged |
| Dashboard.LoadingUntilSettled | frontend/src/components/Dashboard.js:19-36 | only the initial load ends the spinner and nothing turns it back on |
| Dashboard.FailedLoadLeavesListsEmpty | frontend/src/components/Dashboard.js:15-36 | a failed first load leaves the chat pane with both lists empty and the spinner gone |
| Dashboard.DashboardView.constructor | frontend/src/components/Dashboard.js:15-19 | the chat pane, nothing selected, empty lists, loading |
| Dashboard.DashboardView.LoadData | frontend/src/components/Dashboard.js:22-40 | the fields change exactly as `Loaded` says |
| Dashboard.DashboardView.HandleStartConversation | frontend/src/components/Dashboard.js:42-65 | the fields change exactly as `Started` says |
| Dashboard.DashboardView.HandleCreateGroup | frontend/src/components/Dashboard.js:67-78 | the fields change exactly as `GroupCreated` says |
| Dashboard.DashboardView.RefreshConversations | frontend/src/components/Dashboard.js:80-87 | the fields change exactly as `Refreshed` says |
| Dashboard.DashboardView.SetSelectedConversation | frontend/src/components/Dashboard.js:106 | the fields change exactly as `Selected` says |
| Dashboard.DashboardView.OpenSettings | frontend/src/components/Dashboard.js:109 | the fields change exactly as `SettingsOpened` says |
| Dashboard.DashboardView.CloseSettings | frontend/src/components/Dashboard.js:128 | the fields change exactly as `SettingsClosed` says |
| CreateGroupModal.Without | frontend/src/components/CreateGroupModal.js:12 | every occurrence of the id goes, every other id stays as often as it occurs, and the remaining ids keep their order (a subsequence of the selection) |
| CreateGroupModal.WithoutKeepsNoDuplicates | frontend/src/components/CreateGroupModal.js:12 | filtering keeps a selection free of repeats |
| CreateGroupModal.Toggle | frontend/src/components/CreateGroupModal.js:9-15 | a selected id is removed, an unselected one is appended; other ids are unaffected |
| CreateGroupModal.ToggleKeepsNoDuplicates | frontend/src/components/CreateGroupModal.js:11-13 | a selection without repeats keeps none after a toggle |
| CreateGroupModal.ToggleTwice | frontend/src/components/CreateGroupModal.js:9-15 | toggling twice gives back the same members |
| CreateGroupModal.ToggleTwiceUnselected | frontend/src/components/CreateGroupModal.js:9-15 | toggling an unselected id twice gives back the very same list |
| CreateGroupModal.WithoutAppended | frontend/src/components/CreateGroupModal.js:12-13 | removing an id just appended gives back the list |
| CreateGroupModal.SubmitRequest | frontend/src/components/CreateGroupModal.js:19-26 | nothing exactly when the trimmed name is empty or no one is selected; otherwise the trimmed name and the selection |
| CreateGroupModal.SubmitDisabled | frontend/src/components/CreateGroupModal.js:112 | disabled exactly when the name is blank, the selection empty or a submit in progress |
| CreateGroupModal.EnabledSubmits | frontend/src/components/CreateGroupModal.js:17-112 | an enabled button always yields a request; button and handler agree except on `loading` |
| CreateGroupModal.GroupDialog.constructor | frontend/src/components/CreateGroupModal.js:5-7 | empty name and selection, not loading |
| CreateGroupModal.GroupDialog.HandleUserToggle | frontend/src/components/CreateGroupModal.js:9-15 | the selection changes exactly as `Toggle` says |
| CreateGroupModal.GroupDialog.BeginSubmit | frontend/src/components/CreateGroupModal.js:17-26 | behind the guard the request is made and `loading` set |
| CreateGroupModal.GroupDialog.SubmitSettled | frontend/src/components/CreateGroupModal.js:27-32 | `onClose` runs only when `onCreateGroup` resolves, and `loading` ends false either way |
| Seqs.Filter | frontend/src/components/MobileSidebar.js:24-40 | the result is an order-preserving subsequence holding every kept element exactly as often as the input does and no other, and everything when all are kept |
| MobileSidebar.OtherParticipant | frontend/src/components/MobileSidebar.js:56-63 | the participant at the least index whose id is not the user's, or none exactly when every participant is the user |
| MobileSidebar.FilteredConversations | frontend/src/components/MobileSidebar.js:24-34 | an order-preserving subsequence holding each matching conversation as often as the list does and nothing else; everything for an empty query |
| MobileSidebar.FilteredUsers | frontend/src/components/MobileSidebar.js:36-40 | an order-preserving subsequence holding each matching user as often as the list does and nothing else; everything for an empty query |
| MobileSidebar.MentionsIgnoresCase | frontend/src/components/MobileSidebar.js:24-40 | lower-casing either side first changes no match |
| MobileSidebar.ToLowerIdempotent | frontend/src/components/MobileSidebar.js:28 | lower-casing twice is lower-casing once |
| MobileSidebar.DirectMatchIgnoresCase | frontend/src/components/MobileSidebar.js:30-32 | a direct conversation matches a query exactly when it matches the lower-cased query |
| MobileSidebar.ConversationTitle | frontend/src/components/MobileSidebar.js:56-63 | a group gets its name (possibly missing); a direct conversation gets the display name of its first participant other than the user, or 'Неизвестный пользователь' when that name is empty or every participant is the user |
| AvatarUtils.ToInt32 | frontend/src/utils/avatarUtils.js:41 | the signed 32-bit value congruent to its input |
| AvatarUtils.ColourOf | frontend/src/utils/avatarUtils.js:25-45 | the colour is always one of the ten palette entries |
| AvatarUtils.GetBackgroundColor | frontend/src/utils/avatarUtils.js:25-45 | the loop over the code units yields `ColourOf(name)`, a palette entry |
| AvatarUtils.KnownColours | frontend/src/utils/avatarUtils.js:39-44 | the empty name hashes to 0 and gets 3B82F6; "a" hashes to 97 and gets EC4899 |
| AvatarUtils.SmallHashStep | frontend/src/utils/avatarUtils.js:41 | below 2^26 in size the step is exactly 31·hash + code |
| AvatarUtils.AvatarName | frontend/src/utils/avatarUtils.js:13 | display name, else user name, else `?`, empty counting as missing |
| AvatarUtils.GetAvatarUrl | frontend/src/utils/avatarUtils.js:3-17 | a stored `/api` picture is prefixed with the backend address, any other stored picture is returned as is, and otherwise the service draws the fallback name on its colour |
| AvatarUtils.GetGroupAvatarUrl | frontend/src/utils/avatarUtils.js:19-22 | colour from the group name or "Group", text the group name or "Группа" |
| AvatarUtils.NameStaysInItsParameter | frontend/src/utils/avatarUtils.js:16-21 | the encoded name holds no `&`, `=`, `?` or `#` |
| Text.Trim | frontend/src/components/CreateGroupModal.js:19 | the result is a slice `s[k..j]` with only whitespace before `k` and after `j`; it is empty exactly for an all-whitespace input and otherwise has no whitespace at either end |
| Text.ReplaceFirst | frontend/src/context/WebSocketContext.js:28 | no occurrence leaves the string alone; a leading one is replaced |
| Text.ReplaceFirstSkips | frontend/src/context/WebSocketContext.js:28 | a prefix that cannot start the pattern is kept and the replacement happens after it |
| Text.ReplaceFirstAtFirstOccurrence | frontend/src/context/WebSocketContext.js:28 | at the first index where the pattern occurs, whatever precedes it, the result is the text before it, then the replacement, then the text after the occurrence |
| Text.EncodeUriComponent | frontend/src/utils/avatarUtils.js:16-21 | the result holds only unreserved characters and `%`, and unreserved input passes unchanged |
| UserSettings.InitialForm | frontend/src/components/UserSettings.js:12-17 | avatar defaults to '', theme to 'light' when missing or empty, notifications to true only when missing |
| UserSettings.Changed | frontend/src/components/UserSettings.js:23-29 | the named field takes the checkbox state or the text; every other field is unchanged |
| UserSettings.LastChangeWins | frontend/src/components/UserSettings.js:23-29 | a second edit of a field replaces the first |
| UserSettings.CheckAvatarFile | frontend/src/components/UserSettings.js:32-45 | no file, a non-`image/` type, and more than 5 MiB are refused in that order; anything else is accepted |
| UserSettings.AvatarLimitInclusive | frontend/src/components/UserSettings.js:42-45 | exactly 5 MiB passes, one byte more does not |
| UserSettings.SettingsAvatar | frontend/src/components/UserSettings.js:86-91 | the form's avatar when truthy, else `getAvatarUrl(user, 80)` |
| UserSettings.UploadShowsPicture | frontend/src/components/UserSettings.js:58-91 | after an upload the screen shows the uploaded picture |
| UserSettings.InitialAvatar | frontend/src/components/UserSettings.js:86-91 | before any edit a stored picture is shown, else the generated avatar |
| UserSettings.SettingsScreen.constructor | frontend/src/components/UserSettings.js:12-20 | the form starts as `InitialForm`, not uploading |
| UserSettings.SettingsScreen.HandleChange | frontend/src/components/UserSettings.js:23-29 | the form changes exactly as `Changed` says |
| UserSettings.SettingsScreen.BeginAvatarUpload | frontend/src/components/UserSettings.js:31-47 | a refused file changes nothing; an accepted one sets `uploading` |
| UserSettings.SettingsScreen.AvatarUploadSettled | frontend/src/components/UserSettings.js:51-66 | success sets the avatar to the backend address plus the returned path, failure keeps the form, and `uploading` ends false |

## Left out

- JSON on the client. `JSON.parse` of inbound frames is `Payload` (an envelope, or unparsable). The frame `sendMessage` stringifies is taken as text.
- Frames without a `message` field. A `new_message` frame that lacks one appends `undefined` in the source; the model's envelope always carries a message.
- Sockets and timers. These are modelled as transport calls and pending timers fired by explicit steps. Browser scheduling, real delays, socket send failures and socket identity are not modelled. A late `onclose` from an old socket acts on the provider like any other close, as in the source.
- React. State batching, effect ordering and stale closure captures are not modelled; each handler is one atomic step. The chat window's own ordering (updater then `onConversationUpdate`) is kept.
- Requests. axios requests and their errors are inputs: a result or `None`. Toasts, logging, JSX rendering, scrolling and textarea sizing are not modelled.
- Backend sends. `send_text` is modelled as atomic and never failing. A send that raises on a dead socket would abort the rest of the fan-out and answer 500 after the insert; that is not modelled. Another coroutine's `connect` or `disconnect` during a fan-out's `await` is not modelled either; it can shift the live connection list that `send_to_user` iterates and skip a connection. `WritesReach`, `GroupReaches` and `SendReachesParticipants` hold only under this assumption.
- MongoDB, bcrypt, JWT, FastAPI routing, authentication (401) and the websocket endpoint's accept/receive loop. Collections are sequences in natural order; clock readings and uuids are parameters.
- `send_message`'s `updated_at` write to the conversation.
- `register`, `login`, `logout`, profile update, `get_users`, `search_users`, `get_conversations`, `create_group`, `add_participants` and the health check. They are outside the modelled core.
- ServerRoutes.GetMessages: requires `limit > 0`. The database's behaviour for a zero or negative limit is not modelled.
- ServerRoutes.SortNewest: equal timestamps keep storage order. The database does not promise any order for ties.
- ServerRoutes.ParticipantSet: a set. Python's set iteration order, which decides the `$all` list's order, is not modelled; the lookup does not depend on it.
- Text.ToLower: only ASCII letters are lower-cased. JavaScript's full Unicode case mapping, which also folds the Cyrillic names this client shows, is not modelled.
- Text.Trim: `trim` uses the ECMAScript whitespace set. Line terminators are included; nothing else is.
- AvatarUtils.HashStep: the hash is an unbounded integer. Double precision loss for names long enough to push the hash past 2^53 is not modelled.
- `formatTime`, `formatMessageTime` and `preloadAvatar`: date arithmetic, locale formatting and the DOM `Image` object.
- Layout rendering. Of what the phone dashboard renders, only the desktop main pane's choice of branch is modelled (`DesktopPane`). `sidebarOpen` is kept as state, as the component keeps it, although nothing in the component reads it.
- The settings form's save (`handleSubmit`), logout and tabs.
- PyJson.Dumps: covers the value kinds the backend passes it: dictionaries, strings, integers, booleans, `None`, `datetime`, `ObjectId`. Floats and lists are not modelled.

## Findings

| source | as written | input that shows it | evidently intended | confidence | as-written member | corrected member |
|---|---|---|---|---|---|---|
| backend/server.py:328-353 | `send_message` pushes `{"type": "new_message", "message": message_dict}`. `message_dict` holds `datetime.utcnow()` and, after `insert_one`, an `ObjectId` `_id`. `send_to_group` runs `json.dumps` on it, which raises `TypeError` after the message is stored. | any participant posting any valid content, e.g. "hi" to their own conversation with nobody connected | the message is stored and returned, and the frame reaches every participant's connections | high; not executed | ServerRoutes.SendAsWrittenFails | ServerRoutes.SendReachesParticipants |
