# Chat client state holders, modelled in Dafny

This project models the small state holders of a browser chat client written in
TypeScript and React, and proves what their updates promise:

- **Unread counters** (`useUserUnreadCounts`): a dictionary from user id to count.
  It is initialised from a list of users and changed by four updaters and a
  defaulting lookup (`unread_counts.dfy`, module `UnreadCounts`).
- **Socket-facing client state** (`useSocket`): the connection flag, the
  online-users list, the typing set, the socket service's message-handler slots
  and the events emitted to the server, kept as an outbox log
  (`use_socket.dfy`, module `UseSocket`).
- **AI assistant message log** (`ChatAIPage`): a log that starts with a greeting.
  It grows by one message per accepted submit and one per finished request
  (`chat_ai.dfy`, module `ChatAI`). JavaScript's `String.prototype.trim` is
  modelled in `js_string.dfy` (module `JsString`), with the ECMAScript
  white-space and line-terminator set.
- **Session token** (`setAuthToken`, `getSessionToken`): local storage as a map
  and the HTTP client's default `Authorization` header as an optional string
  (`auth_token.dfy`, module `AuthToken`).
- **Authentication context** (`AuthProvider`, `useAuth`): the `isAuthenticated`
  and `isLoading` flags, driven by a mount check, `login` and `logout`
  (`auth_context.dfy`, module `AuthContext`).

`wrappers.dfy` holds `Option` (JavaScript `null`/`undefined`) and `Result` (a
thrown error).

Each state holder is a class whose methods state the new state through pure
functions. The properties of those functions are proved as lemmas: "only this
key changes", non-negative counts, presence-list order, idempotence, the
connection gate, and agreement between the token storage and the
authentication flags.

In the code, presence is a list updated by filter-then-append, not a set. The
logout teardown clears only presence and typing; unread counts are untouched.
The code has no message de-duplication, no typing or search debounce, and no
guard against stale history responses, so the model has none either.

## Model

| member | source | states |
|---|---|---|
| `UnreadCounts.Put` | src/hooks/use-user-unread-counts.ts:25-28 | the spread write `{...prev, [id]: v}`: adds `id` to the keys, reads back `v`, and keeps every other entry |
| `UnreadCounts.MissingZeros` | src/hooks/use-user-unread-counts.ts:13-18 | the entries the init adds: exactly the listed users with no entry, each mapped to 0 |
| `UnreadCounts.CollectMissing` | src/hooks/use-user-unread-counts.ts:13-18 | the `forEach` loop builds a map whose keys are the listed users absent from the counts, all 0 |
| `UnreadCounts.MergeMissing` | src/hooks/use-user-unread-counts.ts:13-21 | merging what the loop collects gives `WithMissingZeros`; the collection is non-empty iff some listed user has no entry |
| `UnreadCounts.WithMissingZeros` | src/hooks/use-user-unread-counts.ts:19-21 | after the merge, the keys are the old keys plus every listed user; existing counts are untouched and new ones are 0 |
| `UnreadCounts.InitIdempotent` | src/hooks/use-user-unread-counts.ts:12-22 | running the init twice with the same users equals running it once |
| `UnreadCounts.UnreadCountStore.InitFromUsers` | src/hooks/use-user-unread-counts.ts:12-22 | the init effect updates state iff some listed user has no entry; when all are present, the counts are unchanged |
| `UnreadCounts.Update` | src/hooks/use-user-unread-counts.ts:24-29 | `id` is set to the given count, unclamped; every other key reads as before |
| `UnreadCounts.Increment` | src/hooks/use-user-unread-counts.ts:31-36 | `id` becomes its old count plus 1, a missing key counting as 0; other keys read as before |
| `UnreadCounts.Decrement` | src/hooks/use-user-unread-counts.ts:38-43 | `id` becomes its old count minus 1 when that was at least 1, and 0 otherwise, so never negative; other keys read as before |
| `UnreadCounts.Reset` | src/hooks/use-user-unread-counts.ts:45-50 | `id` is present with 0; other keys read as before |
| `UnreadCounts.UnreadCountStore.GetUnreadCount` | src/hooks/use-user-unread-counts.ts:52-54 | the stored count, or 0 for an unknown id |
| `UnreadCounts.IncrementThenDecrement` | src/hooks/use-user-unread-counts.ts:31-43 | increment then decrement restores any non-negative count, and the whole map when the key was present |
| `UnreadCounts.NonNegativePreserved` | src/hooks/use-user-unread-counts.ts:24-50 | from non-negative counts, any sequence of updaters keeps every count non-negative, unless `updateUnreadCount` is given a negative value |
| `UnreadCounts.KeysOnlyGrow` | src/hooks/use-user-unread-counts.ts:12-50 | no updater or init ever removes a user's entry |
| `UnreadCounts.UnreadCountStore.UpdateUnreadCount` | src/hooks/use-user-unread-counts.ts:24-29 | the hook's state becomes `Update` of the old state |
| `UnreadCounts.UnreadCountStore.IncrementUnreadCount` | src/hooks/use-user-unread-counts.ts:31-36 | the hook's state becomes `Increment` of the old state |
| `UnreadCounts.UnreadCountStore.DecrementUnreadCount` | src/hooks/use-user-unread-counts.ts:38-43 | the hook's state becomes `Decrement` of the old state |
| `UnreadCounts.UnreadCountStore.ResetUnreadCount` | src/hooks/use-user-unread-counts.ts:45-50 | the hook's state becomes `Reset` of the old state |
| `UnreadCounts.UnreadCountStore.constructor` | src/hooks/use-user-unread-counts.ts:9 | the counts start empty |
| `UseSocket.Without` | src/hooks/useSocket.ts:36 | the filtered list lacks `id`, keeps every other id's multiplicity, and is no longer than the input |
| `UseSocket.WithoutIsSubsequence` | src/hooks/useSocket.ts:36 | the filtered list is a subsequence of the input, so the kept ids stay in their order |
| `UseSocket.WithoutIdempotent` | src/hooks/useSocket.ts:36 | filtering the same id twice equals filtering it once |
| `UseSocket.WithoutAppend` | src/hooks/useSocket.ts:32 | filtering distributes over concatenation |
| `UseSocket.MarkOnline` | src/hooks/useSocket.ts:31-33 | after `user_online`, the id is the last entry and occurs nowhere before it; the list grows by at most one |
| `UseSocket.MarkOffline` | src/hooks/useSocket.ts:35-37 | after `user_offline`, the id is absent and the list is no longer than before |
| `UseSocket.MarkOnlineSpec` | src/hooks/useSocket.ts:31-33 | after `user_online`, the id occurs exactly once and last; other ids keep their multiplicities, and removing the id gives the old list without it, in order |
| `UseSocket.MarkOfflineSpec` | src/hooks/useSocket.ts:35-37 | after `user_offline`, the id is absent; the other entries are kept with their multiplicities and in order |
| `UseSocket.PresenceIdempotent` | src/hooks/useSocket.ts:31-37 | a repeated `user_online` or `user_offline` for the same id changes nothing further |
| `UseSocket.ApplyTyping` | src/hooks/useSocket.ts:40-50 | after a typing event, `userId` is in the set iff `isTyping`; every other member is unchanged |
| `UseSocket.MergeHandlers` | src/hooks/useSocket.ts:109-121 | each of the five slots takes the given handler when one is supplied and keeps its previous handler otherwise |
| `UseSocket.MergeHandlersCompose` | src/hooks/useSocket.ts:109-121 | two successive calls equal one call with the second handlers laid over the first; a call with no handlers changes nothing |
| `UseSocket.DisconnectedEmitsNothing` | src/hooks/useSocket.ts:65-106 | `Gate`, the step each outbound method's contract uses, composed over any sequence of events with the gate closed leaves the outbox unchanged (the outbound methods modify only the outbox, so the gate's value is the same for every call of a run) |
| `UseSocket.ConnectedEmitsAll` | src/hooks/useSocket.ts:65-106 | `Gate` composed over any sequence of events with the gate open appends exactly those events, in order |
| `UseSocket.SocketService.constructor` | src/services/socketService.ts:44-57 | the singleton starts at process start with no socket, no stray sockets, no installed handlers and an empty outbox |
| `UseSocket.SocketHook.constructor` | src/hooks/useSocket.ts:7-9 | a mount starts disconnected with no online or typing users, over the shared service as it finds it |
| `UseSocket.SocketHook.Connect` | src/hooks/useSocket.ts:12-51 | attempts only when authenticated and not connected; every attempt installs this hook's presence and typing handlers; fails without a truthy token; with a token, a new socket replaces the service's socket, and an existing one is counted as a stray rather than closed, whether or not the handshake is accepted; on an accepted handshake the hook is connected, the service holds a socket and `get_online_users` is emitted |
| `UseSocket.SocketHook.Receives` | src/services/socketService.ts:96-142 | an inbound event reaches only the hook whose handlers are installed on the service, and only while some socket, current or replaced, exists; a socket counts as able to deliver whether or not its handshake succeeded, which stands in for socket.io's automatic reconnects |
| `UseSocket.SocketHook.OnOnlineUsers` | src/hooks/useSocket.ts:26-28 | an `online_users` snapshot replaces the list wholesale |
| `UseSocket.SocketHook.OnUserOnline` | src/hooks/useSocket.ts:31-33 | the list becomes `MarkOnline` of the old list |
| `UseSocket.SocketHook.OnUserOffline` | src/hooks/useSocket.ts:35-37 | the list becomes `MarkOffline` of the old list |
| `UseSocket.SocketHook.OnUserTyping` | src/hooks/useSocket.ts:40-50 | the typing set becomes `ApplyTyping` of the old set |
| `UseSocket.SocketHook.Emit` | src/services/socketService.ts:145-207 | an event reaches the service's outbox only when the hook is connected and the service still holds a socket; nothing is emitted when the hook is not connected |
| `UseSocket.SocketHook.SendMessageTo` | src/hooks/useSocket.ts:65-71 | emits `send_message` only when the hook is connected and the service holds a socket |
| `UseSocket.SocketHook.JoinConversationWith` | src/hooks/useSocket.ts:74-80 | emits `join_conversation` only when the hook is connected and the service holds a socket |
| `UseSocket.SocketHook.LeaveConversationWith` | src/hooks/useSocket.ts:83-89 | emits `leave_conversation` only when the hook is connected and the service holds a socket |
| `UseSocket.SocketHook.StartTyping` | src/hooks/useSocket.ts:92-95 | emits `typing_start` only when the hook is connected and the service holds a socket |
| `UseSocket.SocketHook.StopTyping` | src/hooks/useSocket.ts:97-100 | emits `typing_stop` only when the hook is connected and the service holds a socket |
| `UseSocket.SocketHook.MarkRead` | src/hooks/useSocket.ts:103-106 | emits `mark_messages_read` only when the hook is connected and the service holds a socket |
| `UseSocket.SocketHook.SetMessageHandlers` | src/hooks/useSocket.ts:109-121 | the shared service's slots become `MergeHandlers` of the old slots |
| `UseSocket.SocketHook.Teardown` | src/hooks/useSocket.ts:54-61 | when not authenticated but connected: drops the service's socket, clears the connection flag, and empties the online list and typing set; otherwise changes nothing, so an unmount while authenticated leaves the socket open; stray sockets are never touched |
| `UseSocket.Remount` | src/hooks/useSocket.ts:12-61 | a hook unmounted while authenticated still believes it is connected and leaves the service's socket open; a new mount connects again, takes over the presence handlers and replaces the socket, leaving the old one connected as a stray; `get_online_users` is emitted once per mount |
| `UseSocket.LogoutAfterRemount` | src/hooks/useSocket.ts:12-61 | after a remount, `disconnect()` closes only the newest socket: the first mount's socket stays connected with the user's token and its listeners keep calling the service's installed handlers (the refilled list in its last clause exists only because the model's teardown is an explicit call) |
| `JsString.TrimStart` | src/pages/ChatAIPage.tsx:65 | the result is a suffix of the input; what it drops is all white space, and it does not start with white space |
| `JsString.TrimEnd` | src/pages/ChatAIPage.tsx:65 | the result is a prefix of the input; what it drops is all white space, and it does not end with white space |
| `JsString.Trim` | src/pages/ChatAIPage.tsx:65 | the trimmed text neither starts nor ends with white space |
| `JsString.TrimIsSlice` | src/pages/ChatAIPage.tsx:65 | the trimmed text is the slice of the input between a white-space prefix and a white-space suffix |
| `JsString.TrimEmptyIffAllWhiteSpace` | src/pages/ChatAIPage.tsx:61 | `trim()` is empty exactly when the input is all white space |
| `JsString.TrimIdempotent` | src/pages/ChatAIPage.tsx:65-74 | trimming twice equals trimming once, a general property of `trim` |
| `ChatAI.SendBlockedMeaning` | src/pages/ChatAIPage.tsx:61 | the submit guard rejects exactly while loading or when the input is all white space |
| `ChatAI.ChatAIPage.constructor` | src/pages/ChatAIPage.tsx:17-25 | the log is exactly one non-user greeting; the input is empty and nothing is loading |
| `ChatAI.ChatAIPage.SetInput` | src/pages/ChatAIPage.tsx:165 | the input holds the typed text |
| `ChatAI.ChatAIPage.HandleSendMessage` | src/pages/ChatAIPage.tsx:58-75 | accepted iff the send button is enabled (line 173); a rejected submit changes nothing; an accepted one appends one user message with the trimmed input, clears the input, sends the trimmed text and starts loading; the log only grows and keeps its greeting |
| `ChatAI.ChatAIPage.OnSuccess` | src/pages/ChatAIPage.tsx:37-45 | appends exactly one non-user message whose content is the response |
| `ChatAI.ChatAIPage.OnError` | src/pages/ChatAIPage.tsx:46-55 | appends exactly one non-user message with the fixed apology |
| `ChatAI.Exchange` | src/pages/ChatAIPage.tsx:17-75 | from a fresh page, a submit and its reply give the log greeting, trimmed question, reply; a second submit while loading is rejected |
| `AuthToken.SessionToken` | src/lib/utils.ts:19-21 | the stored entry under 'authToken', or none |
| `AuthToken.StoreToken` | src/lib/utils.ts:9-17 | a truthy token is stored and read back; null or "" leaves no entry; no other key is touched |
| `AuthToken.AuthHeader` | src/lib/utils.ts:9-17 | the header is present iff the token is truthy, as 'Bearer ' followed by the token |
| `AuthToken.EmptyTokenClears` | src/lib/utils.ts:10 | `setAuthToken('')` acts as `setAuthToken(null)` on storage and header |
| `AuthToken.StoreTokenIdempotent` | src/lib/utils.ts:9-17 | applying `setAuthToken` twice with the same argument equals applying it once |
| `AuthToken.HeaderAgreesWithStorage` | src/lib/utils.ts:9-17 | after `setAuthToken`, the header is present iff a token is stored, and it carries that token |
| `AuthToken.ClientEnvironment.constructor` | src/lib/axiosInterceptors.ts:5-7 | the HTTP client is created with no default `Authorization` header, over whatever local storage the browser already holds |
| `AuthToken.ClientEnvironment.SetAuthToken` | src/lib/utils.ts:9-17 | the storage entry and the default header are written, or removed, together |
| `AuthToken.ClientEnvironment.GetSessionToken` | src/lib/utils.ts:19-21 | returns the 'authToken' entry, or none when it is absent |
| `AuthContext.UseAuth` | src/contexts/AuthContext.tsx:43-49 | fails with the provider error exactly when there is no context, and returns the context otherwise |
| `AuthContext.AuthProvider.constructor` | src/contexts/AuthContext.tsx:13-15 | starts not authenticated and loading |
| `AuthContext.AuthProvider.CheckSession` | src/contexts/AuthContext.tsx:17-24 | loading ends; authenticated iff a truthy token is stored, given the provider started unauthenticated |
| `AuthContext.AuthProvider.Login` | src/contexts/AuthContext.tsx:26-29 | stores the token and sets authenticated, with loading unchanged; the flag agrees with storage for a non-empty token, and not for "" |
| `AuthContext.AuthProvider.Logout` | src/contexts/AuthContext.tsx:31-34 | removes the token and the header and clears authenticated, with loading unchanged; the flag agrees with storage |
| `AuthContext.LoginThenLogout` | src/contexts/AuthContext.tsx:26-34 | after login then logout, no token is stored and the user is not authenticated |

## Left out

- The socket.io client (src/services/socketService.ts) is not modelled as a network client. Its effect is the shared `SocketService` object: an outbox log, a flag for whether a socket object exists, a count of replaced sockets that were never disconnected, and the handler slots. The handshake result is the `accepted` parameter of `Connect`, and the stored token is its `token` parameter.
- socket.io's own reconnects and server-side disconnects are not modelled as steps: the source does not observe them, so `isConnected` stays true. Their one effect the model keeps is that a socket whose handshake failed may still deliver events (`UseSocket.SocketHook.Receives`).
- UseSocket.SocketHook.Connect: every connect while the service already holds a socket (a retry after a failed handshake, or a new mount after an unmount while authenticated, as in `UseSocket.Remount`) replaces the socket without disconnecting the old one. The model counts such sockets in `strayConnections` and lets them deliver events to the installed handlers (`Receives`), but does not tell them apart: which token each carries, and that each keeps the user online at the server after `Teardown`, are not represented. A socket whose handshake failed is treated as able to deliver events, as socket.io's automatic reconnect would make it. In the source, the cleanup that passes the guard at src/hooks/useSocket.ts:55 runs only at unmount or at the next login, because React runs it with the previous render's values; a logged-out, torn-down hook whose list a stray socket refills, as in `UseSocket.LogoutAfterRemount`, is a state of the model only.
- When React runs an effect or its cleanup is left out. The teardown is an explicit method guarded by the condition at src/hooks/useSocket.ts:55, and the caller passes `isAuthenticated`.
- UnreadCounts.UnreadCountStore.InitFromUsers: in the source, the presence check reads the render's captured `unreadCounts` while the merge reads `prev`. The model has one state, so these two agree.
- JavaScript numbers are modelled as unbounded integers. NaN, infinities and fractional counts are left out.
- JavaScript's `in` operator on plain objects is modelled as map membership. Inherited keys such as "constructor" or "toString" would count as present in the source but not in the model.
- Message timestamps, `Date.now()` (its decimal text is the `now` parameter), `formatTime` and scrolling are left out. Ids are not claimed unique.
- The react-query mutation is modelled as the `isLoading` flag, the list of texts it was given, and its two callbacks. Retries and caching are left out.
- The input box is disabled while loading (src/pages/ChatAIPage.tsx:167). This is rendering, so `SetInput` is not guarded.
- Handlers are JavaScript closures. Only their identity is modelled (`HandlerId`); the presence and typing handlers are recorded as the hook that installed them.
- JavaScript strings are UTF-16 code units; Dafny strings hold Unicode scalar values, so lone surrogates are not represented. `trim` is unaffected: every ECMAScript white-space character lies in the Basic Multilingual Plane.
- `console.error` logging, `cn`, and the HTTP modules are left out: src/api/*.ts, src/lib/axiosClient.ts and src/lib/axiosInterceptors.ts.
- The React Query hooks, pages, components, routing and auth forms are left out: they only render or wrap library calls.
