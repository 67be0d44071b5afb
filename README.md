# fusetalk: matching, mutual likes and peer negotiation, modelled in Dafny

fusetalk pairs anonymous users for text and video chat. This project models
the parts of it that hold state and decide something:

- the **matching queue**, with its three-pass pairing rule, queue positions,
  statistics and the `match_found` notifications it pushes to each user's
  socket group;
- the **mutual-like protocol**: likes, the one fuse moment per session, and
  contact exchange;
- the **server-side sockets**:
  - connection gating with close codes 4001 and 4003, from the private-use
    range of RFC 6455, section 7.4.2;
  - channel-layer group membership;
  - the chat broadcast, which includes the sender;
  - the signalling relay, which excludes the sender;
  - the heartbeat reply;
- the **client matching socket**: connect, the close handler swap on open, one
  reconnect per abnormal close, heartbeat, disconnect, and send-or-drop;
- the **peer negotiation engine** of the video call:
  - the role taken from the user id and the session id;
  - start-up;
  - the offer/answer/candidate handler over the `RTCSignalingState` machine of
    W3C WebRTC 1.0, section 4.3.1;
  - track toggles and the cleanup order;
- the **validators and small transforms**: join request and response
  constraints, guest nickname registration, the message preview, and the
  bulk report actions.

Every entity the code updates in place is a `class`:

| class | what it holds |
|---|---|
| `MatchingService.Queue` | the queue table, the sessions and the outbox of notifications |
| `ChatViews.FuseStore` | likes, moments and contacts |
| `ChatConsumers.Server` | groups, connections, stored messages and client inboxes |
| `MatchingConsumer.Endpoint` | the matching socket's groups and client inboxes |
| `MatchingSocket.Socket` | the client matching socket |
| `PeerNegotiation.Engine` | the negotiation engine |
| `UserSerializers.UserTable` | the user table |
| `ModerationAdmin.ReportTable` | the report table |

- Each handler is one atomic method.
- Timers and browser events are methods too.
- Pure rules are functions with lemmas:
  - the pairing rule, the description setters and the message handler;
  - validation, previews, the close reaction and role order.

Where the code and its design notes disagree, the model follows the code:

- **Role.** Each peer compares its own user id with the session id. A user id
  that sorts first makes that peer *polite*. The roles are therefore not
  complementary: two users can both be polite, and then nobody sends the first
  offer (`PeerNegotiation.BothPeersCanBePolite`).
- **Reconnect.** After a socket has opened, its close handler only stops the
  heartbeat, so a later drop never reconnects.
- **Disconnect.** It cancels only the last remembered reconnect timer.
- **Unknown ids.** An unknown session or fuse moment answers 500, not 404. The
  not-found error is raised inside a catch-all handler.
- **ICE candidates.** A candidate that arrives before the remote description is
  dropped, not buffered.

## Model

| member | source | states |
|---|---|---|
| ChannelLayer.GroupAdd | Backend/apps/chat/consumers.py:23-26 | `group_add`: the channel joins exactly that group; every other group keeps its members |
| ChannelLayer.GroupDiscard | Backend/apps/chat/consumers.py:50-53 | `group_discard`: the channel leaves that group (no-op if absent); every other group keeps its members |
| ChannelLayer.Deliver | Backend/apps/chat/consumers.py:71-79 | `group_send`: every member gets exactly one more frame, the event; every non-member's frames are unchanged |
| ChannelLayer.SendTo | Backend/apps/matching/consumers.py:58-61 | `self.send`: exactly one more frame to that channel, none to any other |
| MatchingService.LanguageCompatible | Backend/apps/matching/services.py:52-56 | equal languages are compatible, 'mixed' is compatible with everything, and different languages are compatible only through 'mixed' |
| MatchingService.LanguageCompatibleSymmetric | Backend/apps/matching/services.py:52-56 | compatibility is symmetric, and holds iff either side is 'mixed' or both languages are equal |
| MatchingService.FirstWithTag | Backend/apps/matching/services.py:35 | `.filter(vibe_tag=…).first()`: the index has the tag and no older entry has it; None iff no entry has it |
| MatchingService.FirstCompatible | Backend/apps/matching/services.py:45-47 | the first-match loop: the index is compatible and no older entry is; None iff no entry is compatible |
| MatchingService.MatchChoice | Backend/apps/matching/services.py:24-49 | any chosen entry is language-compatible; None exactly when no queued entry is compatible; `is_visitor` is not an input |
| MatchingService.OldestSameVibeWins | Backend/apps/matching/services.py:33-37 | priority 1: for a non-random vibe, the oldest same-vibe entry is chosen when it is compatible |
| MatchingService.OldestRandomIsSecond | Backend/apps/matching/services.py:39-42 | priority 2: when the vibe is random, no row has the vibe, or its oldest row is incompatible, the oldest 'random' row is chosen if compatible (younger same-vibe rows are never tried) |
| MatchingService.OldestCompatibleIsThird | Backend/apps/matching/services.py:44-47 | priority 3: when neither pass 1 nor pass 2 yields a compatible row, the choice is exactly the oldest compatible row of the whole table |
| MatchingService.MatchChoiceIsOldestOfItsClass | Backend/apps/matching/services.py:33-47 | the chosen entry is the oldest same-vibe entry, the oldest random entry, or the oldest compatible entry |
| MatchingService.WithoutUser | Backend/apps/matching/services.py:78 | deleting a user's rows keeps exactly the rows of other users; the length is unchanged iff the user had no row |
| MatchingService.WithoutUserKeepsOthers | Backend/apps/matching/services.py:106 | deleting one user's rows leaves every other user's rows, in order |
| MatchingService.WithoutUserOrdered | Backend/apps/matching/models.py:25 | deletion keeps the table ordered by creation time |
| MatchingService.WithoutUserOnePerUser | Backend/apps/matching/services.py:104-109 | deletion keeps at most one row per user |
| MatchingService.RemoveAt | Backend/apps/matching/services.py:121 | `potential_match.delete()`: exactly that row is gone, the others keep their order |
| MatchingService.RemoveAtKeepsInvariants | Backend/apps/matching/services.py:121 | deleting the partner's row keeps creation order and one row per user |
| MatchingService.CountCreatedBefore | Backend/apps/matching/services.py:73 | the count is exactly the number of rows created strictly before t (at most the table size) |
| MatchingService.QueuePosition | Backend/apps/matching/services.py:71-73 | the position is 1-based: between 1 and the table size plus one |
| MatchingService.PositionOfNewest | Backend/apps/matching/services.py:132-144 | a newly appended row, younger than all others, is at position table size |
| MatchingService.CountTag | Backend/apps/matching/services.py:91-93 | the count is exactly the number of rows with the tag; positive iff some row has it |
| MatchingService.CountVisitors | Backend/apps/matching/services.py:94 | the count is exactly the number of visitor rows |
| MatchingService.StatsOf | Backend/apps/matching/services.py:87-95 | `get_queue_stats`: total is the table size; the per-tag map has exactly the present tags, each mapped to the number of rows with it (1..total); visitors is the number of visitor rows |
| MatchingService.Queue.FindMatch | Backend/apps/matching/services.py:24-49 | the three-pass search, priority 3 as a loop, returns exactly `MatchChoice` of the current table |
| MatchingService.Queue.CreateSession | Backend/apps/matching/services.py:59-68 | one new active session, caller as user_a, with the vibe and language; nothing else changes |
| MatchingService.Queue.NotifyMatchFound | Backend/apps/matching/services.py:148-172 | exactly two `match_found` notifications, to `user_<a>` and `user_<b>`, each naming the other, with the session id and message |
| MatchingService.Queue.LeaveQueue | Backend/apps/matching/services.py:76-83 | returns true iff the user had a row; afterwards the user has none; other rows unchanged |
| MatchingService.Queue.PairWith | Backend/apps/matching/services.py:111-129 | the match branch: partner ≠ caller, new session, two notifications, the partner's row removed, caller not enqueued, 'matched' result |
| MatchingService.Queue.Enqueue | Backend/apps/matching/services.py:131-145 | the no-match branch: exactly one row appended; the result is 'queued' with position = table size (≥ 1) |
| MatchingService.Queue.JoinQueue | Backend/apps/matching/services.py:98-145 | caller's old rows deleted first; then pairs as `MatchChoice` says or enqueues; never paired with itself; keeps order and one row per user |
| MatchingSerializers.ValidateJoin | Backend/apps/matching/serializers.py:12-32 | accepted iff vibe and language are among their choices; defaults 'random', 'mixed', false; each invalid field is reported |
| MatchingSerializers.DecimalStringLength | Backend/apps/matching/views.py:54 | the decimal text of a number below 10^k has at most k digits (bounds the position in the queued message) |
| MatchingSerializers.JoinReply | Backend/apps/matching/views.py:51-54 | the reply status is 'matched' iff the service matched, and is always one of the two choices; the message text is added |
| MatchingSerializers.JoinReplyValid | Backend/apps/matching/serializers.py:37-41 | every join reply has a valid status, `matched_user` ≤ 50 characters and `message` ≤ 200 characters |
| UserSerializers.Validate | Backend/apps/users/serializers.py:16-30 | accepted iff the nickname has ≤ 50 characters and nobody holds it; keeps the nickname; `is_visitor` defaults to false |
| UserSerializers.GuestUsername | Backend/apps/users/serializers.py:35 | 'guest_' followed by 8 hex digits, 14 characters in all |
| UserSerializers.HeldNicknameIsRefused | Backend/apps/users/serializers.py:26-30 | once a user holds a nickname, registering it again fails |
| UserSerializers.UserTable.Create | Backend/apps/users/serializers.py:32-43 | a free generated username: exactly one row appended, holding it and the validated nickname (`is_visitor` not stored); a taken username: failure and no change |
| UserSerializers.UserTable.Register | Backend/apps/users/serializers.py:26-43 | a refused registration inserts nothing; after a successful one, the same nickname is refused |
| ChatAdmin.ContentPreview | Backend/apps/chat/admin.py:18-19 | content ≤ 50 characters unchanged; never longer than 53; the first min(len, 50) characters kept |
| ChatAdmin.PreviewIdempotent | Backend/apps/chat/admin.py:18-19 | previewing twice equals previewing once |
| ChatAdmin.LongContentIsCut | Backend/apps/chat/admin.py:19 | longer content becomes 53 characters ending in "..." |
| ModerationAdmin.UpdateSelected | Backend/apps/moderation/admin.py:13-20 | a bulk update keeps the number of reports |
| ModerationAdmin.UpdateEffect | Backend/apps/moderation/admin.py:13-20 | selected reports become reviewed, with `action_taken` unchanged, 'warning' or 'ban'; unselected reports are unchanged |
| ModerationAdmin.UpdateIdempotent | Backend/apps/moderation/admin.py:13-20 | each action applied twice equals applied once |
| ModerationAdmin.ReportTable.MarkAsReviewed | Backend/apps/moderation/admin.py:13-14 | the table becomes the `MarkReviewed` update of the selection |
| ModerationAdmin.ReportTable.TakeWarningAction | Backend/apps/moderation/admin.py:16-17 | the table becomes the `TakeWarning` update of the selection |
| ModerationAdmin.ReportTable.TakeBanAction | Backend/apps/moderation/admin.py:19-20 | the table becomes the `TakeBan` update of the selection |
| ChatViews.SummaryFits | Backend/apps/chat/views.py:44 | with nicknames ≤ 50 characters the generated summary fits the 140-character column |
| ChatViews.MomentIndex | Backend/apps/chat/models.py:53 | finds the session's moment if there is one; None iff no moment belongs to the session |
| ChatViews.NewestFirst | Backend/apps/chat/views.py:111-113 | the listing holds exactly the moments where the caller is user_a or user_b |
| ChatViews.NewestFirstIsDescending | Backend/apps/chat/views.py:113 | the listing is ordered newest first |
| ChatViews.FuseStore.LikeSession | Backend/apps/chat/views.py:15-60 | unknown session 500; non-participant 403 with nothing recorded; repeat like 'Already liked' with no change; a new like is recorded; mutual like yields the session's single moment (created once), otherwise `fuse_moment: false` |
| ChatViews.FuseStore.ShareContact | Backend/apps/chat/views.py:64-104 | unknown moment 500; non-participant 403 with no change; otherwise the contact for (moment, caller, other participant) is created or overwritten with the submitted values ('' when missing) and `contact_exchanged` becomes true |
| ChatViews.FuseStore.GetFuseMoments | Backend/apps/chat/views.py:108-133 | the loop builds exactly `NewestFirst`: the caller's moments, newest first |
| ChatConsumers.GroupOf | Backend/apps/chat/consumers.py:15 | chat connections use `chat_<id>`, signalling connections `signaling_<id>` |
| ChatConsumers.HasSessionAccess | Backend/apps/chat/consumers.py:29-35 | an unknown session grants nobody; user_a and a present user_b are granted; with no user_b only user_a is |
| ChatConsumers.ConnectDecision | Backend/apps/chat/consumers.py:7-35 | anonymous → 4001; accepted iff the session exists and the user is user_a or user_b; an authenticated non-participant → 4003 |
| ChatConsumers.ChatType | Backend/apps/chat/consumers.py:56-57 | the type is read only from an object that has one |
| ChatConsumers.ContentToSave | Backend/apps/chat/consumers.py:64-68 | content is stored exactly for a `chat_message` with a content field, unchanged |
| ChatConsumers.ChatBroadcast | Backend/apps/chat/consumers.py:55-89 | a chat message with content, sender and timestamp is broadcast with those copied; 'typing' becomes a `typing_indicator` with the server-side nickname; other types broadcast nothing |
| ChatConsumers.BroadcastFollowsSave | Backend/apps/chat/consumers.py:64-79 | every broadcast chat message was stored first, with the same content |
| ChatConsumers.RelayTargets | Backend/apps/chat/consumers.py:154-157 | a signalling frame reaches every other group member and never its sender |
| ChatConsumers.SignalingRelay | Backend/apps/chat/consumers.py:139-152 | a JSON object is relayed unchanged; invalid JSON or a non-object is not relayed |
| ChatConsumers.Server.Connect | Backend/apps/chat/consumers.py:7-27 | the decision above; a closed connection joins no group; an accepted one joins exactly its `chat_`/`signaling_` group |
| ChatConsumers.Server.ReceiveChat | Backend/apps/chat/consumers.py:55-92 | a chat message is stored once and then delivered to every group member including the sender; typing is delivered without storing |
| ChatConsumers.Server.ReceiveSignaling | Backend/apps/chat/consumers.py:139-157 | the payload goes to every other member of the signalling group; the sender's inbox is unchanged |
| ChatConsumers.Server.Disconnect | Backend/apps/chat/consumers.py:49-53 | the channel leaves its group and belongs to no group afterwards |
| MatchingConsumer.MessageType | Backend/apps/matching/consumers.py:55 | a missing type reads as 'unknown' |
| MatchingConsumer.Reply | Backend/apps/matching/consumers.py:51-64 | exactly one `heartbeat_response`/'alive' reply iff the frame is an object of type 'heartbeat'; nothing otherwise, including invalid JSON |
| MatchingConsumer.Forward | Backend/apps/matching/consumers.py:67-82 | `match_found` and `queue_update` forward their fields unchanged (the event is recoverable from the frame) |
| MatchingConsumer.ForwardInjective | Backend/apps/matching/consumers.py:67-82 | distinct events give distinct frames |
| MatchingConsumer.Endpoint.Connect | Backend/apps/matching/consumers.py:21-37 | anonymous → 4001 and no group; otherwise joins exactly `user_<id>` |
| MatchingConsumer.Endpoint.Disconnect | Backend/apps/matching/consumers.py:41-47 | leaves its group only when it had joined one |
| MatchingConsumer.Endpoint.Receive | Backend/apps/matching/consumers.py:51-64 | the reply, if any, goes to the sending channel only |
| MatchingConsumer.Endpoint.Publish | Backend/apps/matching/consumers.py:67-82 | a service notification reaches every connection in the user's group as the forwarded frame, and nobody else |
| MatchingSocket.CloseReaction | frontend/src/hooks/useWebSocket.ts:53-64 | the original close handler marks the hook disconnected and schedules a reconnect iff the code is not 1000; the handler installed on open only stops the heartbeat |
| MatchingSocket.Socket.Connect | frontend/src/hooks/useWebSocket.ts:15-77 | no token or user: nothing; constructor throws: 'Failed to connect'; otherwise a new connecting socket with the reconnecting handler becomes current |
| MatchingSocket.Socket.Opened | frontend/src/hooks/useWebSocket.ts:23-38 | connected, error cleared, heartbeat started, close handler replaced |
| MatchingSocket.Socket.CloseEvent | frontend/src/hooks/useWebSocket.ts:53-64 | before open: disconnected, and exactly one reconnect timer unless code 1000; after open: neither reconnects nor changes `isConnected` |
| MatchingSocket.Socket.Errored | frontend/src/hooks/useWebSocket.ts:66-70 | error 'Connection failed' and disconnected |
| MatchingSocket.Socket.HeartbeatTick | frontend/src/hooks/useWebSocket.ts:29-33 | the heartbeat is sent only while that socket is open |
| MatchingSocket.Socket.MessageArrived | frontend/src/hooks/useWebSocket.ts:40-51 | a parsed frame reaches the callback; a parse failure does not |
| MatchingSocket.Socket.ReconnectFires | frontend/src/hooks/useWebSocket.ts:59-62 | the fired timer is gone and `connect` runs again |
| MatchingSocket.Socket.Disconnect | frontend/src/hooks/useWebSocket.ts:79-90 | cancels the remembered timer, closes the current socket (1000), forgets it, disconnected |
| MatchingSocket.Socket.SendMessage | frontend/src/hooks/useWebSocket.ts:92-96 | sent only on an existing open socket, otherwise dropped |
| SignalingStates.SetLocal | frontend/src/hooks/useWebRTC.ts:148 | local offer allowed in stable/have-local-offer → have-local-offer; local answer only in have-remote-offer → stable; closed rejects |
| SignalingStates.SetRemote | frontend/src/hooks/useWebRTC.ts:146 | remote offer allowed in every open state → have-remote-offer; remote answer only in have-local-offer → stable; closed rejects |
| SignalingStates.ExchangeReturnsToStable | frontend/src/hooks/useWebRTC.ts:145-159 | offer then answer returns to stable, on either side |
| SignalingStates.NoAnswerFromStable | frontend/src/hooks/useWebRTC.ts:152-159 | no answer is accepted in stable |
| SignalingStates.LexLessIrreflexive | frontend/src/hooks/useWebRTC.ts:19 | no id sorts before itself |
| SignalingStates.LexLessAsymmetric | frontend/src/hooks/useWebRTC.ts:19 | two ids are never each before the other |
| SignalingStates.LexLessTotal | frontend/src/hooks/useWebRTC.ts:19 | of two different ids, one sorts first |
| PeerNegotiation.IsPolite | frontend/src/hooks/useWebRTC.ts:19 | polite only for a user id different from the session id; then polite exactly when the session id does not sort first |
| PeerNegotiation.BothPeersCanBePolite | frontend/src/hooks/useWebRTC.ts:19 | 'alice' and 'bob' in session 's1' are both polite |
| PeerNegotiation.PeerComparisonIsComplementary | frontend/src/hooks/useWebRTC.ts:19 | comparing the two user ids with each other would give opposite roles |
| PeerNegotiation.Negotiate | frontend/src/hooks/useWebRTC.ts:130-171 | impolite + collision: offer ignored; other offers: remote offer, local answer, stable, exactly one answer; answer only in have-local-offer; candidate only with a remote description on an open connection, else dropped; only answers are ever sent |
| PeerNegotiation.PoliteOfferSettles | frontend/src/hooks/useWebRTC.ts:138-150 | the polite peer accepts any offer on an open connection and ends stable, replying with its answer |
| PeerNegotiation.OfferStep | frontend/src/hooks/useWebRTC.ts:173-183 | in stable or have-local-offer the offer becomes the local description and is sent; otherwise nothing changes |
| PeerNegotiation.Post | frontend/src/hooks/useWebRTC.ts:185-190 | a message is written only while the signalling socket is open |
| PeerNegotiation.FirstOfKind | frontend/src/hooks/useWebRTC.ts:195 | the first track of the kind; None iff there is none |
| PeerNegotiation.ToggleFirst | frontend/src/hooks/useWebRTC.ts:193-213 | only the first track of the kind changes, and only its `enabled` |
| PeerNegotiation.ToggleKeepsFirst | frontend/src/hooks/useWebRTC.ts:195 | after a toggle the same track is the first of its kind |
| PeerNegotiation.ToggleTwiceRestores | frontend/src/hooks/useWebRTC.ts:193-213 | toggling twice restores every track |
| PeerNegotiation.StopEach | frontend/src/hooks/useWebRTC.ts:217 | one stop per track, in track order |
| PeerNegotiation.Engine.Start | frontend/src/hooks/useWebRTC.ts:15-33 | guarded by `isInitialized`; the first run fixes the role from user id and session id only |
| PeerNegotiation.Engine.MediaGranted | frontend/src/hooks/useWebRTC.ts:38-51 | stream kept; a fresh connection in stable; every local track added, in order, as the same track (the connection sends exactly the local tracks) |
| PeerNegotiation.Engine.MediaDenied | frontend/src/hooks/useWebRTC.ts:87-89 | start-up stops, nothing else changes |
| PeerNegotiation.Engine.ReadyDelayElapsed | frontend/src/hooks/useWebRTC.ts:73-76 | after the delay the signalling socket is created |
| PeerNegotiation.Engine.SignalingOpened | frontend/src/hooks/useWebRTC.ts:78-85 | only the impolite peer schedules the initial offer; the polite peer sends nothing |
| PeerNegotiation.Engine.SignalingFailed | frontend/src/hooks/useWebRTC.ts:104-107 | an error or the 10 s timeout stops start-up before any offer |
| PeerNegotiation.Engine.SignalingClosed | frontend/src/hooks/useWebRTC.ts:109-114 | a close only records the socket state |
| PeerNegotiation.Engine.OfferTimerElapsed | frontend/src/hooks/useWebRTC.ts:79-82 | only the impolite peer gets here; runs `OfferStep` and sends the offer if the socket is open |
| PeerNegotiation.Engine.HandleMessage | frontend/src/hooks/useWebRTC.ts:116-171 | unparsable or no connection: nothing; otherwise the connection moves as `Negotiate` says and its answer is sent only while open |
| PeerNegotiation.Engine.LocalIceCandidate | frontend/src/hooks/useWebRTC.ts:64-71 | a local candidate is sent while the socket is open |
| PeerNegotiation.Engine.ToggleVideo | frontend/src/hooks/useWebRTC.ts:193-202 | flips the first video track, which the connection also sends, and mirrors it into `isVideoEnabled`; no stream/track: no change; no message sent |
| PeerNegotiation.Engine.ToggleAudio | frontend/src/hooks/useWebRTC.ts:204-213 | flips the first audio track, which the connection also sends, and mirrors it into `isAudioEnabled`; no stream/track: no change; no message sent |
| PeerNegotiation.Engine.Cleanup | frontend/src/hooks/useWebRTC.ts:215-221 | every track stopped (the connection's tracks too), then the connection closed, then the signalling socket, in that order; the init guard released |

## Left out

- **Persistence and concurrency.** The ORM, `transaction.atomic`, the channel
  layer transport and async scheduling are not modelled. Tables are sequences,
  sets and maps. Each handler is one atomic step, so races between handlers are
  not modelled.
- **Time.** Clocks and timers become events:
  - `created_at` is a counter (`MatchingService.Queue.clock`);
  - the 2 s, 1 s, 3 s, 10 s and 30 s delays are methods that the environment
    calls.
- **Identifiers.** UUIDs become natural numbers: ids of the session, moment and
  row are table positions. The random part of a guest username is a parameter.
  Client user and session ids are strings.
- **JSON.** JSON values are kept as their text. Client frames are either invalid
  JSON, a non-object, or an object of string fields. Types other than strings
  inside a frame are not distinguished.
- **Browser internals.** `getUserMedia`, SDP content, ICE gathering, STUN, the
  remote stream (`ontrack`) and the connection-state mirror
  (`onconnectionstatechange`) are not modelled. A description is its type plus
  opaque text. The have-local-pranswer and have-remote-pranswer states are never
  reached, so they are not modelled.
- **The WebSocket closing handshake.** It is reduced to the ready state. After
  `close()` the close event is a separate method with the code as a parameter.
- **Role order.** `localeCompare` is modelled as code-point order. Locale
  collation can order some strings differently.
- **React closures.** `cleanup` and the toggles read the `localStream` captured
  at render time. The model reads the current stream.
- **Exceptions in consumers.** An exception inside a consumer handler (a missing
  frame field, a list frame) is modelled as "no effect". Closing the socket
  because of an uncaught error is not modelled. For the same reason, the
  failure of the anonymous consumer's `disconnect` is modelled as a no-op.
- **Nicknames.** The nickname field's whitespace trimming and its rejection of
  blank values are not modelled.
- **Model fields.** In chat views, `user_b` of a session is modelled as always
  present. The socket access check does model a missing `user_b`.
- **One session per match.** The client reports a match from both the HTTP reply
  and the socket push, without de-duplication. "Exactly one chat session per
  match" is therefore not claimed.
- **Out of scope.** The HTTP views' wrappers (beyond the join reply text),
  configuration, routing, UI components and logging are not modelled.
- MatchingSerializers.ValidateJoin: request fields are absent or text, and `is_visitor` is absent or a boolean. A JSON null or a value of another type is not representable, so the field error a choice or boolean field raises for it is not modelled.
- UserSerializers.Validate: as for ValidateJoin, a null or non-boolean `is_visitor` and a missing, null or non-text nickname are not representable, so their field errors are not modelled.
- ModerationAdmin.UpdateSelected: its own contract only keeps the length. What
  it does to each report is stated in `ModerationAdmin.UpdateEffect`.
- MatchingSerializers.JoinReplyValid: it assumes fewer than 10^100 waiting
  users, so that the position's decimal text fits the 200-character message.
