/** The two per-session socket consumers: `ChatConsumer` (text chat and
    typing indicators, group `chat_<id>`) and `SignalingConsumer` (WebRTC
    offer/answer/candidate relay, group `signaling_<id>`).

    One `Server` object holds what both consumers touch: the chat sessions
    they check access against, the channel-layer groups, the open
    connections, the stored chat messages and the frames each client
    channel has been sent.  Each handler is one atomic step. */
module ChatConsumers {
  import opened Wrappers
  import opened ChannelLayer

  /** Close codes from the private-use range 4000-4999 of RFC 6455, section 7.4.2. */
  const Unauthenticated: nat := 4001
  const Forbidden: nat := 4003

  /** The two participants of a chat session; `user_b` may be empty. */
  datatype Participants = Participants(userA: UserId, userB: Option<UserId>)

  datatype ConsumerKind = Chat | Signaling

  /** An accepted connection: which consumer, whose, and for which session. */
  datatype Conn = Conn(kind: ConsumerKind, user: User, sessionId: SessionId)

  /** A row of the messages table. */
  datatype StoredMessage = StoredMessage(session: SessionId, sender: UserId, content: string)

  /** The frames a consumer writes to its client. */
  datatype Outgoing =
    | ChatMessageOut(content: string, sender: string, timestamp: string)
    | TypingIndicator(user: string, isTyping: string)
    | Relayed(data: map<string, string>)

  /** The group a connection of this kind for this session belongs to. */
  function GroupOf(kind: ConsumerKind, sid: SessionId): (g: Group)
    ensures kind == Chat ==> g == ChatGroup(sid)
    ensures kind == Signaling ==> g == SignalingGroup(sid)
  {
    match kind
    case Chat => ChatGroup(sid)
    case Signaling => SignalingGroup(sid)
  }

  /** `check_session_access`: the session exists and the user is one of its two participants. */
  predicate HasSessionAccess(sessions: map<SessionId, Participants>, sid: SessionId, user: UserId): (r: bool)
    ensures sid !in sessions ==> !r
    ensures sid in sessions && sessions[sid].userA == user ==> r
    ensures sid in sessions && sessions[sid].userB == Some(user) ==> r
    ensures r && sessions[sid].userB.None? ==> sessions[sid].userA == user
  {
    sid in sessions && (sessions[sid].userA == user || sessions[sid].userB == Some(user))
  }

  /** The decision `connect` takes, shared by both consumers. */
  function ConnectDecision(sessions: map<SessionId, Participants>, user: Option<User>, sid: SessionId): (r: ConnectOutcome)
    ensures user.None? ==> r == Closed(Unauthenticated)
    ensures r == Accepted <==> user.Some? && HasSessionAccess(sessions, sid, user.value.id)
    ensures user.Some? && !HasSessionAccess(sessions, sid, user.value.id) ==> r == Closed(Forbidden)
    ensures r.Closed? ==> r.code in {Unauthenticated, Forbidden}
  {
    if user.None? then Closed(Unauthenticated)
    else if !HasSessionAccess(sessions, sid, user.value.id) then Closed(Forbidden)
    else Accepted
  }

  /** `data['type']` in a chat receive: absent when the frame is not an
      object or has no type (the handler then raises and does nothing). */
  function ChatType(frame: ClientFrame): (r: Option<string>)
    ensures r.Some? <==> frame.Object? && "type" in frame.fields
    ensures r.Some? ==> r.value == frame.fields["type"]
  {
    if frame.Object? && "type" in frame.fields then Some(frame.fields["type"]) else None
  }

  /** The content `handle_chat_message` stores: present exactly for a
      `chat_message` frame that carries a content field. */
  function ContentToSave(frame: ClientFrame): (r: Option<string>)
    ensures r.Some? <==> ChatType(frame) == Some("chat_message") && "content" in frame.fields
    ensures r.Some? ==> r.value == frame.fields["content"]
  {
    if ChatType(frame) == Some("chat_message") && "content" in frame.fields then Some(frame.fields["content"])
    else None
  }

  /** The event a chat receive hands to the session group, if any.  A chat
      message needs content, sender and timestamp (each read raises when
      absent); a typing event needs `is_typing` and carries the server-side
      nickname, never a client-supplied name; every other type sends nothing. */
  function ChatBroadcast(frame: ClientFrame, nickname: string): (r: Option<Outgoing>)
    ensures r.Some? && r.value.ChatMessageOut? <==>
      && ChatType(frame) == Some("chat_message")
      && "content" in frame.fields && "sender" in frame.fields && "timestamp" in frame.fields
    ensures r.Some? && r.value.ChatMessageOut? ==>
      r.value == ChatMessageOut(frame.fields["content"], frame.fields["sender"], frame.fields["timestamp"])
    ensures r.Some? && r.value.TypingIndicator? <==>
      ChatType(frame) == Some("typing") && "is_typing" in frame.fields
    ensures r.Some? && r.value.TypingIndicator? ==>
      r.value == TypingIndicator(nickname, frame.fields["is_typing"])
    ensures r.Some? ==> !r.value.Relayed?
    ensures ChatType(frame) !in {Some("chat_message"), Some("typing")} ==> r.None?
  {
    match ChatType(frame)
    case Some(t) =>
      if t == "chat_message" then
        if "content" in frame.fields && "sender" in frame.fields && "timestamp" in frame.fields then
          Some(ChatMessageOut(frame.fields["content"], frame.fields["sender"], frame.fields["timestamp"]))
        else None
      else if t == "typing" then
        if "is_typing" in frame.fields then Some(TypingIndicator(nickname, frame.fields["is_typing"])) else None
      else None
    case None => None
  }

  /** A chat message reaches the group only after it has been stored, and
      the group sees the stored content. */
  lemma BroadcastFollowsSave(frame: ClientFrame, nickname: string)
    ensures ChatBroadcast(frame, nickname).Some? && ChatBroadcast(frame, nickname).value.ChatMessageOut? ==>
      ContentToSave(frame) == Some(ChatBroadcast(frame, nickname).value.content)
  {
  }

  /** The channels a signalling frame from `ch` reaches: the rest of its group. */
  function RelayTargets(groups: Groups, g: Group, ch: ChannelName): (r: set<ChannelName>)
    ensures ch !in r
    ensures forall other :: other != ch ==> (other in r <==> other in Members(groups, g))
  {
    Members(groups, g) - {ch}
  }

  /** What the signalling consumer relays: an object is forwarded as is; a
      frame that is not JSON, or not an object (its `data.get` in the log
      line raises), is not relayed. */
  function SignalingRelay(frame: ClientFrame): (r: Option<Outgoing>)
    ensures r.Some? <==> frame.Object?
    ensures r.Some? ==> r.value == Relayed(frame.fields)
  {
    if frame.Object? then Some(Relayed(frame.fields)) else None
  }

  class Server {
    const sessions: map<SessionId, Participants>
    var groups: Groups
    var conns: map<ChannelName, Conn>
    var messages: seq<StoredMessage>
    var inbox: map<ChannelName, seq<Outgoing>>

    /** Every accepted connection belongs to a participant of its session,
        and a channel is in a group exactly when it is an accepted
        connection for that group. */
    ghost predicate Valid()
      reads this
    {
      && (forall ch :: ch in conns ==> HasSessionAccess(sessions, conns[ch].sessionId, conns[ch].user.id))
      && (forall g, ch :: ch in Members(groups, g) <==> ch in conns && GroupOf(conns[ch].kind, conns[ch].sessionId) == g)
    }

    constructor (sessions: map<SessionId, Participants>)
      ensures Valid()
      ensures this.sessions == sessions
      ensures groups == map[] && conns == map[] && messages == [] && inbox == map[]
    {
      this.sessions := sessions;
      groups := map[];
      conns := map[];
      messages := [];
      inbox := map[];
    }

    /** `connect` of either consumer on a fresh channel.  An anonymous user
        is closed with 4001 and a non-participant with 4003, both before
        joining any group; otherwise the channel joins exactly the group of
        its kind and session. */
    method Connect(ch: ChannelName, kind: ConsumerKind, user: Option<User>, sid: SessionId) returns (outcome: ConnectOutcome)
      requires Valid()
      requires ch !in conns
      modifies this
      ensures Valid()
      ensures outcome == ConnectDecision(sessions, user, sid)
      ensures outcome.Closed? ==> groups == old(groups) && conns == old(conns)
      ensures outcome == Accepted ==>
        && groups == GroupAdd(old(groups), GroupOf(kind, sid), ch)
        && conns == old(conns)[ch := Conn(kind, user.value, sid)]
      ensures messages == old(messages) && inbox == old(inbox)
    {
      outcome := ConnectDecision(sessions, user, sid);
      if outcome == Accepted {
        groups := GroupAdd(groups, GroupOf(kind, sid), ch);
        conns := conns[ch := Conn(kind, user.value, sid)];
      }
    }

    /** `ChatConsumer.receive`: a chat message is stored once (its session
        exists, as the connection was accepted), then broadcast to every
        member of the session group, the sender included; a typing event is
        broadcast without being stored; nothing else has any effect. */
    method ReceiveChat(ch: ChannelName, frame: ClientFrame)
      requires Valid()
      requires ch in conns && conns[ch].kind == Chat
      modifies this
      ensures Valid()
      ensures groups == old(groups) && conns == old(conns)
      ensures ContentToSave(frame).Some? ==>
        messages == old(messages) + [StoredMessage(conns[ch].sessionId, conns[ch].user.id, ContentToSave(frame).value)]
      ensures ContentToSave(frame).None? ==> messages == old(messages)
      ensures ChatBroadcast(frame, conns[ch].user.nickname).Some? ==>
        inbox == Deliver(old(inbox), Members(groups, ChatGroup(conns[ch].sessionId)), ChatBroadcast(frame, conns[ch].user.nickname).value)
      ensures ChatBroadcast(frame, conns[ch].user.nickname).None? ==> inbox == old(inbox)
      ensures ChatBroadcast(frame, conns[ch].user.nickname).Some? ==>
        Inbox(inbox, ch) == Inbox(old(inbox), ch) + [ChatBroadcast(frame, conns[ch].user.nickname).value]
    {
      var conn := conns[ch];
      var content := ContentToSave(frame);
      if content.Some? && conn.sessionId in sessions {
        messages := messages + [StoredMessage(conn.sessionId, conn.user.id, content.value)];
      }
      var event := ChatBroadcast(frame, conn.user.nickname);
      if event.Some? {
        assert ch in Members(groups, ChatGroup(conn.sessionId));
        inbox := Deliver(inbox, Members(groups, ChatGroup(conn.sessionId)), event.value);
      }
    }

    /** `SignalingConsumer.receive` and `signaling_message`: the frame goes
        unchanged to every other member of the session's signalling group
        and never back to the channel that sent it. */
    method ReceiveSignaling(ch: ChannelName, frame: ClientFrame)
      requires Valid()
      requires ch in conns && conns[ch].kind == Signaling
      modifies this
      ensures Valid()
      ensures groups == old(groups) && conns == old(conns) && messages == old(messages)
      ensures SignalingRelay(frame).Some? ==>
        inbox == Deliver(old(inbox), RelayTargets(groups, SignalingGroup(conns[ch].sessionId), ch), SignalingRelay(frame).value)
      ensures SignalingRelay(frame).None? ==> inbox == old(inbox)
      ensures Inbox(inbox, ch) == Inbox(old(inbox), ch)
    {
      var relay := SignalingRelay(frame);
      if relay.Some? {
        inbox := Deliver(inbox, RelayTargets(groups, SignalingGroup(conns[ch].sessionId), ch), relay.value);
      }
    }

    /** `disconnect`: an accepted channel leaves its group; any other
        channel leaves nothing behind to remove. */
    method Disconnect(ch: ChannelName)
      requires Valid()
      modifies this
      ensures Valid()
      ensures ch in old(conns) ==>
        && groups == GroupDiscard(old(groups), GroupOf(old(conns)[ch].kind, old(conns)[ch].sessionId), ch)
        && conns == old(conns) - {ch}
      ensures ch !in old(conns) ==> groups == old(groups) && conns == old(conns)
      ensures forall g :: ch !in Members(groups, g)
      ensures messages == old(messages) && inbox == old(inbox)
    {
      if ch in conns {
        groups := GroupDiscard(groups, GroupOf(conns[ch].kind, conns[ch].sessionId), ch);
        conns := conns - {ch};
      }
    }
  }
}
