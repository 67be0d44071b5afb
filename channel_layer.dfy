/** What the three socket consumers and the matching service share: users,
    the channel-layer group names, group membership and group fan-out.

    A channel layer group is a named set of channel names; `group_send`
    hands one copy of an event to every channel in the group, and each
    consumer turns it into a frame on its own client socket.  The frames a
    client has been sent are kept per channel, in order, in an inbox map. */
module ChannelLayer {

  type UserId = nat
  type SessionId = nat
  type ChannelName = string

  /** An authenticated account: the primary key and the display nickname. */
  datatype User = User(id: UserId, nickname: string)

  /** Group names: `user_<id>`, `chat_<session id>`, `signaling_<session id>`. */
  datatype Group =
    | UserGroup(user: UserId)
    | ChatGroup(session: SessionId)
    | SignalingGroup(session: SessionId)

  /** The events the matching service pushes to a `user_<id>` group. */
  datatype MatchingEvent =
    | MatchFound(sessionId: SessionId, matchedUser: string, message: string)
    | QueueUpdate(position: int, message: string)

  /** A text frame from a client after `json.loads`: not JSON at all, JSON
      that is not an object, or an object.  Field values are kept as their
      text; the consumers only compare them with constants or copy them. */
  datatype ClientFrame =
    | InvalidJson
    | NotAnObject
    | Object(fields: map<string, string>)

  /** How a consumer's `connect` ends: accepted, or closed with a code. */
  datatype ConnectOutcome = Accepted | Closed(code: nat)

  type Groups = map<Group, set<ChannelName>>

  function Members(groups: Groups, g: Group): set<ChannelName> {
    if g in groups then groups[g] else {}
  }

  /** `group_add`: the channel joins `g`; no other group changes. */
  function GroupAdd(groups: Groups, g: Group, ch: ChannelName): (r: Groups)
    ensures Members(r, g) == Members(groups, g) + {ch}
    ensures forall h :: h != g ==> Members(r, h) == Members(groups, h)
  {
    groups[g := Members(groups, g) + {ch}]
  }

  /** `group_discard`: the channel leaves `g` (a no-op when it is not a member). */
  function GroupDiscard(groups: Groups, g: Group, ch: ChannelName): (r: Groups)
    ensures Members(r, g) == Members(groups, g) - {ch}
    ensures forall h :: h != g ==> Members(r, h) == Members(groups, h)
  {
    groups[g := Members(groups, g) - {ch}]
  }

  /** The frames channel `ch` has been sent so far. */
  function Inbox<E>(inbox: map<ChannelName, seq<E>>, ch: ChannelName): seq<E> {
    if ch in inbox then inbox[ch] else []
  }

  /** One event handed to every channel in `targets`: each of them receives
      exactly one more frame, and every other channel receives nothing. */
  function Deliver<E>(inbox: map<ChannelName, seq<E>>, targets: set<ChannelName>, e: E): (r: map<ChannelName, seq<E>>)
    ensures forall ch :: ch in targets ==> Inbox(r, ch) == Inbox(inbox, ch) + [e]
    ensures forall ch :: ch !in targets ==> Inbox(r, ch) == Inbox(inbox, ch)
  {
    map ch | ch in inbox.Keys + targets :: if ch in targets then Inbox(inbox, ch) + [e] else inbox[ch]
  }

  /** A frame sent to one channel only (a consumer's `self.send`). */
  function SendTo<E>(inbox: map<ChannelName, seq<E>>, ch: ChannelName, e: E): (r: map<ChannelName, seq<E>>)
    ensures Inbox(r, ch) == Inbox(inbox, ch) + [e]
    ensures forall other :: other != ch ==> Inbox(r, other) == Inbox(inbox, other)
  {
    inbox[ch := Inbox(inbox, ch) + [e]]
  }
}
