/** `MatchingConsumer`: the per-user notification socket.  A logged-in
    user's connection joins the group `user_<id>`, answers heartbeats, and
    turns the `match_found` and `queue_update` events the matching service
    sends to that group into frames for the client. */
module MatchingConsumer {
  import opened Wrappers
  import opened ChannelLayer
  import MatchingService

  /** Close code from the private-use range of RFC 6455, section 7.4.2. */
  const Unauthenticated: nat := 4001

  /** The frames this consumer writes to its client. */
  datatype ServerFrame =
    | HeartbeatResponse(status: string)
    | MatchFoundFrame(sessionId: SessionId, matchedUser: string, message: string)
    | QueueUpdateFrame(position: int, message: string)

  /** `data.get('type', 'unknown')`. */
  function MessageType(fields: map<string, string>): (t: string)
    ensures "type" in fields ==> t == fields["type"]
    ensures "type" !in fields ==> t == "unknown"
  {
    if "type" in fields then fields["type"] else "unknown"
  }

  /** `receive`: exactly one `heartbeat_response`/`alive` reply to an object
      whose type is `heartbeat`, and no reply to anything else -- another
      type, a missing type, invalid JSON (logged), or JSON that is not an
      object (its `.get` raises). */
  function Reply(frame: ClientFrame): (r: Option<ServerFrame>)
    ensures r.Some? <==> frame.Object? && "type" in frame.fields && frame.fields["type"] == "heartbeat"
    ensures r.Some? ==> r.value == HeartbeatResponse("alive")
  {
    if frame.Object? && MessageType(frame.fields) == "heartbeat" then Some(HeartbeatResponse("alive")) else None
  }

  /** `match_found` / `queue_update`: the event's fields forwarded unchanged. */
  function Forward(e: MatchingEvent): (r: ServerFrame)
    ensures e.MatchFound? <==> r.MatchFoundFrame?
    ensures Unforward(r) == Some(e)
  {
    match e
    case MatchFound(sid, who, msg) => MatchFoundFrame(sid, who, msg)
    case QueueUpdate(pos, msg) => QueueUpdateFrame(pos, msg)
  }

  /** The event a forwarded frame came from, read back as the client reads it. */
  function Unforward(f: ServerFrame): Option<MatchingEvent> {
    match f
    case MatchFoundFrame(sid, who, msg) => Some(MatchFound(sid, who, msg))
    case QueueUpdateFrame(pos, msg) => Some(QueueUpdate(pos, msg))
    case HeartbeatResponse(_) => None
  }

  /** Forwarding loses nothing: different events give different frames. */
  lemma ForwardInjective(e1: MatchingEvent, e2: MatchingEvent)
    ensures Forward(e1) == Forward(e2) ==> e1 == e2
  {
    assert Unforward(Forward(e1)) == Some(e1);
    assert Unforward(Forward(e2)) == Some(e2);
  }

  class Endpoint {
    var groups: Groups
    /** The group a connection joined (`user_group_name` was set). */
    var joined: map<ChannelName, Group>
    var inbox: map<ChannelName, seq<ServerFrame>>

    /** A channel is in a group exactly when its connection joined that
        group, and a connection only ever joins a user group. */
    ghost predicate Valid()
      reads this
    {
      && (forall g, ch :: ch in Members(groups, g) <==> ch in joined && joined[ch] == g)
      && (forall ch :: ch in joined ==> joined[ch].UserGroup?)
    }

    constructor ()
      ensures Valid()
      ensures groups == map[] && joined == map[] && inbox == map[]
    {
      groups := map[];
      joined := map[];
      inbox := map[];
    }

    /** `connect` on a fresh channel: an anonymous user is closed with 4001
        and joins nothing; a user joins exactly `user_<id>`. */
    method Connect(ch: ChannelName, user: Option<User>) returns (outcome: ConnectOutcome)
      requires Valid()
      requires ch !in joined
      modifies this
      ensures Valid()
      ensures user.None? ==> outcome == Closed(Unauthenticated) && groups == old(groups) && joined == old(joined)
      ensures user.Some? ==>
        && outcome == Accepted
        && groups == GroupAdd(old(groups), UserGroup(user.value.id), ch)
        && joined == old(joined)[ch := UserGroup(user.value.id)]
      ensures inbox == old(inbox)
    {
      if user.None? {
        outcome := Closed(Unauthenticated);
      } else {
        groups := GroupAdd(groups, UserGroup(user.value.id), ch);
        joined := joined[ch := UserGroup(user.value.id)];
        outcome := Accepted;
      }
    }

    /** `disconnect`: leaves the group only when the connection joined one. */
    method Disconnect(ch: ChannelName)
      requires Valid()
      modifies this
      ensures Valid()
      ensures ch in old(joined) ==> groups == GroupDiscard(old(groups), old(joined)[ch], ch) && joined == old(joined) - {ch}
      ensures ch !in old(joined) ==> groups == old(groups) && joined == old(joined)
      ensures inbox == old(inbox)
    {
      if ch in joined {
        groups := GroupDiscard(groups, joined[ch], ch);
        joined := joined - {ch};
      }
    }

    /** `receive`: the reply, if any, goes to the sending channel only. */
    method Receive(ch: ChannelName, frame: ClientFrame)
      requires Valid()
      modifies this
      ensures Valid()
      ensures groups == old(groups) && joined == old(joined)
      ensures Reply(frame).Some? ==> inbox == SendTo(old(inbox), ch, Reply(frame).value)
      ensures Reply(frame).None? ==> inbox == old(inbox)
    {
      var reply := Reply(frame);
      if reply.Some? {
        inbox := SendTo(inbox, ch, reply.value);
      }
    }

    /** A notification of the matching service reaching its group: every
        connection of that user receives the forwarded frame, and no other
        connection receives anything. */
    method Publish(n: MatchingService.Notification)
      requires Valid()
      modifies this
      ensures Valid()
      ensures groups == old(groups) && joined == old(joined)
      ensures inbox == Deliver(old(inbox), Members(groups, n.group), Forward(n.event))
      ensures forall ch :: ch in joined && joined[ch] == n.group ==>
        Inbox(inbox, ch) == Inbox(old(inbox), ch) + [Forward(n.event)]
    {
      inbox := Deliver(inbox, Members(groups, n.group), Forward(n.event));
    }
  }
}
