/** Likes, fuse moments and contact exchange.

    A participant of a chat session may like it once.  When the other
    participant has already liked it, the session's fuse moment (at most one
    per session) is created or fetched.  Either participant of a fuse moment
    may then share contact details with the other, as often as they like;
    a resubmission overwrites the previous details.

    Every handler is wrapped in a catch-all that answers status 500, and the
    lookup of the session or moment raises its not-found error inside it, so
    an unknown id answers 500, not 404. */
module ChatViews {
  import opened Wrappers
  import opened ChannelLayer

  const NotFoundStatus: int := 500
  const ForbiddenStatus: int := 403
  const SummaryMaxLength: nat := 140

  datatype ChatSession = ChatSession(userA: User, userB: User, topicTag: Option<string>)

  datatype FuseMoment = FuseMoment(
    id: nat, userA: User, userB: User, session: SessionId, summaryText: string, contactExchanged: bool)

  /** The optional fields of a contact-share request. */
  datatype ContactForm = ContactForm(whatsapp: Option<string>, instagram: Option<string>, telegram: Option<string>, note: Option<string>)

  datatype Contact = Contact(whatsapp: string, instagram: string, telegram: string, note: string)

  datatype ContactKey = ContactKey(moment: nat, sender: UserId, receiver: UserId)

  datatype LikeResponse =
    | LikeError(status: int)
    | AlreadyLiked
    | SessionLiked
    | FuseMomentCreated(momentId: nat)

  datatype ShareResponse = ShareError(status: int) | ContactShared

  /** One entry of the `get_fuse_moments` listing. */
  datatype MomentView = MomentView(
    id: nat, userA: string, userB: string, summaryText: string, contactExchanged: bool,
    session: SessionId, topicTag: Option<string>)

  /** The HTTP status of a like response, and its `fuse_moment` flag when it has one. */
  function LikeStatus(r: LikeResponse): int {
    match r
    case LikeError(s) => s
    case AlreadyLiked => 200
    case SessionLiked => 201
    case FuseMomentCreated(_) => 201
  }

  function FuseMomentFlag(r: LikeResponse): Option<bool> {
    match r
    case SessionLiked => Some(false)
    case FuseMomentCreated(_) => Some(true)
    case _ => None
  }

  function ShareStatus(r: ShareResponse): int {
    match r
    case ShareError(s) => s
    case ContactShared => 201
  }

  predicate IsParticipant(a: User, b: User, u: User) {
    u.id == a.id || u.id == b.id
  }

  /** The other participant: `user_b` when the caller is `user_a`, `user_a` otherwise. */
  function Other(a: User, b: User, u: User): User {
    if u.id == a.id then b else a
  }

  function Summary(a: User, b: User): string {
    "Great conversation between " + a.nickname + " and " + b.nickname + "!"
  }

  /** With nicknames of at most 50 characters the summary fits its 140-character column. */
  lemma SummaryFits(a: User, b: User)
    requires |a.nickname| <= 50 && |b.nickname| <= 50
    ensures |Summary(a, b)| <= SummaryMaxLength
  {
  }

  /** `request.data.get(field, '')` for the four contact fields. */
  function ContactOf(form: ContactForm): Contact {
    Contact(form.whatsapp.GetOr(""), form.instagram.GetOr(""), form.telegram.GetOr(""), form.note.GetOr(""))
  }

  /** The moment of a session (the one-to-one relation), if there is one. */
  function MomentIndex(ms: seq<FuseMoment>, sid: SessionId): (r: Option<nat>)
    ensures r.Some? ==> r.value < |ms| && ms[r.value].session == sid
    ensures r.None? ==> forall i :: 0 <= i < |ms| ==> ms[i].session != sid
  {
    if ms == [] then None
    else if ms[0].session == sid then Some(0)
    else match MomentIndex(ms[1..], sid)
      case None => None
      case Some(k) => Some(k + 1)
  }

  predicate Involves(m: FuseMoment, u: User) {
    m.userA.id == u.id || m.userB.id == u.id
  }

  function View(m: FuseMoment, sessions: map<SessionId, ChatSession>): MomentView {
    MomentView(m.id, m.userA.nickname, m.userB.nickname, m.summaryText, m.contactExchanged,
               m.session, if m.session in sessions then sessions[m.session].topicTag else None)
  }

  /** The moments u takes part in, newest first (the table is in creation order). */
  function NewestFirst(ms: seq<FuseMoment>, sessions: map<SessionId, ChatSession>, u: User): (r: seq<MomentView>)
    ensures |r| <= |ms|
    ensures forall v :: v in r ==> exists m :: m in ms && Involves(m, u) && v == View(m, sessions)
    ensures forall m :: m in ms && Involves(m, u) ==> View(m, sessions) in r
  {
    if ms == [] then []
    else
      var rest := NewestFirst(ms[1..], sessions, u);
      assert forall m :: m in ms <==> m == ms[0] || m in ms[1..];
      rest + (if Involves(ms[0], u) then [View(ms[0], sessions)] else [])
  }

  ghost predicate IdsIncreasing(ms: seq<FuseMoment>) {
    forall i, j :: 0 <= i < j < |ms| ==> ms[i].id < ms[j].id
  }

  ghost predicate IdsDecreasing(vs: seq<MomentView>) {
    forall k, l :: 0 <= k < l < |vs| ==> vs[k].id > vs[l].id
  }

  /** Newest first: when ids grow with creation, the listing's ids strictly decrease. */
  lemma {:induction false} NewestFirstIsDescending(ms: seq<FuseMoment>, sessions: map<SessionId, ChatSession>, u: User)
    requires IdsIncreasing(ms)
    ensures IdsDecreasing(NewestFirst(ms, sessions, u))
  {
    if ms != [] {
      NewestFirstIsDescending(ms[1..], sessions, u);
      var rest := NewestFirst(ms[1..], sessions, u);
      forall v | v in rest
        ensures v.id > ms[0].id
      {
        var m :| m in ms[1..] && Involves(m, u) && v == View(m, sessions);
        var j :| 0 <= j < |ms[1..]| && ms[1..][j] == m;
        assert ms[j + 1] == m;
      }
      var r := NewestFirst(ms, sessions, u);
      forall k, l | 0 <= k < l < |r|
        ensures r[k].id > r[l].id
      {
        assert r[k] == rest[k];
        if l < |rest| {
          assert r[l] == rest[l];
        } else {
          assert r[l] == View(ms[0], sessions);
          assert r[k] in rest;
        }
      }
    }
  }

  ghost predicate OneMomentPerSession(ms: seq<FuseMoment>) {
    forall i, j :: 0 <= i < |ms| && 0 <= j < |ms| && ms[i].session == ms[j].session ==> i == j
  }

  /** The session, like, fuse moment and contact-exchange tables. */
  class FuseStore {
    var sessions: map<SessionId, ChatSession>
    var likes: set<(SessionId, UserId)>
    var moments: seq<FuseMoment>
    var contacts: map<ContactKey, Contact>

    ghost predicate Valid()
      reads this
    {
      && (forall i :: 0 <= i < |moments| ==> moments[i].id == i)
      && OneMomentPerSession(moments)
    }

    constructor (sessions: map<SessionId, ChatSession>)
      ensures Valid()
      ensures this.sessions == sessions && likes == {} && moments == [] && contacts == map[]
    {
      this.sessions := sessions;
      likes, moments, contacts := {}, [], map[];
    }

    /** `like_session`. */
    method LikeSession(user: User, sessionId: SessionId) returns (resp: LikeResponse)
      requires Valid()
      modifies this
      ensures Valid()
      ensures sessions == old(sessions) && contacts == old(contacts)
      ensures sessionId !in sessions ==>
                resp == LikeError(NotFoundStatus) && likes == old(likes) && moments == old(moments)
      ensures sessionId in sessions && !IsParticipant(sessions[sessionId].userA, sessions[sessionId].userB, user) ==>
                resp == LikeError(ForbiddenStatus) && likes == old(likes) && moments == old(moments)
      ensures sessionId in sessions && IsParticipant(sessions[sessionId].userA, sessions[sessionId].userB, user)
              && (sessionId, user.id) in old(likes) ==>
                resp == AlreadyLiked && likes == old(likes) && moments == old(moments)
      ensures sessionId in sessions && IsParticipant(sessions[sessionId].userA, sessions[sessionId].userB, user)
              && (sessionId, user.id) !in old(likes) ==>
                var s := sessions[sessionId];
                var other := Other(s.userA, s.userB, user);
                && likes == old(likes) + {(sessionId, user.id)}
                && ((sessionId, other.id) in likes ==>
                      && resp.FuseMomentCreated?
                      && resp.momentId < |moments| && moments[resp.momentId].session == sessionId
                      && (MomentIndex(old(moments), sessionId).Some? ==> moments == old(moments))
                      && (MomentIndex(old(moments), sessionId).None? ==>
                            moments == old(moments) + [FuseMoment(|old(moments)|, s.userA, s.userB, sessionId,
                                                                  Summary(s.userA, s.userB), false)]))
                && ((sessionId, other.id) !in likes ==> resp == SessionLiked && moments == old(moments))
      ensures resp.FuseMomentCreated? ==>
                var s := sessions[sessionId];
                var other := Other(s.userA, s.userB, user);
                (sessionId, other.id) in old(likes) || other.id == user.id
    {
      if sessionId !in sessions {
        return LikeError(NotFoundStatus);
      }
      var session := sessions[sessionId];
      if !IsParticipant(session.userA, session.userB, user) {
        return LikeError(ForbiddenStatus);
      }
      if (sessionId, user.id) in likes {
        return AlreadyLiked;
      }
      likes := likes + {(sessionId, user.id)};

      var other := Other(session.userA, session.userB, user);
      var mutualLike := (sessionId, other.id) in likes;
      if mutualLike {
        var existing := MomentIndex(moments, sessionId);
        if existing.Some? {
          return FuseMomentCreated(existing.value);
        }
        var moment := FuseMoment(|moments|, session.userA, session.userB, sessionId,
                                 Summary(session.userA, session.userB), false);
        moments := moments + [moment];
        return FuseMomentCreated(moment.id);
      }
      return SessionLiked;
    }

    /** `share_contact`: stores the caller's details for the other participant
        (creating or overwriting them) and marks the moment as exchanged. */
    method ShareContact(user: User, momentId: nat, form: ContactForm) returns (resp: ShareResponse)
      requires Valid()
      modifies this
      ensures Valid()
      ensures sessions == old(sessions) && likes == old(likes)
      ensures momentId >= |old(moments)| ==>
                resp == ShareError(NotFoundStatus) && moments == old(moments) && contacts == old(contacts)
      ensures momentId < |old(moments)| && !IsParticipant(old(moments)[momentId].userA, old(moments)[momentId].userB, user) ==>
                resp == ShareError(ForbiddenStatus) && moments == old(moments) && contacts == old(contacts)
      ensures momentId < |old(moments)| && IsParticipant(old(moments)[momentId].userA, old(moments)[momentId].userB, user) ==>
                var m := old(moments)[momentId];
                var receiver := Other(m.userA, m.userB, user);
                && resp == ContactShared
                && contacts == old(contacts)[ContactKey(momentId, user.id, receiver.id) := ContactOf(form)]
                && moments == old(moments)[momentId := m.(contactExchanged := true)]
    {
      if momentId >= |moments| {
        return ShareError(NotFoundStatus);
      }
      var moment := moments[momentId];
      if !IsParticipant(moment.userA, moment.userB, user) {
        return ShareError(ForbiddenStatus);
      }
      var receiver := Other(moment.userA, moment.userB, user);
      var key := ContactKey(momentId, user.id, receiver.id);
      // get_or_create stores the submitted values; the update path stores the same ones.
      contacts := contacts[key := ContactOf(form)];
      moments := moments[momentId := moment.(contactExchanged := true)];
      return ContactShared;
    }

    /** `get_fuse_moments`: the caller's moments, newest first, built by appending in a loop. */
    method GetFuseMoments(user: User) returns (data: seq<MomentView>)
      requires Valid()
      ensures data == NewestFirst(moments, sessions, user)
      ensures IdsDecreasing(data)
    {
      NewestFirstIsDescending(moments, sessions, user);
      data := [];
      var i := |moments|;
      while i > 0
        invariant 0 <= i <= |moments|
        invariant data == NewestFirst(moments[i..], sessions, user)
      {
        i := i - 1;
        assert moments[i..][1..] == moments[i + 1..];
        if Involves(moments[i], user) {
          data := data + [View(moments[i], sessions)];
        }
      }
      assert moments[0..] == moments;
    }
  }
}
