/** The matching queue and its pairing rule.

    The queue table holds at most one waiting entry per user, kept in the
    table's default order (oldest `created_at` first), so "the first entry
    of a filter" is the oldest one that passes it.  Joining removes the
    caller's old entry, then either pairs the caller with a compatible
    waiting user (creating a chat session and notifying both users'
    `user_<id>` groups) or appends a new entry for the caller. */
module MatchingService {
  import opened Wrappers
  import opened ChannelLayer

  const Random: string := "random"
  const Mixed: string := "mixed"
  const Active: string := "active"

  /** One row of the queue table. `createdAt` stands for the insertion timestamp. */
  datatype Entry = Entry(user: User, vibeTag: string, language: string, isVisitor: bool, createdAt: nat)

  datatype ChatSession = ChatSession(id: SessionId, userA: User, userB: User, topicTag: string, language: string, status: string)

  datatype JoinResult =
    | Matched(sessionId: SessionId, matchedUser: string)
    | Queued(queuePosition: nat)

  /** A `group_send` of the channel layer: the event and the group it goes to. */
  datatype Notification = Notification(group: Group, event: MatchingEvent)

  datatype QueueStats = QueueStats(totalWaiting: nat, byVibeTag: map<string, nat>, visitorsWaiting: nat)

  // ---------------------------------------------------------------------
  // Pairing rule

  /** Two language preferences are compatible when either is 'mixed' or they are equal. */
  predicate LanguageCompatible(lang1: string, lang2: string): (r: bool)
    ensures lang1 == lang2 ==> r
    ensures lang1 == Mixed || lang2 == Mixed ==> r
    ensures r && lang1 != lang2 ==> lang1 == Mixed || lang2 == Mixed
  {
    if lang1 == Mixed || lang2 == Mixed then true else lang1 == lang2
  }

  lemma LanguageCompatibleSymmetric(lang1: string, lang2: string)
    ensures LanguageCompatible(lang1, lang2) == LanguageCompatible(lang2, lang1)
    ensures LanguageCompatible(lang1, lang2) <==> lang1 == Mixed || lang2 == Mixed || lang1 == lang2
  {
  }

  ghost predicate NoTagBefore(q: seq<Entry>, tag: string, k: nat)
    requires k <= |q|
  {
    forall j :: 0 <= j < k ==> q[j].vibeTag != tag
  }

  ghost predicate NoCompatibleBefore(q: seq<Entry>, language: string, k: nat)
    requires k <= |q|
  {
    forall j :: 0 <= j < k ==> !LanguageCompatible(language, q[j].language)
  }

  /** `filter(vibe_tag=tag).first()`: the index of the oldest entry with that tag. */
  function FirstWithTag(q: seq<Entry>, tag: string): (r: Option<nat>)
    ensures r.Some? ==> r.value < |q| && q[r.value].vibeTag == tag && NoTagBefore(q, tag, r.value)
    ensures r.None? ==> NoTagBefore(q, tag, |q|)
  {
    if q == [] then None
    else if q[0].vibeTag == tag then Some(0)
    else match FirstWithTag(q[1..], tag)
      case None => None
      case Some(k) => Some(k + 1)
  }

  /** The index of the oldest entry whose language is compatible with `language`. */
  function FirstCompatible(q: seq<Entry>, language: string): (r: Option<nat>)
    ensures r.Some? ==> r.value < |q| && LanguageCompatible(language, q[r.value].language)
                        && NoCompatibleBefore(q, language, r.value)
    ensures r.None? ==> NoCompatibleBefore(q, language, |q|)
  {
    if q == [] then None
    else if LanguageCompatible(language, q[0].language) then Some(0)
    else match FirstCompatible(q[1..], language)
      case None => None
      case Some(k) => Some(k + 1)
  }

  /** The entry `_find_match` picks, as an index into the ordered queue:
      (1) for a non-random vibe, the oldest entry with the same vibe if it is
      compatible; (2) otherwise the oldest 'random' entry if it is compatible;
      (3) otherwise the oldest compatible entry.  `is_visitor` plays no part. */
  function MatchChoice(q: seq<Entry>, vibeTag: string, language: string): (r: Option<nat>)
    ensures r.Some? ==> r.value < |q| && LanguageCompatible(language, q[r.value].language)
    ensures r.None? <==> NoCompatibleBefore(q, language, |q|)
  {
    var exact := if vibeTag != Random then FirstWithTag(q, vibeTag) else None;
    if exact.Some? && LanguageCompatible(language, q[exact.value].language) then exact
    else
      var random := FirstWithTag(q, Random);
      if random.Some? && LanguageCompatible(language, q[random.value].language) then random
      else FirstCompatible(q, language)
  }

  /** Priority 1: the oldest entry with the requested (non-random) vibe wins when compatible. */
  lemma OldestSameVibeWins(q: seq<Entry>, vibeTag: string, language: string, k: nat)
    requires vibeTag != Random && k < |q|
    requires q[k].vibeTag == vibeTag && NoTagBefore(q, vibeTag, k)
    requires LanguageCompatible(language, q[k].language)
    ensures MatchChoice(q, vibeTag, language) == Some(k)
  {
  }

  /** Only the oldest same-vibe entry is tried: a younger same-vibe entry is
      never chosen by priority 1, so when the oldest one is incompatible the
      oldest compatible 'random' entry wins over it. */
  lemma OldestRandomIsSecond(q: seq<Entry>, vibeTag: string, language: string, k: nat)
    requires k < |q| && q[k].vibeTag == Random && NoTagBefore(q, Random, k)
    requires LanguageCompatible(language, q[k].language)
    requires || vibeTag == Random
             || NoTagBefore(q, vibeTag, |q|)
             || (exists j :: 0 <= j < |q| && q[j].vibeTag == vibeTag
                            && NoTagBefore(q, vibeTag, j) && !LanguageCompatible(language, q[j].language))
    ensures MatchChoice(q, vibeTag, language) == Some(k)
  {
  }

  /** Priority 3: when neither the oldest same-vibe entry (if the vibe is not
      'random') nor the oldest 'random' entry is there and compatible, the
      oldest compatible entry of the whole table is chosen. */
  lemma OldestCompatibleIsThird(q: seq<Entry>, vibeTag: string, language: string)
    requires || vibeTag == Random
             || FirstWithTag(q, vibeTag).None?
             || !LanguageCompatible(language, q[FirstWithTag(q, vibeTag).value].language)
    requires || FirstWithTag(q, Random).None?
             || !LanguageCompatible(language, q[FirstWithTag(q, Random).value].language)
    ensures MatchChoice(q, vibeTag, language) == FirstCompatible(q, language)
  {
  }

  /** Whatever is chosen is the oldest entry of one of the three priority classes. */
  lemma MatchChoiceIsOldestOfItsClass(q: seq<Entry>, vibeTag: string, language: string)
    ensures var r := MatchChoice(q, vibeTag, language);
            r.Some? ==>
              || (vibeTag != Random && q[r.value].vibeTag == vibeTag && NoTagBefore(q, vibeTag, r.value))
              || (q[r.value].vibeTag == Random && NoTagBefore(q, Random, r.value))
              || NoCompatibleBefore(q, language, r.value)
  {
  }

  // ---------------------------------------------------------------------
  // Table operations as functions of the ordered table

  ghost predicate HasNoEntry(q: seq<Entry>, u: UserId) {
    forall i :: 0 <= i < |q| ==> q[i].user.id != u
  }

  ghost predicate OrderedByCreation(q: seq<Entry>) {
    forall i, j :: 0 <= i < j < |q| ==> q[i].createdAt < q[j].createdAt
  }

  ghost predicate OneEntryPerUser(q: seq<Entry>) {
    forall i, j :: 0 <= i < |q| && 0 <= j < |q| && q[i].user.id == q[j].user.id ==> i == j
  }

  /** `MatchQueue.objects.filter(user=user).delete()`: the table without u's rows. */
  function WithoutUser(q: seq<Entry>, u: UserId): (r: seq<Entry>)
    ensures forall x :: x in r <==> x in q && x.user.id != u
    ensures |r| <= |q|
    ensures |r| == |q| <==> HasNoEntry(q, u)
  {
    if q == [] then []
    else if q[0].user.id == u then WithoutUser(q[1..], u)
    else [q[0]] + WithoutUser(q[1..], u)
  }

  /** The rows of user v, in table order. */
  function EntriesOf(q: seq<Entry>, v: UserId): seq<Entry> {
    if q == [] then []
    else (if q[0].user.id == v then [q[0]] else []) + EntriesOf(q[1..], v)
  }

  /** Removing u's rows leaves every other user's rows exactly as they were. */
  lemma {:induction false} WithoutUserKeepsOthers(q: seq<Entry>, u: UserId, v: UserId)
    requires u != v
    ensures EntriesOf(WithoutUser(q, u), v) == EntriesOf(q, v)
  {
    if q != [] {
      WithoutUserKeepsOthers(q[1..], u, v);
      if q[0].user.id != u {
        assert ([q[0]] + WithoutUser(q[1..], u))[1..] == WithoutUser(q[1..], u);
      }
    }
  }

  lemma {:induction false} WithoutUserOrdered(q: seq<Entry>, u: UserId)
    requires OrderedByCreation(q)
    ensures OrderedByCreation(WithoutUser(q, u))
  {
    if q != [] {
      WithoutUserOrdered(q[1..], u);
      var rest := WithoutUser(q[1..], u);
      forall x | x in rest
        ensures q[0].createdAt < x.createdAt
      {
        var j :| 0 <= j < |q[1..]| && q[1..][j] == x;
        assert q[j + 1] == x;
      }
    }
  }

  lemma WithoutUserOnePerUser(q: seq<Entry>, u: UserId)
    requires OrderedByCreation(q) && OneEntryPerUser(q)
    ensures OneEntryPerUser(WithoutUser(q, u))
  {
    var r := WithoutUser(q, u);
    WithoutUserOrdered(q, u);
    forall i, j | 0 <= i < |r| && 0 <= j < |r| && r[i].user.id == r[j].user.id
      ensures i == j
    {
      assert r[i] in q && r[j] in q;
      var a :| 0 <= a < |q| && q[a] == r[i];
      var b :| 0 <= b < |q| && q[b] == r[j];
      assert a == b;
    }
  }

  /** The table with the row at index k deleted (`potential_match.delete()`). */
  function RemoveAt(q: seq<Entry>, k: nat): (r: seq<Entry>)
    requires k < |q|
    ensures |r| == |q| - 1
    ensures forall i :: 0 <= i < |r| ==> r[i] == (if i < k then q[i] else q[i + 1])
  {
    q[..k] + q[k + 1..]
  }

  lemma RemoveAtKeepsInvariants(q: seq<Entry>, k: nat, clock: nat)
    requires k < |q| && OrderedByCreation(q) && OneEntryPerUser(q)
    requires forall x :: x in q ==> x.createdAt < clock
    ensures OrderedByCreation(RemoveAt(q, k)) && OneEntryPerUser(RemoveAt(q, k))
    ensures forall x :: x in RemoveAt(q, k) ==> x.createdAt < clock && x in q
  {
    var r := RemoveAt(q, k);
    forall x | x in r
      ensures x.createdAt < clock && x in q
    {
      var i :| 0 <= i < |r| && r[i] == x;
      assert x == (if i < k then q[i] else q[i + 1]);
    }
    forall i, j | 0 <= i < |r| && 0 <= j < |r| && r[i].user.id == r[j].user.id
      ensures i == j
    {
      var a := if i < k then i else i + 1;
      var b := if j < k then j else j + 1;
      assert q[a] == r[i] && q[b] == r[j];
    }
  }

  // ---------------------------------------------------------------------
  // Queue position and statistics

  /** The number of rows created strictly before time t. */
  function CountCreatedBefore(q: seq<Entry>, t: nat): (n: nat)
    ensures n == |set i | 0 <= i < |q| && q[i].createdAt < t|
    ensures n <= |q|
  {
    if q == [] then 0
    else
      var init := q[..|q| - 1];
      assert (set i | 0 <= i < |q| && q[i].createdAt < t)
          == (set i | 0 <= i < |init| && init[i].createdAt < t) + (if q[|q| - 1].createdAt < t then {|init|} else {});
      CountCreatedBefore(init, t) + (if q[|q| - 1].createdAt < t then 1 else 0)
  }

  /** `_get_queue_position`: the rows created earlier than e, plus one. */
  function QueuePosition(q: seq<Entry>, e: Entry): (p: nat)
    ensures 1 <= p <= |q| + 1
  {
    CountCreatedBefore(q, e.createdAt) + 1
  }

  /** A row appended after every other row sits at the end of the queue:
      its position is the number of rows ahead of it plus one. */
  lemma {:induction false} PositionOfNewest(q: seq<Entry>, e: Entry)
    requires forall x :: x in q ==> x.createdAt < e.createdAt
    ensures QueuePosition(q + [e], e) == |q| + 1
  {
    assert (q + [e])[..|q|] == q;
    if q != [] {
      var init := q[..|q| - 1];
      assert init + [q[|q| - 1]] == q;
      PositionOfNewest(init, e);
      assert (init + [e])[..|init|] == init;
      assert CountCreatedBefore(init, e.createdAt) == |init|;
      assert q[|q| - 1] in q;
      assert CountCreatedBefore(q, e.createdAt) == |q|;
    }
    assert CountCreatedBefore(q + [e], e.createdAt) == CountCreatedBefore(q, e.createdAt);
  }

  /** The number of rows with vibe tag `tag`. */
  function CountTag(q: seq<Entry>, tag: string): (n: nat)
    ensures n == |set i | 0 <= i < |q| && q[i].vibeTag == tag|
    ensures n <= |q|
    ensures n > 0 <==> exists x :: x in q && x.vibeTag == tag
  {
    if q == [] then 0
    else
      var init := q[..|q| - 1];
      assert q == init + [q[|q| - 1]];
      assert forall x :: x in q <==> x in init || x == q[|q| - 1];
      assert (set i | 0 <= i < |q| && q[i].vibeTag == tag)
          == (set i | 0 <= i < |init| && init[i].vibeTag == tag) + (if q[|q| - 1].vibeTag == tag then {|init|} else {});
      CountTag(init, tag) + (if q[|q| - 1].vibeTag == tag then 1 else 0)
  }

  /** The number of rows flagged as visitors. */
  function CountVisitors(q: seq<Entry>): (n: nat)
    ensures n == |set i | 0 <= i < |q| && q[i].isVisitor|
    ensures n <= |q|
  {
    if q == [] then 0
    else
      var init := q[..|q| - 1];
      assert (set i | 0 <= i < |q| && q[i].isVisitor)
          == (set i | 0 <= i < |init| && init[i].isVisitor) + (if q[|q| - 1].isVisitor then {|init|} else {});
      CountVisitors(init) + (if q[|q| - 1].isVisitor then 1 else 0)
  }

  function VibeTags(q: seq<Entry>): set<string> {
    set x | x in q :: x.vibeTag
  }

  /** `get_queue_stats`: how many are waiting, per vibe tag, and how many visitors. */
  function StatsOf(q: seq<Entry>): (s: QueueStats)
    ensures s.totalWaiting == |q|
    ensures s.byVibeTag.Keys == VibeTags(q)
    ensures forall t :: t in s.byVibeTag ==> s.byVibeTag[t] == |set i | 0 <= i < |q| && q[i].vibeTag == t|
    ensures forall t :: t in s.byVibeTag ==> 1 <= s.byVibeTag[t] <= s.totalWaiting
    ensures s.visitorsWaiting == |set i | 0 <= i < |q| && q[i].isVisitor|
    ensures s.visitorsWaiting <= s.totalWaiting
  {
    QueueStats(|q|, map t | t in VibeTags(q) :: CountTag(q, t), CountVisitors(q))
  }

  /** The text of a match notification (services.py) and of the matched HTTP reply. */
  function MatchMessage(nickname: string): string {
    "Great! You're matched with " + nickname
  }

  // ---------------------------------------------------------------------
  // The queue table, the session table and the notifications sent

  class Queue {
    var entries: seq<Entry>
    var sessions: seq<ChatSession>
    var outbox: seq<Notification>
    var clock: nat

    ghost predicate Valid()
      reads this
    {
      && OrderedByCreation(entries)
      && OneEntryPerUser(entries)
      && (forall x :: x in entries ==> x.createdAt < clock)
      && (forall i :: 0 <= i < |sessions| ==> sessions[i].id == i)
    }

    constructor ()
      ensures Valid() && entries == [] && sessions == [] && outbox == []
    {
      entries, sessions, outbox, clock := [], [], [], 0;
    }

    /** `_find_match`, over the current table. */
    method FindMatch(vibeTag: string, language: string, isVisitor: bool) returns (m: Option<nat>)
      ensures m == MatchChoice(entries, vibeTag, language)
    {
      if vibeTag != Random {
        var exact := FirstWithTag(entries, vibeTag);
        if exact.Some? && LanguageCompatible(language, entries[exact.value].language) {
          return exact;
        }
      }
      var random := FirstWithTag(entries, Random);
      if random.Some? && LanguageCompatible(language, entries[random.value].language) {
        return random;
      }
      var i := 0;
      while i < |entries|
        invariant 0 <= i <= |entries|
        invariant NoCompatibleBefore(entries, language, i)
      {
        if LanguageCompatible(language, entries[i].language) {
          ghost var f := FirstCompatible(entries, language);
          assert f.Some? && f.value <= i;
          return Some(i);
        }
        i := i + 1;
      }
      return None;
    }

    /** `_create_session`: a new active session, caller as user_a. */
    method CreateSession(userA: User, userB: User, vibeTag: string, language: string) returns (s: ChatSession)
      requires Valid()
      modifies this
      ensures Valid()
      ensures s == ChatSession(|old(sessions)|, userA, userB, vibeTag, language, Active)
      ensures sessions == old(sessions) + [s]
      ensures entries == old(entries) && outbox == old(outbox) && clock == old(clock)
    {
      s := ChatSession(|sessions|, userA, userB, vibeTag, language, Active);
      sessions := sessions + [s];
    }

    /** `_notify_match_found`: one `match_found` to each user's group, naming the other. */
    method NotifyMatchFound(userA: User, userB: User, session: ChatSession)
      modifies this`outbox
      ensures outbox == old(outbox)
        + [Notification(UserGroup(userA.id), MatchFound(session.id, userB.nickname, MatchMessage(userB.nickname))),
           Notification(UserGroup(userB.id), MatchFound(session.id, userA.nickname, MatchMessage(userA.nickname)))]
    {
      outbox := outbox + [Notification(UserGroup(userA.id), MatchFound(session.id, userB.nickname, MatchMessage(userB.nickname)))];
      outbox := outbox + [Notification(UserGroup(userB.id), MatchFound(session.id, userA.nickname, MatchMessage(userA.nickname)))];
    }

    /** `leave_queue`: true iff the user had a row; afterwards the user has none
        and every other row is where it was. */
    method LeaveQueue(user: User) returns (left: bool)
      requires Valid()
      modifies this
      ensures Valid()
      ensures entries == WithoutUser(old(entries), user.id)
      ensures HasNoEntry(entries, user.id)
      ensures left <==> !HasNoEntry(old(entries), user.id)
      ensures sessions == old(sessions) && outbox == old(outbox) && clock == old(clock)
    {
      var before := |entries|;
      WithoutUserOrdered(entries, user.id);
      WithoutUserOnePerUser(entries, user.id);
      entries := WithoutUser(entries, user.id);
      left := |entries| < before;
    }

    /** The pairing branch of `join_queue`: session, notifications, partner's row deleted. */
    method PairWith(user: User, k: nat, vibeTag: string, language: string) returns (res: JoinResult)
      requires Valid() && k < |entries| && HasNoEntry(entries, user.id)
      modifies this
      ensures Valid()
      ensures var partner := old(entries)[k].user;
              && partner.id != user.id
              && res == Matched(|old(sessions)|, partner.nickname)
              && entries == RemoveAt(old(entries), k)
              && sessions == old(sessions) + [ChatSession(|old(sessions)|, user, partner, vibeTag, language, Active)]
              && outbox == old(outbox)
                 + [Notification(UserGroup(user.id), MatchFound(|old(sessions)|, partner.nickname, MatchMessage(partner.nickname))),
                    Notification(UserGroup(partner.id), MatchFound(|old(sessions)|, user.nickname, MatchMessage(user.nickname)))]
              && clock == old(clock)
      ensures HasNoEntry(entries, user.id)
    {
      var partner := entries[k].user;
      var session := CreateSession(user, partner, vibeTag, language);
      NotifyMatchFound(user, partner, session);
      RemoveAtKeepsInvariants(entries, k, clock);
      ghost var before := entries;
      entries := RemoveAt(entries, k);
      forall i | 0 <= i < |entries|
        ensures entries[i].user.id != user.id
      {
        assert entries[i] == (if i < k then before[i] else before[i + 1]);
      }
      res := Matched(session.id, partner.nickname);
    }

    /** The queueing branch of `join_queue`: one new row at the end, and its position. */
    method Enqueue(user: User, vibeTag: string, language: string, isVisitor: bool) returns (res: JoinResult)
      requires Valid() && HasNoEntry(entries, user.id)
      modifies this
      ensures Valid()
      ensures entries == old(entries) + [Entry(user, vibeTag, language, isVisitor, old(clock))]
      ensures res == Queued(|entries|)
      ensures sessions == old(sessions) && outbox == old(outbox) && clock == old(clock) + 1
    {
      var entry := Entry(user, vibeTag, language, isVisitor, clock);
      PositionOfNewest(entries, entry);
      entries := entries + [entry];
      clock := clock + 1;
      res := Queued(QueuePosition(entries, entry));
    }

    /** `join_queue`: drop the caller's old row, then pair or enqueue.  The
        caller is never paired with itself and holds at most one row after. */
    method JoinQueue(user: User, vibeTag: string, language: string, isVisitor: bool) returns (res: JoinResult)
      requires Valid()
      modifies this
      ensures Valid()
      ensures var rest := WithoutUser(old(entries), user.id);
              var choice := MatchChoice(rest, vibeTag, language);
              choice.Some? ==>
                var partner := rest[choice.value].user;
                && partner.id != user.id
                && res == Matched(|old(sessions)|, partner.nickname)
                && entries == RemoveAt(rest, choice.value)
                && sessions == old(sessions) + [ChatSession(|old(sessions)|, user, partner, vibeTag, language, Active)]
                && outbox == old(outbox)
                   + [Notification(UserGroup(user.id), MatchFound(|old(sessions)|, partner.nickname, MatchMessage(partner.nickname))),
                      Notification(UserGroup(partner.id), MatchFound(|old(sessions)|, user.nickname, MatchMessage(user.nickname)))]
                && clock == old(clock)
      ensures var rest := WithoutUser(old(entries), user.id);
              MatchChoice(rest, vibeTag, language).None? ==>
                && entries == rest + [Entry(user, vibeTag, language, isVisitor, old(clock))]
                && res == Queued(|entries|)
                && sessions == old(sessions) && outbox == old(outbox)
                && clock == old(clock) + 1
      ensures res.Matched? ==> HasNoEntry(entries, user.id)
    {
      WithoutUserOrdered(entries, user.id);
      WithoutUserOnePerUser(entries, user.id);
      entries := WithoutUser(entries, user.id);

      var potentialMatch := FindMatch(vibeTag, language, isVisitor);
      if potentialMatch.Some? {
        res := PairWith(user, potentialMatch.value, vibeTag, language);
      } else {
        res := Enqueue(user, vibeTag, language, isVisitor);
      }
    }
  }
}
