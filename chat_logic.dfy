/** The pure part of the conversation store: the `chats.find` lookups, the
    new-chat record, the candidate filter of the random-chat fallback, the
    message append that `sendMessage` and the group callback apply with
    `chats.map`, the private-or-group dispatch choice, and the history
    fallbacks. */
module ChatLogic {
  import opened Types
  import opened JsStrings
  import opened Transport

  /** The predicates the store passes to `chats.find` and `chats.map`. */
  datatype ChatQuery =
    | DirectWith(self: string, other: string)  // type 'direct' holding both ids
    | InGroup(groupId: string)                  // `c.groupId === groupId`
    | WithId(chatId: string)                    // `c.id === chatId`

  predicate Matches(q: ChatQuery, c: Chat) {
    match q
    case DirectWith(self, other) =>
      c.chatType == DirectChat && self in c.participants && other in c.participants
    case InGroup(g) => c.groupId == Some(g)
    case WithId(id) => c.id == id
  }

  /** `chats.find(...)`, as the index of the first chat the query matches. */
  function FindFirst(chats: seq<Chat>, q: ChatQuery): (r: Option<nat>)
    ensures r.Some? ==> r.value < |chats| && Matches(q, chats[r.value])
    ensures r.Some? ==> forall j :: 0 <= j < r.value ==> !Matches(q, chats[j])
    ensures r.None? <==> forall j :: 0 <= j < |chats| ==> !Matches(q, chats[j])
  {
    if chats == [] then None
    else if Matches(q, chats[0]) then Some(0)
    else match FindFirst(chats[1..], q)
      case None => None
      case Some(k) => Some(k + 1)
  }

  /** Two chats that agree on everything but their messages answer every
      query alike. */
  predicate SameShape(a: Chat, b: Chat) {
    a.id == b.id && a.chatType == b.chatType && a.participants == b.participants && a.groupId == b.groupId
  }

  /** Lookups are unaffected by appending messages. */
  lemma {:induction false} FindFirstIgnoresMessages(xs: seq<Chat>, ys: seq<Chat>, q: ChatQuery)
    requires |xs| == |ys|
    requires forall i :: 0 <= i < |xs| ==> SameShape(xs[i], ys[i])
    ensures FindFirst(xs, q) == FindFirst(ys, q)
  {
    if xs != [] {
      assert Matches(q, xs[0]) == Matches(q, ys[0]);
      FindFirstIgnoresMessages(xs[1..], ys[1..], q);
    }
  }

  // ---------------------------------------------------------------- direct chats

  /** The id the hook gives a new direct chat: `chat_<self>_<other>`, in
      argument order. */
  function DirectChatId(self: string, other: string): (id: string)
    ensures |id| == 6 + |self| + |other|
    ensures id[..5] == "chat_"
    ensures id[5..5 + |self|] == self
    ensures id[5 + |self|] == '_' && id[6 + |self|..] == other
  {
    "chat_" + self + "_" + other
  }

  /** The record `startDirectChat` appends. */
  function NewDirectChat(id: string, self: string, other: string, now: int): Chat {
    Chat(id, DirectChat, [self, other], None, [], None, 0, now)
  }

  /** `startDirectChat(other)` for the user `self`: the id of the first direct
      chat already holding both ids, or `newId` together with the list extended
      by a fresh direct chat.  The result is the chat id and the new list. */
  function StartDirect(chats: seq<Chat>, self: string, other: string, newId: string, now: int)
    : (r: (string, seq<Chat>))
    ensures |chats| <= |r.1| <= |chats| + 1
    ensures r.1[..|chats|] == chats
    ensures FindFirst(r.1, DirectWith(self, other)).Some?
    ensures r.1[FindFirst(r.1, DirectWith(self, other)).value].id == r.0
  {
    match FindFirst(chats, DirectWith(self, other))
    case Some(k) => (chats[k].id, chats)
    case None =>
      var c := NewDirectChat(newId, self, other, now);
      var cs := chats + [c];
      assert Matches(DirectWith(self, other), cs[|chats|]);
      assert forall j :: 0 <= j < |chats| ==> cs[j] == chats[j];
      (newId, cs)
  }

  /** An existing direct chat is reused and nothing is added. */
  lemma StartDirectReuses(chats: seq<Chat>, self: string, other: string, newId: string, now: int, k: nat)
    requires k < |chats| && Matches(DirectWith(self, other), chats[k])
    ensures StartDirect(chats, self, other, newId, now).1 == chats
    ensures StartDirect(chats, self, other, newId, now).0
              == chats[FindFirst(chats, DirectWith(self, other)).value].id
  {
  }

  /** Without one, exactly one chat is appended: direct, with participants
      `[self, other]`, the new id, no messages and no unread count. */
  lemma StartDirectAppends(chats: seq<Chat>, self: string, other: string, newId: string, now: int)
    requires forall j :: 0 <= j < |chats| ==> !Matches(DirectWith(self, other), chats[j])
    ensures var (id, cs) := StartDirect(chats, self, other, newId, now);
      && id == newId
      && |cs| == |chats| + 1 && cs[..|chats|] == chats
      && cs[|chats|].id == newId && cs[|chats|].chatType == DirectChat
      && cs[|chats|].participants == [self, other]
      && cs[|chats|].messages == [] && cs[|chats|].lastMessage == None
      && cs[|chats|].unreadCount == 0
  {
  }

  /** Starting the same chat twice returns the same id and adds nothing the
      second time, whatever the second call's fresh id and clock. */
  lemma StartDirectIdempotent(chats: seq<Chat>, self: string, other: string,
                              id1: string, now1: int, id2: string, now2: int)
    ensures var (id, cs) := StartDirect(chats, self, other, id1, now1);
      StartDirect(cs, self, other, id2, now2) == (id, cs)
  {
  }

  /** The direct-chat lookup does not depend on which of the two users asks:
      both queries match the same chats, and `FindFirst` is the first match. */
  lemma FindFirstDirectSymmetric(chats: seq<Chat>, a: string, b: string)
    ensures FindFirst(chats, DirectWith(a, b)) == FindFirst(chats, DirectWith(b, a))
  {
  }

  /** Once either user has started the chat, the other starting it gets the
      same id and adds nothing, although the new id would name the users in
      the other order. */
  lemma StartDirectIdempotentSwapped(chats: seq<Chat>, a: string, b: string,
                                     id1: string, now1: int, id2: string, now2: int)
    ensures var (id, cs) := StartDirect(chats, a, b, id1, now1);
      StartDirect(cs, b, a, id2, now2) == (id, cs)
  {
    var (id, cs) := StartDirect(chats, a, b, id1, now1);
    FindFirstDirectSymmetric(cs, a, b);
  }

  // ---------------------------------------------------------------- random chats

  /** Some chat, of any type, lists `id` among its participants. */
  predicate InSomeChat(chats: seq<Chat>, id: string) {
    exists i :: 0 <= i < |chats| && id in chats[i].participants
  }

  /** The filter of the local random-chat fallback. */
  predicate Eligible(u: User, chats: seq<Chat>, self: string) {
    u.id != self && !InSomeChat(chats, u.id)
  }

  /** `users.filter(...)` of the local fallback: the eligible users, in order. */
  function Candidates(users: seq<User>, chats: seq<Chat>, self: string): (r: seq<User>)
    ensures |r| <= |users|
    ensures forall u :: u in r <==> u in users && Eligible(u, chats, self)
  {
    if users == [] then []
    else (if Eligible(users[0], chats, self) then [users[0]] else []) + Candidates(users[1..], chats, self)
  }

  /** `Math.floor(rnd * n)` for `rnd = Math.random()`, which lies in [0, 1). */
  function PickIndex(rnd: real, n: nat): (k: nat)
    requires 0.0 <= rnd < 1.0 && n > 0
    ensures k < n
  {
    var x := rnd * n as real;
    assert 0.0 <= x < n as real by {
      assert rnd * n as real < 1.0 * n as real;
    }
    x.Floor
  }

  /** The peer the fallback picks, if any. */
  function RandomPeer(users: seq<User>, chats: seq<Chat>, self: string, rnd: real): Option<User>
    requires 0.0 <= rnd < 1.0
  {
    var cands := Candidates(users, chats, self);
    if |cands| == 0 then None else Some(cands[PickIndex(rnd, |cands|)])
  }

  /** The fallback never picks the current user nor anyone already in a chat,
      and it finds nobody exactly when nobody is eligible. */
  lemma RandomPeerEligible(users: seq<User>, chats: seq<Chat>, self: string, rnd: real)
    requires 0.0 <= rnd < 1.0
    ensures var p := RandomPeer(users, chats, self, rnd);
      && (p.Some? ==> p.value in users && p.value.id != self && !InSomeChat(chats, p.value.id))
      && (p.None? <==> forall u :: u in users ==> !Eligible(u, chats, self))
  {
    var cands := Candidates(users, chats, self);
    if |cands| > 0 {
      assert cands[PickIndex(rnd, |cands|)] in cands;
    }
  }

  /** A peer the fallback may pick shares no chat with anyone, so starting a
      direct chat with it always appends a new one. */
  lemma EligiblePeerHasNoDirectChat(chats: seq<Chat>, self: string, p: User)
    requires Eligible(p, chats, self)
    ensures FindFirst(chats, DirectWith(self, p.id)).None?
  {
    forall j | 0 <= j < |chats| ensures p.id !in chats[j].participants {
    }
  }

  // ---------------------------------------------------------------- sending

  /** `msg_${Date.now()}_${suffix}`, the suffix being the random base-36 part. */
  function MessageId(now: nat, suffix: string): (id: string)
    ensures |id| > 4 && id[..4] == "msg_"
  {
    "msg_" + DecimalString(now) + "_" + suffix
  }

  /** `{ ...c, messages: [...c.messages, m], lastMessage: m, updatedAt }`;
      `stamp` is `None` where the record has no `updatedAt` to bump. */
  function WithMessage(c: Chat, m: Message, stamp: Option<int>): Chat {
    c.(messages := c.messages + [m], lastMessage := Some(m), updatedAt := stamp.GetOr(c.updatedAt))
  }

  /** `chats.map(c => matches ? WithMessage(c) : c)` */
  function AppendWhere(chats: seq<Chat>, q: ChatQuery, m: Message, stamp: Option<int>): (r: seq<Chat>)
    ensures |r| == |chats|
    ensures forall i :: 0 <= i < |chats| && !Matches(q, chats[i]) ==> r[i] == chats[i]
    ensures forall i :: 0 <= i < |chats| && Matches(q, chats[i]) ==>
      && SameShape(r[i], chats[i])
      && r[i].messages == chats[i].messages + [m]
      && r[i].lastMessage == Some(m)
      && r[i].unreadCount == chats[i].unreadCount
      && r[i].updatedAt == stamp.GetOr(chats[i].updatedAt)
  {
    seq(|chats|, i requires 0 <= i < |chats| => if Matches(q, chats[i]) then WithMessage(chats[i], m, stamp) else chats[i])
  }

  /** `lastMessage` is the last element of `messages`, and absent when there
      are none. */
  predicate LastMessageConsistent(c: Chat) {
    if c.messages == [] then c.lastMessage == None else c.lastMessage == Some(c.messages[|c.messages| - 1])
  }

  predicate AllConsistent(chats: seq<Chat>) {
    forall i :: 0 <= i < |chats| ==> LastMessageConsistent(chats[i])
  }

  /** Appending keeps `lastMessage` equal to the final message in every chat. */
  lemma AppendKeepsLastMessage(chats: seq<Chat>, q: ChatQuery, m: Message, stamp: Option<int>)
    requires AllConsistent(chats)
    ensures AllConsistent(AppendWhere(chats, q, m, stamp))
  {
  }

  /** Appending to a chat id shared by no other chat changes exactly one chat. */
  lemma AppendToUniqueId(chats: seq<Chat>, k: nat, m: Message, stamp: Option<int>)
    requires k < |chats|
    requires forall j :: 0 <= j < |chats| && j != k ==> chats[j].id != chats[k].id
    ensures var r := AppendWhere(chats, WithId(chats[k].id), m, stamp);
      && |r| == |chats|
      && r[k].messages == chats[k].messages + [m] && r[k].lastMessage == Some(m)
      && (forall j :: 0 <= j < |chats| && j != k ==> r[j] == chats[j])
  {
  }

  /** A run of sends to one chat, oldest first. */
  function AppendAll(chats: seq<Chat>, q: ChatQuery, ms: seq<Message>, stamp: Option<int>): seq<Chat>
    decreases |ms|
  {
    if ms == [] then chats else AppendAll(AppendWhere(chats, q, ms[0], stamp), q, ms[1..], stamp)
  }

  /** Successive sends keep their call order and count, touch nothing else, and
      leave `lastMessage` at the final one. */
  lemma {:induction false} AppendAllInOrder(chats: seq<Chat>, q: ChatQuery, ms: seq<Message>, stamp: Option<int>)
    ensures var r := AppendAll(chats, q, ms, stamp);
      && |r| == |chats|
      && (forall i :: 0 <= i < |chats| && Matches(q, chats[i]) ==>
            SameShape(r[i], chats[i]) && r[i].messages == chats[i].messages + ms
            && (ms != [] ==> r[i].lastMessage == Some(ms[|ms| - 1])))
      && (forall i :: 0 <= i < |chats| && !Matches(q, chats[i]) ==> r[i] == chats[i])
    decreases |ms|
  {
    if ms != [] {
      var next := AppendWhere(chats, q, ms[0], stamp);
      AppendAllInOrder(next, q, ms[1..], stamp);
      var r := AppendAll(chats, q, ms, stamp);
      forall i | 0 <= i < |chats| && Matches(q, chats[i])
        ensures r[i].messages == chats[i].messages + ms
      {
        assert Matches(q, next[i]);
        assert ms == [ms[0]] + ms[1..];
      }
      forall i | 0 <= i < |chats| && Matches(q, chats[i]) && ms[1..] == []
        ensures r[i].lastMessage == Some(ms[|ms| - 1])
      {
        assert Matches(q, next[i]);
      }
    }
  }

  /** `participants.find(id => id !== self)` */
  function FirstOther(participants: seq<string>, self: string): (r: Option<string>)
    ensures r.Some? ==> r.value in participants && r.value != self
    ensures r.None? <==> forall p :: p in participants ==> p == self
    ensures r.Some? ==>
      exists k :: 0 <= k < |participants| && participants[k] == r.value && forall j :: 0 <= j < k ==> participants[j] == self
  {
    if participants == [] then None
    else if participants[0] != self then Some(participants[0])
    else
      assert participants == [participants[0]] + participants[1..];
      var r := FirstOther(participants[1..], self);
      if r.Some? then
        var k :| 0 <= k < |participants[1..]| && participants[1..][k] == r.value
          && forall j :: 0 <= j < k ==> participants[1..][j] == self;
        assert participants[k + 1] == r.value;
        r
      else r
  }

  /** The socket event `sendMessage` hands to the transport: `private` to the
      other participant of a direct chat, `group` for a group chat with a
      group id, and none otherwise. */
  function Dispatch(c: Chat, self: string, content: string): Option<Emitted> {
    if c.chatType == DirectChat then
      var other := FirstOther(c.participants, self);
      if Truthy(other) then Some(SendMessageEvent(self, other, None, content, Private)) else None
    else if c.chatType == GroupChat && Truthy(c.groupId) then
      Some(SendMessageEvent(self, None, c.groupId, content, GroupKind))
    else None
  }

  /** What the dispatch choice promises: a private event goes to a participant
      other than the sender, a group event to the chat's group, and a random
      chat, or a group chat without a group id, sends nothing. */
  lemma DispatchTargets(c: Chat, self: string, content: string)
    ensures var e := Dispatch(c, self, content);
      && (e.Some? ==> e.value.SendMessageEvent? && e.value.fromUserId == self && e.value.message == content)
      && (e.Some? && e.value.kind == Private ==>
            c.chatType == DirectChat && e.value.groupId == None && e.value.toUserId.Some?
            && e.value.toUserId.value in c.participants && e.value.toUserId.value != self)
      && (e.Some? && e.value.kind == GroupKind ==>
            c.chatType == GroupChat && e.value.toUserId == None && e.value.groupId == c.groupId)
      && (c.chatType == GroupChat ==> (e.Some? <==> Truthy(c.groupId)))
      && (c.chatType == DirectChat ==> (e.Some? <==> Truthy(FirstOther(c.participants, self))))
      && (c.chatType == RandomChat ==> e.None?)
  {
  }

  // ---------------------------------------------------------------- inbound group messages

  /** The message the group callback builds from a socket payload. */
  function FromSocketMessage(sm: SocketMessage): Message {
    Message(sm.msgId, sm.from, sm.message, sm.createdAt, Text)
  }

  /** The callbacks this store hands to the transport: the group callback of
      `openGroupChat`, and callbacks registered by code outside this model. */
  datatype Handler = AppendGroupMessage(groupId: string) | OtherCallback(tag: nat)

  /** The effect on the chat list of one invoked callback. */
  function ApplyHandler(chats: seq<Chat>, h: Handler, sm: SocketMessage, now: int): (r: seq<Chat>)
    ensures |r| == |chats|
  {
    match h
    case AppendGroupMessage(g) => AppendWhere(chats, InGroup(g), FromSocketMessage(sm), Some(now))
    case OtherCallback(_) => chats
  }

  /** The effect of the callbacks invoked for one event, in order. */
  function ApplyHandlers(chats: seq<Chat>, hs: seq<Handler>, sm: SocketMessage, now: int): (r: seq<Chat>)
    ensures |r| == |chats|
    decreases |hs|
  {
    if hs == [] then chats else ApplyHandler(ApplyHandlers(chats, hs[..|hs| - 1], sm, now), hs[|hs| - 1], sm, now)
  }

  /** Some invoked callback is a group-message callback, which saves the list. */
  predicate AnyGroupCallback(hs: seq<Handler>) {
    exists k :: 0 <= k < |hs| && hs[k].AppendGroupMessage?
  }

  /** A group that was subscribed twice gets every inbound message twice. */
  lemma DoubleSubscriptionAppendsTwice(chats: seq<Chat>, g: string, sm: SocketMessage, now: int)
    ensures var r := ApplyHandlers(chats, [AppendGroupMessage(g), AppendGroupMessage(g)], sm, now);
      && |r| == |chats|
      && forall i :: 0 <= i < |chats| && chats[i].groupId == Some(g) ==>
           r[i].messages == chats[i].messages + [FromSocketMessage(sm), FromSocketMessage(sm)]
  {
    var h := AppendGroupMessage(g);
    var hs := [h, h];
    assert hs[..1] == [h] && [h][..0] == [];
    var once := ApplyHandler(chats, h, sm, now);
    assert ApplyHandlers(chats, [h], sm, now) == once;
    assert ApplyHandlers(chats, hs, sm, now) == ApplyHandler(once, h, sm, now);
    forall i | 0 <= i < |chats| && chats[i].groupId == Some(g)
      ensures ApplyHandler(once, h, sm, now)[i].messages
              == chats[i].messages + [FromSocketMessage(sm), FromSocketMessage(sm)]
    {
      assert once[i].groupId == Some(g);
    }
  }

  // ---------------------------------------------------------------- history fallbacks

  /** `limit || 20` */
  const DefaultPageLimit: int := 20

  function PageLimit(limit: Option<int>): (r: int)
    ensures r != 0
    ensures limit.Some? && limit.value != 0 ==> r == limit.value
    ensures limit.None? || limit.value == 0 ==> r == DefaultPageLimit
  {
    OrNumber(limit, DefaultPageLimit)
  }

  /** `chats.find(pred)?.messages || []`: the messages of the first chat the
      query matches, or none. */
  function LocalHistory(chats: seq<Chat>, q: ChatQuery): (r: seq<Message>)
    ensures FindFirst(chats, q).None? ==> r == []
    ensures FindFirst(chats, q).Some? ==> r == chats[FindFirst(chats, q).value].messages
  {
    match FindFirst(chats, q)
    case Some(k) => chats[k].messages
    case None => []
  }

  /** A chat started with `startDirectChat` is the one the one-to-one
      fallback reads, and a message sent to it shows up there. */
  lemma StartThenSendIsVisible(chats: seq<Chat>, self: string, other: string, newId: string,
                               now: int, m: Message)
    ensures var (id, cs) := StartDirect(chats, self, other, newId, now);
      var before := LocalHistory(cs, DirectWith(self, other));
      LocalHistory(AppendWhere(cs, WithId(id), m, Some(now)), DirectWith(self, other)) == before + [m]
  {
    var (id, cs) := StartDirect(chats, self, other, newId, now);
    var after := AppendWhere(cs, WithId(id), m, Some(now));
    FindFirstIgnoresMessages(cs, after, DirectWith(self, other));
  }
}
