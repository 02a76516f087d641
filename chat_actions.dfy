/** The conversation store of `useChatActions`: the current user, the known
    users and the chat list, which `startDirectChat`, `startRandomChat`,
    `sendMessage` and the group callback replace (`setChats`) and persist
    (`saveToStorage.chats`), and the realtime transport it sends through.

    Remote calls are inputs: `matched` is the peer id a successful
    `openRandomChat` returns (`None` when the call fails or matches nobody),
    `response` the message page a successful history call returns (`None`
    when it fails or carries no messages).  `now` is `Date.now()`, `rnd` is
    `Math.random()` and `suffix` is the random part of a message id. */
module ChatStore {
  import opened Types
  import opened JsStrings
  import opened Transport
  import opened ChatLogic

  /** A page request sent to the remote directory. */
  datatype HistoryRequest =
    | GroupHistory(groupId: string, lastMessageId: Option<string>, limit: int)
    | DirectHistory(userId: string, otherUserId: string, lastMessageId: Option<string>, limit: int)

  class ChatActions {
    var currentUser: Option<User>
    var users: seq<User>
    var chats: seq<Chat>
    /** The chat list as last written to storage. */
    ghost var savedChats: seq<Chat>
    const socket: SocketService<Handler>

    ghost predicate Valid()
      reads this, socket
    {
      socket.Valid()
    }

    constructor (currentUser: Option<User>, users: seq<User>, chats: seq<Chat>, socket: SocketService<Handler>)
      requires socket.Valid()
      ensures Valid()
      ensures this.currentUser == currentUser && this.users == users && this.chats == chats
      ensures savedChats == chats && this.socket == socket
    {
      this.currentUser, this.users, this.chats := currentUser, users, chats;
      savedChats := chats;
      this.socket := socket;
    }

    /** `startDirectChat(userId)`: without a current user, `''` and no change;
        otherwise the id of the first direct chat holding both ids, or
        `chat_<self>_<userId>` for a chat appended (and saved) at the end. */
    method StartDirectChat(userId: string, now: int) returns (id: string)
      modifies this`chats, this`savedChats
      ensures currentUser.None? ==> id == "" && chats == old(chats) && savedChats == old(savedChats)
      ensures currentUser.Some? ==>
        var self := currentUser.value.id;
        (id, chats) == StartDirect(old(chats), self, userId, DirectChatId(self, userId), now)
      ensures savedChats == if chats == old(chats) then old(savedChats) else chats
    {
      if currentUser.None? {
        return "";
      }
      var self := currentUser.value.id;
      match FindFirst(chats, DirectWith(self, userId))
      case Some(k) =>
        id := chats[k].id;
      case None =>
        var newChat := NewDirectChat(DirectChatId(self, userId), self, userId, now);
        chats := chats + [newChat];
        savedChats := chats;
        id := newChat.id;
    }

    /** `startRandomChat()`: the chat with the peer the remote service matched,
        or, when it matched nobody, a new chat with a peer drawn from the users
        who are not the current user and appear in no chat; `None` without a
        current user or without such a peer. */
    method StartRandomChat(matched: Option<string>, rnd: real, now: int) returns (r: Option<string>)
      requires 0.0 <= rnd < 1.0
      modifies this`chats, this`savedChats
      ensures currentUser.None? ==> r.None? && chats == old(chats) && savedChats == old(savedChats)
      ensures currentUser.Some? && matched.Some? ==>
        var self := currentUser.value.id;
        var (id, cs) := StartDirect(old(chats), self, matched.value, DirectChatId(self, matched.value), now);
        r == Some(id) && chats == cs
      ensures currentUser.Some? && matched.None? ==>
        var self := currentUser.value.id;
        match RandomPeer(users, old(chats), self, rnd)
        case None => r.None? && chats == old(chats) && savedChats == old(savedChats)
        case Some(p) =>
          && r == Some(DirectChatId(self, p.id))
          && chats == old(chats) + [NewDirectChat(DirectChatId(self, p.id), self, p.id, now)]
      ensures savedChats == if chats == old(chats) then old(savedChats) else chats
    {
      if currentUser.None? {
        return None;
      }
      var self := currentUser.value.id;
      if matched.Some? {
        var id := StartDirectChat(matched.value, now);
        return Some(id);
      }
      var available := Candidates(users, chats, self);
      if |available| == 0 {
        return None;
      }
      var peer := available[PickIndex(rnd, |available|)];
      EligiblePeerHasNoDirectChat(chats, self, peer);
      var id := StartDirectChat(peer.id, now);
      r := Some(id);
    }

    /** `sendMessage(chatId, content)`: without a current user or an existing
        chat of that id, nothing; otherwise the socket event the chat's type
        calls for is sent (and dropped when disconnected), and every chat of
        that id gets the new message at the end, as its last message, and the
        list is saved. */
    method SendMessage(chatId: string, content: string, now: nat, suffix: string)
      requires Valid()
      modifies this`chats, this`savedChats, socket`emitted
      ensures Valid()
      ensures currentUser.None? || FindFirst(old(chats), WithId(chatId)).None? ==>
        chats == old(chats) && savedChats == old(savedChats) && socket.emitted == old(socket.emitted)
      ensures currentUser.Some? && FindFirst(old(chats), WithId(chatId)).Some? ==>
        var self := currentUser.value.id;
        var chat := old(chats)[FindFirst(old(chats), WithId(chatId)).value];
        var m := Message(MessageId(now, suffix), self, content, now, Text);
        var e := Dispatch(chat, self, content);
        && chats == AppendWhere(old(chats), WithId(chatId), m, Some(now))
        && savedChats == chats
        && socket.emitted == old(socket.emitted) + (if socket.connected && e.Some? then [e.value] else [])
    {
      if currentUser.None? {
        return;
      }
      var self := currentUser.value.id;
      var found := FindFirst(chats, WithId(chatId));
      if found.None? {
        return;
      }
      var chat := chats[found.value];
      var newMessage := Message(MessageId(now, suffix), self, content, now, Text);
      if chat.chatType == DirectChat {
        var other := FirstOther(chat.participants, self);
        if Truthy(other) {
          socket.SendMessage(self, other, None, content, Private);
        }
      } else if chat.chatType == GroupChat && Truthy(chat.groupId) {
        socket.SendMessage(self, None, chat.groupId, content, GroupKind);
      }
      chats := AppendWhere(chats, WithId(chatId), newMessage, Some(now));
      savedChats := chats;
    }

    /** `sendTyping(chatId, otherUserId)`: a typing event from the current user. */
    method SendTyping(chatId: string, otherUserId: string)
      requires Valid()
      modifies socket`emitted
      ensures currentUser.None? ==> socket.emitted == old(socket.emitted)
      ensures currentUser.Some? ==>
        socket.emitted == old(socket.emitted)
                          + (if socket.connected then [TypingEvent(currentUser.value.id, otherUserId)] else [])
    {
      if currentUser.Some? {
        socket.SendTyping(currentUser.value.id, otherUserId);
      }
    }

    /** `sendStopTyping(chatId, otherUserId)`: a stop-typing event from the current user. */
    method SendStopTyping(chatId: string, otherUserId: string)
      requires Valid()
      modifies socket`emitted
      ensures currentUser.None? ==> socket.emitted == old(socket.emitted)
      ensures currentUser.Some? ==>
        socket.emitted == old(socket.emitted)
                          + (if socket.connected then [StopTypingEvent(currentUser.value.id, otherUserId)] else [])
    {
      if currentUser.Some? {
        socket.SendStopTyping(currentUser.value.id, otherUserId);
      }
    }

    /** The callback `openGroupChat` subscribes: every chat bound to the group
        gets the inbound message at the end, as its last message; the other
        chats are unchanged; the list is saved. */
    method OnGroupMessage(groupId: string, sm: SocketMessage, now: int)
      modifies this`chats, this`savedChats
      ensures chats == ApplyHandler(old(chats), AppendGroupMessage(groupId), sm, now)
      ensures |chats| == |old(chats)|
      ensures forall i :: 0 <= i < |chats| && old(chats)[i].groupId != Some(groupId) ==> chats[i] == old(chats)[i]
      ensures forall i :: 0 <= i < |chats| && old(chats)[i].groupId == Some(groupId) ==>
        chats[i].messages == old(chats)[i].messages + [FromSocketMessage(sm)]
        && chats[i].lastMessage == Some(FromSocketMessage(sm))
      ensures savedChats == chats
    {
      chats := AppendWhere(chats, InGroup(groupId), FromSocketMessage(sm), Some(now));
      savedChats := chats;
    }

    /** A group message arriving from the relay: the transport invokes the
        callbacks attached for the group, in order, and each group callback
        appends the message. */
    method ReceiveGroupMessage(groupId: string, sm: SocketMessage, now: int) returns (invoked: seq<Handler>)
      requires Valid()
      modifies this`chats, this`savedChats
      ensures invoked == if socket.connected then socket.Listeners(GroupNewMessage(groupId, sm)) else []
      ensures chats == ApplyHandlers(old(chats), invoked, sm, now)
      ensures savedChats == if AnyGroupCallback(invoked) then chats else old(savedChats)
    {
      invoked := socket.Deliver(GroupNewMessage(groupId, sm));
      var i := 0;
      while i < |invoked|
        invariant 0 <= i <= |invoked|
        invariant chats == ApplyHandlers(old(chats), invoked[..i], sm, now)
        invariant savedChats == if AnyGroupCallback(invoked[..i]) then chats else old(savedChats)
      {
        assert invoked[..i + 1][..i] == invoked[..i];
        assert invoked[..i + 1][i] == invoked[i];
        match invoked[i] {
          case AppendGroupMessage(g) =>
            OnGroupMessage(g, sm, now);
          case OtherCallback(_) =>
            assert AnyGroupCallback(invoked[..i + 1]) ==> AnyGroupCallback(invoked[..i]);
        }
        i := i + 1;
      }
      assert invoked[..|invoked|] == invoked;
    }

    /** `openGroupChat(groupId, lastMessageId, limit)`: the request carries the
        page limit (20 by default); a returned page is the result and
        subscribes the group callback; otherwise the messages of the first chat
        bound to the group, or none. */
    method OpenGroupChat(groupId: string, lastMessageId: Option<string>, limit: Option<int>,
                         response: Option<seq<Message>>)
        returns (messages: seq<Message>, request: HistoryRequest)
      requires Valid()
      modifies socket`socketGroupListeners, socket`groupMessageCallbacks
      ensures Valid()
      ensures request == GroupHistory(groupId, lastMessageId, PageLimit(limit))
      ensures response.Some? ==>
        && messages == response.value
        && socket.groupMessageCallbacks == old(socket.groupMessageCallbacks)[groupId :=
             (if groupId in old(socket.groupMessageCallbacks) then old(socket.groupMessageCallbacks)[groupId] else [])
             + [AppendGroupMessage(groupId)]]
        && socket.socketGroupListeners ==
             if socket.hasSocket
             then old(socket.socketGroupListeners)[groupId :=
                    (if groupId in old(socket.socketGroupListeners) then old(socket.socketGroupListeners)[groupId] else [])
                    + [AppendGroupMessage(groupId)]]
             else old(socket.socketGroupListeners)
      ensures response.None? ==>
        && messages == LocalHistory(chats, InGroup(groupId))
        && socket.groupMessageCallbacks == old(socket.groupMessageCallbacks)
        && socket.socketGroupListeners == old(socket.socketGroupListeners)
    {
      request := GroupHistory(groupId, lastMessageId, PageLimit(limit));
      if response.Some? {
        socket.SubscribeToGroupMessages(groupId, AppendGroupMessage(groupId));
        return response.value, request;
      }
      messages := LocalHistory(chats, InGroup(groupId));
    }

    /** `openOneToOneChat(otherUserId, lastMessageId, limit)`: nothing without
        a current user; a returned page; otherwise the messages of the first
        direct chat holding both ids, or none. */
    method OpenOneToOneChat(otherUserId: string, lastMessageId: Option<string>, limit: Option<int>,
                            response: Option<seq<Message>>)
        returns (messages: seq<Message>, request: Option<HistoryRequest>)
      ensures currentUser.None? ==> messages == [] && request.None?
      ensures currentUser.Some? ==>
        request == Some(DirectHistory(currentUser.value.id, otherUserId, lastMessageId, PageLimit(limit)))
      ensures currentUser.Some? && response.Some? ==> messages == response.value
      ensures currentUser.Some? && response.None? ==>
        messages == LocalHistory(chats, DirectWith(currentUser.value.id, otherUserId))
    {
      if currentUser.None? {
        return [], None;
      }
      var self := currentUser.value.id;
      request := Some(DirectHistory(self, otherUserId, lastMessageId, PageLimit(limit)));
      if response.Some? {
        return response.value, request;
      }
      messages := LocalHistory(chats, DirectWith(self, otherUserId));
    }
  }

  /** From an empty store, starting a chat with `u2` as `u1` and sending "hi"
      leaves one chat `chat_u1_u2` whose one message is "hi" from `u1`. */
  method StartThenSendScenario(socket: SocketService<Handler>, u1: User, now: nat, suffix: string)
      returns (store: ChatActions, id: string)
    requires socket.Valid() && u1.id == "u1"
    modifies socket`emitted
    ensures id == "chat_u1_u2"
    ensures |store.chats| == 1 && store.chats[0].id == id
    ensures store.chats[0].participants == ["u1", "u2"]
    ensures |store.chats[0].messages| == 1
    ensures store.chats[0].messages[0].content == "hi" && store.chats[0].messages[0].senderId == "u1"
  {
    store := new ChatActions(Some(u1), [], [], socket);
    id := store.StartDirectChat("u2", now);
    assert store.chats[0].id == "chat_u1_u2";
    store.SendMessage(id, "hi", now, suffix);
  }
}
