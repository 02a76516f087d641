/** The realtime transport (`SocketService`): one socket to the relay, five
    callback lists for the fixed inbound events, per-group message callbacks,
    and emits that are dropped while the socket is not connected.

    The socket.io library is abstracted to three facts: whether a socket object
    exists (`hasSocket`), whether it is connected (`connected`), and which
    per-group listeners are attached to it (`socketGroupListeners`).  Every
    `emit` is recorded in `emitted`.  Callbacks are opaque handler values `H`. */
module Transport {
  import opened Types

  /** `'private' | 'group'` */
  datatype MessageKind = Private | GroupKind

  /** The payload of `receive-message` and of `group-<id>-new-message`. */
  datatype SocketMessage = SocketMessage(
    msgId: string,
    from: string,
    to: Option<string>,
    groupId: Option<string>,
    message: string,
    kind: MessageKind,
    createdAt: int)

  /** An event written to the socket with `emit`. */
  datatype Emitted =
    | JoinEvent(userId: string)
    | SendMessageEvent(fromUserId: string, toUserId: Option<string>, groupId: Option<string>,
                       message: string, kind: MessageKind)
    | TypingEvent(typingFrom: string, typingTo: string)
    | StopTypingEvent(stoppedFrom: string, stoppedTo: string)

  /** An event the relay pushes to the client. */
  datatype Inbound =
    | ReceiveMessage(message: SocketMessage)
    | UserOnline(userId: string)
    | UserOffline(userId: string)
    | UserTyping(fromUserId: string)
    | UserStopTyping(fromUserId: string)
    | GroupNewMessage(groupId: string, message: SocketMessage)

  class SocketService<H> {
    /** `this.socket !== null` */
    var hasSocket: bool
    /** `this.socket.connected` */
    var connected: bool
    /** Listeners attached with `socket.on('group-<id>-new-message', ...)`. */
    var socketGroupListeners: map<string, seq<H>>

    var messageCallbacks: seq<H>
    var userOnlineCallbacks: seq<H>
    var userOfflineCallbacks: seq<H>
    var typingCallbacks: seq<H>
    var stopTypingCallbacks: seq<H>
    /** The callbacks kept per group for clean-up. */
    var groupMessageCallbacks: map<string, seq<H>>

    /** Every event emitted on a connected socket, oldest first. */
    var emitted: seq<Emitted>

    /** Without a socket nothing is connected and no group listener is attached. */
    ghost predicate Valid()
      reads this
    {
      !hasSocket ==> !connected && socketGroupListeners == map[]
    }

    /** The five fixed callback lists, in field order. */
    ghost function FixedLists(): seq<seq<H>>
      reads this
    {
      [messageCallbacks, userOnlineCallbacks, userOfflineCallbacks, typingCallbacks, stopTypingCallbacks]
    }

    constructor ()
      ensures Valid()
      ensures !hasSocket && !connected && socketGroupListeners == map[]
      ensures FixedLists() == [[], [], [], [], []]
      ensures groupMessageCallbacks == map[] && emitted == []
    {
      hasSocket, connected := false, false;
      socketGroupListeners := map[];
      messageCallbacks, userOnlineCallbacks, userOfflineCallbacks := [], [], [];
      typingCallbacks, stopTypingCallbacks := [], [];
      groupMessageCallbacks := map[];
      emitted := [];
    }

    /** `isConnected()`: `this.socket?.connected ?? false`. */
    function IsConnected(): (r: bool)
      reads this
      requires Valid()
      ensures r ==> hasSocket
      ensures r == connected
    {
      hasSocket && connected
    }

    /** `connect()`: a connected socket is kept as it is; otherwise a new socket
        replaces the old one.  The new socket carries the five fixed listeners
        (which read the callback lists at delivery time) and no group listener,
        and it is not connected until the library reports so. */
    method Connect()
      requires Valid()
      modifies this
      ensures Valid()
      ensures old(connected) ==> unchanged(this)
      ensures !old(connected) ==> hasSocket && !connected && socketGroupListeners == map[]
      ensures FixedLists() == old(FixedLists())
      ensures groupMessageCallbacks == old(groupMessageCallbacks) && emitted == old(emitted)
    {
      if hasSocket && connected {
        return;
      }
      hasSocket, connected := true, false;
      socketGroupListeners := map[];
    }

    /** The library's `connect` event: the socket that exists is now connected. */
    method ConnectionEstablished()
      requires Valid()
      modifies this`connected
      ensures Valid()
      ensures connected == hasSocket
    {
      connected := hasSocket;
    }

    /** The library's `disconnect` event: the socket stays but is not connected. */
    method ConnectionLost()
      requires Valid()
      modifies this`connected
      ensures Valid() && !connected
    {
      connected := false;
    }

    /** Emits `e` when connected; otherwise the call only logs. */
    method EmitIfConnected(e: Emitted)
      requires Valid()
      modifies this`emitted
      ensures emitted == if connected then old(emitted) + [e] else old(emitted)
    {
      if hasSocket && connected {
        emitted := emitted + [e];
      }
    }

    /** `join(userId)` */
    method Join(userId: string)
      requires Valid()
      modifies this`emitted
      ensures emitted == if connected then old(emitted) + [JoinEvent(userId)] else old(emitted)
    {
      EmitIfConnected(JoinEvent(userId));
    }

    /** `sendMessage(data)`: the `send-message` event carries the fields as given. */
    method SendMessage(fromUserId: string, toUserId: Option<string>, groupId: Option<string>,
                       message: string, kind: MessageKind)
      requires Valid()
      modifies this`emitted
      ensures emitted == if connected
                         then old(emitted) + [SendMessageEvent(fromUserId, toUserId, groupId, message, kind)]
                         else old(emitted)
    {
      EmitIfConnected(SendMessageEvent(fromUserId, toUserId, groupId, message, kind));
    }

    /** `sendTyping(data)` */
    method SendTyping(fromUserId: string, toUserId: string)
      requires Valid()
      modifies this`emitted
      ensures emitted == if connected then old(emitted) + [TypingEvent(fromUserId, toUserId)] else old(emitted)
    {
      EmitIfConnected(TypingEvent(fromUserId, toUserId));
    }

    /** `sendStopTyping(data)` */
    method SendStopTyping(fromUserId: string, toUserId: string)
      requires Valid()
      modifies this`emitted
      ensures emitted == if connected then old(emitted) + [StopTypingEvent(fromUserId, toUserId)] else old(emitted)
    {
      EmitIfConnected(StopTypingEvent(fromUserId, toUserId));
    }

    /** `subscribeToGroupMessages(groupId, callback)`: attaches a listener to the
        current socket, if there is one, and always records the callback for
        clean-up, under a list created empty for a group not seen before.
        Subscribing twice records the callback twice. */
    method SubscribeToGroupMessages(groupId: string, callback: H)
      requires Valid()
      modifies this`socketGroupListeners, this`groupMessageCallbacks
      ensures Valid()
      ensures groupMessageCallbacks == old(groupMessageCallbacks)[groupId :=
                (if groupId in old(groupMessageCallbacks) then old(groupMessageCallbacks)[groupId] else []) + [callback]]
      ensures socketGroupListeners == if hasSocket
                                      then old(socketGroupListeners)[groupId :=
                                             (if groupId in old(socketGroupListeners) then old(socketGroupListeners)[groupId] else []) + [callback]]
                                      else old(socketGroupListeners)
    {
      if hasSocket {
        var attached := if groupId in socketGroupListeners then socketGroupListeners[groupId] else [];
        socketGroupListeners := socketGroupListeners[groupId := attached + [callback]];
      }
      if groupId !in groupMessageCallbacks {
        groupMessageCallbacks := groupMessageCallbacks[groupId := []];
      }
      groupMessageCallbacks := groupMessageCallbacks[groupId := groupMessageCallbacks[groupId] + [callback]];
    }

    /** `unsubscribeFromGroupMessages(groupId)`: detaches every listener of that
        group's event from the socket and forgets its callbacks; other groups
        keep theirs. */
    method UnsubscribeFromGroupMessages(groupId: string)
      requires Valid()
      modifies this`socketGroupListeners, this`groupMessageCallbacks
      ensures Valid()
      ensures groupMessageCallbacks == old(groupMessageCallbacks) - {groupId}
      ensures socketGroupListeners == old(socketGroupListeners) - {groupId}
    {
      if hasSocket {
        socketGroupListeners := socketGroupListeners - {groupId};
      }
      groupMessageCallbacks := groupMessageCallbacks - {groupId};
    }

    /** `onMessage(callback)` */
    method OnMessage(callback: H)
      modifies this`messageCallbacks
      ensures messageCallbacks == old(messageCallbacks) + [callback]
    {
      messageCallbacks := messageCallbacks + [callback];
    }

    /** `onUserOnline(callback)` */
    method OnUserOnline(callback: H)
      modifies this`userOnlineCallbacks
      ensures userOnlineCallbacks == old(userOnlineCallbacks) + [callback]
    {
      userOnlineCallbacks := userOnlineCallbacks + [callback];
    }

    /** `onUserOffline(callback)` */
    method OnUserOffline(callback: H)
      modifies this`userOfflineCallbacks
      ensures userOfflineCallbacks == old(userOfflineCallbacks) + [callback]
    {
      userOfflineCallbacks := userOfflineCallbacks + [callback];
    }

    /** `onTyping(callback)` */
    method OnTyping(callback: H)
      modifies this`typingCallbacks
      ensures typingCallbacks == old(typingCallbacks) + [callback]
    {
      typingCallbacks := typingCallbacks + [callback];
    }

    /** `onStopTyping(callback)` */
    method OnStopTyping(callback: H)
      modifies this`stopTypingCallbacks
      ensures stopTypingCallbacks == old(stopTypingCallbacks) + [callback]
    {
      stopTypingCallbacks := stopTypingCallbacks + [callback];
    }

    /** `disconnect()`: drops the socket, with every listener attached to it,
        and clears every callback list and the group map. */
    method Disconnect()
      requires Valid()
      modifies this
      ensures Valid()
      ensures !hasSocket && !IsConnected() && socketGroupListeners == map[]
      ensures FixedLists() == [[], [], [], [], []]
      ensures groupMessageCallbacks == map[]
      ensures emitted == old(emitted)
    {
      hasSocket, connected := false, false;
      socketGroupListeners := map[];
      messageCallbacks, userOnlineCallbacks, userOfflineCallbacks := [], [], [];
      typingCallbacks, stopTypingCallbacks := [], [];
      groupMessageCallbacks := map[];
    }

    /** The callbacks an inbound event reaches through the current socket's
        listeners: the list registered for its kind, or the listeners attached
        for its group. */
    function Listeners(ev: Inbound): seq<H>
      reads this
    {
      match ev
      case ReceiveMessage(_) => messageCallbacks
      case UserOnline(_) => userOnlineCallbacks
      case UserOffline(_) => userOfflineCallbacks
      case UserTyping(_) => typingCallbacks
      case UserStopTyping(_) => stopTypingCallbacks
      case GroupNewMessage(g, _) => if g in socketGroupListeners then socketGroupListeners[g] else []
    }

    /** The `forEach` fan-out of an inbound event: the callbacks invoked, in the
        order they were called, each with the event's payload.  A socket that
        is absent or not connected delivers nothing. */
    method Deliver(ev: Inbound) returns (invoked: seq<H>)
      requires Valid()
      ensures invoked == if connected then Listeners(ev) else []
    {
      invoked := [];
      if !(hasSocket && connected) {
        return;
      }
      var callbacks := Listeners(ev);
      var i := 0;
      while i < |callbacks|
        invariant 0 <= i <= |callbacks|
        invariant invoked == callbacks[..i]
      {
        invoked := invoked + [callbacks[i]];
        i := i + 1;
      }
    }
  }

  /** A group subscription does not outlive `disconnect`: a later event for
      that group reaches no callback. */
  method DisconnectSilencesGroup<H>(s: SocketService<H>, groupId: string, callback: H, m: SocketMessage)
      returns (invoked: seq<H>)
    requires s.Valid()
    modifies s
    ensures invoked == []
  {
    s.SubscribeToGroupMessages(groupId, callback);
    s.Disconnect();
    invoked := s.Deliver(GroupNewMessage(groupId, m));
  }

  /** Subscribing the same callback twice on a connected socket delivers the
      next group event to it twice. */
  method DoubleSubscriptionDeliversTwice<H>(s: SocketService<H>, groupId: string, callback: H, m: SocketMessage)
      returns (invoked: seq<H>)
    requires s.Valid() && s.connected && groupId !in s.socketGroupListeners
    modifies s
    ensures invoked == [callback, callback]
  {
    s.SubscribeToGroupMessages(groupId, callback);
    s.SubscribeToGroupMessages(groupId, callback);
    invoked := s.Deliver(GroupNewMessage(groupId, m));
  }
}
