/** Records shared by the chat, group, user and search logic of the client:
    the identity, group, message and chat shapes, and the optional values the
    TypeScript code writes with `?`.  Timestamps (`Date`) are milliseconds since
    the epoch, as plain integers. */
module Types {

  datatype Option<T> = None | Some(value: T) {
    function GetOr(default: T): T {
      match this
      case Some(v) => v
      case None => default
    }
  }

  /** JavaScript truthiness of an optional string: present and not empty. */
  predicate Truthy(s: Option<string>) {
    s.Some? && s.value != ""
  }

  /** `a || b` on optional strings. */
  function OrElse(a: Option<string>, b: Option<string>): Option<string> {
    if Truthy(a) then a else b
  }

  /** `s || ''` on an optional string. */
  function OrEmpty(s: Option<string>): string {
    if Truthy(s) then s.value else ""
  }

  /** `n || d` on an optional number: 0, like a missing value, is falsy. */
  function OrNumber(n: Option<int>, d: int): int {
    if n.Some? && n.value != 0 then n.value else d
  }

  datatype User = User(
    id: string,
    name: Option<string>,
    phone: Option<string>,
    email: Option<string>,
    username: Option<string>,
    isAnonymous: bool,
    avatar: Option<string>,
    bio: Option<string>,
    lastSeen: int)

  datatype Group = Group(
    id: string,
    name: string,
    description: Option<string>,
    members: seq<string>,
    createdBy: string,
    createdAt: int,
    updatedAt: int,
    avatar: Option<string>)

  datatype MessageType = Text | Image

  datatype Message = Message(
    id: string,
    senderId: string,
    content: string,
    timestamp: int,
    msgType: MessageType)

  datatype ChatType = DirectChat | GroupChat | RandomChat

  datatype Chat = Chat(
    id: string,
    chatType: ChatType,
    participants: seq<string>,
    groupId: Option<string>,
    messages: seq<Message>,
    lastMessage: Option<Message>,
    unreadCount: int,
    updatedAt: int)

  /** A `Partial<User>`: every key that is present carries its value. */
  datatype UserPatch = UserPatch(
    id: Option<string>,
    name: Option<string>,
    phone: Option<string>,
    email: Option<string>,
    username: Option<string>,
    isAnonymous: Option<bool>,
    avatar: Option<string>,
    bio: Option<string>,
    lastSeen: Option<int>)
}
