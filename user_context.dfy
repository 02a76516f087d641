/** The older, purely local store of `UserContext`: the same identity, group
    and chat operations with no remote service and no socket.  Every id is
    `Date.now().toString()`, every update is written through to storage, and
    its records lack `username`, `bio` and `updatedAt`, which the shared
    records here keep at `None` or at their creation value. */
module LegacyProvider {
  import opened Types
  import opened JsStrings
  import opened ChatLogic
  import opened GroupDirectory
  import UserDirectory
  import Search

  /** `Date.now().toString()` */
  function TimestampId(now: nat): (id: string)
    ensures id != [] && forall i :: 0 <= i < |id| ==> IsDigit(id[i])
  {
    DecimalString(now)
  }

  /** The user `createUser` makes: anonymous exactly when no name, phone or
      email was given. */
  function LegacyUser(d: UserPatch, now: nat): (u: User)
    ensures u.id == TimestampId(now) && u.username == None && u.bio == None
    ensures u.name == d.name && u.phone == d.phone && u.email == d.email && u.avatar == d.avatar
    ensures u.isAnonymous <==> !UserDirectory.GivesContact(d)
  {
    User(TimestampId(now), d.name, d.phone, d.email, None,
         !Truthy(d.name) && !Truthy(d.phone) && !Truthy(d.email), d.avatar, None, now)
  }

  /** The legacy user is the newer store's offline user under another id and
      without a bio. */
  lemma LegacyUserIsFallbackUser(d: UserPatch, now: nat)
    ensures LegacyUser(d, now) == UserDirectory.FallbackUser(d, now).(id := TimestampId(now), bio := None)
  {
  }

  /** The message `sendMessage` appends. */
  function LegacyMessage(self: string, content: string, now: nat): (m: Message)
    ensures m.id == TimestampId(now) && m.senderId == self && m.content == content && m.msgType == Text
  {
    Message(TimestampId(now), self, content, now, Text)
  }

  /** The legacy search matches name, email and phone, never username, so it
      finds no user the newer store's local search would not. */
  lemma LegacySearchWithinNewer(users: seq<User>, current: Option<User>, query: string)
    ensures forall u :: u in Search.LocalUsers(users, current, query, false) ==>
      u in Search.LocalUsers(users, current, query, true)
  {
  }

  class UserProvider {
    var currentUser: Option<User>
    var users: seq<User>
    var groups: seq<Group>
    var chats: seq<Chat>
    /** What was last written to storage. */
    ghost var savedCurrentUser: Option<User>
    ghost var savedUsers: seq<User>
    ghost var savedGroups: seq<Group>
    ghost var savedChats: seq<Chat>

    /** The provider mounts empty, with the given storage contents. */
    constructor (storedUser: Option<User>, storedUsers: Option<seq<User>>,
                 storedGroups: Option<seq<Group>>, storedChats: Option<seq<Chat>>)
      ensures currentUser == None && users == [] && groups == [] && chats == []
      ensures savedCurrentUser == storedUser && savedUsers == storedUsers.GetOr([])
      ensures savedGroups == storedGroups.GetOr([]) && savedChats == storedChats.GetOr([])
    {
      currentUser, users, groups, chats := None, [], [], [];
      savedCurrentUser, savedUsers := storedUser, storedUsers.GetOr([]);
      savedGroups, savedChats := storedGroups.GetOr([]), storedChats.GetOr([]);
    }

    /** The mount effect: every list found in storage replaces the empty one. */
    method LoadFromStorage(storedUser: Option<User>, storedUsers: Option<seq<User>>,
                           storedGroups: Option<seq<Group>>, storedChats: Option<seq<Chat>>)
      modifies this`currentUser, this`users, this`groups, this`chats
      ensures currentUser == if storedUser.Some? then storedUser else old(currentUser)
      ensures users == storedUsers.GetOr(old(users)) && groups == storedGroups.GetOr(old(groups))
      ensures chats == storedChats.GetOr(old(chats))
    {
      if storedUser.Some? {
        currentUser := storedUser;
      }
      if storedUsers.Some? {
        users := storedUsers.value;
      }
      if storedGroups.Some? {
        groups := storedGroups.value;
      }
      if storedChats.Some? {
        chats := storedChats.value;
      }
    }

    /** `createUser(userData)`: the new user becomes current and is appended;
        both are saved. */
    method CreateUser(d: UserPatch, now: nat)
      modifies this`currentUser, this`users, this`savedCurrentUser, this`savedUsers
      ensures currentUser == Some(LegacyUser(d, now)) && users == old(users) + [LegacyUser(d, now)]
      ensures savedCurrentUser == currentUser && savedUsers == users
    {
      var u := LegacyUser(d, now);
      currentUser := Some(u);
      users := users + [u];
      savedCurrentUser, savedUsers := currentUser, users;
    }

    /** `createGroup({name, description})`: nothing without a current user;
        otherwise a group with the current user as only member and creator is
        appended under a timestamp id and saved. */
    method CreateGroup(name: string, description: Option<string>, now: nat)
      modifies this`groups, this`savedGroups
      ensures currentUser.None? ==> groups == old(groups) && savedGroups == old(savedGroups)
      ensures currentUser.Some? ==>
        && groups == old(groups) + [NewGroup(TimestampId(now), name, description, currentUser.value.id, now)]
        && savedGroups == groups
    {
      if currentUser.None? {
        return;
      }
      groups := groups + [NewGroup(TimestampId(now), name, description, currentUser.value.id, now)];
      savedGroups := groups;
    }

    /** `joinGroup(groupId)`: the current user is added to the groups with that
        id that do not list it yet; nothing without a current user. */
    method JoinGroup(groupId: string)
      modifies this`groups, this`savedGroups
      ensures currentUser.None? ==> groups == old(groups) && savedGroups == old(savedGroups)
      ensures currentUser.Some? ==>
        groups == JoinGroups(old(groups), groupId, currentUser.value.id, None) && savedGroups == groups
    {
      if currentUser.None? {
        return;
      }
      groups := JoinGroups(groups, groupId, currentUser.value.id, None);
      savedGroups := groups;
    }

    /** `startDirectChat(userId)`: '' without a current user; the id of the
        first direct chat holding both users; otherwise a new direct chat under
        a timestamp id, appended and saved. */
    method StartDirectChat(userId: string, now: nat) returns (id: string)
      modifies this`chats, this`savedChats
      ensures currentUser.None? ==> id == "" && chats == old(chats) && savedChats == old(savedChats)
      ensures currentUser.Some? ==>
        (id, chats) == StartDirect(old(chats), currentUser.value.id, userId, TimestampId(now), now)
      ensures savedChats == if chats == old(chats) then old(savedChats) else chats
    {
      if currentUser.None? {
        return "";
      }
      var r := StartDirect(chats, currentUser.value.id, userId, TimestampId(now), now);
      id := r.0;
      if r.1 != chats {
        chats := r.1;
        savedChats := chats;
      }
    }

    /** `startRandomChat()`: a new direct chat with a user drawn from those
        who are not the current user and appear in no chat; `None` without a
        current user or without such a user. */
    method StartRandomChat(rnd: real, now: nat) returns (r: Option<string>)
      requires 0.0 <= rnd < 1.0
      modifies this`chats, this`savedChats
      ensures currentUser.None? ==> r.None? && chats == old(chats) && savedChats == old(savedChats)
      ensures currentUser.Some? ==>
        var self := currentUser.value.id;
        match RandomPeer(users, old(chats), self, rnd)
        case None => r.None? && chats == old(chats) && savedChats == old(savedChats)
        case Some(p) =>
          && r == Some(TimestampId(now))
          && chats == old(chats) + [NewDirectChat(TimestampId(now), self, p.id, now)]
          && savedChats == chats
    {
      if currentUser.None? {
        return None;
      }
      var self := currentUser.value.id;
      var available := Candidates(users, chats, self);
      if |available| == 0 {
        return None;
      }
      var peer := available[PickIndex(rnd, |available|)];
      EligiblePeerHasNoDirectChat(chats, self, peer);
      var id := StartDirectChat(peer.id, now);
      r := Some(id);
    }

    /** `sendMessage(chatId, content)`: nothing without a current user;
        otherwise every chat of that id gets the message at the end, as its
        last message, and the list is saved, even when no chat has that id. */
    method SendMessage(chatId: string, content: string, now: nat)
      modifies this`chats, this`savedChats
      ensures currentUser.None? ==> chats == old(chats) && savedChats == old(savedChats)
      ensures currentUser.Some? ==>
        && chats == AppendWhere(old(chats), WithId(chatId), LegacyMessage(currentUser.value.id, content, now), None)
        && savedChats == chats
    {
      if currentUser.None? {
        return;
      }
      chats := AppendWhere(chats, WithId(chatId), LegacyMessage(currentUser.value.id, content, now), None);
      savedChats := chats;
    }

    /** `searchUsers(query)`: nothing for a blank query; otherwise the users
        other than the current one whose name or email contains the query
        without regard to case, or whose phone contains it. */
    function SearchUsers(query: string): (r: seq<User>)
      reads this
      ensures IsBlank(query) ==> r == []
      ensures !IsBlank(query) ==> forall u :: u in r <==>
        u in users && Search.NotSelf(u.id, currentUser) && Search.UserMatches(u, query, false)
      ensures !IsBlank(query) ==> r == Search.LocalUsers(users, currentUser, query, false)
    {
      if IsBlank(query) then [] else Search.LocalUsers(users, currentUser, query, false)
    }
  }
}
