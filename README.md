# Anonymous chat client: conversation, directory and transport state

This project models the client-side state logic of an anonymous chat web
application and proves properties of it. The application lets a visitor
create an identity (full or anonymous), create and join groups, start direct
or random one-to-one chats, and exchange messages over a realtime socket
relay. Creating, updating and looking up a user, the group overview and
group creation and joining, the random chat, both history loads and the
searches call a remote directory service first and fall back to a local
result when that call fails. Starting a direct chat, sending a message and
typing notices stay local or go over the socket only, and the legacy provider
never calls the remote service.

The model covers these parts of the application:

- **Transport** (`socket_service.dfy`, `src/services/socketService.ts`): the
  socket to the relay is a class.
  - It holds the callback lists for the five fixed inbound events.
  - It holds a per-group callback map kept for clean-up.
  - It holds the listeners attached to the live socket.
  - It keeps a log of emitted events; emits are dropped while disconnected.
- **Conversation store** (`chat_logic.dfy`, `chat_actions.dfy`,
  `src/hooks/useChatActions.ts`):
  - starting direct and random chats, and the local random pick;
  - sending a message, the private-or-group dispatch choice, typing events;
  - the group-message callback and its fan-out;
  - the history fallbacks.
- **Group directory** (`group_actions.dfy`, `src/hooks/useGroupActions.ts`):
  - creating a group, and joining it idempotently;
  - the trending, new and popular overview;
  - the overview's local fallback, which also sorts the group list in place
    by member count.
- **User directory** (`user_actions.dfy`, `src/hooks/useUserActions.ts`):
  - profile creation, with the choice between a full profile and an
    anonymous join;
  - the offline user;
  - patching the current user, and profile lookup.
- **Search** (`search_actions.dfy`, `src/hooks/useSearchActions.ts`):
  - the blank-query guard;
  - filtering the remote answer by entry type;
  - the local fallbacks: a case-insensitive substring match on name, email
    and username, and a plain substring match on phone.
- **Legacy provider** (`user_context.dfy`, `src/contexts/UserContext.tsx`):
  the older store that works only locally and offers a subset of the
  operations: creating a user, creating and joining a group, starting a
  direct or random chat, sending a message and the local user search. It has
  no user update or profile lookup, no group overview, no history loads, no
  typing notices and no global search.
  - Its ids are `Date.now().toString()`.
  - It writes every update through to storage.

Shared records and the JavaScript string operations used (`trim`,
`toLowerCase`, `includes`, decimal rendering of a timestamp) are in
`types.dfy` and `js_strings.dfy`.

Inputs the code cannot control become parameters:

- `now` is the clock (`Date.now()`), in milliseconds.
- `rnd` is `Math.random()`, a real in [0, 1).
- `suffix` is the random base-36 part of a message id.
- Each remote call is an input value: either the answer it gave, or `None`
  (or a `...Threw` constructor) when it failed.

Storage writes are ghost fields (`savedChats`, `savedGroups`, ...) that record
what was last written.

The API service as shipped defines only `createProfile`, `joinAnonymous`,
`createGroup`, `joinGroup` and `search`. The hooks also call `openRandomChat`,
`openGroupChat`, `openOneToOneChat`, `updateProfile`, `getProfile` and
`getGroupsOverview`, which it does not define. Those calls therefore throw, and
their fallback paths run. The model keeps both paths, with the remote outcome
as an input, so both are covered.

Three behaviours of the code are easy to miss and are modelled as written:

- **Direct chat id.** A new direct chat gets the id `chat_<self>_<other>`, in
  argument order, so the id depends on which of the two users starts the
  chat (`ChatLogic.DirectChatId`). The lookup before it ignores the order,
  so once either user has started the chat, the other reuses it
  (`ChatLogic.StartDirectIdempotentSwapped`).
- **Repeated group subscription.** Each time a group chat is opened with a
  remote page, the code subscribes one more callback for the group. A group
  opened twice therefore gets every inbound message appended twice. This is
  proved as `ChatLogic.DoubleSubscriptionAppendsTwice` and
  `Transport.DoubleSubscriptionDeliversTwice`.
- **Stale group list.** After a successful remote group creation, the code
  reloads the overview from the group list as it was before the new group was
  appended, because the closure is stale. `GroupDirectory.GroupActions.CreateGroup`
  states exactly this.

## Model

| member | source | states |
|---|---|---|
| JsStrings.TrimStart | src/hooks/useSearchActions.ts:11 | the result is a suffix of the input, every dropped character is white space, and it does not start with white space |
| JsStrings.TrimEnd | src/hooks/useSearchActions.ts:11 | the result is a prefix of the input, every dropped character is white space, and it does not end with white space |
| JsStrings.BlankIffAllSpace | src/hooks/useSearchActions.ts:11 | `!query.trim()` holds exactly when every character of the query is white space |
| JsStrings.ToLower | src/hooks/useSearchActions.ts:38-41 | lower-casing keeps the length and lower-cases each character in place |
| JsStrings.IncludesIff | src/hooks/useSearchActions.ts:38-41 | the substring scan succeeds exactly when the needle occurs at some position of the haystack |
| JsStrings.DecimalString | src/contexts/UserContext.tsx:87 | a timestamp renders as a non-empty string of decimal digits |
| JsStrings.DecimalRoundTrip | src/contexts/UserContext.tsx:87 | reading the rendered digits back gives the timestamp |
| JsStrings.DecimalInjective | src/contexts/UserContext.tsx:87 | distinct timestamps give distinct ids |
| Transport.SocketService.constructor | src/services/socketService.ts:19-26 | the service starts with no socket, no callbacks, no group map and nothing emitted |
| Transport.SocketService.IsConnected | src/services/socketService.ts:204-206 | true exactly when a socket exists and is connected |
| Transport.SocketService.Connect | src/services/socketService.ts:28-44 | a connected socket is kept; otherwise a new, not yet connected socket with no group listeners replaces it; callback lists, group map and emit log are untouched |
| Transport.SocketService.ConnectionEstablished | src/services/socketService.ts:49-51 | the library's connect event makes an existing socket connected |
| Transport.SocketService.ConnectionLost | src/services/socketService.ts:53-55 | the library's disconnect event leaves the socket not connected |
| Transport.SocketService.EmitIfConnected | src/services/socketService.ts:108-120 | an event is appended to the emit log exactly when the socket is connected |
| Transport.SocketService.Join | src/services/socketService.ts:92-99 | `join` emits the user id only when connected |
| Transport.SocketService.SendMessage | src/services/socketService.ts:101-121 | `send-message` carries sender, recipient, group, text and kind as given, only when connected |
| Transport.SocketService.SendTyping | src/services/socketService.ts:123-128 | a typing event from/to the given users, only when connected |
| Transport.SocketService.SendStopTyping | src/services/socketService.ts:130-135 | a stop-typing event from/to the given users, only when connected |
| Transport.SocketService.SubscribeToGroupMessages | src/services/socketService.ts:137-154 | the callback is attached to the live socket if there is one, and always appended to the group's clean-up list, created empty if missing |
| Transport.SocketService.UnsubscribeFromGroupMessages | src/services/socketService.ts:156-166 | the group's listeners and callbacks are removed; other groups keep theirs |
| Transport.SocketService.OnMessage | src/services/socketService.ts:168-170 | the callback is appended to the private-message list |
| Transport.SocketService.OnUserOnline | src/services/socketService.ts:172-174 | the callback is appended to the online list |
| Transport.SocketService.OnUserOffline | src/services/socketService.ts:176-178 | the callback is appended to the offline list |
| Transport.SocketService.OnTyping | src/services/socketService.ts:180-182 | the callback is appended to the typing list |
| Transport.SocketService.OnStopTyping | src/services/socketService.ts:184-186 | the callback is appended to the stop-typing list |
| Transport.SocketService.Disconnect | src/services/socketService.ts:188-202 | the socket and its listeners are gone, every callback list and the group map are empty, nothing is emitted |
| Transport.SocketService.Deliver | src/services/socketService.ts:61-89 | an inbound event invokes, in registration order, exactly the callbacks registered for its kind or attached for its group, and nothing when not connected |
| Transport.DisconnectSilencesGroup | src/services/socketService.ts:188-202 | after `disconnect`, a group event reaches no callback that was subscribed before |
| Transport.DoubleSubscriptionDeliversTwice | src/services/socketService.ts:137-154 | subscribing a callback twice on a connected socket makes the next group event invoke it twice |
| ChatLogic.FindFirst | src/hooks/useChatActions.ts:16-20 | `find` gives the first chat the predicate holds for, and none exactly when no chat matches |
| ChatLogic.FindFirstIgnoresMessages | src/hooks/useChatActions.ts:199-208 | appending messages never changes which chat a lookup finds |
| ChatLogic.DirectChatId | src/hooks/useChatActions.ts:27 | a new direct chat id is `chat_`, the current user's id, `_` and the other user's id, in argument order |
| ChatLogic.StartDirect | src/hooks/useChatActions.ts:13-40 | the list grows by at most one chat, keeps its prefix, and afterwards holds a direct chat with both users whose id is the one returned |
| ChatLogic.StartDirectReuses | src/hooks/useChatActions.ts:16-24 | with a direct chat holding both users, its id is returned and nothing is added |
| ChatLogic.StartDirectAppends | src/hooks/useChatActions.ts:26-39 | without one, exactly one direct chat with both users, the new id, no messages and no unread count is appended |
| ChatLogic.StartDirectIdempotent | src/hooks/useChatActions.ts:13-40 | starting the same chat twice returns the same id and adds nothing the second time |
| ChatLogic.FindFirstDirectSymmetric | src/hooks/useChatActions.ts:16-20 | the lookup for a direct chat finds the same chat whichever of the two users asks |
| ChatLogic.StartDirectIdempotentSwapped | src/hooks/useChatActions.ts:13-40 | once one user has started a direct chat, the other user starting it gets the same id and adds nothing |
| ChatLogic.Candidates | src/hooks/useChatActions.ts:66-69 | the random-chat candidates are exactly the users other than the current one who appear in no chat |
| ChatLogic.PickIndex | src/hooks/useChatActions.ts:73 | `Math.floor(Math.random() * n)` is a valid index |
| ChatLogic.RandomPeerEligible | src/hooks/useChatActions.ts:65-74 | the fallback picks a known user who is not the current user and is in no chat, and picks nobody exactly when nobody is eligible |
| ChatLogic.EligiblePeerHasNoDirectChat | src/hooks/useChatActions.ts:66-74 | starting a chat with a picked peer always creates a new chat |
| ChatLogic.MessageId | src/hooks/useChatActions.ts:171 | a message id starts with `msg_` |
| ChatLogic.AppendWhere | src/hooks/useChatActions.ts:199-208 | matching chats get the message at the end and as last message, keep their identity and unread count and get the new `updatedAt`; the others are unchanged |
| ChatLogic.AppendKeepsLastMessage | src/hooks/useChatActions.ts:199-208 | appending keeps `lastMessage` equal to the final message in every chat |
| ChatLogic.AppendToUniqueId | src/hooks/useChatActions.ts:199-208 | with unique chat ids, a send changes exactly the addressed chat |
| ChatLogic.AppendAllInOrder | src/hooks/useChatActions.ts:164-211 | successive sends appear in call order, touch no other chat, and leave the final one as last message |
| ChatLogic.FirstOther | src/hooks/useChatActions.ts:180 | the recipient is the first participant other than the sender, and there is none exactly when every participant is the sender |
| ChatLogic.DispatchTargets | src/hooks/useChatActions.ts:178-196 | a direct chat sends privately to another participant, a group chat with a group id sends to that group, and a random chat or a group chat without a group id sends nothing |
| ChatLogic.DoubleSubscriptionAppendsTwice | src/hooks/useChatActions.ts:96-118 | a group whose callback was subscribed twice gets every inbound message appended twice |
| ChatLogic.PageLimit | src/hooks/useChatActions.ts:83 | the page limit is the given one unless absent or 0, then 20 |
| ChatLogic.LocalHistory | src/hooks/useChatActions.ts:127-128 | the offline history is the messages of the first matching chat, or none |
| ChatLogic.StartThenSendIsVisible | src/hooks/useChatActions.ts:156-161 | a message sent to a chat just started, new or reused, shows up at the end of the one-to-one offline history |
| ChatStore.ChatActions.constructor | src/hooks/useChatActions.ts:7-12 | the store holds the given user, users and chats over a valid transport |
| ChatStore.ChatActions.StartDirectChat | src/hooks/useChatActions.ts:13-40 | without a user, `''` and no change; otherwise the chat and list `StartDirect` gives, saved only when a chat was added |
| ChatStore.ChatActions.StartRandomChat | src/hooks/useChatActions.ts:42-75 | the chat with the remotely matched peer; otherwise a new chat with a locally eligible peer, or `None` |
| ChatStore.ChatActions.SendMessage | src/hooks/useChatActions.ts:164-211 | without a user or an existing chat, nothing; otherwise the dispatch event is emitted if connected, and every chat with that id gets the message, saved |
| ChatStore.ChatActions.SendTyping | src/hooks/useChatActions.ts:213-220 | a typing event from the current user, if connected |
| ChatStore.ChatActions.SendStopTyping | src/hooks/useChatActions.ts:222-229 | a stop-typing event from the current user, if connected |
| ChatStore.ChatActions.OnGroupMessage | src/hooks/useChatActions.ts:96-118 | every chat bound to the group gets the inbound message at the end and as last message; the others are unchanged; saved |
| ChatStore.ChatActions.ReceiveGroupMessage | src/hooks/useChatActions.ts:96-118 | an inbound group message applies, in order, every callback attached for the group on the connected socket; the list is saved exactly when a group callback ran |
| ChatStore.ChatActions.OpenGroupChat | src/hooks/useChatActions.ts:77-129 | the request carries the page limit; a returned page subscribes the group callback; otherwise the first group chat's messages |
| ChatStore.ChatActions.OpenOneToOneChat | src/hooks/useChatActions.ts:131-162 | nothing without a user; a returned page; otherwise the first direct chat's messages |
| ChatStore.StartThenSendScenario | src/hooks/useChatActions.ts:164-211 | starting `u2` as `u1` and sending "hi" yields the one chat `chat_u1_u2` holding that one message |
| GroupDirectory.NewGroup | src/hooks/useGroupActions.ts:29-37 | a new group has its creator as creator and only member |
| GroupDirectory.LocalGroupId | src/hooks/useGroupActions.ts:52 | an offline group id starts with `local_group_` |
| GroupDirectory.JoinGroups | src/hooks/useGroupActions.ts:106-110 | only groups with that id not yet listing the user change: the user is appended and `updatedAt` bumped |
| GroupDirectory.JoinMakesMember | src/hooks/useGroupActions.ts:106-110 | after joining, the user is a member of every group with that id |
| GroupDirectory.JoinIdempotent | src/hooks/useGroupActions.ts:106-110 | joining twice has the effect of joining once |
| GroupDirectory.JoinKeepsMembersUnique | src/hooks/useGroupActions.ts:106-110 | joining never creates a duplicate member |
| GroupDirectory.Trending | src/hooks/useGroupActions.ts:90 | the first five groups in list order |
| GroupDirectory.Reverse | src/hooks/useGroupActions.ts:91 | reversal keeps the length and mirrors positions |
| GroupDirectory.Newest | src/hooks/useGroupActions.ts:91 | the last five groups, newest first |
| GroupDirectory.InsertByMembers | src/hooks/useGroupActions.ts:92 | insertion adds exactly the one group |
| GroupDirectory.InsertKeepsSorted | src/hooks/useGroupActions.ts:92 | insertion into a list sorted by member count keeps it sorted |
| GroupDirectory.SortByMembers | src/hooks/useGroupActions.ts:92 | the sort is a permutation, ordered by member count, largest first |
| GroupDirectory.SortedPrefix | src/hooks/useGroupActions.ts:91-92 | the first groups of a sorted list are sorted themselves |
| GroupDirectory.SortedPrefixLargest | src/hooks/useGroupActions.ts:91-92 | the first groups of the sorted list are at least as large as every group after them |
| GroupDirectory.Popular | src/hooks/useGroupActions.ts:92 | the five largest groups of the list (all when fewer), largest first: groups of the list, none left out larger than one kept |
| GroupDirectory.ConvertGroup | src/hooks/useGroupActions.ts:74-82 | an overview group has no members and no creator, an empty description when none is given, and is dated at its creation time, or now when that is missing or 0 |
| GroupDirectory.ConvertAll | src/hooks/useGroupActions.ts:84-86 | a missing list becomes empty; a present one is converted entry by entry |
| GroupDirectory.FallbackOverview | src/hooks/useGroupActions.ts:88-93 | the offline overview: the first five groups, the last five newest first, and the five largest groups, largest first (all groups when fewer than five) |
| GroupDirectory.GroupActions.constructor | src/hooks/useGroupActions.ts:8-15 | the directory holds the given user and groups and empty overview lists |
| GroupDirectory.GroupActions.SetOverview | src/hooks/useGroupActions.ts:73-92 | the three overview lists are set from the response, or left as they were when it is not ok |
| GroupDirectory.GroupActions.LoadGroupsOverview | src/hooks/useGroupActions.ts:69-94 | the overview from the response; when the call throws, the fallback lists, and the group list left sorted by member count |
| GroupDirectory.GroupActions.CreateGroup | src/hooks/useGroupActions.ts:18-67 | nothing without a user; otherwise the new group is appended and saved under the remote or `local_group_` id; on success the overview is reloaded from the list before the append |
| GroupDirectory.GroupActions.JoinGroup | src/hooks/useGroupActions.ts:96-130 | nothing without a user; otherwise the join is applied and saved, the same whether or not the remote call succeeds |
| UserDirectory.RequestFor | src/hooks/useUserActions.ts:21-33 | a full profile request exactly when name, phone or email is non-empty, missing fields sent as ''; otherwise an anonymous join with the fields as given |
| UserDirectory.FromApi | src/hooks/useUserActions.ts:35-45 | identity fields come from the service, bio and avatar from the form |
| UserDirectory.LocalUserId | src/hooks/useUserActions.ts:60 | an offline user id starts with `local_` |
| UserDirectory.FallbackUser | src/hooks/useUserActions.ts:59-68 | the offline user keeps the form fields and is anonymous exactly when no name, phone or email is given |
| UserDirectory.FallbackAnonymousIffJoin | src/hooks/useUserActions.ts:21-65 | the offline user is anonymous exactly when the request sent was the anonymous join |
| UserDirectory.Merge | src/hooks/useUserActions.ts:92 | every key present in the patch overrides, every other is kept |
| UserDirectory.MergeIdempotent | src/hooks/useUserActions.ts:92 | applying a patch twice equals applying it once |
| UserDirectory.MergeEmpty | src/hooks/useUserActions.ts:92 | the empty patch changes nothing |
| UserDirectory.ReplaceById | src/hooks/useUserActions.ts:94 | exactly the users with the patched user's id are replaced by it |
| UserDirectory.FindUser | src/hooks/useUserActions.ts:134 | `find` gives the first user with the id, and none exactly when there is none |
| UserDirectory.ReplaceThenFind | src/hooks/useUserActions.ts:92-94 | after an update, a lookup by its id finds the updated user |
| UserDirectory.ReplaceMissing | src/hooks/useUserActions.ts:94 | an update with an unknown id leaves the list unchanged |
| UserDirectory.FromApiUser | src/hooks/useUserActions.ts:119-128 | a fetched profile has no avatar or bio and is last seen at creation, or now when the creation time is missing or 0 |
| UserDirectory.UserActions.constructor | src/hooks/useUserActions.ts:8-13 | the directory holds the given user and users |
| UserDirectory.UserActions.CreateUser | src/hooks/useUserActions.ts:16-78 | the request chosen by `RequestFor`; the service's or the offline user becomes current, is appended, and both are saved |
| UserDirectory.UserActions.UpdateUser | src/hooks/useUserActions.ts:80-114 | nothing without a user; otherwise the patched user is current, replaces its id in the list, and both are saved, whatever the remote outcome |
| UserDirectory.UserActions.GetProfile | src/hooks/useUserActions.ts:116-135 | the service's user when it answers with one; otherwise the first local user with the id |
| Search.Filter | src/hooks/useSearchActions.ts:36 | `filter` keeps exactly the elements that pass and never lengthens the list |
| Search.FilterSubsequence | src/hooks/useSearchActions.ts:36 | the elements `filter` keeps stay in their order |
| Search.FilterCount | src/hooks/useSearchActions.ts:36 | `filter` keeps each passing element as often as it occurs, and no other |
| Search.FilterConcat | src/hooks/useSearchActions.ts:36 | filtering a concatenation filters each part in turn |
| Search.UserMatchesIff | src/hooks/useSearchActions.ts:36-42 | a user matches exactly when the lower-cased query occurs in its lower-cased name, email or username, or the query occurs in its phone |
| Search.LocalUsers | src/hooks/useSearchActions.ts:36-42 | the offline user search lists exactly the matching users other than the current one, in list order, each as often as listed |
| Search.ItemUser | src/hooks/useSearchActions.ts:19-27 | a user entry becomes a user without avatar or bio, last seen at creation, or now when the creation time is missing or 0 |
| Search.UserEntries | src/hooks/useSearchActions.ts:18-27 | one user per user entry of the answer, in the answer's order, and every user entry gives one |
| Search.AnsweredUsers | src/hooks/useSearchActions.ts:16-30 | exactly the user entries of the answer, in the answer's order, without the current user |
| Search.SearchUsers | src/hooks/useSearchActions.ts:10-43 | a blank query finds nothing; an answer with data gives its users; otherwise the offline search |
| Search.SearchUsersExcludesSelf | src/hooks/useSearchActions.ts:28-37 | a user search never lists the current user, and the offline one lists only known users |
| Search.LocalGroups | src/hooks/useSearchActions.ts:70-73 | exactly the groups whose name or description contains the query, ignoring case, in list order, each as often as listed |
| Search.ItemGroup | src/hooks/useSearchActions.ts:54-62 | a group entry becomes a group without members or creator |
| Search.AnsweredGroups | src/hooks/useSearchActions.ts:51-64 | exactly the group entries of the answer, in the answer's order, one group per entry, none with members |
| Search.SearchGroups | src/hooks/useSearchActions.ts:45-74 | a blank query finds nothing; an answer with data gives its groups; otherwise the offline search |
| Search.GlobalSearch | src/hooks/useSearchActions.ts:76-86 | the answer's data as it is, otherwise nothing |
| Search.AnsweredSearchesAgreeWithGlobal | src/hooks/useSearchActions.ts:14-81 | every user or group an answered search lists comes from an entry of the global search for the same query |
| Search.BlankQueryFindsNothing | src/hooks/useSearchActions.ts:11 | a query of white space only finds nothing in any search |
| LegacyProvider.TimestampId | src/contexts/UserContext.tsx:87 | every legacy id is a non-empty string of decimal digits |
| LegacyProvider.LegacyUser | src/contexts/UserContext.tsx:85-94 | the new user is anonymous exactly when no name, phone or email is given |
| LegacyProvider.LegacyUserIsFallbackUser | src/contexts/UserContext.tsx:85-94 | the legacy user is the newer store's offline user under a timestamp id and without bio |
| LegacyProvider.LegacyMessage | src/contexts/UserContext.tsx:185-191 | a message from the current user with a timestamp id |
| LegacyProvider.LegacySearchWithinNewer | src/contexts/UserContext.tsx:208-217 | the legacy search finds no user the newer offline search would not |
| LegacyProvider.UserProvider.constructor | src/contexts/UserContext.tsx:58-62 | the provider mounts empty |
| LegacyProvider.UserProvider.LoadFromStorage | src/contexts/UserContext.tsx:64-83 | every stored entry replaces the empty one |
| LegacyProvider.UserProvider.CreateUser | src/contexts/UserContext.tsx:85-103 | the new user is current and appended; both saved |
| LegacyProvider.UserProvider.CreateGroup | src/contexts/UserContext.tsx:105-122 | nothing without a user; otherwise a group with the user as only member, appended and saved |
| LegacyProvider.UserProvider.JoinGroup | src/contexts/UserContext.tsx:124-136 | nothing without a user; otherwise the join is applied without an `updatedAt` bump, and saved |
| LegacyProvider.UserProvider.StartDirectChat | src/contexts/UserContext.tsx:138-166 | without a user, `''`; otherwise the existing direct chat's id, or a new chat under a timestamp id, saved only when added |
| LegacyProvider.UserProvider.StartRandomChat | src/contexts/UserContext.tsx:168-180 | a new direct chat with an eligible peer, always appended, or `None` |
| LegacyProvider.UserProvider.SendMessage | src/contexts/UserContext.tsx:182-206 | every chat with the id gets the message, saved even when no chat has that id |
| LegacyProvider.UserProvider.SearchUsers | src/contexts/UserContext.tsx:208-217 | nothing for a blank query; otherwise the newer store's local user search without the username field: the users other than the current one matching name, email or phone, in list order |

## Left out

- Remote service calls (`fetch`, form encoding, HTTP status) are not modelled. Each call's outcome is an input.
- The normalisation of remote message pages (`_id || id`, `from || senderId`, and the rest) is left out. A page is taken as already-normalised messages.
- `localStorage` is not modelled. Each write is a ghost field recording what was last saved.
- Dates stored as JSON strings, which come back as strings on load, are not modelled.
- The socket.io library is not modelled: no reconnection policy, no timeouts, no transport choice. It appears as `hasSocket`, `connected` and the attached group listeners.
- An old socket that `connect()` replaces while it is not connected keeps its listeners and could still deliver events. The model drops it.
- React rendering, `loading` flags, toasts and console logging are not modelled.
- Stale closures are not modelled in general. Each hook operation reads the state of its render, and the model takes that to be the current state. The one stale read with a visible effect, in `createGroup`, is modelled.
- Inbound private messages, presence and typing events reach whatever callbacks were registered. The code that registers them for those events is not part of this model.
- The store-level `onlineUsers` and `typingUsers` are not part of this model, for the same reason.
- ChatLogic.DirectChatId: ids are compared as strings. No claim is made that ids built from different users differ, since user ids may contain `_`.
- JsStrings.ToLower: lower-cases ASCII letters only, where `toLowerCase` also folds other scripts.
- UserDirectory.Merge: a patch key that is present but explicitly `undefined` overrides in JavaScript. In the model such a key is absent.
- Search.ItemGroup: a group entry's `createdAt` is taken as present. When it is missing, the code builds an invalid date.
- GroupDirectory.SortByMembers: the insertion keeps groups of equal size in list order, as the stable sort does, but no lemma states it.
- GroupDirectory.GroupActions.CreateGroup: the request fields (`group_name`, `description`, `createdBy`) are not modelled as an output.
- Transport.SocketService.Deliver: callbacks are invoked as opaque values. What they do is modelled only for the store's group callback (`ChatStore.ChatActions.ReceiveGroupMessage`).
