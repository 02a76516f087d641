/** The search of `useSearchActions`: a blank query finds nothing; otherwise
    the remote search's answer is used when it has data, and the local lists
    are filtered by a case-insensitive substring match when it has none or the
    call throws.  The store's search of the legacy provider is the local filter
    without the username field. */
module Search {
  import opened Types
  import opened JsStrings

  /** One entry of the remote search answer, by its `type`. */
  datatype SearchItem =
    | UserItem(id: string, name: Option<string>, phone: Option<string>, email: Option<string>,
               username: Option<string>, isAnonymous: bool, createdAt: Option<int>)
    | GroupItem(id: string, groupName: string, description: Option<string>, groupCreatedAt: int)
    | OtherItem(kind: string)

  /** What `search` did: it threw, or it answered, with `data` or without. */
  datatype SearchResponse = SearchThrew | SearchAnswered(data: Option<seq<SearchItem>>)

  /** `r` is `s` with some elements left out, the rest kept in their order. */
  predicate Subsequence<T(==)>(r: seq<T>, s: seq<T>)
    decreases |s|
  {
    if r == [] then true
    else if s == [] then false
    else (r[0] == s[0] && Subsequence(r[1..], s[1..])) || Subsequence(r, s[1..])
  }

  /** `s.filter(p)`: the elements that pass, in their order, each as often as
      it occurs in `s`. */
  function Filter<T(!new,==)>(s: seq<T>, p: T -> bool): (r: seq<T>)
    ensures |r| <= |s|
    ensures forall x :: x in r <==> x in s && p(x)
  {
    if s == [] then []
    else
      var rest := Filter(s[1..], p);
      assert s == [s[0]] + s[1..];
      if p(s[0]) then [s[0]] + rest else rest
  }

  /** The elements kept stay in their order. */
  lemma {:induction false} FilterSubsequence<T(!new)>(s: seq<T>, p: T -> bool)
    ensures Subsequence(Filter(s, p), s)
  {
    if s != [] {
      FilterSubsequence(s[1..], p);
      var rest := Filter(s[1..], p);
      if p(s[0]) {
        assert ([s[0]] + rest)[1..] == rest;
      }
    }
  }

  /** Each element kept is kept as often as it occurs. */
  lemma {:induction false} FilterCount<T(!new)>(s: seq<T>, p: T -> bool)
    ensures forall x :: multiset(Filter(s, p))[x] == if p(x) then multiset(s)[x] else 0
  {
    if s != [] {
      FilterCount(s[1..], p);
      assert s == [s[0]] + s[1..];
    }
  }

  /** Filtering a concatenation filters each part in turn. */
  lemma {:induction false} FilterConcat<T(!new)>(a: seq<T>, b: seq<T>, p: T -> bool)
    ensures Filter(a + b, p) == Filter(a, p) + Filter(b, p)
  {
    if a == [] {
      assert a + b == b;
    } else {
      assert (a + b)[0] == a[0];
      assert (a + b)[1..] == a[1..] + b;
      FilterConcat(a[1..], b, p);
      if p(a[0]) {
        assert Filter(a + b, p) == [a[0]] + Filter(a[1..] + b, p);
        assert Filter(a, p) == [a[0]] + Filter(a[1..], p);
      }
    }
  }

  /** `user.id !== currentUser?.id` */
  predicate NotSelf(id: string, current: Option<User>) {
    current.None? || id != current.value.id
  }

  /** `field?.toLowerCase().includes(query.toLowerCase())` */
  predicate FoldedIncludes(field: Option<string>, query: string) {
    field.Some? && Includes(ToLower(field.value), ToLower(query))
  }

  /** The local user match: name, email and (when `withUsername`) username
      compared without case, phone as typed. */
  predicate UserMatches(u: User, query: string, withUsername: bool) {
    || FoldedIncludes(u.name, query)
    || FoldedIncludes(u.email, query)
    || (u.phone.Some? && Includes(u.phone.value, query))
    || (withUsername && FoldedIncludes(u.username, query))
  }

  /** The match means: the lower-cased query occurs in one of the fields. */
  lemma UserMatchesIff(u: User, query: string, withUsername: bool)
    ensures UserMatches(u, query, withUsername) <==>
      || (u.name.Some? && exists i :: OccursAt(ToLower(u.name.value), ToLower(query), i))
      || (u.email.Some? && exists i :: OccursAt(ToLower(u.email.value), ToLower(query), i))
      || (u.phone.Some? && exists i :: OccursAt(u.phone.value, query, i))
      || (withUsername && u.username.Some? && exists i :: OccursAt(ToLower(u.username.value), ToLower(query), i))
  {
    if u.name.Some? {
      IncludesIff(ToLower(u.name.value), ToLower(query));
    }
    if u.email.Some? {
      IncludesIff(ToLower(u.email.value), ToLower(query));
    }
    if u.phone.Some? {
      IncludesIff(u.phone.value, query);
    }
    if u.username.Some? {
      IncludesIff(ToLower(u.username.value), ToLower(query));
    }
  }

  /** The local fallback of `searchUsers`: the matching users, in list order,
      the current user excluded. */
  function LocalUsers(users: seq<User>, current: Option<User>, query: string, withUsername: bool)
    : (r: seq<User>)
    ensures forall u :: u in r <==> u in users && NotSelf(u.id, current) && UserMatches(u, query, withUsername)
    ensures Subsequence(r, users)
    ensures forall u :: multiset(r)[u] == if NotSelf(u.id, current) && UserMatches(u, query, withUsername) then multiset(users)[u] else 0
  {
    var keep := (u: User) => NotSelf(u.id, current) && UserMatches(u, query, withUsername);
    FilterSubsequence(users, keep);
    FilterCount(users, keep);
    Filter(users, keep)
  }

  /** A user entry of the answer as a user: no avatar or bio; last seen at
      creation, or now. */
  function ItemUser(item: SearchItem, now: int): (u: User)
    requires item.UserItem?
    ensures u.id == item.id && u.name == item.name && u.phone == item.phone && u.email == item.email
    ensures u.username == item.username && u.isAnonymous == item.isAnonymous
    ensures u.avatar == None && u.bio == None
    ensures item.createdAt.Some? && item.createdAt.value != 0 ==> u.lastSeen == item.createdAt.value
    ensures item.createdAt.None? || item.createdAt.value == 0 ==> u.lastSeen == now
  {
    User(item.id, item.name, item.phone, item.email, item.username, item.isAnonymous, None, None,
         OrNumber(item.createdAt, now))
  }

  /** `item.type === 'user'` */
  predicate IsUserEntry(item: SearchItem) {
    item.UserItem?
  }

  /** `item.type === 'group'` */
  predicate IsGroupEntry(item: SearchItem) {
    item.GroupItem?
  }

  /** `data.filter(item => item.type === 'user').map(...)`: the user entries
      of the answer as users, in the answer's order. */
  function UserEntries(data: seq<SearchItem>, now: int): (r: seq<User>)
    ensures var items := Filter(data, IsUserEntry);
      |r| == |items| && forall i :: 0 <= i < |r| ==> items[i].UserItem? && r[i] == ItemUser(items[i], now)
    ensures forall u :: u in r <==> exists item :: item in data && item.UserItem? && ItemUser(item, now) == u
  {
    var items := Filter(data, IsUserEntry);
    var r := seq(|items|, i requires 0 <= i < |items| => assert items[i] in items; ItemUser(items[i], now));
    forall i | 0 <= i < |r| ensures items[i].UserItem? && r[i] == ItemUser(items[i], now) {
      assert items[i] in items;
    }
    forall u | u in r ensures exists item :: item in data && item.UserItem? && ItemUser(item, now) == u {
      var i :| 0 <= i < |r| && r[i] == u;
      assert items[i] in items;
    }
    forall item | item in data && item.UserItem? ensures ItemUser(item, now) in r {
      assert item in items;
      var i :| 0 <= i < |items| && items[i] == item;
      assert r[i] == ItemUser(item, now);
    }
    r
  }

  /** The users of the answer, in order, the current user excluded. */
  function AnsweredUsers(data: seq<SearchItem>, current: Option<User>, now: int): (r: seq<User>)
    ensures forall u :: u in r ==> NotSelf(u.id, current)
    ensures forall u :: u in r <==>
      (exists item :: item in data && item.UserItem? && ItemUser(item, now) == u) && NotSelf(u.id, current)
    ensures Subsequence(r, UserEntries(data, now))
    ensures forall u :: multiset(r)[u] == if NotSelf(u.id, current) then multiset(UserEntries(data, now))[u] else 0
  {
    var keep := (u: User) => NotSelf(u.id, current);
    FilterSubsequence(UserEntries(data, now), keep);
    FilterCount(UserEntries(data, now), keep);
    Filter(UserEntries(data, now), keep)
  }

  /** `searchUsers(query)` */
  function SearchUsers(users: seq<User>, current: Option<User>, query: string, response: SearchResponse, now: int)
    : (r: seq<User>)
    ensures IsBlank(query) ==> r == []
    ensures !IsBlank(query) && response.SearchAnswered? && response.data.Some? ==>
      r == AnsweredUsers(response.data.value, current, now)
    ensures !IsBlank(query) && !(response.SearchAnswered? && response.data.Some?) ==>
      r == LocalUsers(users, current, query, true)
  {
    if IsBlank(query) then []
    else if response.SearchAnswered? && response.data.Some? then AnsweredUsers(response.data.value, current, now)
    else LocalUsers(users, current, query, true)
  }

  /** Whichever way it is answered, a user search never lists the current
      user, and the local fallback only lists known users. */
  lemma SearchUsersExcludesSelf(users: seq<User>, current: Option<User>, query: string, response: SearchResponse, now: int)
    ensures var r := SearchUsers(users, current, query, response, now);
      && (current.Some? ==> forall u :: u in r ==> u.id != current.value.id)
      && (!(response.SearchAnswered? && response.data.Some?) ==> forall u :: u in r ==> u in users)
  {
  }

  /** `group.name.toLowerCase().includes(q) || group.description?...includes(q)` */
  predicate GroupMatches(g: Group, query: string) {
    Includes(ToLower(g.name), ToLower(query)) || FoldedIncludes(g.description, query)
  }

  function LocalGroups(groups: seq<Group>, query: string): (r: seq<Group>)
    ensures forall g :: g in r <==> g in groups && GroupMatches(g, query)
    ensures Subsequence(r, groups)
    ensures forall g :: multiset(r)[g] == if GroupMatches(g, query) then multiset(groups)[g] else 0
  {
    var keep := (g: Group) => GroupMatches(g, query);
    FilterSubsequence(groups, keep);
    FilterCount(groups, keep);
    Filter(groups, keep)
  }

  /** A group entry of the answer as a group: no members, no creator. */
  function ItemGroup(item: SearchItem): (g: Group)
    requires item.GroupItem?
    ensures g.id == item.id && g.name == item.groupName && g.description == item.description
    ensures g.members == [] && g.createdBy == ""
    ensures g.createdAt == item.groupCreatedAt && g.updatedAt == item.groupCreatedAt
  {
    Group(item.id, item.groupName, item.description, [], "", item.groupCreatedAt, item.groupCreatedAt, None)
  }

  /** `data.filter(item => item.type === 'group').map(...)`: the group entries
      of the answer as groups, in the answer's order. */
  function AnsweredGroups(data: seq<SearchItem>): (r: seq<Group>)
    ensures var items := Filter(data, IsGroupEntry);
      |r| == |items| && forall i :: 0 <= i < |r| ==> items[i].GroupItem? && r[i] == ItemGroup(items[i])
    ensures forall g :: g in r ==> g.members == [] && g.createdBy == ""
    ensures forall g :: g in r <==> exists item :: item in data && item.GroupItem? && ItemGroup(item) == g
  {
    var items := Filter(data, IsGroupEntry);
    var r := seq(|items|, i requires 0 <= i < |items| => assert items[i] in items; ItemGroup(items[i]));
    forall i | 0 <= i < |r| ensures items[i].GroupItem? && r[i] == ItemGroup(items[i]) {
      assert items[i] in items;
    }
    forall g | g in r ensures exists item :: item in data && item.GroupItem? && ItemGroup(item) == g {
      var i :| 0 <= i < |r| && r[i] == g;
      assert items[i] in items;
    }
    forall item | item in data && item.GroupItem? ensures ItemGroup(item) in r {
      assert item in items;
      var i :| 0 <= i < |items| && items[i] == item;
      assert r[i] == ItemGroup(item);
    }
    r
  }

  /** `searchGroups(query)` */
  function SearchGroups(groups: seq<Group>, query: string, response: SearchResponse): (r: seq<Group>)
    ensures IsBlank(query) ==> r == []
    ensures !IsBlank(query) && response.SearchAnswered? && response.data.Some? ==>
      r == AnsweredGroups(response.data.value)
    ensures !IsBlank(query) && !(response.SearchAnswered? && response.data.Some?) ==>
      r == LocalGroups(groups, query)
  {
    if IsBlank(query) then []
    else if response.SearchAnswered? && response.data.Some? then AnsweredGroups(response.data.value)
    else LocalGroups(groups, query)
  }

  /** `globalSearch(query)`: the answer's data as it is, otherwise nothing. */
  function GlobalSearch(query: string, response: SearchResponse): (r: seq<SearchItem>)
    ensures IsBlank(query) || !response.SearchAnswered? || response.data.None? ==> r == []
    ensures !IsBlank(query) && response.SearchAnswered? && response.data.Some? ==> r == response.data.value
  {
    if IsBlank(query) then []
    else if response.SearchAnswered? && response.data.Some? then response.data.value
    else []
  }

  /** Every user or group the answered searches list comes from an entry of
      the global search's answer to the same query. */
  lemma AnsweredSearchesAgreeWithGlobal(users: seq<User>, groups: seq<Group>, current: Option<User>,
                                        query: string, data: seq<SearchItem>, now: int)
    requires !IsBlank(query)
    ensures var all := GlobalSearch(query, SearchAnswered(Some(data)));
      && (forall u :: u in SearchUsers(users, current, query, SearchAnswered(Some(data)), now) ==>
            exists item :: item in all && item.UserItem? && ItemUser(item, now) == u)
      && (forall g :: g in SearchGroups(groups, query, SearchAnswered(Some(data))) ==>
            exists item :: item in all && item.GroupItem? && ItemGroup(item) == g)
  {
  }

  /** Queries differing only in white space at the ends are equally blank. */
  lemma BlankQueryFindsNothing(users: seq<User>, groups: seq<Group>, current: Option<User>,
                               query: string, response: SearchResponse, now: int)
    requires forall i :: 0 <= i < |query| ==> IsSpace(query[i])
    ensures SearchUsers(users, current, query, response, now) == []
    ensures SearchGroups(groups, query, response) == []
    ensures GlobalSearch(query, response) == []
  {
    BlankIffAllSpace(query);
  }
}
