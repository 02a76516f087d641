/** The group directory of `useGroupActions`: creating a group, joining one
    (idempotently), and the trending / new / popular overview with its local
    fallback, which also sorts the group list in place by member count.

    Remote calls are inputs: `created` is the id a successful `createGroup`
    call returns (`None` when it fails), `joined` whether `joinGroup`
    succeeded, and `OverviewResponse` what `getGroupsOverview` gave back. */
module GroupDirectory {
  import opened Types
  import opened JsStrings

  /** The group the store appends: the creator is its only member. */
  function NewGroup(id: string, name: string, description: Option<string>, self: string, now: int)
    : (g: Group)
    ensures g.members == [self] && g.createdBy == self
    ensures g.id == id && g.name == name && g.description == description
  {
    Group(id, name, description, [self], self, now, now, None)
  }

  /** `local_group_${Date.now()}` */
  function LocalGroupId(now: nat): (id: string)
    ensures |id| > 12 && id[..12] == "local_group_"
  {
    "local_group_" + DecimalString(now)
  }

  // ---------------------------------------------------------------- joining

  /** `groups.map(group => group.id === groupId && !group.members.includes(self)
      ? { ...group, members: [...group.members, self], updatedAt } : group)`;
      `stamp` is `None` where the record has no `updatedAt` to bump. */
  function JoinGroups(groups: seq<Group>, groupId: string, self: string, stamp: Option<int>): (r: seq<Group>)
    ensures |r| == |groups|
    ensures forall i :: 0 <= i < |groups| && (groups[i].id != groupId || self in groups[i].members) ==>
      r[i] == groups[i]
    ensures forall i :: 0 <= i < |groups| && groups[i].id == groupId && self !in groups[i].members ==>
      r[i] == groups[i].(members := groups[i].members + [self], updatedAt := stamp.GetOr(groups[i].updatedAt))
  {
    seq(|groups|, i requires 0 <= i < |groups| =>
      var g := groups[i];
      if g.id == groupId && self !in g.members
      then g.(members := g.members + [self], updatedAt := stamp.GetOr(g.updatedAt))
      else g)
  }

  /** After joining, `self` is a member of every group with that id. */
  lemma JoinMakesMember(groups: seq<Group>, groupId: string, self: string, stamp: Option<int>)
    ensures var r := JoinGroups(groups, groupId, self, stamp);
      forall i :: 0 <= i < |r| && r[i].id == groupId ==> self in r[i].members
  {
  }

  /** Joining twice has the effect of joining once. */
  lemma JoinIdempotent(groups: seq<Group>, groupId: string, self: string, s1: Option<int>, s2: Option<int>)
    ensures var once := JoinGroups(groups, groupId, self, s1);
      JoinGroups(once, groupId, self, s2) == once
  {
    var once := JoinGroups(groups, groupId, self, s1);
    var twice := JoinGroups(once, groupId, self, s2);
    forall i | 0 <= i < |once| ensures twice[i] == once[i] {
      if once[i].id == groupId {
        JoinMakesMember(groups, groupId, self, s1);
      }
    }
  }

  predicate NoDuplicates(s: seq<string>) {
    forall i, j :: 0 <= i < j < |s| ==> s[i] != s[j]
  }

  /** Joining keeps every member list free of duplicates. */
  lemma JoinKeepsMembersUnique(groups: seq<Group>, groupId: string, self: string, stamp: Option<int>)
    requires forall i :: 0 <= i < |groups| ==> NoDuplicates(groups[i].members)
    ensures var r := JoinGroups(groups, groupId, self, stamp);
      forall i :: 0 <= i < |r| ==> NoDuplicates(r[i].members)
  {
    var r := JoinGroups(groups, groupId, self, stamp);
    forall i | 0 <= i < |r| ensures NoDuplicates(r[i].members) {
      var ms := groups[i].members;
      if groups[i].id == groupId && self !in ms {
        forall a, b | 0 <= a < b < |ms| + 1 ensures (ms + [self])[a] != (ms + [self])[b] {
          if b == |ms| {
            assert ms[a] in ms;
          }
        }
      }
    }
  }

  // ---------------------------------------------------------------- overview

  function Min(a: int, b: int): int {
    if a <= b then a else b
  }

  /** `groups.slice(0, 5)`: the first five groups, or all of them. */
  function Trending(groups: seq<Group>): (r: seq<Group>)
    ensures |r| == Min(5, |groups|)
    ensures forall i :: 0 <= i < |r| ==> r[i] == groups[i]
  {
    groups[..Min(5, |groups|)]
  }

  function Reverse<T>(s: seq<T>): (r: seq<T>)
    ensures |r| == |s|
    ensures forall i :: 0 <= i < |s| ==> r[i] == s[|s| - 1 - i]
  {
    if s == [] then [] else Reverse(s[1..]) + [s[0]]
  }

  /** `groups.slice(-5).reverse()`: the last five groups, newest first. */
  function Newest(groups: seq<Group>): (r: seq<Group>)
    ensures |r| == Min(5, |groups|)
    ensures forall i :: 0 <= i < |r| ==> r[i] == groups[|groups| - 1 - i]
  {
    Reverse(groups[|groups| - Min(5, |groups|)..])
  }

  function MemberCount(g: Group): nat {
    |g.members|
  }

  predicate SortedByMembers(s: seq<Group>) {
    forall i, j :: 0 <= i < j < |s| ==> MemberCount(s[i]) >= MemberCount(s[j])
  }

  /** Puts `g` before the first group with no more members than it; the
      groups with as many members as `g` that follow it in `sorted` stay
      after it. */
  function InsertByMembers(g: Group, sorted: seq<Group>): (r: seq<Group>)
    ensures multiset(r) == multiset(sorted) + multiset{g}
    ensures |r| == |sorted| + 1
  {
    if sorted == [] || MemberCount(g) >= MemberCount(sorted[0]) then [g] + sorted
    else
      assert sorted == [sorted[0]] + sorted[1..];
      [sorted[0]] + InsertByMembers(g, sorted[1..])
  }

  /** A group at least as large as every group of a sorted list can go in front. */
  lemma ConsKeepsSorted(x: Group, s: seq<Group>)
    requires SortedByMembers(s)
    requires forall y :: y in s ==> MemberCount(y) <= MemberCount(x)
    ensures SortedByMembers([x] + s)
  {
    var r := [x] + s;
    forall i, j | 0 <= i < j < |r| ensures MemberCount(r[i]) >= MemberCount(r[j]) {
      assert r[j] == s[j - 1];
      if i > 0 {
        assert r[i] == s[i - 1];
      }
    }
  }

  lemma HeadIsLargest(s: seq<Group>)
    requires SortedByMembers(s) && s != []
    ensures forall y :: y in s ==> MemberCount(y) <= MemberCount(s[0])
  {
  }

  lemma InsertedFrom(g: Group, s: seq<Group>)
    ensures forall x :: x in InsertByMembers(g, s) ==> x == g || x in s
  {
    var r := InsertByMembers(g, s);
    forall x | x in r ensures x == g || x in s {
      assert x in multiset(r);
    }
  }

  lemma {:induction false} InsertKeepsSorted(g: Group, sorted: seq<Group>)
    requires SortedByMembers(sorted)
    ensures SortedByMembers(InsertByMembers(g, sorted))
    decreases |sorted|
  {
    if sorted == [] {
    } else if MemberCount(g) >= MemberCount(sorted[0]) {
      HeadIsLargest(sorted);
      ConsKeepsSorted(g, sorted);
    } else {
      var tail := sorted[1..];
      InsertKeepsSorted(g, tail);
      InsertedFrom(g, tail);
      HeadIsLargest(sorted);
      assert forall y :: y in tail ==> y in sorted;
      ConsKeepsSorted(sorted[0], InsertByMembers(g, tail));
    }
  }

  /** `groups.sort((a, b) => b.members.length - a.members.length)`, the stable
      sort by member count, largest first. */
  function SortByMembers(groups: seq<Group>): (r: seq<Group>)
    ensures SortedByMembers(r)
    ensures multiset(r) == multiset(groups)
    ensures |r| == |groups|
  {
    if groups == [] then []
    else
      var rest := SortByMembers(groups[1..]);
      InsertKeepsSorted(groups[0], rest);
      SplitMultiset(groups, 1);
      assert groups[..1] == [groups[0]];
      InsertByMembers(groups[0], rest)
  }

  /** A prefix of a sorted list is sorted. */
  lemma SortedPrefix(sorted: seq<Group>, k: nat)
    requires SortedByMembers(sorted) && k <= |sorted|
    ensures SortedByMembers(sorted[..k])
  {
    var p := sorted[..k];
    forall i, j | 0 <= i < j < |p| ensures MemberCount(p[i]) >= MemberCount(p[j]) {
      assert p[i] == sorted[i] && p[j] == sorted[j];
    }
  }

  /** Splitting a list splits its multiset. */
  lemma SplitMultiset(s: seq<Group>, k: nat)
    requires k <= |s|
    ensures multiset(s) == multiset(s[..k]) + multiset(s[k..])
  {
    assert s == s[..k] + s[k..];
  }

  /** A prefix of a sorted list holds groups at least as large as every
      group left behind. */
  lemma SortedPrefixLargest(sorted: seq<Group>, k: nat)
    requires SortedByMembers(sorted) && k <= |sorted|
    ensures forall g, h :: g in sorted[..k] && h in sorted[k..] ==> MemberCount(h) <= MemberCount(g)
  {
    forall g, h | g in sorted[..k] && h in sorted[k..] ensures MemberCount(h) <= MemberCount(g) {
      var i :| 0 <= i < k && sorted[..k][i] == g;
      var j :| 0 <= j < |sorted| - k && sorted[k..][j] == h;
      assert sorted[i] == g && sorted[k + j] == h;
    }
  }

  /** `groups.sort(...).slice(0, 5)`: the five largest groups of the list (all
      of them when there are fewer), the largest first. */
  function Popular(groups: seq<Group>): (r: seq<Group>)
    ensures |r| == Min(5, |groups|)
    ensures SortedByMembers(r)
    ensures multiset(r) <= multiset(groups)
    ensures forall g, h :: g in r && h in multiset(groups) - multiset(r) ==> MemberCount(h) <= MemberCount(g)
  {
    var sorted := SortByMembers(groups);
    var k := Min(5, |groups|);
    SortedPrefix(sorted, k);
    SplitMultiset(sorted, k);
    SortedPrefixLargest(sorted, k);
    sorted[..k]
  }

  /** A group of the overview as the remote service describes it. */
  datatype ApiGroup = ApiGroup(id: string, groupName: string, description: Option<string>, createdAt: Option<int>)

  /** `convertApiGroup`: no members and no creator are known. */
  function ConvertGroup(a: ApiGroup, now: int): (g: Group)
    ensures g.members == [] && g.createdBy == ""
    ensures g.id == a.id && g.name == a.groupName && g.description == Some(OrEmpty(a.description))
    ensures a.createdAt.Some? && a.createdAt.value != 0 ==> g.createdAt == a.createdAt.value && g.updatedAt == a.createdAt.value
    ensures a.createdAt.None? || a.createdAt.value == 0 ==> g.createdAt == now && g.updatedAt == now
  {
    var at := OrNumber(a.createdAt, now);
    Group(a.id, a.groupName, Some(OrEmpty(a.description)), [], "", at, at, None)
  }

  /** `list?.map(convertApiGroup) || []` */
  function ConvertAll(list: Option<seq<ApiGroup>>, now: int): (r: seq<Group>)
    ensures list.None? ==> r == []
    ensures list.Some? ==> |r| == |list.value|
    ensures list.Some? ==> forall i :: 0 <= i < |r| ==> r[i] == ConvertGroup(list.value[i], now)
  {
    if list.None? then []
    else seq(|list.value|, i requires 0 <= i < |list.value| => ConvertGroup(list.value[i], now))
  }

  /** What `getGroupsOverview` gave back: it threw, or it returned a response
      whose `status && data` test is `ok`, with the three optional lists. */
  datatype OverviewResponse =
    | OverviewThrew
    | OverviewReturned(ok: bool, trending: Option<seq<ApiGroup>>, newest: Option<seq<ApiGroup>>,
                       popular: Option<seq<ApiGroup>>)

  datatype Overview = Overview(trending: seq<Group>, newest: seq<Group>, popular: seq<Group>)

  /** The three lists `loadGroupsOverview` sets from the group list `base`:
      none when the response is not ok. */
  function OverviewFor(base: seq<Group>, response: OverviewResponse, now: int): Option<Overview> {
    match response
    case OverviewThrew => Some(Overview(Trending(base), Newest(base), Popular(base)))
    case OverviewReturned(ok, t, n, p) =>
      if ok then Some(Overview(ConvertAll(t, now), ConvertAll(n, now), ConvertAll(p, now))) else None
  }

  /** The fallback overview: trending is the first five groups in list order,
      new the last five newest first, popular the five largest groups by
      member count, largest first. */
  lemma FallbackOverview(groups: seq<Group>, now: int)
    ensures var o := OverviewFor(groups, OverviewThrew, now);
      && o.Some?
      && |o.value.trending| == Min(5, |groups|) && o.value.trending == groups[..|o.value.trending|]
      && |o.value.newest| == Min(5, |groups|)
      && (forall i :: 0 <= i < |o.value.newest| ==> o.value.newest[i] == groups[|groups| - 1 - i])
      && |o.value.popular| == Min(5, |groups|) && SortedByMembers(o.value.popular)
      && multiset(o.value.popular) <= multiset(groups)
      && (forall g, h :: g in o.value.popular && h in multiset(groups) - multiset(o.value.popular) ==>
            MemberCount(h) <= MemberCount(g))
  {
  }

  class GroupActions {
    var currentUser: Option<User>
    var groups: seq<Group>
    var trendingGroups: seq<Group>
    var newGroups: seq<Group>
    var popularGroups: seq<Group>
    /** The group list as last written to storage. */
    ghost var savedGroups: seq<Group>

    constructor (currentUser: Option<User>, groups: seq<Group>)
      ensures this.currentUser == currentUser && this.groups == groups && savedGroups == groups
      ensures trendingGroups == [] && newGroups == [] && popularGroups == []
    {
      this.currentUser, this.groups := currentUser, groups;
      savedGroups := groups;
      trendingGroups, newGroups, popularGroups := [], [], [];
    }

    /** Sets the three overview lists computed from `base`, if any. */
    method SetOverview(base: seq<Group>, response: OverviewResponse, now: int)
      modifies this`trendingGroups, this`newGroups, this`popularGroups
      ensures match OverviewFor(base, response, now)
        case None =>
          trendingGroups == old(trendingGroups) && newGroups == old(newGroups) && popularGroups == old(popularGroups)
        case Some(o) =>
          trendingGroups == o.trending && newGroups == o.newest && popularGroups == o.popular
    {
      match OverviewFor(base, response, now) {
        case None =>
        case Some(o) =>
          trendingGroups, newGroups, popularGroups := o.trending, o.newest, o.popular;
      }
    }

    /** `loadGroupsOverview()`: the lists from the response; when the call
        throws, the fallback lists, and the group list itself is left sorted by
        member count (not saved). */
    method LoadGroupsOverview(response: OverviewResponse, now: int)
      modifies this`groups, this`trendingGroups, this`newGroups, this`popularGroups
      ensures match OverviewFor(old(groups), response, now)
        case None =>
          trendingGroups == old(trendingGroups) && newGroups == old(newGroups) && popularGroups == old(popularGroups)
        case Some(o) =>
          trendingGroups == o.trending && newGroups == o.newest && popularGroups == o.popular
      ensures groups == if response.OverviewThrew? then SortByMembers(old(groups)) else old(groups)
    {
      SetOverview(groups, response, now);
      if response.OverviewThrew? {
        groups := SortByMembers(groups);
      }
    }

    /** `createGroup({name, description})`: nothing without a current user;
        otherwise a group whose only member and creator is the current user is
        appended and saved, under the remote id, or under `local_group_<now>`
        when the call fails.  On success the overview is then reloaded from the
        group list as it was before the append. */
    method CreateGroup(name: string, description: Option<string>, created: Option<string>,
                       overview: OverviewResponse, now: nat)
      modifies this`groups, this`savedGroups, this`trendingGroups, this`newGroups, this`popularGroups
      ensures currentUser.None? ==> unchanged(this)
      ensures currentUser.Some? ==>
        var self := currentUser.value.id;
        var id := if created.Some? then created.value else LocalGroupId(now);
        && groups == old(groups) + [NewGroup(id, name, description, self, now)]
        && savedGroups == groups
      ensures currentUser.Some? && created.Some? ==>
        match OverviewFor(old(groups), overview, now)
        case None =>
          trendingGroups == old(trendingGroups) && newGroups == old(newGroups) && popularGroups == old(popularGroups)
        case Some(o) =>
          trendingGroups == o.trending && newGroups == o.newest && popularGroups == o.popular
      ensures currentUser.None? || created.None? ==>
        trendingGroups == old(trendingGroups) && newGroups == old(newGroups) && popularGroups == old(popularGroups)
    {
      if currentUser.None? {
        return;
      }
      var self := currentUser.value.id;
      var before := groups;
      if created.Some? {
        groups := groups + [NewGroup(created.value, name, description, self, now)];
        savedGroups := groups;
        SetOverview(before, overview, now);
      } else {
        groups := groups + [NewGroup(LocalGroupId(now), name, description, self, now)];
        savedGroups := groups;
      }
    }

    /** `joinGroup(groupId)`: nothing without a current user; otherwise the
        current user is appended to the members of the groups with that id
        that do not list it yet, and the list is saved, whether or not the
        remote call succeeds. */
    method JoinGroup(groupId: string, joined: bool, now: int)
      modifies this`groups, this`savedGroups
      ensures currentUser.None? ==> groups == old(groups) && savedGroups == old(savedGroups)
      ensures currentUser.Some? ==>
        groups == JoinGroups(old(groups), groupId, currentUser.value.id, Some(now)) && savedGroups == groups
    {
      if currentUser.None? {
        return;
      }
      var self := currentUser.value.id;
      if joined {
        groups := JoinGroups(groups, groupId, self, Some(now));
      } else {
        groups := JoinGroups(groups, groupId, self, Some(now));
      }
      savedGroups := groups;
    }
  }
}
