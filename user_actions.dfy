/** Identity management of `useUserActions`: creating the current user through
    the remote profile service (or locally when the call fails), updating it
    with a partial record, and looking a profile up.

    Remote calls are inputs: `ApiProfile` is what a successful `createProfile`
    or `joinAnonymous` call returns (`None` when it throws), `ProfileLookup`
    what `getProfile` did.  `now` stands for `Date.now()`. */
module UserDirectory {
  import opened Types
  import opened JsStrings

  /** The request `createUser` sends: a full profile as soon as one of name,
      phone and email is given (missing ones sent as ''), otherwise an
      anonymous join carrying whatever was given. */
  datatype ProfileRequest =
    | CreateProfile(name: string, phone: string, email: string)
    | JoinAnonymous(anonName: Option<string>, anonPhone: Option<string>, anonEmail: Option<string>)

  /** Whether any of name, phone and email is a non-empty string. */
  predicate GivesContact(d: UserPatch) {
    Truthy(d.name) || Truthy(d.phone) || Truthy(d.email)
  }

  function RequestFor(d: UserPatch): (r: ProfileRequest)
    ensures r.CreateProfile? <==> GivesContact(d)
    ensures r.CreateProfile? ==> r.name == OrEmpty(d.name) && r.phone == OrEmpty(d.phone) && r.email == OrEmpty(d.email)
    ensures r.JoinAnonymous? ==> r.anonName == d.name && r.anonPhone == d.phone && r.anonEmail == d.email
  {
    if GivesContact(d) then CreateProfile(OrEmpty(d.name), OrEmpty(d.phone), OrEmpty(d.email))
    else JoinAnonymous(d.name, d.phone, d.email)
  }

  /** The profile record the service answers with. */
  datatype ApiProfile = ApiProfile(
    id: string, name: Option<string>, phone: Option<string>, email: Option<string>,
    username: Option<string>, isAnonymous: bool)

  /** The user built from the service's answer: identity fields from the
      service, bio and avatar from the form. */
  function FromApi(p: ApiProfile, d: UserPatch, now: int): (u: User)
    ensures u.id == p.id && u.isAnonymous == p.isAnonymous && u.username == p.username
    ensures u.name == p.name && u.phone == p.phone && u.email == p.email
    ensures u.bio == d.bio && u.avatar == d.avatar && u.lastSeen == now
  {
    User(p.id, p.name, p.phone, p.email, p.username, p.isAnonymous, d.avatar, d.bio, now)
  }

  /** `local_${Date.now()}` */
  function LocalUserId(now: nat): (id: string)
    ensures |id| > 6 && id[..6] == "local_"
  {
    "local_" + DecimalString(now)
  }

  /** The user created locally when the service call fails: anonymous exactly
      when no name, phone or email was given. */
  function FallbackUser(d: UserPatch, now: nat): (u: User)
    ensures u.id == LocalUserId(now) && u.username == None
    ensures u.name == d.name && u.phone == d.phone && u.email == d.email
    ensures u.bio == d.bio && u.avatar == d.avatar && u.lastSeen == now
    ensures u.isAnonymous <==> !GivesContact(d)
  {
    User(LocalUserId(now), d.name, d.phone, d.email, None,
         !Truthy(d.name) && !Truthy(d.phone) && !Truthy(d.email), d.avatar, d.bio, now)
  }

  /** The locally created user is anonymous exactly when the request sent was
      the anonymous join. */
  lemma FallbackAnonymousIffJoin(d: UserPatch, now: nat)
    ensures FallbackUser(d, now).isAnonymous <==> RequestFor(d).JoinAnonymous?
  {
  }

  function CreatedUser(d: UserPatch, response: Option<ApiProfile>, now: nat): User {
    match response
    case Some(p) => FromApi(p, d, now)
    case None => FallbackUser(d, now)
  }

  /** `{ ...u, ...d }`: every key present in the patch overrides. */
  function Merge(u: User, d: UserPatch): (r: User)
    ensures r.id == d.id.GetOr(u.id) && r.isAnonymous == d.isAnonymous.GetOr(u.isAnonymous)
    ensures r.lastSeen == d.lastSeen.GetOr(u.lastSeen)
    ensures r.name == (if d.name.Some? then d.name else u.name)
    ensures r.phone == (if d.phone.Some? then d.phone else u.phone)
    ensures r.email == (if d.email.Some? then d.email else u.email)
    ensures r.username == (if d.username.Some? then d.username else u.username)
    ensures r.avatar == (if d.avatar.Some? then d.avatar else u.avatar)
    ensures r.bio == (if d.bio.Some? then d.bio else u.bio)
  {
    User(d.id.GetOr(u.id),
         if d.name.Some? then d.name else u.name,
         if d.phone.Some? then d.phone else u.phone,
         if d.email.Some? then d.email else u.email,
         if d.username.Some? then d.username else u.username,
         d.isAnonymous.GetOr(u.isAnonymous),
         if d.avatar.Some? then d.avatar else u.avatar,
         if d.bio.Some? then d.bio else u.bio,
         d.lastSeen.GetOr(u.lastSeen))
  }

  /** Applying the same patch twice changes nothing more. */
  lemma MergeIdempotent(u: User, d: UserPatch)
    ensures Merge(Merge(u, d), d) == Merge(u, d)
  {
  }

  /** The empty patch leaves a user as it is. */
  lemma MergeEmpty(u: User)
    ensures Merge(u, UserPatch(None, None, None, None, None, None, None, None, None)) == u
  {
  }

  /** `users.map(x => x.id === u.id ? u : x)` */
  function ReplaceById(users: seq<User>, u: User): (r: seq<User>)
    ensures |r| == |users|
    ensures forall i :: 0 <= i < |users| ==> r[i] == (if users[i].id == u.id then u else users[i])
  {
    seq(|users|, i requires 0 <= i < |users| => if users[i].id == u.id then u else users[i])
  }

  /** `users.find(x => x.id === id)`: the first user with that id. */
  function FindUser(users: seq<User>, id: string): (r: Option<User>)
    ensures r.Some? ==> r.value in users && r.value.id == id
    ensures r.None? <==> forall i :: 0 <= i < |users| ==> users[i].id != id
    ensures r.Some? ==>
      exists i :: 0 <= i < |users| && users[i] == r.value && forall j :: 0 <= j < i ==> users[j].id != id
  {
    if users == [] then None
    else if users[0].id == id then Some(users[0])
    else
      var r := FindUser(users[1..], id);
      if r.Some? then
        var i :| 0 <= i < |users[1..]| && users[1..][i] == r.value
          && forall j :: 0 <= j < i ==> users[1..][j].id != id;
        assert users[i + 1] == r.value;
        r
      else r
  }

  /** After an update, looking the user up by its id finds the updated record,
      provided the list held a user with that id at all. */
  lemma ReplaceThenFind(users: seq<User>, u: User)
    requires exists i :: 0 <= i < |users| && users[i].id == u.id
    ensures FindUser(ReplaceById(users, u), u.id) == Some(u)
  {
    var r := ReplaceById(users, u);
    var f := FindUser(r, u.id);
    var i :| 0 <= i < |users| && users[i].id == u.id;
    assert r[i].id == u.id;
    var k :| 0 <= k < |r| && r[k] == f.value && forall j :: 0 <= j < k ==> r[j].id != u.id;
  }

  /** An update whose id matches nobody leaves the list as it is. */
  lemma ReplaceMissing(users: seq<User>, u: User)
    requires forall i :: 0 <= i < |users| ==> users[i].id != u.id
    ensures ReplaceById(users, u) == users
  {
  }

  /** The record `getProfile` got from the service. */
  datatype ApiUser = ApiUser(
    id: string, name: Option<string>, phone: Option<string>, email: Option<string>,
    username: Option<string>, isAnonymous: bool, createdAt: Option<int>)

  /** What `getProfile` did: it threw, or it answered with or without a user. */
  datatype ProfileLookup = LookupThrew | LookupAnswered(user: Option<ApiUser>)

  /** A profile from the service: no avatar or bio; last seen at creation,
      or now when the service gives no creation time. */
  function FromApiUser(a: ApiUser, now: int): (u: User)
    ensures u.id == a.id && u.name == a.name && u.phone == a.phone && u.email == a.email
    ensures u.username == a.username && u.isAnonymous == a.isAnonymous
    ensures u.avatar == None && u.bio == None
    ensures a.createdAt.Some? && a.createdAt.value != 0 ==> u.lastSeen == a.createdAt.value
    ensures a.createdAt.None? || a.createdAt.value == 0 ==> u.lastSeen == now
  {
    User(a.id, a.name, a.phone, a.email, a.username, a.isAnonymous, None, None, OrNumber(a.createdAt, now))
  }

  class UserActions {
    var currentUser: Option<User>
    var users: seq<User>
    /** What was last written to storage. */
    ghost var savedCurrentUser: Option<User>
    ghost var savedUsers: seq<User>

    constructor (currentUser: Option<User>, users: seq<User>)
      ensures this.currentUser == currentUser && this.users == users
      ensures savedCurrentUser == currentUser && savedUsers == users
    {
      this.currentUser, this.users := currentUser, users;
      savedCurrentUser, savedUsers := currentUser, users;
    }

    /** `createUser(userData)`: sends the profile request, then makes the new
        user current and appends it to the list, saving both. */
    method CreateUser(d: UserPatch, response: Option<ApiProfile>, now: nat) returns (request: ProfileRequest)
      modifies this
      ensures request == RequestFor(d)
      ensures var u := CreatedUser(d, response, now);
        currentUser == Some(u) && users == old(users) + [u]
      ensures savedCurrentUser == currentUser && savedUsers == users
    {
      request := RequestFor(d);
      var u;
      match response {
        case Some(p) =>
          u := FromApi(p, d, now);
        case None =>
          u := FallbackUser(d, now);
      }
      currentUser := Some(u);
      users := users + [u];
      savedCurrentUser, savedUsers := currentUser, users;
    }

    /** `updateUser(userData)`: nothing without a current user; otherwise the
        patched user becomes current and replaces the users with its id, and
        both are saved, whether or not the remote call succeeds. */
    method UpdateUser(d: UserPatch, succeeded: bool)
      modifies this
      ensures old(currentUser).None? ==> unchanged(this)
      ensures old(currentUser).Some? ==>
        var u := Merge(old(currentUser).value, d);
        && currentUser == Some(u) && users == ReplaceById(old(users), u)
        && savedCurrentUser == currentUser && savedUsers == users
    {
      if currentUser.None? {
        return;
      }
      var u := Merge(currentUser.value, d);
      if succeeded {
        currentUser := Some(u);
        users := ReplaceById(users, u);
      } else {
        currentUser := Some(u);
        users := ReplaceById(users, u);
      }
      savedCurrentUser, savedUsers := currentUser, users;
    }

    /** `getProfile(userId)`: the service's user when it answers with one,
        otherwise the first local user with that id, if any. */
    function GetProfile(userId: string, lookup: ProfileLookup, now: int): (r: Option<User>)
      reads this
      ensures lookup.LookupAnswered? && lookup.user.Some? ==> r == Some(FromApiUser(lookup.user.value, now))
      ensures !(lookup.LookupAnswered? && lookup.user.Some?) ==> r == FindUser(users, userId)
    {
      if lookup.LookupAnswered? && lookup.user.Some? then Some(FromApiUser(lookup.user.value, now))
      else FindUser(users, userId)
    }
  }
}
