/** The RhpamUser phase handler: its Keycloak side, call by call. */
module UserPhaseHandler {
  import opened Convergence
  import opened KeycloakServer
  import opened Prelude
  import opened Realms

  /** What the realm has under a name and what the specification wants under
      it; the empty string stands for "nothing". */
  class RolePair {
    var kcRole: string
    var specRole: string

    constructor (kcRole: string, specRole: string)
      ensures this.kcRole == kcRole && this.specRole == specRole
    {
      this.kcRole := kcRole;
      this.specRole := specRole;
    }
  }

  class UserPair {
    var kcUser: Option<SpecUser>
    var specUser: Option<SpecUser>

    constructor (kcUser: Option<SpecUser>, specUser: Option<SpecUser>)
      ensures this.kcUser == kcUser && this.specUser == specUser
    {
      this.kcUser := kcUser;
      this.specUser := specUser;
    }
  }

  /** `name` if it is one of `names`, else the empty string. */
  function NamedIn(name: string, names: set<string>): string {
    if name in names then name else ""
  }

  /** `pairs` joins `there` and `wanted`; no two names share a pair. */
  ghost predicate JoinsRoles(pairs: map<string, RolePair>, nameOf: map<RolePair, string>,
                             there: set<string>, wanted: set<string>)
    reads pairs.Values
  {
    && pairs.Keys == there + wanted
    && (forall r | r in pairs :: pairs[r] in nameOf && nameOf[pairs[r]] == r)
    && (forall r | r in pairs :: pairs[r].kcRole == NamedIn(r, there))
    && (forall r | r in pairs :: pairs[r].specRole == NamedIn(r, wanted))
  }

  method JoinRole(pairs: map<string, RolePair>, ghost nameOf: map<RolePair, string>, role: string,
                  ghost there: set<string>, ghost wanted: set<string>)
    returns (joined: map<string, RolePair>, ghost nameOf': map<RolePair, string>)
    requires JoinsRoles(pairs, nameOf, there, wanted)
    modifies pairs.Values
    ensures JoinsRoles(joined, nameOf', there, wanted + {role})
    ensures forall r | r in joined :: (r in pairs && joined[r] == pairs[r]) || fresh(joined[r])
  {
    if role in pairs {
      pairs[role].specRole := role;
      joined, nameOf' := pairs, nameOf;
    } else {
      var pair := new RolePair("", role);
      joined := pairs[role := pair];
      nameOf' := nameOf[pair := role];
    }
  }

  /** The full outer join of the names that are there and the names that are wanted. */
  method PairRoles(kcRoles: seq<string>, specRoles: seq<string>) returns (pairs: map<string, RolePair>)
    ensures forall r | r in pairs :: fresh(pairs[r])
    ensures pairs.Keys == ToSet(kcRoles) + ToSet(specRoles)
    ensures forall r | r in pairs :: pairs[r].kcRole == NamedIn(r, ToSet(kcRoles))
    ensures forall r | r in pairs :: pairs[r].specRole == NamedIn(r, ToSet(specRoles))
  {
    ghost var nameOf: map<RolePair, string>;
    pairs, nameOf := NewRolePairs(kcRoles);
    for j := 0 to |specRoles|
      invariant forall r | r in pairs :: fresh(pairs[r])
      invariant JoinsRoles(pairs, nameOf, ToSet(kcRoles), ToSet(specRoles[..j]))
    {
      ToSetTake(specRoles, j);
      pairs, nameOf := JoinRole(pairs, nameOf, specRoles[j], ToSet(kcRoles), ToSet(specRoles[..j]));
    }
    ToSetAll(specRoles);
  }

  method NewRolePairs(kcRoles: seq<string>) returns (pairs: map<string, RolePair>, ghost nameOf: map<RolePair, string>)
    ensures pairs.Keys == ToSet(kcRoles)
    ensures forall r | r in pairs :: fresh(pairs[r]) && pairs[r] in nameOf && nameOf[pairs[r]] == r
    ensures forall r | r in pairs :: pairs[r].kcRole == r && pairs[r].specRole == ""
  {
    pairs, nameOf := map[], map[];
    for i := 0 to |kcRoles|
      invariant pairs.Keys == ToSet(kcRoles[..i])
      invariant forall r | r in pairs :: fresh(pairs[r]) && pairs[r] in nameOf && nameOf[pairs[r]] == r
      invariant forall r | r in pairs :: pairs[r].kcRole == r && pairs[r].specRole == ""
    {
      var pair := new RolePair(kcRoles[i], "");
      pairs := pairs[kcRoles[i] := pair];
      nameOf := nameOf[pair := kcRoles[i]];
      ToSetTake(kcRoles, i);
    }
    ToSetAll(kcRoles);
  }

  /** One side of a user pair: the user `name` with its roles, or nothing. */
  ghost predicate Describes(user: Option<SpecUser>, name: string, accounts: map<string, set<string>>) {
    match user
    case None => name !in accounts
    case Some(u) => u.name == name && name in accounts && ToSet(u.roles) == accounts[name]
  }

  /** `pairs` joins `there` and `wanted`; no two names share a pair. */
  ghost predicate Joins(pairs: map<string, UserPair>, nameOf: map<UserPair, string>,
                        there: map<string, set<string>>, wanted: map<string, set<string>>)
    reads pairs.Values
  {
    && pairs.Keys == there.Keys + wanted.Keys
    && (forall u | u in pairs :: pairs[u] in nameOf && nameOf[pairs[u]] == u)
    && (forall u | u in pairs :: Describes(pairs[u].kcUser, u, there))
    && (forall u | u in pairs :: Describes(pairs[u].specUser, u, wanted))
  }

  method JoinUser(pairs: map<string, UserPair>, ghost nameOf: map<UserPair, string>, user: SpecUser,
                  ghost there: map<string, set<string>>, ghost wanted: map<string, set<string>>)
    returns (joined: map<string, UserPair>, ghost nameOf': map<UserPair, string>)
    requires Joins(pairs, nameOf, there, wanted)
    modifies pairs.Values
    ensures Joins(joined, nameOf', there, wanted[user.name := ToSet(user.roles)])
    ensures forall u | u in joined :: (u in pairs && joined[u] == pairs[u]) || fresh(joined[u])
  {
    if user.name in pairs {
      pairs[user.name].specUser := Some(user);
      joined, nameOf' := pairs, nameOf;
    } else {
      var pair := new UserPair(None, Some(user));
      joined := pairs[user.name := pair];
      nameOf' := nameOf[pair := user.name];
    }
  }

  /** The full outer join of the users that are there and the users that are wanted. */
  method PairUsers(kcUsers: seq<SpecUser>, specUsers: seq<SpecUser>) returns (pairs: map<string, UserPair>)
    ensures forall u | u in pairs :: fresh(pairs[u])
    ensures pairs.Keys == Listed(kcUsers).Keys + Listed(specUsers).Keys
    ensures forall u | u in pairs :: Describes(pairs[u].kcUser, u, Listed(kcUsers))
    ensures forall u | u in pairs :: Describes(pairs[u].specUser, u, Listed(specUsers))
  {
    ghost var nameOf: map<UserPair, string>;
    pairs, nameOf := NewUserPairs(kcUsers);
    assert specUsers[..0] == [];
    for j := 0 to |specUsers|
      invariant forall u | u in pairs :: fresh(pairs[u])
      invariant Joins(pairs, nameOf, Listed(kcUsers), Listed(specUsers[..j]))
    {
      ListedTake(specUsers, j);
      pairs, nameOf := JoinUser(pairs, nameOf, specUsers[j], Listed(kcUsers), Listed(specUsers[..j]));
    }
    assert specUsers[..|specUsers|] == specUsers;
  }

  method NewUserPairs(kcUsers: seq<SpecUser>) returns (pairs: map<string, UserPair>, ghost nameOf: map<UserPair, string>)
    ensures pairs.Keys == Listed(kcUsers).Keys
    ensures forall u | u in pairs :: fresh(pairs[u]) && pairs[u] in nameOf && nameOf[pairs[u]] == u
    ensures forall u | u in pairs :: Describes(pairs[u].kcUser, u, Listed(kcUsers)) && pairs[u].specUser == None
  {
    pairs, nameOf := map[], map[];
    ghost var there: map<string, set<string>> := map[];
    assert kcUsers[..0] == [];
    for i := 0 to |kcUsers|
      invariant there == Listed(kcUsers[..i]) && pairs.Keys == there.Keys
      invariant forall u | u in pairs :: fresh(pairs[u]) && pairs[u] in nameOf && nameOf[pairs[u]] == u
      invariant forall u | u in pairs :: Describes(pairs[u].kcUser, u, there) && pairs[u].specUser == None
    {
      var user := kcUsers[i];
      var pair := new UserPair(Some(user), None);
      pairs := pairs[user.name := pair];
      nameOf := nameOf[pair := user.name];
      there := there[user.name := ToSet(user.roles)];
      ListedTake(kcUsers, i);
    }
    assert kcUsers[..|kcUsers|] == kcUsers;
  }

  predicate IsDefaultRole(role: string) {
    exists i | 0 <= i < |DEFAULT_ROLES| :: role == DEFAULT_ROLES[i]
  }

  predicate IsDefaultUser(user: string) {
    exists i | 0 <= i < |DEFAULT_USERS| :: user == DEFAULT_USERS[i].name
  }

  /** Nothing of `s` is missing in `t`. */
  ghost predicate Grown(s: Realm, t: Realm) {
    && s.roles <= t.roles
    && t.auto == s.auto
    && s.accounts.Keys <= t.accounts.Keys
    && forall u | u in s.accounts :: s.accounts[u] <= t.accounts[u]
  }

  /** Between `h` and `t` nothing happened but, at most, the write `w`. */
  ghost predicate AtMost(h: History, t: History, w: Write) {
    t == h || (|h.states| == |h.writes| + 1 && Accepts(h.Last(), w) && t == h.Add(w))
  }

  /** What the RhpamUser controller asks of the phase handler: filling a new
      realm, a run towards a specification, or tearing down. */
  datatype Call = FillDefaults | ReconcileTo(spec: UserSpec) | Remove

  ghost predicate DefaultsKept(s: Realm, t: Realm) {
    s.roles * DefaultRoles() <= t.roles && s.accounts.Keys * DefaultUsers() <= t.accounts.Keys
  }

  lemma OneMoreGone(names: seq<string>, i: nat, defaults: set<string>)
    requires i < |names|
    ensures ToSet(names[..i + 1]) - defaults ==
            ToSet(names[..i]) - defaults + if names[i] in defaults then {} else {names[i]}
  {
    ToSetTake(names, i);
  }

  lemma KeptByHistory(h0: History, h: History)
    requires h0.Valid() && h.Valid() && h.Extends(h0) && ProtectiveFrom(h, |h0.writes|)
    ensures DefaultsKept(h0.Last(), h.Last())
  {
    DefaultsSurvive(h, |h0.writes|, |h.writes|);
  }

  // ------------------------------------------------------- what the defaults are

  /** The user is there, with these roles besides those it has or the server gives it. */
  function WithUser(s: Realm, user: SpecUser): Realm {
    s.(accounts := s.accounts[
         user.name := (if user.name in s.accounts then s.accounts[user.name] else s.auto) + ToSet(user.roles)])
  }

  function WithUsers(s: Realm, users: seq<SpecUser>): Realm {
    if users == [] then s else WithUser(WithUsers(s, users[..|users| - 1]), users[|users| - 1])
  }

  /** The realm with the default roles, users and grants, and nothing else new. */
  function Provisioned(s: Realm): Realm {
    WithUsers(s.(roles := s.roles + DefaultRoles()), DEFAULT_USERS)
  }

  /** `t` is on the way from `s` to `u`. */
  ghost predicate Between(s: Realm, t: Realm, u: Realm) {
    Grown(s, t) && Grown(t, u)
  }

  lemma OneMoreWithUser(s: Realm, users: seq<SpecUser>, i: nat)
    requires i < |users|
    ensures WithUsers(s, users[..i + 1]) == WithUser(WithUsers(s, users[..i]), users[i])
  {
    assert users[..i + 1][..i] == users[..i];
  }

  lemma {:induction false} UsersOnlyGrow(s: Realm, users: seq<SpecUser>, i: nat)
    requires i <= |users|
    ensures Between(s, WithUsers(s, users[..i]), WithUsers(s, users))
    decreases |users| - i, i
  {
    GrowsFromStart(s, users[..i]);
    GrowsToEnd(s, users, i);
  }

  lemma {:induction false} GrowsFromStart(s: Realm, users: seq<SpecUser>)
    ensures Grown(s, WithUsers(s, users))
  {
    if users != [] {
      GrowsFromStart(s, users[..|users| - 1]);
    }
  }

  lemma {:induction false} GrowsToEnd(s: Realm, users: seq<SpecUser>, i: nat)
    requires i <= |users|
    ensures Grown(WithUsers(s, users[..i]), WithUsers(s, users))
    decreases |users| - i
  {
    if i < |users| {
      OneMoreWithUser(s, users, i);
      GrowsToEnd(s, users, i + 1);
    } else {
      assert users[..i] == users;
    }
  }

  lemma SomeGiven(s: Realm, t: Realm, user: SpecUser, given: set<string>)
    requires OnlyUser(s, t, user.name) && user.name in s.accounts && user.name in t.accounts
    requires given <= ToSet(user.roles) && t.accounts[user.name] == s.accounts[user.name] + given
    ensures Between(s, t, WithUser(s, user))
    ensures given == ToSet(user.roles) ==> t == WithUser(s, user)
  {
    forall u | u in s.accounts && u != user.name ensures u in t.accounts && t.accounts[u] == s.accounts[u] {
      assert u in s.accounts - {user.name};
    }
    forall u | u in t.accounts && u != user.name ensures u in s.accounts {
      assert u in t.accounts - {user.name};
    }
    if given == ToSet(user.roles) {
      assert t.accounts == WithUser(s, user).accounts;
    }
  }

  predicate Apart(users: seq<SpecUser>) {
    forall i, j | 0 <= i < j < |users| :: users[i].name != users[j].name
  }

  /** The roles that come with `user`, if it is one of `users`. */
  function GrantsOf(users: seq<SpecUser>, user: string): set<string> {
    if user in Listed(users) then Listed(users)[user] else {}
  }

  /** A user that was there keeps its roles and a new one starts with the server's,
      and each gets what is listed for it. */
  function Given(s: Realm, users: seq<SpecUser>, user: string): Option<set<string>> {
    if user in s.accounts then Some(s.accounts[user] + GrantsOf(users, user))
    else if user in NamesOf(users) then Some(s.auto + GrantsOf(users, user))
    else None
  }

  lemma {:induction false} WithUsersGiven(s: Realm, users: seq<SpecUser>, user: string)
    requires Apart(users)
    ensures AccountOf(WithUsers(s, users), user) == Given(s, users, user)
    ensures WithUsers(s, users).roles == s.roles && WithUsers(s, users).auto == s.auto
  {
    if users == [] {
      assert GrantsOf(users, user) == {};
      assert user in s.accounts ==> s.accounts[user] + {} == s.accounts[user];
    } else {
      var front, last := users[..|users| - 1], users[|users| - 1];
      WithUsersGiven(s, front, user);
      OneMoreGiven(s, front, last, user);
      assert users == front + [last];
    }
  }

  lemma OneMoreGiven(s: Realm, front: seq<SpecUser>, last: SpecUser, user: string)
    requires Apart(front + [last]) && AccountOf(WithUsers(s, front), user) == Given(s, front, user)
    requires WithUsers(s, front).auto == s.auto
    ensures AccountOf(WithUser(WithUsers(s, front), last), user) == Given(s, front + [last], user)
  {
    GrantsAppend(front, last, user);
    NewName(front, last);
    LastGets(s, WithUsers(s, front), last, user, GrantsOf(front, user));
  }

  lemma LastGets(s: Realm, t: Realm, last: SpecUser, user: string, granted: set<string>)
    requires t.auto == s.auto
    requires user == last.name ==> granted == {}
    requires user in s.accounts ==> user in t.accounts && t.accounts[user] == s.accounts[user] + granted
    requires user == last.name && user !in s.accounts ==> user !in t.accounts
    ensures user != last.name ==> AccountOf(WithUser(t, last), user) == AccountOf(t, user)
    ensures user == last.name ==>
      AccountOf(WithUser(t, last), user) ==
      Some((if user in s.accounts then s.accounts[user] else s.auto) + ToSet(last.roles))
  {
    if user == last.name && user in s.accounts {
      assert s.accounts[user] + {} == s.accounts[user];
    }
  }

  lemma GrantsAppend(front: seq<SpecUser>, last: SpecUser, user: string)
    requires Apart(front + [last])
    ensures GrantsOf(front + [last], user) == if user == last.name then ToSet(last.roles) else GrantsOf(front, user)
    ensures user == last.name ==> GrantsOf(front, user) == {}
    ensures user in NamesOf(front + [last]) <==> user in NamesOf(front) || user == last.name
  {
    ListedAppend(front, last);
    NewName(front, last);
    assert last in front + [last];
  }

  lemma NewName(front: seq<SpecUser>, last: SpecUser)
    requires Apart(front + [last])
    ensures last.name !in NamesOf(front) && last.name !in Listed(front)
  {
    forall i | 0 <= i < |front| ensures front[i].name != last.name {
      assert (front + [last])[i] == front[i] && (front + [last])[|front|] == last;
    }
    ListedOnly(front, last.name);
  }

  /** A user has its roles, or the server's if it is new, and what comes with it as a default. */
  lemma ProvisionedIs(s: Realm)
    ensures Provisioned(s).roles == s.roles + DefaultRoles() && Provisioned(s).auto == s.auto
    ensures Provisioned(s).accounts.Keys == s.accounts.Keys + DefaultUsers()
    ensures forall u | u in Provisioned(s).accounts ::
      Provisioned(s).accounts[u] == (if u in s.accounts then s.accounts[u] else s.auto) + GrantsOf(DEFAULT_USERS, u)
  {
    var r := s.(roles := s.roles + DefaultRoles());
    WithUsersGiven(r, DEFAULT_USERS, "");
    forall u ensures AccountOf(Provisioned(s), u) == Given(r, DEFAULT_USERS, u) {
      WithUsersGiven(r, DEFAULT_USERS, u);
    }
    forall u ensures u in Provisioned(s).accounts <==> u in s.accounts.Keys + DefaultUsers() {
      assert AccountOf(Provisioned(s), u) == Given(r, DEFAULT_USERS, u);
    }
    forall u | u in Provisioned(s).accounts
      ensures Provisioned(s).accounts[u] ==
        (if u in s.accounts then s.accounts[u] else s.auto) + GrantsOf(DEFAULT_USERS, u)
    {
      assert AccountOf(Provisioned(s), u) == Given(r, DEFAULT_USERS, u);
    }
  }

  /** Filling a realm again changes nothing. */
  lemma ProvisionedTwice(s: Realm)
    ensures Provisioned(Provisioned(s)) == Provisioned(s)
  {
    var t, u := Provisioned(s), Provisioned(Provisioned(s));
    ProvisionedIs(s);
    ProvisionedIs(t);
    assert u.roles == t.roles;
    forall v | v in u.accounts ensures u.accounts[v] == t.accounts[v] {
    }
    assert u.accounts == t.accounts;
  }

  /** No user but default ones. */
  function StrippedUsers(s: Realm): Realm {
    s.(accounts := map u | u in s.accounts && u in DefaultUsers() :: s.accounts[u])
  }

  /** Only users have gone, and no default ones. */
  ghost predicate UsersDown(s: Realm, t: Realm) {
    && t == s.(accounts := t.accounts)
    && s.accounts.Keys * DefaultUsers() <= t.accounts.Keys <= s.accounts.Keys
    && forall u | u in t.accounts :: t.accounts[u] == s.accounts[u]
  }

  lemma Fewer(s: Realm, gone: set<string>)
    requires gone !! DefaultUsers()
    ensures UsersDown(s, s.(accounts := s.accounts - gone))
  {
  }

  /** Users and roles have gone, but no default ones, and the grants with them. */
  ghost predicate OnTheWayDown(s: Realm, t: Realm) {
    && s.roles * DefaultRoles() <= t.roles <= s.roles
    && s.accounts.Keys * DefaultUsers() <= t.accounts.Keys <= s.accounts.Keys
    && (forall u | u in t.accounts :: t.accounts[u] == s.accounts[u] * t.roles)
    && t.auto == s.auto * t.roles
  }

  lemma RolesDown(s: Realm, t: Realm, u: Realm)
    requires s.Valid() && UsersDown(s, t) && u == WithRoles(t, u.roles)
    requires t.roles * DefaultRoles() <= u.roles <= t.roles
    ensures OnTheWayDown(s, u)
    ensures t == StrippedUsers(s) && u.roles == s.roles * DefaultRoles() ==> u == Stripped(s)
    ensures t == StrippedUsers(s) && u.roles == s.roles ==> u == StrippedUsers(s)
  {
    if t == StrippedUsers(s) && u.roles == s.roles * DefaultRoles() {
      assert u.accounts == Stripped(s).accounts;
    }
    if u.roles == s.roles {
      assert t.Valid();
      WithOwnRoles(t);
    }
  }

  // ---------------------------------------------------------- what is reported

  /** A user that reconciliation wants gone. */
  predicate Spare(spec: UserSpec, user: string) {
    user !in spec.Users() && user !in DefaultUsers()
  }

  /** The requests of deleting a user. */
  function Deletion(user: string): set<Request> {
    {FindUser(user), Submit(Write.DeleteUser(user))}
  }

  /** The requests of granting or revoking a role. */
  function Granting(user: string, role: string, w: Write): set<Request> {
    {FindUser(user), GetMappings(user), GetRole(role), Submit(w)}
  }

  /** A request whose failure is not reported: it is one of deleting a spare user. */
  predicate Dropped(spec: UserSpec, r: Request) {
    || (r.FindUser? && Spare(spec, r.user))
    || (r.Submit? && r.write.DeleteUser? && Spare(spec, r.write.user))
  }

  /** From `a` to `b` only requests failed whose failure is not reported. */
  ghost predicate OnlyDropped(spec: UserSpec, a: seq<Request>, b: seq<Request>) {
    a <= b && forall k | |a| <= k < |b| :: Dropped(spec, b[k])
  }

  /** If anything failed, something did whose failure is reported. */
  ghost predicate Heard(spec: UserSpec, a: seq<Request>, b: seq<Request>) {
    a <= b && (b == a || !OnlyDropped(spec, a, b))
  }

  lemma HeardAmong(spec: UserSpec, a: seq<Request>, b: seq<Request>, rs: set<Request>)
    requires FailedAmong(a, b, rs) && forall r | r in rs :: !Dropped(spec, r)
    ensures Heard(spec, a, b)
  {
    if b != a {
      assert b[|a|] in rs;
    }
  }

  lemma HeardEach(spec: UserSpec, a: seq<Request>, b: seq<Request>)
    requires a <= b && forall k | |a| <= k < |b| :: !Dropped(spec, b[k])
    ensures Heard(spec, a, b)
  {
    if b != a {
      assert !Dropped(spec, b[|a|]);
    }
  }

  lemma DroppedOn(spec: UserSpec, a: seq<Request>, b: seq<Request>, c: seq<Request>)
    requires OnlyDropped(spec, a, b) && b <= c
    ensures OnlyDropped(spec, a, c) <==> OnlyDropped(spec, b, c)
  {
  }

  class PhaseHandler {
    const sso: Keycloak

    constructor (sso: Keycloak)
      ensures this.sso == sso
    {
      this.sso := sso;
    }

    /** All writes since `h0` were ones that reconciliation towards `spec` may issue. */
    ghost predicate Following(spec: UserSpec, h0: History)
      reads sso
    {
      && sso.Valid()
      && h0.Valid()
      && sso.history.Extends(h0)
      && AllowedFrom(spec, sso.history, |h0.writes|)
    }

    lemma Followed(spec: UserSpec, h0: History, h: History, w: Write)
      requires sso.Valid() && h.Valid() && h0.Valid() && h.Extends(h0) && AllowedFrom(spec, h, |h0.writes|)
      requires AtMost(h, sso.history, w)
      requires sso.history != h ==> Allowed(spec, h.Last(), w)
      ensures Following(spec, h0)
    {
      if sso.history != h {
        AddAllowed(spec, h, |h0.writes|, w);
      }
    }

    method CreateRole(role: string) returns (ok: bool)
      requires sso.Valid() && sso.session
      modifies sso`realm, sso`history, sso`failed, sso`attempts
      ensures sso.Valid()
      ensures FailedAmong(old(sso.failed), sso.failed, {GetRole(role), Submit(Write.CreateRole(role))})
      ensures AtMost(old(sso.history), sso.history, Write.CreateRole(role))
      ensures ok ==> role in sso.realm.roles
      ensures ok == (role != "" && sso.failed == old(sso.failed))
    {
      ok := sso.GetRole(role);
      if !ok {
        ok := sso.Send(Write.CreateRole(role));
      }
    }

    method CreateUser(user: string) returns (ok: bool)
      requires sso.Valid() && sso.session
      modifies sso`realm, sso`history, sso`failed, sso`attempts
      ensures sso.Valid()
      ensures FailedAmong(old(sso.failed), sso.failed, {FindUser(user), Submit(Write.CreateUser(user))})
      ensures AtMost(old(sso.history), sso.history, Write.CreateUser(user))
      ensures ok ==> user in sso.realm.accounts
      ensures ok == (user != "" && sso.failed == old(sso.failed))
    {
      ok := sso.FindUserByUsername(user);
      if !ok {
        ok := sso.Send(Write.CreateUser(user));
      }
    }

    /** A user that cannot be found counts as deleted. */
    method DeleteUser(user: string) returns (ok: bool)
      requires sso.Valid() && sso.session
      modifies sso`realm, sso`history, sso`failed, sso`attempts
      ensures sso.Valid()
      ensures FailedAmong(old(sso.failed), sso.failed, Deletion(user))
      ensures AtMost(old(sso.history), sso.history, Write.DeleteUser(user))
      ensures ok == (sso.failed == old(sso.failed) || sso.failed == old(sso.failed) + [FindUser(user)])
      ensures sso.failed == old(sso.failed) ==> user !in sso.realm.accounts
    {
      ghost var f := sso.failed;
      var found := sso.FindUserByUsername(user);
      if !found {
        return true;
      }
      ok := sso.Send(Write.DeleteUser(user));
      assert (f + [Submit(Write.DeleteUser(user))])[|f|] != (f + [FindUser(user)])[|f|];
    }

    method CreateUserRealmRole(user: string, role: string) returns (ok: bool)
      requires sso.Valid() && sso.session
      modifies sso`realm, sso`history, sso`failed, sso`attempts
      ensures sso.Valid()
      ensures FailedAmong(old(sso.failed), sso.failed, Granting(user, role, Grant(user, role)))
      ensures AtMost(old(sso.history), sso.history, Grant(user, role))
      ensures sso.history != old(sso.history) ==>
        user in old(sso.realm).accounts && role !in old(sso.realm).accounts[user]
      ensures ok ==> user in sso.realm.accounts && role in sso.realm.accounts[user]
      ensures ok ==
        (user in old(sso.realm).accounts && role in old(sso.realm).roles && sso.failed == old(sso.failed))
    {
      ok := sso.FindUserByUsername(user);
      if !ok {
        return;
      }
      var roleMappings;
      ok, roleMappings := sso.GetRealmRoleMappings(user);
      if !ok {
        return;
      }
      assert role in roleMappings <==> role in ToSet(roleMappings);
      if role !in roleMappings {
        ok := sso.GetRole(role);
        if !ok {
          return;
        }
        ok := sso.Send(Grant(user, role));
      }
    }

    method DeleteUserRealmRole(user: string, role: string) returns (ok: bool)
      requires sso.Valid() && sso.session
      modifies sso`realm, sso`history, sso`failed, sso`attempts
      ensures sso.Valid()
      ensures FailedAmong(old(sso.failed), sso.failed, Granting(user, role, Revoke(user, role)))
      ensures AtMost(old(sso.history), sso.history, Revoke(user, role))
      ensures sso.history != old(sso.history) ==>
        user in old(sso.realm).accounts && role in old(sso.realm).accounts[user]
      ensures ok ==> user in sso.realm.accounts && role !in sso.realm.accounts[user]
      ensures ok == (user in old(sso.realm).accounts && sso.failed == old(sso.failed))
    {
      ok := sso.FindUserByUsername(user);
      if !ok {
        return;
      }
      var roleMappings;
      ok, roleMappings := sso.GetRealmRoleMappings(user);
      if !ok {
        return;
      }
      assert role in roleMappings <==> role in ToSet(roleMappings);
      if role in roleMappings {
        ok := sso.GetRole(role);
        if !ok {
          return;
        }
        ok := sso.Send(Revoke(user, role));
      }
    }

    // ------------------------------------------------------------ roles

    /** `name` is what the two sides of the pair stand for. */
    method ReconcileRole(spec: UserSpec, ghost h0: History, ghost name: string, kcRole: string, specRole: string)
      returns (ok: bool)
      requires Following(spec, h0) && sso.session
      requires kcRole == NamedIn(name, sso.realm.roles) && specRole == NamedIn(name, spec.Roles())
      requires name in sso.realm.roles || name in spec.Roles()
      modifies sso`realm, sso`history, sso`failed, sso`attempts
      ensures Following(spec, h0) && Heard(spec, old(sso.failed), sso.failed)
      ensures sso.realm.roles - {name} == old(sso.realm).roles - {name}
      ensures sso.realm == WithRoles(old(sso.realm), sso.realm.roles)
      ensures ok ==> name != "" && (name in sso.realm.roles <==> name in Kept(spec, old(sso.realm)))
      ensures ok == (name != "" && sso.failed == old(sso.failed))
      ensures name != "" && (name in old(sso.realm).roles <==> name in Kept(spec, old(sso.realm))) ==>
        sso.realm == old(sso.realm) && sso.attempts == old(sso.attempts)
    {
      ghost var h, f := sso.history, sso.failed;
      ghost var s := sso.realm;
      WithOwnRoles(s);
      if specRole == "" && !IsDefaultRole(kcRole) {
        ok := sso.Send(Write.DeleteRole(kcRole));
        HeardAmong(spec, f, sso.failed, {Submit(Write.DeleteRole(kcRole))});
        Followed(spec, h0, h, Write.DeleteRole(kcRole));
        if sso.history != h {
          RoleWritesAreWithRoles(s, Write.DeleteRole(kcRole));
        }
      } else if kcRole == "" {
        ok := CreateRole(specRole);
        HeardAmong(spec, f, sso.failed, {GetRole(specRole), Submit(Write.CreateRole(specRole))});
        Followed(spec, h0, h, Write.CreateRole(specRole));
        if sso.history != h {
          RoleWritesAreWithRoles(s, Write.CreateRole(specRole));
        }
      } else {
        ok := true;
      }
    }

    method ReconcileRoles(spec: UserSpec, ghost h0: History) returns (ok: bool)
      requires Following(spec, h0) && sso.session
      modifies sso`realm, sso`history, sso`failed, sso`attempts
      ensures Following(spec, h0) && Heard(spec, old(sso.failed), sso.failed)
      ensures ok ==> sso.realm == RolesDone(spec, old(sso.realm)) && "" !in spec.Roles()
      ensures ok == ("" !in spec.Roles() && sso.failed == old(sso.failed))
      ensures old(sso.realm).roles == Kept(spec, old(sso.realm)) ==>
        sso.realm == old(sso.realm) && sso.attempts == old(sso.attempts)
    {
      ghost var s0 := sso.realm;
      var roles;
      ok, roles := sso.ListRoles();
      HeardEach(spec, old(sso.failed), sso.failed);
      if !ok {
        return;
      }
      var pairs := PairRoles(roles, spec.roles);
      var todo := pairs.Keys;
      WithOwnRoles(s0);
      while todo != {}
        modifies sso`realm, sso`history, sso`failed, sso`attempts
        invariant todo <= pairs.Keys
        invariant Following(spec, h0) && sso.failed == old(sso.failed)
        invariant RolesPartlyDone(spec, s0, todo, sso.realm)
        invariant "" in pairs ==> "" in todo
        invariant s0.roles == Kept(spec, s0) ==> sso.realm == s0 && sso.attempts == old(sso.attempts)
      {
        var name :| name in todo;
        var pair := pairs[name];
        ghost var s1 := sso.realm;
        ok := ReconcileRole(spec, h0, name, pair.kcRole, pair.specRole);
        if !ok {
          return;
        }
        OneMoreRole(spec, s0, todo, s1, name, sso.realm);
        todo := todo - {name};
      }
      AllRolesDone(spec, s0, sso.realm);
      assert "" !in pairs;
    }

    // ------------------------------------------------------------ users

    method ReconcileUserRealmRole(spec: UserSpec, ghost h0: History, user: string, ghost name: string,
                                  kcRole: string, specRole: string)
      returns (ok: bool)
      requires Following(spec, h0) && sso.session
      requires user in sso.realm.accounts && user in spec.Users()
      requires kcRole == NamedIn(name, sso.realm.accounts[user]) && specRole == NamedIn(name, spec.Users()[user])
      requires name in sso.realm.accounts[user] || name in spec.Users()[user]
      modifies sso`realm, sso`history, sso`failed, sso`attempts
      ensures Following(spec, h0) && Heard(spec, old(sso.failed), sso.failed)
      ensures OnlyUser(old(sso.realm), sso.realm, user) && user in sso.realm.accounts
      ensures sso.realm.accounts[user] - {name} == old(sso.realm).accounts[user] - {name}
      ensures ok ==> (name in sso.realm.accounts[user] <==> name in spec.Users()[user])
      ensures ok ==> name in spec.Users()[user] ==> name in old(sso.realm).roles
      ensures ok == ((name in spec.Users()[user] ==> name in old(sso.realm).roles) && sso.failed == old(sso.failed))
      ensures (name in old(sso.realm).accounts[user] <==> name in spec.Users()[user]) ==>
        sso.realm == old(sso.realm) && sso.attempts == old(sso.attempts)
    {
      ghost var h, f := sso.history, sso.failed;
      if kcRole == "" {
        ok := CreateUserRealmRole(user, specRole);
        HeardAmong(spec, f, sso.failed, Granting(user, specRole, Grant(user, specRole)));
        Followed(spec, h0, h, Grant(user, specRole));
      } else if specRole == "" {
        ok := DeleteUserRealmRole(user, kcRole);
        HeardAmong(spec, f, sso.failed, Granting(user, kcRole, Revoke(user, kcRole)));
        Followed(spec, h0, h, Revoke(user, kcRole));
      } else {
        ok := true;
      }
    }

    method ReconcileUserRoles(spec: UserSpec, ghost h0: History, kcUser: SpecUser, specUser: SpecUser)
      returns (ok: bool)
      requires Following(spec, h0) && sso.session
      requires kcUser.name == specUser.name
      requires kcUser.name in sso.realm.accounts && ToSet(kcUser.roles) == sso.realm.accounts[kcUser.name]
      requires kcUser.name in spec.Users() && ToSet(specUser.roles) == spec.Users()[kcUser.name]
      modifies sso`realm, sso`history, sso`failed, sso`attempts
      ensures Following(spec, h0) && Heard(spec, old(sso.failed), sso.failed)
      ensures OnlyUser(old(sso.realm), sso.realm, kcUser.name)
      ensures ok ==> kcUser.name in sso.realm.accounts && sso.realm.accounts[kcUser.name] == spec.Users()[kcUser.name]
      ensures ok == (spec.Users()[kcUser.name] <= old(sso.realm).roles && sso.failed == old(sso.failed))
      ensures old(sso.realm).accounts[kcUser.name] == spec.Users()[kcUser.name] ==>
        sso.realm == old(sso.realm) && sso.attempts == old(sso.attempts)
    {
      ghost var s := sso.realm;
      ghost var wanted := spec.Users()[kcUser.name];
      var pairs := PairRoles(kcUser.roles, specUser.roles);
      var todo := pairs.Keys;
      ok := true;
      while todo != {}
        modifies sso`realm, sso`history, sso`failed, sso`attempts
        invariant todo <= pairs.Keys && ok
        invariant Following(spec, h0) && sso.failed == old(sso.failed)
        invariant GrantsPartlyDone(s, kcUser.name, wanted, todo, sso.realm)
        invariant forall r | r in wanted && r !in todo :: r in s.roles
        invariant s.accounts[kcUser.name] == wanted ==> sso.realm == s && sso.attempts == old(sso.attempts)
      {
        var name :| name in todo;
        var pair := pairs[name];
        ghost var t := sso.realm;
        ok := ReconcileUserRealmRole(spec, h0, kcUser.name, name, pair.kcRole, pair.specRole);
        if !ok {
          return;
        }
        OneMoreGrant(s, kcUser.name, wanted, todo, t, name, sso.realm);
        todo := todo - {name};
      }
      assert sso.realm.accounts[kcUser.name] == wanted;
    }

    method CreateUserWithRealmRoles(spec: UserSpec, ghost h0: History, user: SpecUser) returns (ok: bool)
      requires Following(spec, h0) && sso.session
      requires user.name !in sso.realm.accounts && sso.realm.auto <= Kept(spec, sso.realm)
      requires user.name in spec.Users() && ToSet(user.roles) == spec.Users()[user.name]
      modifies sso`realm, sso`history, sso`failed, sso`attempts
      ensures Following(spec, h0) && Heard(spec, old(sso.failed), sso.failed)
      ensures OnlyUser(old(sso.realm), sso.realm, user.name)
      ensures ok ==> user.name in sso.realm.accounts
      ensures ok ==> sso.realm.accounts[user.name] == spec.Users()[user.name] + sso.realm.auto
      ensures ok ==
        (user.name != "" && spec.Users()[user.name] <= old(sso.realm).roles && sso.failed == old(sso.failed))
    {
      ghost var h, f := sso.history, sso.failed;
      ok := CreateUser(user.name);
      HeardAmong(spec, f, sso.failed, {FindUser(user.name), Submit(Write.CreateUser(user.name))});
      Followed(spec, h0, h, Write.CreateUser(user.name));
      if ok {
        ok := GrantAll(spec, h0, user);
      }
    }

    /** Gives a user that was just created its listed roles. */
    method GrantAll(spec: UserSpec, ghost h0: History, user: SpecUser) returns (ok: bool)
      requires Following(spec, h0) && sso.session
      requires user.name in sso.realm.accounts && sso.realm.accounts[user.name] == sso.realm.auto
      requires user.name in spec.Users() && ToSet(user.roles) == spec.Users()[user.name]
      modifies sso`realm, sso`history, sso`failed, sso`attempts
      ensures Following(spec, h0) && Heard(spec, old(sso.failed), sso.failed)
      ensures OnlyUser(old(sso.realm), sso.realm, user.name) && user.name in sso.realm.accounts
      ensures ok ==> sso.realm.accounts[user.name] == spec.Users()[user.name] + sso.realm.auto
      ensures ok == (spec.Users()[user.name] <= old(sso.realm).roles && sso.failed == old(sso.failed))
    {
      ghost var s := sso.realm;
      ok := true;
      for i := 0 to |user.roles|
        invariant Following(spec, h0) && sso.failed == old(sso.failed) && ok
        invariant OnlyUser(s, sso.realm, user.name) && user.name in sso.realm.accounts
        invariant sso.realm.accounts[user.name] == ToSet(user.roles[..i]) + s.auto
        invariant ToSet(user.roles[..i]) <= s.roles
      {
        ghost var h, f := sso.history, sso.failed;
        assert user.roles[i] in ToSet(user.roles);
        ok := CreateUserRealmRole(user.name, user.roles[i]);
        HeardAmong(spec, f, sso.failed, Granting(user.name, user.roles[i], Grant(user.name, user.roles[i])));
        Followed(spec, h0, h, Grant(user.name, user.roles[i]));
        if !ok {
          return;
        }
        ToSetTake(user.roles, i);
      }
      ToSetAll(user.roles);
    }

    /** The realm's users, each with its realm roles. */
    method UsersWithRoles() returns (ok: bool, users: seq<SpecUser>)
      requires sso.Valid() && sso.session
      modifies sso`failed
      ensures ok == (sso.failed == old(sso.failed)) && old(sso.failed) <= sso.failed
      ensures forall k | |old(sso.failed)| <= k < |sso.failed| :: sso.failed[k].ListUsers? || sso.failed[k].GetMappings?
      ensures ok ==> Listed(users) == sso.realm.accounts
    {
      users := [];
      var names;
      ok, names := sso.ListUsers();
      if !ok {
        return;
      }
      ghost var seen: map<string, set<string>> := map[];
      for i := 0 to |names|
        invariant ok && sso.failed == old(sso.failed)
        invariant seen == Listed(users) && seen.Keys == ToSet(names[..i])
        invariant forall u | u in seen :: u in sso.realm.accounts && seen[u] == sso.realm.accounts[u]
      {
        assert names[i] in ToSet(names);
        var roleMappings;
        ok, roleMappings := sso.GetRealmRoleMappings(names[i]);
        if !ok {
          return;
        }
        var user := SpecUser(names[i], roleMappings);
        ListedAppend(users, user);
        users := users + [user];
        seen := seen[user.name := ToSet(user.roles)];
        ToSetTake(names, i);
      }
      ToSetAll(names);
    }

    /** The failure of a deletion is not reported. */
    method ReconcileUser(spec: UserSpec, ghost h0: History, ghost name: string,
                         kcUser: Option<SpecUser>, specUser: Option<SpecUser>)
      returns (ok: bool)
      requires Following(spec, h0) && sso.session && sso.realm.roles == Kept(spec, sso.realm)
      requires Describes(kcUser, name, sso.realm.accounts) && Describes(specUser, name, spec.Users())
      requires kcUser.Some? || specUser.Some?
      modifies sso`realm, sso`history, sso`failed, sso`attempts
      ensures Following(spec, h0) && old(sso.failed) <= sso.failed
      ensures OnlyUser(old(sso.realm), sso.realm, name)
      ensures ok ==>
        AccountOf(sso.realm, name) == Settled(spec, old(sso.realm), {}, name) ||
        (Unwanted(spec, old(sso.realm), name) && sso.realm == old(sso.realm) && sso.failed != old(sso.failed))
      ensures sso.failed != old(sso.failed) && OnlyDropped(spec, old(sso.failed), sso.failed) ==>
        FailedAmong(old(sso.failed), sso.failed, Deletion(name))
      ensures ok && name in spec.Users() ==> name != "" && spec.Users()[name] <= old(sso.realm).roles
      ensures ok ==
        ((name in spec.Users() ==> name != "" && spec.Users()[name] <= old(sso.realm).roles) &&
         OnlyDropped(spec, old(sso.failed), sso.failed))
      ensures AccountOf(old(sso.realm), name) == Settled(spec, old(sso.realm), {}, name) ==>
        sso.realm == old(sso.realm) && sso.attempts == old(sso.attempts)
    {
      ghost var h := sso.history;
      ghost var s := sso.realm;
      if specUser == None {
        if !IsDefaultUser(kcUser.value.name) {
          var _ := DeleteUser(kcUser.value.name);
          Followed(spec, h0, h, Write.DeleteUser(name));
        }
        ok := true;
      } else if kcUser == None {
        assert sso.realm.auto <= Kept(spec, sso.realm);
        ok := CreateUserWithRealmRoles(spec, h0, specUser.value);
      } else {
        assert spec.Users()[name] + {} == spec.Users()[name];
        ok := ReconcileUserRoles(spec, h0, kcUser.value, specUser.value);
      }
    }

    method ReconcileUsers(spec: UserSpec, ghost h0: History) returns (ok: bool, ghost leftover: set<string>)
      requires Following(spec, h0) && sso.session && sso.realm.roles == Kept(spec, sso.realm)
      modifies sso`realm, sso`history, sso`failed, sso`attempts
      ensures Following(spec, h0) && old(sso.failed) <= sso.failed
      ensures ok ==> Certifies(spec, old(sso.realm), sso.realm, leftover)
      ensures |leftover| <= |sso.failed| - |old(sso.failed)|
      ensures ok ==> UsersSatisfiable(spec, old(sso.realm))
      ensures ok == (UsersSatisfiable(spec, old(sso.realm)) && OnlyDropped(spec, old(sso.failed), sso.failed))
      ensures old(sso.realm) == Target(spec, old(sso.realm)) ==>
        sso.realm == old(sso.realm) && sso.attempts == old(sso.attempts)
    {
      ghost var s := sso.realm;
      leftover := {};
      var users;
      ok, users := UsersWithRoles();
      HeardEach(spec, old(sso.failed), sso.failed);
      if !ok {
        return;
      }
      var pairs := PairUsers(users, spec.users);
      ok, leftover := SettleAll(spec, h0, pairs);
    }

    /** The pairs in an arbitrary order. */
    method SettleAll(spec: UserSpec, ghost h0: History, pairs: map<string, UserPair>)
      returns (ok: bool, ghost leftover: set<string>)
      requires Following(spec, h0) && sso.session && sso.realm.roles == Kept(spec, sso.realm)
      requires pairs.Keys == sso.realm.accounts.Keys + spec.Users().Keys
      requires forall u | u in pairs :: Describes(pairs[u].kcUser, u, sso.realm.accounts)
      requires forall u | u in pairs :: Describes(pairs[u].specUser, u, spec.Users())
      modifies sso`realm, sso`history, sso`failed, sso`attempts
      ensures Following(spec, h0) && old(sso.failed) <= sso.failed
      ensures ok ==> Certifies(spec, old(sso.realm), sso.realm, leftover)
      ensures |leftover| <= |sso.failed| - |old(sso.failed)|
      ensures ok == (UsersSatisfiable(spec, old(sso.realm)) && OnlyDropped(spec, old(sso.failed), sso.failed))
      ensures old(sso.realm) == Target(spec, old(sso.realm)) ==>
        sso.realm == old(sso.realm) && sso.attempts == old(sso.attempts)
    {
      ghost var s, f := sso.realm, sso.failed;
      leftover := {};
      ok := true;
      var todo := pairs.Keys;
      while todo != {}
        modifies sso`realm, sso`history, sso`failed, sso`attempts
        invariant todo <= pairs.Keys && ok
        invariant Following(spec, h0) && OnlyDropped(spec, f, sso.failed)
        invariant UsersPartlyDone(spec, s, todo, leftover, sso.realm)
        invariant leftover !! todo && |leftover| <= |sso.failed| - |f|
        invariant forall u | u in spec.Users() && u !in todo :: u != "" && spec.Users()[u] <= s.roles
        invariant s == Target(spec, s) ==> sso.realm == s && sso.attempts == old(sso.attempts)
      {
        var name :| name in todo;
        var pair := pairs[name];
        ok, leftover := SettleOne(spec, h0, s, todo, leftover, f, name, pair.kcUser, pair.specUser);
        if !ok {
          return;
        }
        todo := todo - {name};
      }
      AllUsersDone(spec, s, leftover, sso.realm);
    }

    /** One user settled, of those still to do. */
    method SettleOne(spec: UserSpec, ghost h0: History, ghost s: Realm, ghost todo: set<string>,
                     ghost leftover: set<string>, ghost f: seq<Request>, ghost name: string,
                     kcUser: Option<SpecUser>, specUser: Option<SpecUser>)
      returns (ok: bool, ghost leftover': set<string>)
      requires Following(spec, h0) && sso.session && s.Valid() && s.roles == Kept(spec, s)
      requires OnlyDropped(spec, f, sso.failed) && UsersPartlyDone(spec, s, todo, leftover, sso.realm)
      requires name in todo && leftover !! todo && |leftover| <= |sso.failed| - |f|
      requires Describes(kcUser, name, s.accounts) && Describes(specUser, name, spec.Users())
      requires kcUser.Some? || specUser.Some?
      modifies sso`realm, sso`history, sso`failed, sso`attempts
      ensures Following(spec, h0) && f <= sso.failed && old(sso.failed) <= sso.failed
      ensures ok ==> UsersPartlyDone(spec, s, todo - {name}, leftover', sso.realm)
      ensures leftover' !! todo - {name} && |leftover'| <= |sso.failed| - |f|
      ensures ok ==> (name in spec.Users() ==> name != "" && spec.Users()[name] <= s.roles)
      ensures ok ==
        ((name in spec.Users() ==> name != "" && spec.Users()[name] <= s.roles) && OnlyDropped(spec, f, sso.failed))
      ensures s == Target(spec, s) && old(sso.realm) == s ==> sso.realm == s && sso.attempts == old(sso.attempts)
    {
      ghost var t, g := sso.realm, sso.failed;
      leftover' := leftover;
      SameSettled(spec, s, todo, leftover, t, name);
      assert AccountOf(t, name) == AccountOf(s, name);
      ok := ReconcileUser(spec, h0, name, kcUser, specUser);
      DroppedOn(spec, f, g, sso.failed);
      if ok {
        leftover' := SettleUser(spec, s, todo, leftover, t, name, sso.realm);
      }
    }

    /** One run. Whatever fails, the writes are ones towards the specification;
        a nil error certifies all but the deletion of unwanted users, each of
        which some failure kept alive. */
    method Reconcile(spec: UserSpec) returns (ok: bool, ghost leftover: set<string>)
      requires sso.Valid()
      modifies sso
      ensures Following(spec, old(sso.history)) && old(sso.failed) <= sso.failed
      ensures ok ==> Certifies(spec, old(sso.realm), sso.realm, leftover)
      ensures |leftover| <= |sso.failed| - |old(sso.failed)|
      ensures ok ==> Satisfiable(spec, old(sso.realm))
      ensures ok == (Satisfiable(spec, old(sso.realm)) && OnlyDropped(spec, old(sso.failed), sso.failed))
      ensures ok && sso.failed == old(sso.failed) ==> sso.realm == Outcome(spec, old(sso.realm))
      ensures old(sso.realm) == Target(spec, old(sso.realm)) ==>
        sso.realm == old(sso.realm) && sso.attempts == old(sso.attempts)
    {
      ghost var h0 := sso.history;
      ghost var s := sso.realm;
      leftover := {};
      ok := sso.Login();
      HeardEach(spec, old(sso.failed), sso.failed);
      if !ok {
        return;
      }
      ok := ReconcileRoles(spec, h0);
      if !ok {
        return;
      }
      RolesDoneKeepsOutcome(spec, s);
      ok, leftover := ReconcileUsers(spec, h0);
      if ok {
        RolesDoneCertifies(spec, s, sso.realm, leftover);
        if leftover == {} {
          NobodyLeftOver(spec, s, sso.realm);
        }
      }
    }

    /** One more run, after whatever others since `h0`, each of which may have been
        cut off anywhere. */
    method ReconcileAgain(spec: UserSpec, ghost h0: History) returns (ok: bool)
      requires Following(spec, h0)
      modifies sso
      ensures Following(spec, h0)
      ensures ok == (Satisfiable(spec, h0.Last()) && OnlyDropped(spec, old(sso.failed), sso.failed))
      ensures ok && Quiet(spec, h0.Last()) ==> TargetBut(spec, h0.Last(), sso.realm, old(sso.realm))
      ensures ok && Quiet(spec, h0.Last()) && sso.failed == old(sso.failed) ==> sso.realm == Target(spec, h0.Last())
    {
      ghost var h := sso.history;
      GoalSince(spec, h0, h);
      ghost var leftover;
      ok, leftover := Reconcile(spec);
      FollowingOn(spec, h0, h);
      if ok && Quiet(spec, h0.Last()) {
        CertifiedTarget(spec, h0.Last(), h.Last(), sso.realm, leftover);
      }
    }

    /** The work queue hands a failed request out again: any number of runs,
        each from wherever the one before stopped, and then a last one. */
    method ReconcileUntil(spec: UserSpec, runs: nat) returns (ok: bool)
      requires sso.Valid()
      modifies sso
      ensures Following(spec, old(sso.history))
      ensures ok ==> Satisfiable(spec, old(sso.realm))
      ensures ok && Quiet(spec, old(sso.realm)) ==> MeetsTarget(spec, old(sso.realm), sso.realm)
    {
      ghost var h0 := sso.history;
      for i := 0 to runs
        invariant Following(spec, h0)
      {
        ghost var h := sso.history;
        var _, _ := Reconcile(spec);
        FollowingOn(spec, h0, h);
      }
      ghost var r := sso.realm;
      ok := ReconcileAgain(spec, h0);
    }

    lemma FollowingOn(spec: UserSpec, h0: History, h: History)
      requires Following(spec, h)
      requires h0.Valid() && h.Extends(h0) && AllowedFrom(spec, h, |h0.writes|)
      ensures Following(spec, h0)
    {
    }

    // ------------------------------------------- the defaults, and tearing down

    /** Only protective writes since `h0`. */
    ghost predicate Protecting(h0: History)
      reads sso
    {
      sso.Valid() && h0.Valid() && sso.history.Extends(h0) && ProtectiveFrom(sso.history, |h0.writes|)
    }

    lemma Protected(h0: History, h: History, w: Write)
      requires sso.Valid() && h0.Valid() && h.Valid() && h.Extends(h0) && ProtectiveFrom(h, |h0.writes|)
      requires AtMost(h, sso.history, w) && Protective(w)
      ensures Protecting(h0)
    {
    }

    /** The part of the Accepted phase that fills a new realm. Whatever fails, it
        gives nothing but the defaults. */
    method ProvisionDefaults() returns (ok: bool)
      requires sso.Valid()
      modifies sso
      ensures Protecting(old(sso.history)) && old(sso.failed) <= sso.failed
      ensures ok == (sso.failed == old(sso.failed))
      ensures ok ==> sso.realm == Provisioned(old(sso.realm))
      ensures Between(old(sso.realm), sso.realm, Provisioned(old(sso.realm)))
    {
      ghost var h0, s := sso.history, sso.realm;
      UsersOnlyGrow(s.(roles := s.roles + DefaultRoles()), DEFAULT_USERS, 0);
      ok := sso.Login();
      if !ok {
        return;
      }
      DefaultsAreClosed();
      ok := ProvisionRoles(h0, DEFAULT_ROLES);
      if !ok {
        return;
      }
      ok := ProvisionUsers(h0, DEFAULT_USERS);
    }

    method ProvisionRoles(ghost h0: History, roles: seq<string>) returns (ok: bool)
      requires Protecting(h0) && sso.session && "" !in roles
      modifies sso`realm, sso`history, sso`failed, sso`attempts
      ensures Protecting(h0) && old(sso.failed) <= sso.failed
      ensures ok == (sso.failed == old(sso.failed))
      ensures sso.realm == old(sso.realm).(roles := sso.realm.roles)
      ensures old(sso.realm).roles <= sso.realm.roles <= old(sso.realm).roles + ToSet(roles)
      ensures ok ==> sso.realm.roles == old(sso.realm).roles + ToSet(roles)
    {
      ghost var s := sso.realm;
      ok := true;
      for i := 0 to |roles|
        invariant ok && Protecting(h0) && sso.failed == old(sso.failed)
        invariant sso.realm == s.(roles := s.roles + ToSet(roles[..i]))
      {
        ghost var h := sso.history;
        assert roles[i] in ToSet(roles);
        ok := CreateRole(roles[i]);
        Protected(h0, h, Write.CreateRole(roles[i]));
        ToSetTake(roles, i);
        if !ok {
          return;
        }
      }
      ToSetAll(roles);
    }

    method ProvisionUsers(ghost h0: History, users: seq<SpecUser>) returns (ok: bool)
      requires Protecting(h0) && sso.session
      requires "" !in NamesOf(users) && forall u | u in users :: ToSet(u.roles) <= sso.realm.roles
      modifies sso`realm, sso`history, sso`failed, sso`attempts
      ensures Protecting(h0) && old(sso.failed) <= sso.failed
      ensures ok == (sso.failed == old(sso.failed))
      ensures ok ==> sso.realm == WithUsers(old(sso.realm), users)
      ensures Between(old(sso.realm), sso.realm, WithUsers(old(sso.realm), users))
    {
      ghost var s := sso.realm;
      ok := true;
      for i := 0 to |users|
        invariant ok && Protecting(h0) && sso.failed == old(sso.failed)
        invariant sso.realm == WithUsers(s, users[..i]) && sso.realm.roles == s.roles
      {
        assert users[i] in users && users[i].name in NamesOf(users);
        OneMoreWithUser(s, users, i);
        UsersOnlyGrow(s, users, i);
        UsersOnlyGrow(s, users, i + 1);
        ok := ProvisionUser(h0, users[i]);
        if !ok {
          return;
        }
      }
      UsersOnlyGrow(s, users, 0);
      assert users[..|users|] == users;
    }

    method ProvisionUser(ghost h0: History, user: SpecUser) returns (ok: bool)
      requires Protecting(h0) && sso.session && ToSet(user.roles) <= sso.realm.roles && user.name != ""
      modifies sso`realm, sso`history, sso`failed, sso`attempts
      ensures Protecting(h0) && old(sso.failed) <= sso.failed
      ensures ok == (sso.failed == old(sso.failed))
      ensures ok ==> sso.realm == WithUser(old(sso.realm), user)
      ensures Between(old(sso.realm), sso.realm, WithUser(old(sso.realm), user))
    {
      ghost var h := sso.history;
      ok := CreateUser(user.name);
      Protected(h0, h, Write.CreateUser(user.name));
      if ok {
        ok := ProvisionGrants(h0, user);
      }
    }

    method ProvisionGrants(ghost h0: History, user: SpecUser) returns (ok: bool)
      requires Protecting(h0) && sso.session && ToSet(user.roles) <= sso.realm.roles && user.name in sso.realm.accounts
      modifies sso`realm, sso`history, sso`failed, sso`attempts
      ensures Protecting(h0) && old(sso.failed) <= sso.failed
      ensures ok == (sso.failed == old(sso.failed))
      ensures ok ==> sso.realm == WithUser(old(sso.realm), user)
      ensures Between(old(sso.realm), sso.realm, WithUser(old(sso.realm), user))
    {
      ghost var s := sso.realm;
      ok := true;
      assert s.accounts[user.name] + {} == s.accounts[user.name];
      for j := 0 to |user.roles|
        invariant ok && Protecting(h0) && sso.failed == old(sso.failed)
        invariant OnlyUser(s, sso.realm, user.name) && user.name in sso.realm.accounts
        invariant sso.realm.accounts[user.name] == s.accounts[user.name] + ToSet(user.roles[..j])
      {
        ghost var h := sso.history;
        assert user.roles[j] in ToSet(user.roles);
        ok := CreateUserRealmRole(user.name, user.roles[j]);
        Protected(h0, h, Grant(user.name, user.roles[j]));
        ToSetTake(user.roles, j);
        if !ok {
          SomeGiven(s, sso.realm, user, sso.realm.accounts[user.name] - s.accounts[user.name]);
          return;
        }
      }
      ToSetAll(user.roles);
      SomeGiven(s, sso.realm, user, ToSet(user.roles));
    }

    /** Deletes every user and role that is not a default. A failure to list the
        roles goes unnoticed and leaves them all. */
    method Deprovision() returns (ok: bool)
      requires sso.Valid()
      modifies sso
      ensures Protecting(old(sso.history)) && old(sso.failed) <= sso.failed
      ensures ok == FailedAmong(old(sso.failed), sso.failed, {Request.ListRoles})
      ensures ok && sso.failed == old(sso.failed) ==> sso.realm == Stripped(old(sso.realm))
      ensures ok && sso.failed != old(sso.failed) ==> sso.realm == StrippedUsers(old(sso.realm))
      ensures OnTheWayDown(old(sso.realm), sso.realm)
    {
      ghost var h0, s := sso.history, sso.realm;
      WithOwnRoles(s);
      ok := sso.Login();
      if !ok {
        assert sso.failed[|sso.failed| - 1] == Request.Login;
        return;
      }
      ok := DeleteOtherUsers(h0);
      if !ok {
        return;
      }
      ghost var t := sso.realm;
      ok := DeleteOtherRoles(h0);
      RolesDown(s, t, sso.realm);
    }

    method DeleteOtherUsers(ghost h0: History) returns (ok: bool)
      requires Protecting(h0) && sso.session
      modifies sso`realm, sso`history, sso`failed, sso`attempts
      ensures Protecting(h0) && old(sso.failed) <= sso.failed
      ensures sso.failed != old(sso.failed) ==> !FailedAmong(old(sso.failed), sso.failed, {Request.ListRoles})
      ensures ok == (sso.failed == old(sso.failed))
      ensures ok ==> sso.realm == StrippedUsers(old(sso.realm))
      ensures UsersDown(old(sso.realm), sso.realm)
    {
      ghost var s := sso.realm;
      var users;
      ok, users := sso.ListUsers();
      if !ok {
        assert sso.failed[|sso.failed| - 1] == Request.ListUsers;
        return;
      }
      ghost var gone: set<string> := {};
      assert s.accounts - gone == s.accounts;
      for i := 0 to |users|
        invariant ok && Protecting(h0) && sso.failed == old(sso.failed)
        invariant gone == ToSet(users[..i]) - DefaultUsers()
        invariant sso.realm == s.(accounts := s.accounts - gone)
      {
        assert users[i] in ToSet(users) && users[i] !in ToSet(users[..i]);
        OneMoreGone(users, i, DefaultUsers());
        if !IsDefaultUser(users[i]) {
          ok := DeleteOther(h0, users[i], s, gone);
          if !ok {
            return;
          }
          gone := gone + {users[i]};
        }
      }
      ToSetAll(users);
      Fewer(s, gone);
      assert sso.realm.accounts == StrippedUsers(s).accounts;
    }

    method DeleteOther(ghost h0: History, user: string, ghost s: Realm, ghost gone: set<string>) returns (ok: bool)
      requires Protecting(h0) && sso.session && user !in DefaultUsers() && gone !! DefaultUsers()
      requires sso.realm == s.(accounts := s.accounts - gone) && user in sso.realm.accounts
      modifies sso`realm, sso`history, sso`failed, sso`attempts
      ensures Protecting(h0) && old(sso.failed) <= sso.failed && ok == (sso.failed == old(sso.failed))
      ensures !ok ==> sso.failed[|sso.failed| - 1] == Submit(Write.DeleteUser(user))
      ensures !ok ==> !FailedAmong(old(sso.failed), sso.failed, {Request.ListRoles})
      ensures ok ==> sso.realm == s.(accounts := s.accounts - (gone + {user}))
      ensures UsersDown(s, sso.realm)
    {
      ghost var h := sso.history;
      ok := sso.Send(Write.DeleteUser(user));
      Protected(h0, h, Write.DeleteUser(user));
      assert s.accounts - gone - {user} == s.accounts - (gone + {user});
      Fewer(s, gone);
      Fewer(s, gone + {user});
    }

    method DeleteOtherRoles(ghost h0: History) returns (ok: bool)
      requires Protecting(h0) && sso.session
      modifies sso`realm, sso`history, sso`failed, sso`attempts
      ensures Protecting(h0) && old(sso.failed) <= sso.failed
      ensures ok == FailedAmong(old(sso.failed), sso.failed, {Request.ListRoles})
      ensures sso.realm == WithRoles(old(sso.realm), sso.realm.roles)
      ensures old(sso.realm).roles * DefaultRoles() <= sso.realm.roles <= old(sso.realm).roles
      ensures ok && sso.failed == old(sso.failed) ==> sso.realm.roles == old(sso.realm).roles * DefaultRoles()
      ensures ok && sso.failed != old(sso.failed) ==> sso.realm.roles == old(sso.realm).roles
    {
      ghost var s := sso.realm;
      WithOwnRoles(s);
      var listed, roles := sso.ListRoles();
      ok := true;
      ghost var f := sso.failed;
      ghost var gone: set<string> := {};
      assert s.roles - gone == s.roles;
      for i := 0 to |roles|
        invariant ok && Protecting(h0) && sso.failed == f
        invariant gone == ToSet(roles[..i]) - DefaultRoles()
        invariant sso.realm == WithRoles(s, s.roles - gone)
      {
        ghost var h, t := sso.history, sso.realm;
        assert roles[i] in ToSet(roles) && roles[i] !in ToSet(roles[..i]);
        OneMoreGone(roles, i, DefaultRoles());
        if !IsDefaultRole(roles[i]) {
          ok := sso.Send(Write.DeleteRole(roles[i]));
          Protected(h0, h, Write.DeleteRole(roles[i]));
          if sso.history != h {
            RoleWritesAreWithRoles(t, Write.DeleteRole(roles[i]));
            WithRolesTwice(s, t.roles, t.roles - {roles[i]});
          }
          if !ok {
            assert sso.failed[|f|] == Submit(Write.DeleteRole(roles[i]));
            assert t.roles - {roles[i]} == s.roles - (gone + {roles[i]});
            return;
          }
          assert t.roles - {roles[i]} == s.roles - (gone + {roles[i]});
          gone := gone + {roles[i]};
        }
      }
      ToSetAll(roles);
      assert sso.realm.roles == if listed then s.roles * DefaultRoles() else s.roles;
    }

    // ------------------------------------------------- any calls, in any order

    /** Default protection: any number of these calls, towards any
        specifications, in any order and with any failures, leave every default
        role and user that was there; and once one of them has filled the realm
        with the defaults, all are there for good. */
    method Serve(calls: seq<Call>) returns (filled: bool)
      requires sso.Valid()
      modifies sso
      ensures Protecting(old(sso.history))
      ensures DefaultsKept(old(sso.realm), sso.realm)
      ensures filled ==> DefaultRoles() <= sso.realm.roles && DefaultUsers() <= sso.realm.accounts.Keys
    {
      ghost var h0 := sso.history;
      filled := false;
      for i := 0 to |calls|
        invariant Protecting(h0)
        invariant filled ==> DefaultRoles() <= sso.realm.roles && DefaultUsers() <= sso.realm.accounts.Keys
      {
        ghost var h := sso.history;
        var ok := ServeOne(calls[i]);
        KeptByHistory(h, sso.history);
        ProtectingOn(h0, h);
        filled := filled || (calls[i].FillDefaults? && ok);
      }
      KeptByHistory(h0, sso.history);
    }

    method ServeOne(call: Call) returns (ok: bool)
      requires sso.Valid()
      modifies sso
      ensures Protecting(old(sso.history))
      ensures ok && call.FillDefaults? ==>
        DefaultRoles() <= sso.realm.roles && DefaultUsers() <= sso.realm.accounts.Keys
    {
      ghost var h := sso.history;
      match call
      case FillDefaults =>
        ProvisionedIs(sso.realm);
        ok := ProvisionDefaults();
      case ReconcileTo(spec) =>
        ghost var leftover;
        ok, leftover := Reconcile(spec);
        AllowedFromIsProtective(spec, sso.history, |h.writes|);
      case Remove => ok := Deprovision();
    }

    lemma ProtectingOn(h0: History, h: History)
      requires Protecting(h)
      requires h0.Valid() && h.Extends(h0) && ProtectiveFrom(h, |h0.writes|)
      ensures Protecting(h0)
    {
    }
  }
}
