/** A Keycloak realm as the operator sees it: realm roles, users, and the realm
    roles granted to each user, with the write requests the operator issues. */
module Realms {
  import opened Prelude

  datatype SpecUser = SpecUser(name: string, roles: seq<string>)

  /** The roles and users that every provisioned realm starts from and that
      reconciliation must never take away. */
  const DEFAULT_ROLES: seq<string> :=
    ["admin", "process-admin", "manager", "analyst", "developer", "user", "kie-server"]

  const DEFAULT_USERS: seq<SpecUser> :=
    [ SpecUser("adminuser", ["admin", "kie-server"]),
      SpecUser("controlleruser", ["kie-server"]),
      SpecUser("mavenuser", []),
      SpecUser("executionuser", ["kie-server"]) ]

  function DefaultRoles(): set<string> {
    ToSet(DEFAULT_ROLES)
  }

  function NamesOf(users: seq<SpecUser>): set<string> {
    set u | u in users :: u.name
  }

  function DefaultUsers(): set<string> {
    NamesOf(DEFAULT_USERS)
  }

  lemma DefaultsAreClosed()
    ensures "" !in DefaultRoles() && "" !in DefaultUsers()
    ensures forall u | u in DEFAULT_USERS :: ToSet(u.roles) <= DefaultRoles()
  {
    forall u | u in DEFAULT_USERS ensures ToSet(u.roles) <= DefaultRoles() {
      assert "admin" == DEFAULT_ROLES[0] && "kie-server" == DEFAULT_ROLES[6];
    }
  }

  /** `auto` holds the realm's own default roles, which the server grants to
      every user it creates. A user is identified by its name. */
  datatype Realm = Realm(roles: set<string>, accounts: map<string, set<string>>, auto: set<string>) {
    ghost predicate Valid() {
      && "" !in roles
      && "" !in accounts
      && auto <= roles
      && forall u | u in accounts :: accounts[u] <= roles
    }
  }

  datatype Write =
    | CreateRole(role: string)
    | DeleteRole(role: string)
    | CreateUser(user: string)
    | DeleteUser(user: string)
    | Grant(user: string, role: string)
    | Revoke(user: string, role: string)

  /** The server answers a request it does not accept with an error status and
      leaves the realm alone. */
  predicate Accepts(s: Realm, w: Write) {
    match w
    case CreateRole(r) => r != "" && r !in s.roles
    case DeleteRole(r) => r in s.roles
    case CreateUser(u) => u != "" && u !in s.accounts
    case DeleteUser(u) => u in s.accounts
    case Grant(u, r) => u in s.accounts && r in s.roles
    case Revoke(u, r) => u in s.accounts && r in s.roles
  }

  /** The grants that remain when only the roles in `roles` remain. */
  function Restrict(accounts: map<string, set<string>>, roles: set<string>): map<string, set<string>> {
    map u | u in accounts :: accounts[u] * roles
  }

  function Apply(s: Realm, w: Write): (t: Realm)
    requires Accepts(s, w)
    ensures s.Valid() ==> t.Valid()
  {
    match w
    case CreateRole(r) => s.(roles := s.roles + {r})
    case DeleteRole(r) =>
      Realm(s.roles - {r}, Restrict(s.accounts, s.roles - {r}), s.auto - {r})
    case CreateUser(u) => s.(accounts := s.accounts[u := s.auto])
    case DeleteUser(u) => s.(accounts := s.accounts - {u})
    case Grant(u, r) => s.(accounts := s.accounts[u := s.accounts[u] + {r}])
    case Revoke(u, r) => s.(accounts := s.accounts[u := s.accounts[u] - {r}])
  }

  /** The realm with just the roles in `roles`, new ones granted to nobody. */
  function WithRoles(s: Realm, roles: set<string>): Realm {
    Realm(roles, Restrict(s.accounts, roles), s.auto * roles)
  }

  lemma WithOwnRoles(s: Realm)
    requires s.Valid()
    ensures WithRoles(s, s.roles) == s
  {
    forall u | u in s.accounts ensures s.accounts[u] * s.roles == s.accounts[u] {
    }
    assert WithRoles(s, s.roles).accounts == s.accounts;
  }

  lemma WithRolesTwice(s: Realm, a: set<string>, b: set<string>)
    requires s.Valid() && s.roles * b <= a
    ensures WithRoles(WithRoles(s, a), b) == WithRoles(s, b)
  {
    var t, u := WithRoles(WithRoles(s, a), b), WithRoles(s, b);
    forall v | v in s.accounts ensures t.accounts[v] == u.accounts[v] {
      assert s.accounts[v] <= s.roles;
    }
    assert t.accounts == u.accounts;
  }

  lemma RoleWritesAreWithRoles(s: Realm, w: Write)
    requires s.Valid() && Accepts(s, w)
    ensures w.CreateRole? ==> Apply(s, w) == WithRoles(s, s.roles + {w.role})
    ensures w.DeleteRole? ==> Apply(s, w) == WithRoles(s, s.roles - {w.role})
  {
    if w.CreateRole? {
      forall u | u in s.accounts ensures s.accounts[u] * (s.roles + {w.role}) == s.accounts[u] {
      }
      assert WithRoles(s, s.roles + {w.role}).accounts == s.accounts;
    }
  }

  /** The realm with nothing but defaults left. */
  function Stripped(s: Realm): Realm {
    var kept := s.roles * DefaultRoles();
    Realm(kept, map u | u in s.accounts && u in DefaultUsers() :: s.accounts[u] * kept, s.auto * kept)
  }

  /** One thing a realm may hold. */
  datatype Fact = RoleFact(role: string) | UserFact(user: string) | GrantFact(user: string, role: string)

  predicate Holds(f: Fact, s: Realm) {
    match f
    case RoleFact(r) => r in s.roles
    case UserFact(u) => u in s.accounts
    case GrantFact(u, r) => u in s.accounts && r in s.accounts[u]
  }

  function Subject(w: Write): Fact {
    match w
    case CreateRole(r) => RoleFact(r)
    case DeleteRole(r) => RoleFact(r)
    case CreateUser(u) => UserFact(u)
    case DeleteUser(u) => UserFact(u)
    case Grant(u, r) => GrantFact(u, r)
    case Revoke(u, r) => GrantFact(u, r)
  }

  /** Every realm state a sequence of accepted writes went through. */
  datatype History = History(states: seq<Realm>, writes: seq<Write>) {
    ghost predicate Valid() {
      && |states| == |writes| + 1
      && states[0].Valid()
      && forall i | 0 <= i < |writes| :: Accepts(states[i], writes[i]) && states[i + 1] == Apply(states[i], writes[i])
    }

    function Last(): Realm
      requires |states| == |writes| + 1
    {
      states[|writes|]
    }

    function Add(w: Write): (h: History)
      requires |states| == |writes| + 1 && Accepts(Last(), w)
      ensures Valid() ==> h.Valid()
    {
      History(states + [Apply(Last(), w)], writes + [w])
    }

    ghost predicate Extends(h: History) {
      h.states <= states && h.writes <= writes
    }
  }

  lemma {:induction false} HistoryStaysValid(h: History, i: nat)
    requires h.Valid() && i <= |h.writes|
    ensures h.states[i].Valid()
  {
    if i > 0 {
      HistoryStaysValid(h, i - 1);
    }
  }

  /** A write that takes away neither a default role nor a default user. */
  predicate Protective(w: Write) {
    && (w.DeleteRole? ==> w.role !in DefaultRoles())
    && (w.DeleteUser? ==> w.user !in DefaultUsers())
  }

  ghost predicate ProtectiveFrom(h: History, n: nat) {
    forall i | n <= i < |h.writes| :: Protective(h.writes[i])
  }

  /** Default protection: whoever issued the writes, in whatever order and
      towards whatever specification, a default role or user that was there
      stays there. */
  lemma {:induction false} DefaultsSurvive(h: History, i: nat, j: nat)
    requires h.Valid() && i <= j <= |h.writes|
    requires ProtectiveFrom(h, i)
    ensures h.states[i].roles * DefaultRoles() <= h.states[j].roles
    ensures h.states[i].accounts.Keys * DefaultUsers() <= h.states[j].accounts.Keys
  {
    if i < j {
      DefaultsSurvive(h, i, j - 1);
      assert Protective(h.writes[j - 1]);
      assert h.states[j] == Apply(h.states[j - 1], h.writes[j - 1]);
    }
  }
}
