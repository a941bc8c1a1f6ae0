/** What a RhpamUser specification asks of a realm, and why repeated partial
    reconciliation ends there. */
module Convergence {
  import opened Prelude
  import opened Realms

  datatype UserSpec = UserSpec(roles: seq<string>, users: seq<SpecUser>) {
    function Roles(): set<string> {
      ToSet(roles)
    }

    function Users(): map<string, set<string>> {
      Listed(users)
    }
  }

  /** The roles each listed user shall have; of several entries for one name
      the last one counts. */
  function Listed(users: seq<SpecUser>): map<string, set<string>> {
    if users == [] then map[]
    else
      var last := users[|users| - 1];
      Listed(users[..|users| - 1])[last.name := ToSet(last.roles)]
  }

  lemma {:induction false} ListedLastWins(users: seq<SpecUser>, k: nat)
    requires k < |users|
    requires forall j | k < j < |users| :: users[j].name != users[k].name
    ensures users[k].name in Listed(users)
    ensures Listed(users)[users[k].name] == ToSet(users[k].roles)
  {
    if k < |users| - 1 {
      var front := users[..|users| - 1];
      assert forall j | k < j < |front| :: front[j].name == users[j].name;
      ListedLastWins(front, k);
    }
  }

  lemma ListedTake(users: seq<SpecUser>, i: nat)
    requires i < |users|
    ensures Listed(users[..i + 1]) == Listed(users[..i])[users[i].name := ToSet(users[i].roles)]
  {
    assert users[..i + 1][..i] == users[..i];
  }

  lemma ListedAppend(users: seq<SpecUser>, user: SpecUser)
    ensures Listed(users + [user]) == Listed(users)[user.name := ToSet(user.roles)]
  {
    assert (users + [user])[..|users|] == users;
  }

  lemma {:induction false} ListedOnly(users: seq<SpecUser>, u: string)
    ensures u in Listed(users) <==> exists i :: 0 <= i < |users| && users[i].name == u
  {
    if users != [] {
      var front := users[..|users| - 1];
      ListedOnly(front, u);
      if u in Listed(front) {
        var i :| 0 <= i < |front| && front[i].name == u;
        assert users[i].name == u;
      }
      if i :| 0 <= i < |users| && users[i].name == u && i < |users| - 1 {
        assert front[i].name == u;
      }
    }
  }

  /** The roles a realm holds once it matches the specification. */
  function Kept(spec: UserSpec, s: Realm): set<string> {
    spec.Roles() + (s.roles * DefaultRoles())
  }

  function TargetUsers(spec: UserSpec, s: Realm): set<string> {
    spec.Users().Keys + (s.accounts.Keys * DefaultUsers())
  }

  /** The one realm that reconciliation drives `s` towards: listed users have
      exactly their listed roles, default users that are not listed keep their
      roles as far as these survive. */
  function Target(spec: UserSpec, s: Realm): Realm {
    var kept := Kept(spec, s);
    var listed := spec.Users();
    Realm(
      kept,
      map u | u in TargetUsers(spec, s) :: if u in listed then listed[u] else s.accounts[u] * kept,
      s.auto * kept)
  }

  /** A listed user that is created during the run starts with the surviving
      realm default roles, and nothing in that run takes them away again. */
  function Outcome(spec: UserSpec, s: Realm): Realm {
    var kept := Kept(spec, s);
    var listed := spec.Users();
    Target(spec, s).(accounts :=
      map u | u in TargetUsers(spec, s) ::
        if u !in listed then s.accounts[u] * kept
        else if u in s.accounts then listed[u]
        else listed[u] + s.auto * kept)
  }

  /** The specification can be met: no empty names, and every role given to a
      listed user is a listed role or a default role of the realm. */
  ghost predicate Satisfiable(spec: UserSpec, s: Realm) {
    && "" !in spec.Roles()
    && "" !in spec.Users()
    && forall u | u in spec.Users() :: spec.Users()[u] <= Kept(spec, s)
  }

  /** No listed user still to be created would be given an unlisted role by the server. */
  ghost predicate Quiet(spec: UserSpec, s: Realm) {
    forall u | u in spec.Users() && u !in s.accounts :: s.auto * Kept(spec, s) <= spec.Users()[u]
  }

  /** The writes reconciliation may issue towards `spec` in state `s`. */
  predicate Allowed(spec: UserSpec, s: Realm, w: Write) {
    match w
    case CreateRole(r) => r in spec.Roles()
    case DeleteRole(r) => r !in spec.Roles() && r !in DefaultRoles()
    case CreateUser(u) => u in spec.Users() && s.auto <= Kept(spec, s)
    case DeleteUser(u) => u !in spec.Users() && u !in DefaultUsers()
    case Grant(u, r) => u in spec.Users() && r in spec.Users()[u] && u in s.accounts && r !in s.accounts[u]
    case Revoke(u, r) => u in spec.Users() && r !in spec.Users()[u] && u in s.accounts && r in s.accounts[u]
  }

  ghost predicate AllowedFrom(spec: UserSpec, h: History, n: nat) {
    forall i | n <= i < |h.writes| && i < |h.states| :: Allowed(spec, h.states[i], h.writes[i])
  }

  lemma AllowedIsProtective(spec: UserSpec, s: Realm, w: Write)
    requires Allowed(spec, s, w)
    ensures Protective(w)
  {
  }

  /** One more allowed write keeps a history allowed. */
  lemma AddAllowed(spec: UserSpec, h: History, n: nat, w: Write)
    requires h.Valid() && n <= |h.writes| && AllowedFrom(spec, h, n)
    requires Accepts(h.Last(), w) && Allowed(spec, h.Last(), w)
    ensures AllowedFrom(spec, h.Add(w), n) && h.Add(w).Extends(h)
  {
  }

  lemma WriteKeepsTarget(spec: UserSpec, s: Realm, w: Write)
    requires s.Valid() && Accepts(s, w) && Allowed(spec, s, w)
    ensures Target(spec, Apply(s, w)) == Target(spec, s)
    ensures Quiet(spec, s) ==> Quiet(spec, Apply(s, w))
    ensures Satisfiable(spec, s) <==> Satisfiable(spec, Apply(s, w))
  {
    var t := Apply(s, w);
    assert Kept(spec, t) == Kept(spec, s);
    assert TargetUsers(spec, t) == TargetUsers(spec, s);
    assert t.auto * Kept(spec, t) == s.auto * Kept(spec, s);
    forall u | u in TargetUsers(spec, s) && u !in spec.Users()
      ensures t.accounts[u] * Kept(spec, s) == s.accounts[u] * Kept(spec, s)
    {
    }
    assert Target(spec, t).accounts == Target(spec, s).accounts;
  }

  /** What a step of a history keeps. */
  ghost predicate SameGoal(spec: UserSpec, s: Realm, t: Realm) {
    && Target(spec, t) == Target(spec, s)
    && (Quiet(spec, s) ==> Quiet(spec, t))
    && (Satisfiable(spec, s) <==> Satisfiable(spec, t))
  }

  lemma NextKeepsTarget(spec: UserSpec, h: History, i: nat)
    requires h.Valid() && i < |h.writes| && Allowed(spec, h.states[i], h.writes[i])
    ensures SameGoal(spec, h.states[i], h.states[i + 1])
  {
    HistoryStaysValid(h, i);
    WriteKeepsTarget(spec, h.states[i], h.writes[i]);
  }

  lemma SameGoalOn(spec: UserSpec, s: Realm, t: Realm, u: Realm)
    requires SameGoal(spec, s, t) && SameGoal(spec, t, u)
    ensures SameGoal(spec, s, u)
  {
  }

  lemma TargetKept(spec: UserSpec, h: History, i: nat, j: nat)
    requires h.Valid() && i <= j <= |h.writes|
    requires AllowedFrom(spec, h, i)
    ensures SameGoal(spec, h.states[i], h.states[j])
  {
    var same := (s, t) => SameGoal(spec, s, t);
    forall s, t, u | same(s, t) && same(t, u) ensures same(s, u) {
      SameGoalOn(spec, s, t, u);
    }
    forall k | i <= k < j ensures same(h.states[k], h.states[k + 1]) {
      NextKeepsTarget(spec, h, k);
    }
    Chain(same, h.states, i, j);
  }

  /** One undisturbed run reaches the target exactly when it creates no user
      that the server hands an unlisted role. */
  lemma OutcomeIsTarget(spec: UserSpec, s: Realm)
    requires s.Valid()
    ensures Outcome(spec, s) == Target(spec, s) <==> Quiet(spec, s)
  {
    var a, b := Outcome(spec, s).accounts, Target(spec, s).accounts;
    if Quiet(spec, s) {
      forall u | u in a ensures a[u] == b[u] {
      }
      assert a == b;
    } else {
      var u :| u in spec.Users() && u !in s.accounts && !(s.auto * Kept(spec, s) <= spec.Users()[u]);
      assert a[u] != b[u];
    }
  }

  /** Two undisturbed runs always reach the target, whatever the realm. */
  lemma TwoRunsReachTarget(spec: UserSpec, s: Realm)
    requires s.Valid()
    ensures Outcome(spec, Outcome(spec, s)) == Target(spec, s)
  {
    var t := Outcome(spec, s);
    assert Kept(spec, t) == Kept(spec, s);
    assert TargetUsers(spec, t) == TargetUsers(spec, s);
    assert Outcome(spec, t).accounts == Target(spec, s).accounts;
  }

  /** Retry confluence: `h` is any number of runs towards `spec` that were cut
      off anywhere, each from wherever the one before had stopped. An undisturbed
      run after them produces what an undisturbed run at their start would have. */
  lemma RetryConfluence(spec: UserSpec, h: History, start: nat)
    requires h.Valid() && start <= |h.writes|
    requires AllowedFrom(spec, h, start)
    ensures Outcome(spec, Outcome(spec, h.Last())) == Target(spec, h.states[start])
    ensures Quiet(spec, h.states[start]) ==>
      Outcome(spec, h.Last()) == Outcome(spec, h.states[start]) == Target(spec, h.states[start])
  {
    TargetKept(spec, h, start, |h.writes|);
    HistoryStaysValid(h, start);
    HistoryStaysValid(h, |h.writes|);
    OutcomeIsTarget(spec, h.states[start]);
    OutcomeIsTarget(spec, h.Last());
    TwoRunsReachTarget(spec, h.Last());
  }

  // ------------------------------------------------ what a finished run certifies

  /** `t` is the outcome for `s`, except that the users in `leftover`, whom
      nobody wants, are still there. */
  ghost predicate Certifies(spec: UserSpec, s: Realm, t: Realm, leftover: set<string>) {
    && leftover <= s.accounts.Keys
    && leftover !! spec.Users().Keys
    && leftover !! DefaultUsers()
    && t == WithLeftover(spec, s, leftover)
  }

  ghost function WithLeftover(spec: UserSpec, s: Realm, leftover: set<string>): Realm
    requires leftover <= s.accounts.Keys
  {
    var done := Outcome(spec, s);
    done.(accounts := done.accounts + (map u | u in leftover :: s.accounts[u] * Kept(spec, s)))
  }

  /** The realm once its roles, but not yet its users, have been reconciled. */
  function RolesDone(spec: UserSpec, s: Realm): Realm {
    WithRoles(s, Kept(spec, s))
  }

  /** `s` is `s0` with every role reconciled whose name is not in `todo`. */
  ghost predicate RolesPartlyDone(spec: UserSpec, s0: Realm, todo: set<string>, s: Realm) {
    && s == WithRoles(s0, s.roles)
    && forall r :: r in s.roles <==> r in if r in todo then s0.roles else Kept(spec, s0)
  }

  lemma OneMoreRole(spec: UserSpec, s0: Realm, todo: set<string>, s: Realm, name: string, t: Realm)
    requires s0.Valid() && name in todo && RolesPartlyDone(spec, s0, todo, s)
    requires t.roles - {name} == s.roles - {name} && t == WithRoles(s, t.roles)
    requires name in t.roles <==> name in Kept(spec, s)
    ensures RolesPartlyDone(spec, s0, todo - {name}, t)
  {
    assert name in s.roles <==> name in s0.roles;
    forall r | r != name ensures r in t.roles <==> r in s.roles {
      assert r in t.roles - {name} <==> r in s.roles - {name};
    }
    WithRolesTwice(s0, s.roles, t.roles);
  }

  lemma AllRolesDone(spec: UserSpec, s0: Realm, s: Realm)
    requires RolesPartlyDone(spec, s0, {}, s)
    ensures s == RolesDone(spec, s0)
  {
    assert s.roles == Kept(spec, s0);
  }

  /** Nothing but the account of `u` differs between `s` and `t`. */
  ghost predicate OnlyUser(s: Realm, t: Realm, u: string) {
    && t.roles == s.roles
    && t.auto == s.auto
    && t.accounts - {u} == s.accounts - {u}
  }

  /** `t` is `s` with the grants of `u` turned into `wanted`, apart from the roles in `todo`. */
  ghost predicate GrantsPartlyDone(s: Realm, u: string, wanted: set<string>, todo: set<string>, t: Realm) {
    && OnlyUser(s, t, u)
    && u in s.accounts && u in t.accounts
    && forall r :: r in t.accounts[u] <==> r in if r in todo then s.accounts[u] else wanted
  }

  lemma OneMoreGrant(s: Realm, u: string, wanted: set<string>, todo: set<string>, t: Realm, role: string, t': Realm)
    requires role in todo && GrantsPartlyDone(s, u, wanted, todo, t)
    requires OnlyUser(t, t', u) && u in t'.accounts
    requires t'.accounts[u] - {role} == t.accounts[u] - {role}
    requires role in t'.accounts[u] <==> role in wanted
    ensures GrantsPartlyDone(s, u, wanted, todo - {role}, t')
  {
    forall r | r != role ensures r in t'.accounts[u] <==> r in t.accounts[u] {
      assert r in t'.accounts[u] - {role} <==> r in t.accounts[u] - {role};
    }
  }

  function AccountOf(s: Realm, u: string): Option<set<string>> {
    if u in s.accounts then Some(s.accounts[u]) else None
  }

  /** What becomes of user `u` of `s` if deleting failed for the users in `leftover`. */
  ghost function Settled(spec: UserSpec, s: Realm, leftover: set<string>, u: string): Option<set<string>> {
    if u in spec.Users() then Some(spec.Users()[u] + if u in s.accounts then {} else s.auto)
    else if u in DefaultUsers() || u in leftover then AccountOf(s, u)
    else None
  }

  /** A user of `s` that reconciliation tries to delete. */
  predicate Unwanted(spec: UserSpec, s: Realm, u: string) {
    u in s.accounts && u !in spec.Users() && u !in DefaultUsers()
  }

  /** `t` is `s` with every user reconciled whose name is not in `todo`. */
  ghost predicate UsersPartlyDone(spec: UserSpec, s: Realm, todo: set<string>, leftover: set<string>, t: Realm) {
    && t.roles == s.roles
    && t.auto == s.auto
    && leftover <= s.accounts.Keys
    && leftover !! spec.Users().Keys
    && leftover !! DefaultUsers()
    && forall u :: AccountOf(t, u) == if u in todo then AccountOf(s, u) else Settled(spec, s, leftover, u)
  }

  /** The users' half of `Satisfiable`. */
  ghost predicate UsersSatisfiable(spec: UserSpec, s: Realm) {
    && "" !in spec.Users()
    && forall u | u in spec.Users() :: spec.Users()[u] <= Kept(spec, s)
  }

  /** A user still to be reconciled settles as it would have at the start, and
      at the target it has settled already. */
  lemma SameSettled(spec: UserSpec, s: Realm, todo: set<string>, leftover: set<string>, t: Realm, u: string)
    requires s.Valid() && s.roles == Kept(spec, s)
    requires u in todo && u !in leftover && UsersPartlyDone(spec, s, todo, leftover, t)
    ensures AccountOf(t, u) == AccountOf(s, u)
    ensures Kept(spec, t) == t.roles
    ensures Settled(spec, t, {}, u) == Settled(spec, s, {}, u) == Settled(spec, s, leftover, u)
    ensures s == Target(spec, s) ==> AccountOf(s, u) == Settled(spec, s, {}, u)
  {
    if s == Target(spec, s) && u in spec.Users() {
      assert spec.Users()[u] + {} == spec.Users()[u];
    }
  }

  lemma OneMoreUser(spec: UserSpec, s: Realm, todo: set<string>, leftover: set<string>, t: Realm,
                    u: string, leftover': set<string>, t': Realm)
    requires u in todo && UsersPartlyDone(spec, s, todo, leftover, t)
    requires OnlyUser(t, t', u)
    requires leftover' <= s.accounts.Keys && leftover' !! spec.Users().Keys && leftover' !! DefaultUsers()
    requires leftover' - {u} == leftover - {u}
    requires AccountOf(t', u) == Settled(spec, s, leftover', u)
    ensures UsersPartlyDone(spec, s, todo - {u}, leftover', t')
  {
    forall v | v != u ensures AccountOf(t', v) == AccountOf(t, v) {
      assert v in t'.accounts - {u} <==> v in t.accounts - {u};
    }
    forall v | v != u ensures v in leftover' <==> v in leftover {
      assert v in leftover' - {u} <==> v in leftover - {u};
    }
  }

  /** Reconciling `u` took the realm from `t` to `t'`; if it did not settle
      `u`, an unwanted user joins those left over. */
  lemma SettleUser(spec: UserSpec, s: Realm, todo: set<string>, leftover: set<string>, t: Realm,
                   u: string, t': Realm) returns (leftover': set<string>)
    requires s.Valid() && s.roles == Kept(spec, s)
    requires u in todo && u !in leftover && UsersPartlyDone(spec, s, todo, leftover, t)
    requires OnlyUser(t, t', u)
    requires AccountOf(t', u) == Settled(spec, t, {}, u) || (Unwanted(spec, t, u) && t' == t)
    ensures UsersPartlyDone(spec, s, todo - {u}, leftover', t')
    ensures leftover' == leftover || (leftover' == leftover + {u} && t' == t && AccountOf(t, u) != Settled(spec, t, {}, u))
  {
    SameSettled(spec, s, todo, leftover, t, u);
    leftover' := if AccountOf(t', u) == Settled(spec, t, {}, u) then leftover else leftover + {u};
    if leftover' != leftover {
      assert u in s.accounts by {
        assert AccountOf(t, u) == AccountOf(s, u);
      }
    }
    OneMoreUser(spec, s, todo, leftover, t, u, leftover', t');
  }

  lemma AllUsersDone(spec: UserSpec, s: Realm, leftover: set<string>, t: Realm)
    requires s.Valid() && s.roles == Kept(spec, s)
    requires UsersPartlyDone(spec, s, {}, leftover, t)
    ensures Certifies(spec, s, t, leftover)
  {
    var goal := WithLeftover(spec, s, leftover);
    forall u ensures AccountOf(t, u) == AccountOf(goal, u) {
      SettledInGoal(spec, s, leftover, u);
      assert AccountOf(t, u) == Settled(spec, s, leftover, u);
    }
    SameAccounts(t, goal);
  }

  lemma SettledInGoal(spec: UserSpec, s: Realm, leftover: set<string>, u: string)
    requires s.Valid() && s.roles == Kept(spec, s)
    requires leftover <= s.accounts.Keys && leftover !! spec.Users().Keys && leftover !! DefaultUsers()
    ensures AccountOf(WithLeftover(spec, s, leftover), u) == Settled(spec, s, leftover, u)
  {
    assert s.auto * Kept(spec, s) == s.auto;
    if u in s.accounts {
      assert s.accounts[u] * Kept(spec, s) == s.accounts[u];
      if u in spec.Users() {
        assert spec.Users()[u] + {} == spec.Users()[u];
      }
    }
  }

  lemma SameAccounts(s: Realm, t: Realm)
    requires forall u :: AccountOf(s, u) == AccountOf(t, u)
    ensures s.accounts == t.accounts
  {
    forall u ensures u in s.accounts <==> u in t.accounts {
      assert AccountOf(s, u) == AccountOf(t, u);
    }
    forall u | u in s.accounts ensures s.accounts[u] == t.accounts[u] {
      assert AccountOf(s, u) == AccountOf(t, u);
    }
  }

  lemma RolesDoneKeepsOutcome(spec: UserSpec, s: Realm)
    ensures Kept(spec, RolesDone(spec, s)) == Kept(spec, s)
    ensures Outcome(spec, RolesDone(spec, s)) == Outcome(spec, s)
  {
    var t := RolesDone(spec, s);
    assert Kept(spec, t) == Kept(spec, s);
    assert TargetUsers(spec, t) == TargetUsers(spec, s);
    assert Outcome(spec, t).accounts == Outcome(spec, s).accounts;
  }

  lemma RolesDoneCertifies(spec: UserSpec, s: Realm, t: Realm, leftover: set<string>)
    requires Certifies(spec, RolesDone(spec, s), t, leftover)
    ensures Certifies(spec, s, t, leftover)
  {
    var r := RolesDone(spec, s);
    RolesDoneKeepsOutcome(spec, s);
    var a := map u | u in leftover :: r.accounts[u] * Kept(spec, r);
    var b := map u | u in leftover :: s.accounts[u] * Kept(spec, s);
    assert a == b;
  }

  lemma NobodyLeftOver(spec: UserSpec, s: Realm, t: Realm)
    requires Certifies(spec, s, t, {})
    ensures t == Outcome(spec, s)
  {
    assert t.accounts == Outcome(spec, s).accounts;
  }

  /** What a nil error means, failures or not: the roles are exactly the listed
      and the default ones, every listed user exists with all its roles and,
      unless the server added some of its own, no others; whoever else is there
      is a default user or a user whose deletion failed. */
  lemma NilErrorCertifies(spec: UserSpec, s: Realm, t: Realm, leftover: set<string>)
    requires s.Valid() && Certifies(spec, s, t, leftover)
    ensures t.roles == spec.Roles() + (s.roles * DefaultRoles())
    ensures forall u | u in spec.Users() :: u in t.accounts && spec.Users()[u] <= t.accounts[u]
    ensures Quiet(spec, s) ==> forall u | u in spec.Users() :: t.accounts[u] == spec.Users()[u]
    ensures forall u | u in t.accounts && u !in spec.Users() ::
      u in s.accounts && t.accounts[u] == s.accounts[u] * t.roles && (u in DefaultUsers() || u in leftover)
    ensures forall u | u in s.accounts && u in DefaultUsers() :: u in t.accounts
    ensures t == Outcome(spec, s) <==> leftover == {}
  {
    if leftover == {} {
      assert t.accounts == Outcome(spec, s).accounts;
    } else {
      var u :| u in leftover;
      assert u in t.accounts && u !in Outcome(spec, s).accounts;
    }
  }

  /** One run need not be enough: the server hands the new user the listed role
      that happens to be a default role of the realm. */
  lemma OneRunMayFallShort()
    ensures
      var spec := UserSpec(["offline_access"], [SpecUser("user1", [])]);
      var s := Realm({"offline_access"}, map[], {"offline_access"});
      s.Valid() && Satisfiable(spec, s) && Outcome(spec, s) != Target(spec, s)
  {
    var spec := UserSpec(["offline_access"], [SpecUser("user1", [])]);
    var s := Realm({"offline_access"}, map[], {"offline_access"});
    assert spec.users[..0] == [] && ToSet<string>([]) == {};
    assert spec.roles[0] == "offline_access";
    assert spec.Users() == map["user1" := {}];
    assert spec.Roles() == {"offline_access"};
    assert "offline_access" in s.auto * Kept(spec, s) && !(s.auto * Kept(spec, s) <= spec.Users()["user1"]);
    OutcomeIsTarget(spec, s);
  }

  lemma AllowedFromIsProtective(spec: UserSpec, h: History, n: nat)
    requires h.Valid() && AllowedFrom(spec, h, n)
    ensures ProtectiveFrom(h, n)
  {
    forall i | n <= i < |h.writes| ensures Protective(h.writes[i]) {
      AllowedIsProtective(spec, h.states[i], h.writes[i]);
    }
  }

  /** At the target there is nothing left that a run could do. */
  lemma NothingAllowedAtTarget(spec: UserSpec, s: Realm, w: Write)
    requires s.Valid() && s == Target(spec, s)
    ensures !(Accepts(s, w) && Allowed(spec, s, w))
  {
  }

  /** Where a history of allowed writes leads is still headed for the same target. */
  lemma GoalSince(spec: UserSpec, h0: History, h: History)
    requires h0.Valid() && h.Valid() && h.Extends(h0) && AllowedFrom(spec, h, |h0.writes|)
    ensures h0.Last().Valid() && h.Last().Valid() && SameGoal(spec, h0.Last(), h.Last())
    ensures Quiet(spec, h0.Last()) ==> Outcome(spec, h.Last()) == Target(spec, h0.Last())
  {
    assert h.states[|h0.writes|] == h0.states[|h0.writes|];
    HistoryStaysValid(h0, |h0.writes|);
    HistoryStaysValid(h, |h.writes|);
    TargetKept(spec, h, |h0.writes|, |h.writes|);
    OutcomeIsTarget(spec, h.Last());
  }

  /** The target of `s`, except that users nobody wants may still be there. */
  ghost predicate MeetsTarget(spec: UserSpec, s: Realm, t: Realm) {
    var goal := Target(spec, s);
    && t.roles == goal.roles && t.auto == goal.auto
    && (forall u | u in goal.accounts :: u in t.accounts && t.accounts[u] == goal.accounts[u])
    && forall u | u in t.accounts && u !in goal.accounts :: u !in spec.Users() && u !in DefaultUsers()
  }

  /** Success of a run from `r`, to which others have led from `s`, certifies the
      target of `s`; whoever else is there was there in `r`. */
  lemma CertifiedTarget(spec: UserSpec, s: Realm, r: Realm, t: Realm, leftover: set<string>)
    requires SameGoal(spec, s, r) && s.Valid() && r.Valid() && Quiet(spec, s) && Certifies(spec, r, t, leftover)
    ensures TargetBut(spec, s, t, r)
  {
    OutcomeIsTarget(spec, r);
  }

  ghost predicate TargetBut(spec: UserSpec, s: Realm, t: Realm, r: Realm) {
    MeetsTarget(spec, s, t) && forall u | u in t.accounts && u !in Target(spec, s).accounts :: u in r.accounts
  }

  // ---------------------------------------------------------------- progress

  function Facts(s: Realm): (fs: set<Fact>)
    ensures forall f :: f in fs <==> Holds(f, s)
  {
    (set r | r in s.roles :: RoleFact(r)) +
    (set u | u in s.accounts :: UserFact(u)) +
    (set u, r | u in s.accounts && r in s.accounts[u] :: GrantFact(u, r))
  }

  function Differences(s: Realm, t: Realm): (fs: set<Fact>)
    ensures forall f :: f in fs <==> Holds(f, s) != Holds(f, t)
  {
    (Facts(s) - Facts(t)) + (Facts(t) - Facts(s))
  }

  /** How many roles, users and grants differ from the target. */
  function Distance(spec: UserSpec, s: Realm): nat {
    |Differences(s, Target(spec, s))|
  }

  /** A role that the server will hand a listed user on its creation, unasked. */
  predicate Looms(spec: UserSpec, s: Realm, f: Fact) {
    && f.GrantFact? && f.user in spec.Users() && f.user !in s.accounts
    && f.role in s.auto * Kept(spec, s) && f.role !in spec.Users()[f.user]
  }

  function Looming(spec: UserSpec, s: Realm): (fs: set<Fact>)
    ensures forall f :: f in fs <==> Looms(spec, s, f)
  {
    set u, r | u in spec.Users() && r in s.auto && Looms(spec, s, GrantFact(u, r)) :: GrantFact(u, r)
  }

  /** Everything that still has to change, or will change and have to be changed back. */
  function Ahead(spec: UserSpec, s: Realm): set<Fact> {
    Differences(s, Target(spec, s)) + Looming(spec, s)
  }

  function Remaining(spec: UserSpec, s: Realm): nat {
    |Ahead(spec, s)|
  }

  lemma AheadCounted(spec: UserSpec, s: Realm)
    ensures Remaining(spec, s) == Distance(spec, s) + |Looming(spec, s)|
    ensures Quiet(spec, s) <==> Looming(spec, s) == {}
  {
    forall f | Looms(spec, s, f) ensures f !in Differences(s, Target(spec, s)) {
    }
    if !Quiet(spec, s) {
      var u :| u in spec.Users() && u !in s.accounts && !(s.auto * Kept(spec, s) <= spec.Users()[u]);
      var r :| r in s.auto * Kept(spec, s) && r !in spec.Users()[u];
      assert GrantFact(u, r) in Looming(spec, s);
    }
  }

  /** Whatever a write changes, it changes to what the target has, the roles that
      loomed excepted. */
  lemma WriteMovesTowardsTarget(spec: UserSpec, s: Realm, w: Write, f: Fact)
    requires s.Valid() && Satisfiable(spec, s)
    requires Accepts(s, w) && Allowed(spec, s, w)
    requires Holds(f, Apply(s, w)) != Holds(f, s)
    ensures Holds(f, Apply(s, w)) == Holds(f, Target(spec, s)) <==> !Looms(spec, s, f)
  {
    var goal := Target(spec, s);
    match w {
      case CreateRole(r) =>
      case DeleteRole(r) =>
        assert r !in Kept(spec, s);
        if f.GrantFact? && f.user in goal.accounts {
          assert goal.accounts[f.user] <= Kept(spec, s);
        }
      case CreateUser(u) =>
        assert s.auto * Kept(spec, s) == s.auto;
      case DeleteUser(u) =>
      case Grant(u, r) =>
      case Revoke(u, r) =>
    }
  }

  lemma SubjectMoves(spec: UserSpec, s: Realm, w: Write)
    requires s.Valid() && Accepts(s, w) && Allowed(spec, s, w)
    ensures Holds(Subject(w), Apply(s, w)) != Holds(Subject(w), s)
    ensures !Looms(spec, s, Subject(w)) && !Looms(spec, Apply(s, w), Subject(w))
  {
  }

  lemma NothingNewLooms(spec: UserSpec, s: Realm, w: Write, f: Fact)
    requires s.Valid() && Accepts(s, w) && Allowed(spec, s, w) && Looms(spec, Apply(s, w), f)
    ensures Looms(spec, s, f)
  {
  }

  /** Each write takes something from what lies ahead and adds nothing. */
  lemma WriteReducesAhead(spec: UserSpec, s: Realm, w: Write)
    requires s.Valid() && Satisfiable(spec, s) && Accepts(s, w) && Allowed(spec, s, w)
    ensures Ahead(spec, Apply(s, w)) < Ahead(spec, s)
    ensures Remaining(spec, Apply(s, w)) < Remaining(spec, s)
  {
    var t := Apply(s, w);
    WriteKeepsTarget(spec, s, w);
    SubjectMoves(spec, s, w);
    WriteMovesTowardsTarget(spec, s, w, Subject(w));
    forall f | f in Ahead(spec, t) ensures f in Ahead(spec, s) {
      if Looms(spec, t, f) {
        NothingNewLooms(spec, s, w, f);
      } else if Holds(f, t) != Holds(f, s) {
        WriteMovesTowardsTarget(spec, s, w, f);
      }
    }
    SmallerSet(Ahead(spec, t), Ahead(spec, s), Subject(w));
  }

  lemma WriteReducesDistance(spec: UserSpec, s: Realm, w: Write)
    requires s.Valid() && Satisfiable(spec, s) && Quiet(spec, s)
    requires Accepts(s, w) && Allowed(spec, s, w)
    ensures Distance(spec, Apply(s, w)) < Distance(spec, s)
  {
    WriteKeepsTarget(spec, s, w);
    WriteReducesAhead(spec, s, w);
    AheadCounted(spec, s);
    AheadCounted(spec, Apply(s, w));
  }

  lemma NextIsCloser(spec: UserSpec, h: History, i: nat, k: nat)
    requires h.Valid() && i <= k < |h.writes|
    requires AllowedFrom(spec, h, i) && Satisfiable(spec, h.states[i])
    ensures Remaining(spec, h.states[k + 1]) < Remaining(spec, h.states[k])
  {
    TargetKept(spec, h, i, k);
    HistoryStaysValid(h, k);
    WriteReducesAhead(spec, h.states[k], h.writes[k]);
  }

  /** Every realm from the `i`-th on has less ahead of it than the one before. */
  ghost predicate EverCloser(spec: UserSpec, states: seq<Realm>, i: nat) {
    forall k | i <= k < |states| - 1 :: Remaining(spec, states[k + 1]) < Remaining(spec, states[k])
  }

  lemma {:induction false} Telescope(spec: UserSpec, states: seq<Realm>, i: nat)
    requires i < |states| && EverCloser(spec, states, i)
    ensures Remaining(spec, states[|states| - 1]) + (|states| - 1 - i) <= Remaining(spec, states[i])
    decreases |states| - i
  {
    if i < |states| - 1 {
      Telescope(spec, states, i + 1);
    }
  }

  lemma HistoryEverCloser(spec: UserSpec, h: History, i: nat)
    requires h.Valid() && i <= |h.writes|
    requires AllowedFrom(spec, h, i) && Satisfiable(spec, h.states[i])
    ensures EverCloser(spec, h.states, i)
  {
    forall k | i <= k < |h.states| - 1
      ensures Remaining(spec, h.states[k + 1]) < Remaining(spec, h.states[k])
    {
      NextIsCloser(spec, h, i, k);
    }
  }

  /** A run, however often it is cut off and retried, has at most as many writes
      that take effect as there were differences at its start, and one more for
      each role that loomed. */
  lemma WritesBounded(spec: UserSpec, h: History, i: nat)
    requires h.Valid() && i <= |h.writes|
    requires AllowedFrom(spec, h, i) && Satisfiable(spec, h.states[i])
    ensures
      Distance(spec, h.Last()) + |Looming(spec, h.Last())| + (|h.writes| - i) <=
      Distance(spec, h.states[i]) + |Looming(spec, h.states[i])|
    ensures Quiet(spec, h.states[i]) ==> Distance(spec, h.Last()) + (|h.writes| - i) <= Distance(spec, h.states[i])
  {
    HistoryEverCloser(spec, h, i);
    Telescope(spec, h.states, i);
    AheadCounted(spec, h.states[i]);
    AheadCounted(spec, h.Last());
  }

  lemma DistanceZeroAtTarget(spec: UserSpec, s: Realm)
    requires s.Valid()
    ensures s == Target(spec, s) <==> Distance(spec, s) == 0 && s.auto <= Kept(spec, s)
  {
    var t := Target(spec, s);
    if s == t {
      assert Differences(s, t) == {};
    }
    if Distance(spec, s) == 0 && s.auto <= Kept(spec, s) {
      assert Differences(s, t) == {};
      SameFactsSameRealm(s, t);
    }
  }

  lemma SameFactsSameRealm(s: Realm, t: Realm)
    requires Differences(s, t) == {}
    ensures s.roles == t.roles && s.accounts == t.accounts
  {
    forall f ensures Holds(f, s) == Holds(f, t) {
      assert f !in Differences(s, t);
    }
    forall r ensures r in s.roles <==> r in t.roles {
      assert Holds(RoleFact(r), s) == Holds(RoleFact(r), t);
    }
    forall u ensures u in s.accounts <==> u in t.accounts {
      assert Holds(UserFact(u), s) == Holds(UserFact(u), t);
    }
    forall u, r | u in s.accounts ensures r in s.accounts[u] <==> r in t.accounts[u] {
      assert Holds(GrantFact(u, r), s) == Holds(GrantFact(u, r), t);
    }
    assert forall u | u in s.accounts :: s.accounts[u] == t.accounts[u];
  }
}
