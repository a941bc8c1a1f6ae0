/** The phase handler's writes to one realm, replayed in the protocol. */
module RealmReplay {
  import opened ApiServer
  import opened Convergence
  import opened Protocol
  import opened Realms
  import opened Prelude
  import opened UserController
  import opened UserPhaseHandler

  /** A reconcile of a RhpamUser may write to `realm`, which looks like `r`. */
  ghost predicate WorksOn(s: State, realm: string, r: Realm) {
    WritesTo(s.user, realm) && realm in s.realms && s.realms[realm] == r
  }

  /** Only the realm, and what the reconcile knows of it, has changed. */
  ghost predicate OnlyWork(s: State, t: State, realm: string) {
    OnlyIn(s, t, realm) && SameFilling(s.user, t.user)
  }

  lemma WriteReplays(run: seq<State>, realm: string, w: Write) returns (longer: seq<State>)
    requires IsRun(run) && WritesTo(Last(run).user, realm) && realm in Last(run).realms
    requires Accepts(Last(run).realms[realm], w) && Protective(w)
    ensures IsRun(longer) && run <= longer
    ensures OnlyWork(Last(run), Last(longer), realm)
    ensures WorksOn(Last(longer), realm, Apply(Last(run).realms[realm], w))
  {
    RunGoesOn(run, OfUser(UserWrite(w)));
    longer := run + [Do(Last(run), OfUser(UserWrite(w)))];
  }

  /** The writes of a history, if protective, can be made one after the other by
      a reconcile in the protocol, which leaves the realm as the history does. */
  lemma {:induction false} HistoryReplays(run: seq<State>, realm: string, h: History, n: nat, k: nat)
    returns (longer: seq<State>)
    requires IsRun(run) && h.Valid() && n <= k <= |h.writes| && ProtectiveFrom(h, n)
    requires WorksOn(Last(run), realm, h.states[n])
    ensures IsRun(longer) && run <= longer
    ensures OnlyWork(Last(run), Last(longer), realm) && WorksOn(Last(longer), realm, h.states[k])
    decreases k
  {
    if k == n {
      longer := run;
    } else {
      var shorter := HistoryReplays(run, realm, h, n, k - 1);
      assert Protective(h.writes[k - 1]) && Accepts(h.states[k - 1], h.writes[k - 1]);
      longer := WriteReplays(shorter, realm, h.writes[k - 1]);
    }
  }

  /** So whatever a reconcile towards any specification does to its realm, with
      whatever failures, is a part of a run of the protocol. */
  lemma ReconcileReplays(run: seq<State>, realm: string, spec: UserSpec, h: History, n: nat)
    returns (longer: seq<State>)
    requires IsRun(run) && h.Valid() && n <= |h.writes| && AllowedFrom(spec, h, n)
    requires WorksOn(Last(run), realm, h.states[n])
    ensures IsRun(longer) && run <= longer
    ensures OnlyWork(Last(run), Last(longer), realm) && WorksOn(Last(longer), realm, h.Last())
  {
    AllowedFromIsProtective(spec, h, n);
    longer := HistoryReplays(run, realm, h, n, |h.writes|);
  }

  // ------------------------------------------------------------ filling a realm

  /** A history that goes on from `h`, from the same realm and with protective writes. */
  ghost predicate GoesOnFrom(h: History, g: History) {
    g.Valid() && g.Extends(h) && (ProtectiveFrom(h, 0) ==> ProtectiveFrom(g, 0))
  }

  lemma AddsWrite(h: History, w: Write) returns (g: History)
    requires h.Valid() && Accepts(h.Last(), w) && Protective(w)
    ensures GoesOnFrom(h, g) && g.Last() == Apply(h.Last(), w)
  {
    g := h.Add(w);
  }

  lemma {:induction false} AddsRoles(h: History, roles: seq<string>) returns (g: History)
    requires h.Valid() && "" !in roles
    ensures GoesOnFrom(h, g) && g.Last() == h.Last().(roles := h.Last().roles + ToSet(roles))
    decreases roles
  {
    g := h;
    if roles == [] {
      assert h.Last().roles + ToSet(roles) == h.Last().roles;
    } else {
      if roles[0] in h.Last().roles {
        assert h.Last().roles + {roles[0]} == h.Last().roles;
      } else {
        g := AddsWrite(h, Write.CreateRole(roles[0]));
      }
      g := AddsRoles(g, roles[1..]);
      assert roles == [roles[0]] + roles[1..];
      assert h.Last().roles + {roles[0]} + ToSet(roles[1..]) == h.Last().roles + ToSet(roles);
    }
  }

  lemma {:induction false} AddsGrants(h: History, user: string, roles: seq<string>) returns (g: History)
    requires h.Valid() && user in h.Last().accounts && ToSet(roles) <= h.Last().roles
    ensures GoesOnFrom(h, g)
    ensures g.Last() == h.Last().(accounts := h.Last().accounts[user := h.Last().accounts[user] + ToSet(roles)])
    decreases roles
  {
    g := h;
    if roles == [] {
      assert h.Last().accounts[user] + ToSet(roles) == h.Last().accounts[user];
      assert h.Last().accounts[user := h.Last().accounts[user]] == h.Last().accounts;
    } else {
      assert roles[0] in ToSet(roles);
      g := AddsWrite(h, Grant(user, roles[0]));
      g := AddsGrants(g, user, roles[1..]);
      assert roles == [roles[0]] + roles[1..];
      assert h.Last().accounts[user] + {roles[0]} + ToSet(roles[1..]) == h.Last().accounts[user] + ToSet(roles);
    }
  }

  lemma AddsUser(h: History, user: SpecUser) returns (g: History)
    requires h.Valid() && user.name != "" && ToSet(user.roles) <= h.Last().roles
    ensures GoesOnFrom(h, g) && g.Last() == WithUser(h.Last(), user)
  {
    g := h;
    if user.name !in h.Last().accounts {
      g := AddsWrite(h, Write.CreateUser(user.name));
    }
    g := AddsGrants(g, user.name, user.roles);
  }

  lemma {:induction false} AddsUsers(h: History, users: seq<SpecUser>) returns (g: History)
    requires h.Valid() && forall u | u in users :: u.name != "" && ToSet(u.roles) <= h.Last().roles
    ensures GoesOnFrom(h, g) && g.Last() == WithUsers(h.Last(), users)
    decreases |users|
  {
    g := h;
    if users != [] {
      GrowsFromStart(h.Last(), users[..|users| - 1]);
      g := AddsUsers(h, users[..|users| - 1]);
      g := AddsUser(g, users[|users| - 1]);
    }
  }

  /** The writes that give a realm its defaults. */
  lemma FillingHistory(r: Realm) returns (h: History)
    requires r.Valid()
    ensures h.Valid() && h.states[0] == r && ProtectiveFrom(h, 0) && h.Last() == Provisioned(r)
  {
    DefaultsAreClosed();
    h := History([r], []);
    h := AddsRoles(h, DEFAULT_ROLES);
    forall u | u in DEFAULT_USERS ensures u.name != "" {
      assert u.name in DefaultUsers();
    }
    h := AddsUsers(h, DEFAULT_USERS);
  }
}
