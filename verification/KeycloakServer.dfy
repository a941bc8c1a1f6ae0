/** The Keycloak admin interface for one realm, over a network on which any
    call may fail. A write that fails may or may not have reached the server. */
module KeycloakServer {
  import opened Prelude
  import opened Realms

  datatype Request =
    | Login
    | GetRole(role: string)
    | FindUser(user: string)
    | ListRoles
    | ListUsers
    | GetMappings(user: string)
    | Submit(write: Write)

  /** Nothing failed from `a` to `b` but requests in `rs`. */
  ghost predicate FailedAmong(a: seq<Request>, b: seq<Request>, rs: set<Request>) {
    a <= b && forall k | |a| <= k < |b| :: b[k] in rs
  }

  class Keycloak {
    var realm: Realm
    /** Every realm state so far and the writes between them. */
    var history: History
    /** The requests that a network failure has cost their answer. A look-up that
        finds nothing and a write that is refused fail in any case, and do not count. */
    ghost var failed: seq<Request>
    /** The administrator's token has been fetched. */
    ghost var session: bool
    /** How many write requests were sent. */
    ghost var attempts: nat

    ghost predicate Valid()
      reads this
    {
      history.Valid() && realm == history.Last() && realm.Valid()
    }

    constructor (initial: Realm)
      requires initial.Valid()
      ensures Valid() && realm == initial && history == History([initial], [])
      ensures failed == [] && !session && attempts == 0
    {
      realm := initial;
      history := History([initial], []);
      failed := [];
      session := false;
      attempts := 0;
    }

    /** Turning to another realm. */
    method Visit(r: Realm)
      requires r.Valid()
      modifies `realm, `history, `session
      ensures Valid() && !session && realm == r && history == History([r], [])
    {
      realm := r;
      history := History([r], []);
      session := false;
    }

    /** A call either goes through or is hit by a failure. */
    method Transmit(ghost request: Request, ghost matters: bool) returns (through: bool)
      modifies this`failed
      ensures failed == old(failed) + if through || !matters then [] else [request]
    {
      through := *;
      if !through && matters {
        failed := failed + [request];
      }
    }

    method Send(w: Write) returns (ok: bool)
      requires Valid() && session
      modifies `realm, `history, `failed, `attempts
      ensures Valid() && attempts == old(attempts) + 1
      ensures failed == old(failed) || (failed == old(failed) + [Submit(w)] && Accepts(old(realm), w))
      ensures ok == (Accepts(old(realm), w) && failed == old(failed))
      ensures ok ==> Accepts(old(realm), w) && history == old(history).Add(w)
      ensures !ok && failed == old(failed) ==> history == old(history)
      ensures history == old(history) || (Accepts(old(realm), w) && history == old(history).Add(w))
    {
      attempts := attempts + 1;
      var through := Transmit(Submit(w), Accepts(realm, w));
      var reached := through;
      if !through {
        reached := *;
      }
      if reached && Accepts(realm, w) {
        history := history.Add(w);
        realm := Apply(realm, w);
        ok := through;
      } else {
        ok := false;
      }
    }

    /** Fetching the administrator's token. */
    method Login() returns (ok: bool)
      modifies this`failed, `session
      ensures failed == old(failed) + if ok then [] else [Request.Login]
      ensures session == ok
    {
      ok := Transmit(Request.Login, true);
      session := ok;
    }

    /** Succeeds only on an existing role. */
    method GetRole(role: string) returns (ok: bool)
      requires session
      modifies this`failed
      ensures failed == old(failed) + if role in realm.roles && !ok then [Request.GetRole(role)] else []
      ensures ok ==> role in realm.roles
    {
      var through := Transmit(Request.GetRole(role), role in realm.roles);
      ok := through && role in realm.roles;
    }

    /** Looks up the user of exactly this name. */
    method FindUserByUsername(user: string) returns (ok: bool)
      requires session
      modifies this`failed
      ensures failed == old(failed) + if user in realm.accounts && !ok then [FindUser(user)] else []
      ensures ok ==> user in realm.accounts
    {
      var through := Transmit(FindUser(user), user in realm.accounts);
      ok := through && user in realm.accounts;
    }

    method ListRoles() returns (ok: bool, roles: seq<string>)
      requires session
      modifies this`failed
      ensures failed == old(failed) + if ok then [] else [Request.ListRoles]
      ensures ok ==> ToSet(roles) == realm.roles && Distinct(roles)
      ensures !ok ==> roles == []
    {
      ok := Transmit(Request.ListRoles, true);
      if ok {
        roles := AnyOrder(realm.roles);
      } else {
        roles := [];
      }
    }

    method ListUsers() returns (ok: bool, users: seq<string>)
      requires session
      modifies this`failed
      ensures failed == old(failed) + if ok then [] else [Request.ListUsers]
      ensures ok ==> ToSet(users) == realm.accounts.Keys && Distinct(users)
    {
      ok := Transmit(Request.ListUsers, true);
      users := AnyOrder(realm.accounts.Keys);
    }

    method GetRealmRoleMappings(user: string) returns (ok: bool, roles: seq<string>)
      requires session
      modifies this`failed
      ensures failed == old(failed) + if user in realm.accounts && !ok then [GetMappings(user)] else []
      ensures ok ==> user in realm.accounts && ToSet(roles) == realm.accounts[user]
    {
      var through := Transmit(GetMappings(user), user in realm.accounts);
      ok := through && user in realm.accounts;
      roles := [];
      if ok {
        roles := AnyOrder(realm.accounts[user]);
      }
    }
  }

  /** The elements of a set in some order. */
  method AnyOrder(s: set<string>) returns (list: seq<string>)
    ensures ToSet(list) == s && Distinct(list)
  {
    list := [];
    var rest := s;
    while rest != {}
      invariant rest <= s && ToSet(list) == s - rest
      invariant Distinct(list)
    {
      var x :| x in rest;
      assert ToSet(list + [x]) == ToSet(list) + {x};
      assert x !in ToSet(list);
      list := list + [x];
      rest := rest - {x};
    }
  }
}
