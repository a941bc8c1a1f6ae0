/** What the RhpamUser controller does inside a realm: the phase handler's calls
    there, with their failures, and the writes that come of them. */
module RealmWork {
  import opened Convergence
  import opened KeycloakServer
  import opened Realms
  import opened UserPhaseHandler

  /** `h` began with the realm as `r`. */
  ghost predicate From(h: History, r: Realm) {
    h.Valid() && h.states[0] == r
  }

  /** Writes that reconciliation towards `spec` may issue have made `t` of `r`. */
  ghost predicate Towards(spec: UserSpec, r: Realm, t: Realm) {
    exists h: History :: From(h, r) && AllowedFrom(spec, h, 0) && h.Last() == t
  }

  /** Filling the realm `r` with the defaults. */
  method RunFilling(sso: Keycloak, r: Realm) returns (ok: bool)
    requires r.Valid()
    modifies sso
    ensures sso.Valid() && From(sso.history, r) && ProtectiveFrom(sso.history, 0) && old(sso.failed) <= sso.failed
    ensures ok == (sso.failed == old(sso.failed))
    ensures ok ==> sso.realm == Provisioned(r)
    ensures Between(r, sso.realm, Provisioned(r))
  {
    sso.Visit(r);
    var handler := new PhaseHandler(sso);
    ok := handler.ProvisionDefaults();
  }

  /** One run towards a specification in the realm `r`. */
  method RunTowards(sso: Keycloak, r: Realm, spec: UserSpec) returns (ok: bool, ghost leftover: set<string>)
    requires r.Valid()
    modifies sso
    ensures sso.Valid() && From(sso.history, r) && ProtectiveFrom(sso.history, 0) && old(sso.failed) <= sso.failed
    ensures AllowedFrom(spec, sso.history, 0)
    ensures ok == (Satisfiable(spec, r) && OnlyDropped(spec, old(sso.failed), sso.failed))
    ensures ok ==> Certifies(spec, r, sso.realm, leftover)
    ensures ok && sso.failed == old(sso.failed) ==> sso.realm == Outcome(spec, r)
  {
    sso.Visit(r);
    var handler := new PhaseHandler(sso);
    ok, leftover := handler.Reconcile(spec);
    AllowedFromIsProtective(spec, sso.history, 0);
  }

  /** Tearing the realm `r` down to its defaults. */
  method RunDown(sso: Keycloak, r: Realm) returns (ok: bool)
    requires r.Valid()
    modifies sso
    ensures sso.Valid() && From(sso.history, r) && ProtectiveFrom(sso.history, 0) && old(sso.failed) <= sso.failed
    ensures ok == FailedAmong(old(sso.failed), sso.failed, {Request.ListRoles})
    ensures ok && sso.failed == old(sso.failed) ==> sso.realm == Stripped(r)
    ensures ok && sso.failed != old(sso.failed) ==> sso.realm == StrippedUsers(r)
    ensures OnTheWayDown(r, sso.realm)
  {
    sso.Visit(r);
    var handler := new PhaseHandler(sso);
    ok := handler.Deprovision();
  }
}
