/** The two realm secrets name the realm that ends up recorded. */
module Secrets {
  import opened Conservation
  import opened Protocol
  import opened ProtocolSafety
  import opened Provisioning

  predicate RealmSecretKey(k: Key) {
    k == BcRealmSecret || k == KsRealmSecret
  }

  /** A realm made after a landed mark. */
  predicate MadeMarked(made: seq<Made>, realm: string) {
    exists m :: m in made && m.realm == realm && m.marked
  }

  /** The payload carries the secret of the client it is for, in a realm made
      after a landed mark. */
  predicate CarriesSecret(s: State, k: Key, p: Payload) {
    && p.RealmSecret?
    && p.client == ClientOf(k)
    && Client(p.realm, p.client) in s.clients
    && p.secret == s.clients[Client(p.realm, p.client)]
    && MadeMarked(s.past.made, p.realm)
  }

  ghost predicate SecretsCarried(s: State) {
    forall k | RealmSecretKey(k) && k in s.objects :: CarriesSecret(s, k, s.objects[k])
  }

  /** A reconcile holds the secret of a client of the realm it made. */
  ghost predicate FetchedIsRight(s: State) {
    s.dev.DevBusy? ==>
      && s.dev.mark != NotLanded
      && (s.dev.fetched.Some? ==>
            && s.dev.made.Some?
            && Client(s.dev.made.value, s.dev.fetched.value.0) in s.clients
            && s.clients[Client(s.dev.made.value, s.dev.fetched.value.0)] == s.dev.fetched.value.1)
  }

  /** The stored secret names the realm and carries what the named client's secret is. */
  predicate NamesRealm(s: State, k: Key, realm: string) {
    && k in s.objects
    && Client(realm, ClientOf(k)) in s.clients
    && s.objects[k] == RealmSecret(realm, ClientOf(k), s.clients[Client(realm, ClientOf(k))])
  }

  /** Unless a mark was lost. */
  ghost predicate Secretive(s: State) {
    s.past.lostMark || (SecretsCarried(s) && FetchedIsRight(s))
  }

  /** Client secrets and the realms made only grow. */
  ghost predicate Grows(s: State, t: State) {
    && (forall c | c in s.clients :: c in t.clients && t.clients[c] == s.clients[c])
    && (forall m | m in s.past.made :: m in t.past.made)
    && (s.past.lostMark ==> t.past.lostMark)
  }

  lemma StillCarried(s: State, t: State, k: Key, p: Payload)
    requires Grows(s, t) && CarriesSecret(s, k, p)
    ensures CarriesSecret(t, k, p)
  {
    var m :| m in s.past.made && m.realm == p.realm && m.marked;
    assert m in t.past.made;
  }

  lemma SameSecretsCarried(s: State, t: State)
    requires Grows(s, t) && SecretsCarried(s)
    requires forall k | RealmSecretKey(k) && k in t.objects :: k in s.objects && t.objects[k] == s.objects[k]
    ensures SecretsCarried(t)
  {
    forall k | RealmSecretKey(k) && k in t.objects ensures CarriesSecret(t, k, t.objects[k]) {
      StillCarried(s, t, k, s.objects[k]);
    }
  }

  lemma EnvStaysSecretive(s: State, e: EnvStep)
    requires Secretive(s) && EnvEnabled(s, e)
    ensures Secretive(DoEnv(s, e))
  {
    if !s.past.lostMark {
      SameSecretsCarried(s, DoEnv(s, e));
    }
  }

  lemma UserStaysSecretive(s: State, u: UserStep)
    requires Secretive(s) && UserEnabled(s, u)
    ensures Secretive(DoUser(s, u))
  {
    UserLeavesSecrets(s, u);
    if !s.past.lostMark {
      SameSecretsCarried(s, DoUser(s, u));
    }
  }

  lemma UserLeavesSecrets(s: State, u: UserStep)
    requires UserEnabled(s, u)
    ensures DoUser(s, u).objects == s.objects && DoUser(s, u).clients == s.clients
    ensures DoUser(s, u).past == s.past && DoUser(s, u).dev == s.dev
  {
    if u.UserWrite? || u.UserSee? || u.UserReachRealm? {
      WorkLeavesSecrets(s, u);
    }
  }

  lemma WorkLeavesSecrets(s: State, u: UserStep)
    requires UserEnabled(s, u) && (u.UserWrite? || u.UserSee? || u.UserReachRealm?)
    ensures DoUser(s, u).objects == s.objects && DoUser(s, u).clients == s.clients
    ensures DoUser(s, u).past == s.past && DoUser(s, u).dev == s.dev
  {
  }

  lemma DevGrows(s: State, d: DevStep)
    requires DevEnabled(s, d)
    ensures Grows(s, DoDev(s, d))
  {
  }

  lemma DevKeepsFetched(s: State, d: DevStep)
    requires Basic(s) && FetchedIsRight(s) && DevEnabled(s, d) && !DoDev(s, d).past.lostMark
    ensures FetchedIsRight(DoDev(s, d))
  {
    if d.DevMark? || d.DevCreateRealm? || d.DevCreateClient? || d.DevFetchSecret? {
      ProvisioningKeepsFetched(s, d);
    } else {
      RestKeepsFetched(s, d);
    }
  }

  lemma ProvisioningKeepsFetched(s: State, d: DevStep)
    requires FetchedIsRight(s) && DevEnabled(s, d) && !DoDev(s, d).past.lostMark
    requires d.DevMark? || d.DevCreateRealm? || d.DevCreateClient? || d.DevFetchSecret?
    ensures FetchedIsRight(DoDev(s, d))
  {
    if d.DevMark? {
      MarkKeepsFetched(s, s.dev, d.landing, d.acked);
    } else if d.DevCreateRealm? {
      RealmKeepsFetched(s, d);
    } else {
      ClientKeepsFetched(s, d);
    }
  }

  lemma MarkKeepsFetched(s: State, w: DevWorker, landing: Mark, acked: bool)
    requires w == s.dev && w.DevBusy? && DevBusyEnabled(s, w, DevMark(landing, acked))
    requires FetchedIsRight(s) && !DoDevBusy(s, w, DevMark(landing, acked)).past.lostMark
    ensures FetchedIsRight(DoDevBusy(s, w, DevMark(landing, acked)))
  {
  }

  lemma RealmKeepsFetched(s: State, d: DevStep)
    requires FetchedIsRight(s) && DevEnabled(s, d) && d.DevCreateRealm?
    ensures FetchedIsRight(DoDev(s, d))
  {
  }

  lemma ClientKeepsFetched(s: State, d: DevStep)
    requires FetchedIsRight(s) && DevEnabled(s, d) && (d.DevCreateClient? || d.DevFetchSecret?)
    ensures FetchedIsRight(DoDev(s, d))
  {
  }

  lemma RestKeepsFetched(s: State, d: DevStep)
    requires FetchedIsRight(s) && DevEnabled(s, d)
    requires !d.DevMark? && !d.DevCreateRealm? && !d.DevCreateClient? && !d.DevFetchSecret?
    ensures FetchedIsRight(DoDev(s, d))
  {
  }

  lemma CreateIsSecretive(s: State, d: DevStep)
    requires Conserved(s) && SecretsCarried(s) && FetchedIsRight(s) && MadeAfterMark(s.dev)
    requires DevEnabled(s, d) && d.DevCreateObject?
    ensures SecretsCarried(DoDev(s, d))
  {
    var t := DoDev(s, d);
    DevGrows(s, d);
    forall k | RealmSecretKey(k) && k in t.objects ensures CarriesSecret(t, k, t.objects[k]) {
      if k == d.key {
        NewSecretCarried(s, d);
        StillCarried(s, t, k, d.payload);
      } else {
        StillCarried(s, t, k, s.objects[k]);
      }
    }
  }

  lemma NewSecretCarried(s: State, d: DevStep)
    requires Conserved(s) && FetchedIsRight(s) && DevEnabled(s, d) && d.DevCreateObject? && RealmSecretKey(d.key)
    requires MadeAfterMark(s.dev)
    ensures CarriesSecret(s, d.key, d.payload)
  {
    assert Made(s.dev.uid, s.dev.made.value, true) in s.past.made;
  }

  lemma DevStaysSecretive(s: State, d: DevStep)
    requires Basic(s) && Conserved(s) && Secretive(s) && DevEnabled(s, d)
    ensures Secretive(DoDev(s, d))
  {
    DevGrows(s, d);
    if !DoDev(s, d).past.lostMark {
      if d.DevCreateObject? {
        CreateIsSecretive(s, d);
      } else {
        OtherDevLeavesSecrets(s, d);
        SameSecretsCarried(s, DoDev(s, d));
      }
      DevKeepsFetched(s, d);
    }
  }

  lemma OtherDevLeavesSecrets(s: State, d: DevStep)
    requires DevEnabled(s, d) && !d.DevCreateObject?
    ensures forall k | k in DoDev(s, d).objects :: k in s.objects && DoDev(s, d).objects[k] == s.objects[k]
  {
  }

  // ------------------------------------------------- what stored secrets name

  /** Every stored realm secret names a realm that was made before. */
  ghost predicate SecretsNamed(s: State) {
    forall k | RealmSecretKey(k) && k in s.objects :: s.objects[k].RealmSecret? && s.objects[k].realm in s.past.created
  }

  lemma EnvKeepsNamed(s: State, e: EnvStep)
    requires SecretsNamed(s) && EnvEnabled(s, e)
    ensures SecretsNamed(DoEnv(s, e))
  {
  }

  lemma DevKeepsNamed(s: State, d: DevStep)
    requires Basic(s) && SecretsNamed(s) && DevEnabled(s, d)
    ensures SecretsNamed(DoDev(s, d))
  {
    if d.DevCreateObject? {
      CreateKeepsNamed(s, d);
    } else {
      OtherDevLeavesSecrets(s, d);
      CreatedGrows(s, d);
    }
  }

  lemma CreateKeepsNamed(s: State, d: DevStep)
    requires Basic(s) && SecretsNamed(s) && DevEnabled(s, d) && d.DevCreateObject?
    ensures SecretsNamed(DoDev(s, d))
  {
  }

  lemma CreatedGrows(s: State, d: DevStep)
    requires DevEnabled(s, d)
    ensures s.past.created <= DoDev(s, d).past.created
  {
  }

  lemma StepKeepsNamed(s: State, t: State)
    requires Basic(s) && SecretsNamed(s) && Next(s, t)
    ensures SecretsNamed(t)
  {
    var step :| Enabled(s, step) && t == Do(s, step);
    match step
    case Env(e) => EnvKeepsNamed(s, e);
    case OfDev(d) => DevKeepsNamed(s, d);
    case OfUser(u) => UserLeavesSecrets(s, u);
  }

  lemma RunKeepsNamed(run: seq<State>, n: nat)
    requires IsRun(run) && n < |run|
    ensures SecretsNamed(run[n])
  {
    var inv := (s: State) => SecretsNamed(s);
    var along := (s: State) => Basic(s);
    forall k | 0 <= k <= n ensures along(run[k]) {
      RunStaysBasic(run, k);
    }
    forall s, t | inv(s) && Next(s, t) && along(s) && along(t) ensures inv(t) {
      StepKeepsNamed(s, t);
    }
    RunKeeps(run, 0, n, inv, along);
  }

  lemma StepStaysSecretive(s: State, t: State)
    requires Basic(s) && Conserved(s) && Secretive(s) && Next(s, t)
    ensures Secretive(t)
  {
    var step :| Enabled(s, step) && t == Do(s, step);
    match step
    case Env(e) => EnvStaysSecretive(s, e);
    case OfDev(d) => DevStaysSecretive(s, d);
    case OfUser(u) => UserStaysSecretive(s, u);
  }

  lemma RunStaysSecretive(run: seq<State>, n: nat)
    requires IsRun(run) && n < |run|
    ensures Secretive(run[n])
  {
    var inv := (s: State) => Secretive(s);
    var along := (s: State) => Basic(s) && Conserved(s);
    forall k | 0 <= k <= n ensures along(run[k]) {
      RunConserves(run, k);
    }
    forall s, t | inv(s) && Next(s, t) && along(s) && along(t) ensures inv(t) {
      StepStaysSecretive(s, t);
    }
    RunKeeps(run, 0, n, inv, along);
  }

  /** A namespace with one RhpamDev, no "realm provisioning" mark lost and nothing torn down. */
  ghost predicate Undisturbed(s: State, uid: nat) {
    !s.past.lostMark && !s.past.tornDown && s.devs.Keys == {uid}
  }

  /** The secret of the RhpamDev names its realm. */
  predicate Agrees(s: State, d: Dev, k: Key) {
    NamesRealm(s, k, d.realm)
  }

  /** Secret agreement: in every run, from "realm provisioned" on, both realm
      secrets name the recorded realm and carry the secrets of their clients. */
  lemma SecretAgreement(run: seq<State>, n: nat, uid: nat, k: Key)
    requires IsRun(run) && n < |run| && Undisturbed(run[n], uid) && RealmSecretKey(k)
    requires run[n].devs[uid] != [] && 3 <= Rank(LatestDev(run[n], uid).phase) <= 9
    ensures Agrees(run[n], LatestDev(run[n], uid), k)
  {
    var s := run[n];
    RunStaysSecretive(run, n);
    RunConserves(run, n);
    PhaseImpliesObjects(run, n, uid, |s.devs[uid]| - 1, k);
    AgreesIfMade(s, uid, k);
  }

  lemma AgreesIfMade(s: State, uid: nat, k: Key)
    requires Basic(s) && Conserved(s) && SecretsCarried(s) && s.devs.Keys == {uid}
    requires RealmSecretKey(k) && k in s.objects && Rank(LatestDev(s, uid).phase) >= 3
    ensures Agrees(s, LatestDev(s, uid), k)
  {
    assert CarriesSecret(s, k, s.objects[k]);
    var m :| m in s.past.made && m.realm == s.objects[k].realm && m.marked;
    assert Recorded(s, m);
  }

  /** And no later step, retried or not, changes them. */
  lemma SecretsNeverChange(run: seq<State>, m: nat, n: nat, uid: nat, k: Key)
    requires IsRun(run) && m <= n < |run| && Undisturbed(run[n], uid) && RealmSecretKey(k)
    requires uid in run[m].devs && run[m].devs[uid] != [] && 3 <= Rank(LatestDev(run[m], uid).phase) <= 9
    ensures k in run[m].objects && k in run[n].objects && run[n].objects[k] == run[m].objects[k]
    ensures Agrees(run[m], LatestDev(run[m], uid), k)
  {
    RunOnlyGrows(run, m, n);
    assert run[m].devs.Keys == {uid};
    SecretAgreement(run, m, uid, k);
  }
}
