/** When the realm secrets agree with the recorded realm: exactly if the
    reconcile that recorded it found neither of them there. */
module Leftovers {
  import opened ApiServer
  import opened Conservation
  import opened Prelude
  import opened Protocol
  import opened ProtocolSafety
  import opened Secrets

  /** A provisioning reconcile that has read its RhpamDev and done nothing else yet. */
  predicate Beginning(w: DevWorker) {
    && w.DevBusy? && w.seen.phase == Accepted && !w.seen.deleting
    && w.mark == Unmarked && w.made == None && w.clients == {} && w.fetched == None && w.have == {}
  }

  /** The client secret held is that of a client of the realm made. */
  predicate HoldsSecret(s: State) {
    s.dev.DevBusy? && s.dev.fetched.Some? ==>
      && s.dev.made.Some?
      && Client(s.dev.made.value, s.dev.fetched.value.0) in s.clients
      && s.clients[Client(s.dev.made.value, s.dev.fetched.value.0)] == s.dev.fetched.value.1
  }

  /** The secret is as it was in `s0`, or if it was not there names the realm made since. */
  ghost predicate OldOrNew(s0: State, s: State, k: Key) {
    if k in s0.objects then k in s.objects && s.objects[k] == s0.objects[k]
    else k in s.objects ==> s.dev.DevBusy? && s.dev.made.Some? && NamesRealm(s, k, s.dev.made.value)
  }

  /** The reconcile that began in `s0` is still at work. */
  ghost predicate StillAt(s0: State, s: State) {
    && s0.dev.DevBusy? && s.dev.DevBusy? && s.dev.uid == s0.dev.uid && s.dev.seen == s0.dev.seen
    && s0.past.created <= s.past.created
    && (s.dev.made.Some? ==> s.dev.made.value !in s0.past.created)
    && s.dev.have <= s.objects.Keys
    && HoldsSecret(s)
    && OldOrNew(s0, s, BcRealmSecret) && OldOrNew(s0, s, KsRealmSecret)
  }

  /** Client secrets and the reconcile are left alone. */
  ghost predicate Bystander(s: State, t: State) {
    t.dev == s.dev && t.objects == s.objects && t.clients == s.clients && t.past == s.past
  }

  lemma EnvStandsBy(s: State, e: EnvStep)
    requires EnvEnabled(s, e)
    ensures Bystander(s, DoEnv(s, e))
  {
  }

  lemma DevStaysAt(s0: State, s: State, d: DevStep)
    requires Beginning(s0.dev) && StillAt(s0, s) && DevEnabled(s, d) && DoDev(s, d).dev.DevBusy?
    ensures StillAt(s0, DoDev(s, d))
  {
    OnlySuchSteps(s, d);
    if d.DevMark? || d.DevFindObject? {
      MarkOrFindStaysAt(s0, s, d);
    } else {
      BuildingStaysAt(s0, s, d);
    }
  }

  lemma BuildingStaysAt(s0: State, s: State, d: DevStep)
    requires Beginning(s0.dev) && StillAt(s0, s) && DevEnabled(s, d)
    requires d.DevCreateObject? || d.DevCreateRealm? || d.DevCreateClient? || d.DevFetchSecret?
    ensures StillAt(s0, DoDev(s, d))
  {
    if d.DevCreateObject? {
      CreateStaysAt(s0, s, d);
    } else {
      RealmStepStaysAt(s0, s, d);
    }
  }

  lemma CreateStaysAt(s0: State, s: State, d: DevStep)
    requires Beginning(s0.dev) && StillAt(s0, s) && DevEnabled(s, d) && d.DevCreateObject?
    ensures StillAt(s0, DoDev(s, d))
  {
  }

  lemma RealmStepStaysAt(s0: State, s: State, d: DevStep)
    requires Beginning(s0.dev) && StillAt(s0, s) && DevEnabled(s, d)
    requires d.DevCreateRealm? || d.DevCreateClient? || d.DevFetchSecret?
    ensures StillAt(s0, DoDev(s, d))
  {
  }

  lemma MarkOrFindStaysAt(s0: State, s: State, d: DevStep)
    requires StillAt(s0, s) && DevEnabled(s, d) && (d.DevMark? || d.DevFindObject?)
    ensures StillAt(s0, DoDev(s, d))
  {
    if d.DevMark? {
      MarkLeavesObjects(s, s.dev, d.landing, d.acked);
    } else {
      FindLeavesObjects(s, d);
    }
    SameSecretsStayAt(s0, s, DoDev(s, d));
  }

  lemma MarkLeavesObjects(s: State, w: DevWorker, landing: Mark, acked: bool)
    requires w == s.dev && w.DevBusy? && DevBusyEnabled(s, w, DevMark(landing, acked))
    ensures SameBut(s, DoDevBusy(s, w, DevMark(landing, acked)), w.have)
  {
  }

  lemma FindLeavesObjects(s: State, d: DevStep)
    requires DevEnabled(s, d) && d.DevFindObject?
    ensures SameBut(s, DoDev(s, d), s.dev.have + {d.key}) && d.key in s.objects
  {
  }

  /** The same objects and clients, and the same reconcile, which has `have`. */
  ghost predicate SameBut(s: State, t: State, have: set<Key>) {
    && s.dev.DevBusy? && t.dev.DevBusy?
    && t.objects == s.objects && t.clients == s.clients && t.past.created == s.past.created
    && t.dev == s.dev.(mark := t.dev.mark, base := t.dev.base, have := have)
  }

  lemma SameSecretsStayAt(s0: State, s: State, t: State)
    requires StillAt(s0, s) && t.dev.DevBusy? && SameBut(s, t, t.dev.have) && t.dev.have <= s.objects.Keys
    ensures StillAt(s0, t)
  {
  }

  /** A provisioning reconcile takes no other steps, short of its end. */
  lemma OnlySuchSteps(s: State, d: DevStep)
    requires s.dev.DevBusy? && s.dev.seen.phase == Accepted && !s.dev.seen.deleting
    requires DevEnabled(s, d) && DoDev(s, d).dev.DevBusy?
    ensures
      || d.DevMark? || d.DevFindObject?
      || d.DevCreateObject? || d.DevCreateRealm? || d.DevCreateClient? || d.DevFetchSecret?
  {
  }

  lemma StepStaysAt(s0: State, s: State, t: State)
    requires Basic(s) && Beginning(s0.dev) && StillAt(s0, s) && Next(s, t) && t.dev.DevBusy?
    ensures StillAt(s0, t)
  {
    var step :| Enabled(s, step) && t == Do(s, step);
    match step
    case Env(e) =>
      EnvStandsBy(s, e);
      BystanderStaysAt(s0, s, t);
    case OfDev(d) =>
      DevStaysAt(s0, s, d);
    case OfUser(u) =>
      UserLeavesSecrets(s, u);
      BystanderStaysAt(s0, s, t);
  }

  lemma BystanderStaysAt(s0: State, s: State, t: State)
    requires StillAt(s0, s) && Bystander(s, t)
    ensures StillAt(s0, t)
  {
  }

  ghost predicate AtWork(run: seq<State>, m: nat, n: nat) {
    m <= n < |run| && forall k | m <= k <= n :: run[k].dev.DevBusy?
  }

  lemma SessionStaysAt(run: seq<State>, m: nat, n: nat)
    requires IsRun(run) && AtWork(run, m, n) && Beginning(run[m].dev)
    ensures StillAt(run[m], run[n])
  {
    var inv := (s: State) => StillAt(run[m], s);
    var along := (s: State) => Basic(s) && s.dev.DevBusy?;
    forall k | m <= k <= n ensures along(run[k]) {
      RunStaysBasic(run, k);
    }
    forall s, t | inv(s) && Next(s, t) && along(s) && along(t) ensures inv(t) {
      StepStaysAt(run[m], s, t);
    }
    RunKeeps(run, m, n, inv, along);
  }

  /** A reconcile that has provisioned a realm leaves each of the two secrets naming
      it, or, if it was there when the reconcile began, another realm. */
  lemma EachSecret(run: seq<State>, m: nat, n: nat, k: Key)
    requires IsRun(run) && AtWork(run, m, n) && Beginning(run[m].dev) && Finished(run[n].dev)
    requires RealmSecretKey(k)
    ensures run[n].dev.made.Some? && k in run[n].objects
    ensures
      if k in run[m].objects
      then run[n].objects[k].RealmSecret? && run[n].objects[k].realm != run[n].dev.made.value
      else NamesRealm(run[n], k, run[n].dev.made.value)
  {
    SessionStaysAt(run, m, n);
    RunKeepsNamed(run, m);
    assert k in Work(Accepted) && k in run[n].dev.have;
  }

  // ------------------------------------------------------------ from then on

  /** A step keeps all stored versions. */
  ghost predicate VersionsKept(s: State, t: State) {
    Extends(s.devs, t.devs)
  }

  lemma DevKeepsVersions(s: State, d: DevStep)
    requires DevEnabled(s, d)
    ensures VersionsKept(s, DoDev(s, d))
  {
  }

  /** What a step leaves in place it leaves unchanged. */
  ghost predicate KeptIfThere(s: State, t: State) {
    && (forall k | k in s.objects && k in t.objects :: t.objects[k] == s.objects[k])
    && (forall c | c in s.clients :: c in t.clients && t.clients[c] == s.clients[c])
  }

  lemma DevKeepsIfThere(s: State, d: DevStep)
    requires DevEnabled(s, d)
    ensures KeptIfThere(s, DoDev(s, d))
  {
  }

  lemma StepKeeps(s: State, t: State)
    requires Next(s, t)
    ensures VersionsKept(s, t) && KeptIfThere(s, t)
  {
    var step :| Enabled(s, step) && t == Do(s, step);
    match step
    case Env(e) =>
      EnvStepChanges(s, e);
    case OfDev(d) =>
      DevKeepsVersions(s, d);
      DevKeepsIfThere(s, d);
    case OfUser(u) =>
      UserStepChanges(s, u);
  }

  /** Both secrets are there from `n` to `q`. */
  ghost predicate SecretsThere(run: seq<State>, n: nat, q: nat) {
    n <= q < |run| && forall k | n <= k <= q :: BothThere(run[k])
  }

  lemma SecretsKept(run: seq<State>, n: nat, q: nat)
    requires IsRun(run) && SecretsThere(run, n, q)
    ensures forall k | RealmSecretKey(k) :: run[q].objects[k] == run[n].objects[k]
    ensures forall c | c in run[n].clients :: c in run[q].clients && run[q].clients[c] == run[n].clients[c]
    ensures VersionsKept(run[n], run[q])
  {
    var inv := (s: State) => BothThere(s) && SameSecrets(run[n], s) && VersionsKept(run[n], s);
    forall s, t | inv(s) && Next(s, t) && BothThere(s) && BothThere(t) ensures inv(t) {
      StepKeeps(s, t);
    }
    RunKeeps(run, n, q, inv, BothThere);
  }

  predicate BothThere(s: State) {
    BcRealmSecret in s.objects && KsRealmSecret in s.objects
  }

  /** The two secrets and all clients' secrets are as they were. */
  ghost predicate SameSecrets(s: State, t: State)
    requires BothThere(s) && BothThere(t)
  {
    && (forall k | RealmSecretKey(k) :: t.objects[k] == s.objects[k])
    && (forall c | c in s.clients :: c in t.clients && t.clients[c] == s.clients[c])
  }

  /** The reconcile that began at `m` ends with the update that records its realm. */
  ghost predicate RecordsRealm(run: seq<State>, m: nat, n: nat) {
    && AtWork(run, m, n) && Beginning(run[m].dev) && n + 1 < |run|
    && DevEnabled(run[n], DevUpdate) && run[n + 1] == DoDev(run[n], DevUpdate)
  }

  /** In every run, whatever marks were lost and whatever other RhpamDevs there
      are: once a reconcile has recorded a realm, both secrets name that realm and
      carry their clients' secrets exactly if neither was there when it began; and
      so it stays as long as neither is deleted. */
  lemma SecretsAgreeExactly(run: seq<State>, m: nat, n: nat, q: nat)
    requires IsRun(run) && RecordsRealm(run, m, n) && n < q && SecretsThere(run, n, q)
    ensures run[n].dev.uid in run[q].devs && run[q].devs[run[n].dev.uid] != []
    ensures
      (forall k | RealmSecretKey(k) :: Agrees(run[q], LatestDev(run[q], run[n].dev.uid), k)) <==>
      Work(Accepted) !! run[m].objects.Keys
  {
    var uid := run[n].dev.uid;
    RealmRecorded(run, m, n, q);
    SecretsKept(run, n, q);
    forall k | RealmSecretKey(k)
      ensures Agrees(run[q], LatestDev(run[q], uid), k) <==> k !in run[m].objects
    {
      EachSecret(run, m, n, k);
    }
    assert Work(Accepted) == {BcRealmSecret, KsRealmSecret};
    assert RealmSecretKey(BcRealmSecret) && RealmSecretKey(KsRealmSecret);
  }

  lemma RecordedAtOnce(run: seq<State>, m: nat, n: nat)
    requires IsRun(run) && RecordsRealm(run, m, n)
    ensures run[n].dev.uid in run[n + 1].devs && run[n + 1].devs[run[n].dev.uid] != []
    ensures run[n].dev.made == Some(LatestDev(run[n + 1], run[n].dev.uid).realm)
    ensures LatestDev(run[n + 1], run[n].dev.uid).realm != ""
  {
    SessionStaysAt(run, m, n);
    RunStaysBasic(run, n);
  }

  lemma RealmRecorded(run: seq<State>, m: nat, n: nat, q: nat)
    requires IsRun(run) && RecordsRealm(run, m, n) && n < q && SecretsThere(run, n, q)
    ensures run[n].dev.uid in run[q].devs && run[q].devs[run[n].dev.uid] != []
    ensures run[n].dev.made == Some(LatestDev(run[q], run[n].dev.uid).realm)
  {
    var uid := run[n].dev.uid;
    RecordedAtOnce(run, m, n);
    SecretsKept(run, n + 1, q);
    RunStaysBasic(run, q);
    RealmStays(run[n + 1].devs[uid], run[q].devs[uid]);
  }

  lemma RealmStays(older: seq<Dev>, newer: seq<Dev>)
    requires older != [] && older <= newer && DevLog(newer) && older[|older| - 1].realm != ""
    ensures newer[|newer| - 1].realm == older[|older| - 1].realm
  {
    DevOnlyForward(newer, |older| - 1, |newer| - 1);
  }
}
