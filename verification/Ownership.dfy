/** A realm belongs to one RhpamDev, and is there as long as that is not deleted. */
module Ownership {
  import opened Protocol
  import opened ProtocolSafety
  import opened Realms

  // --------------------------------------------------- one RhpamDev, one realm

  /** Every realm made has a name of its own. */
  ghost predicate MadeApart(s: State) {
    && (forall i, j | 0 <= i < j < |s.past.made| :: s.past.made[i].realm != s.past.made[j].realm)
    && (forall m | m in s.past.made :: m.realm in s.past.created)
  }

  predicate MadeFor(made: seq<Made>, uid: nat, realm: string) {
    exists m :: m in made && m.uid == uid && m.realm == realm
  }

  /** What a stored RhpamDev says about its realm is so. */
  ghost predicate Honest(s: State, uid: nat, d: Dev) {
    && (d.realm != "" ==> MadeFor(s.past.made, uid, d.realm))
    && (d.phase == Deprovisioned ==> d.realm !in s.realms)
  }

  ghost predicate AllHonest(s: State) {
    forall uid, i | uid in s.devs && 0 <= i < |s.devs[uid]| :: Honest(s, uid, s.devs[uid][i])
  }

  ghost predicate SessionHonest(s: State) {
    s.dev.DevBusy? ==>
      && (s.dev.made.Some? ==> MadeFor(s.past.made, s.dev.uid, s.dev.made.value))
      && (s.dev.realmGone ==> s.dev.seen.realm !in s.realms)
  }

  ghost predicate Owned(s: State) {
    Basic(s) && MadeApart(s) && AllHonest(s) && SessionHonest(s)
  }

  /** Realms made stay made, and no name is taken again. */
  ghost predicate RealmsMoveOn(s: State, t: State) {
    && (forall m | m in s.past.made :: m in t.past.made)
    && (forall r | r in t.realms && r in s.past.created :: r in s.realms)
  }

  lemma StaysHonest(s: State, t: State, uid: nat, d: Dev)
    requires Honest(s, uid, d) && RealmsMoveOn(s, t) && (d.realm == "" || d.realm in s.past.created)
    requires "" !in t.realms
    ensures Honest(t, uid, d)
  {
    if d.realm != "" {
      var m :| m in s.past.made && m.uid == uid && m.realm == d.realm;
      assert m in t.past.made;
    }
  }

  /** The stored RhpamDevs are the old ones and perhaps a new version or a new object. */
  lemma StoredStayHonest(s: State, t: State, uid: nat, d: Dev)
    requires Owned(s) && RealmsMoveOn(s, t) && "" !in t.realms && Honest(t, uid, d)
    requires t.devs == s.devs || t.devs == s.devs[uid := [d]] || (uid in s.devs && t.devs == Append(s.devs, uid, d))
    ensures AllHonest(t)
  {
    forall v, i | v in t.devs && 0 <= i < |t.devs[v]| ensures Honest(t, v, t.devs[v][i]) {
      if v in s.devs && i < |s.devs[v]| && t.devs[v][i] == s.devs[v][i] {
        assert Honest(s, v, s.devs[v][i]);
        StaysHonest(s, t, v, s.devs[v][i]);
      }
    }
  }

  lemma EnvKeepsOwned(s: State, e: EnvStep)
    requires Owned(s) && EnvEnabled(s, e)
    ensures Owned(DoEnv(s, e))
  {
    var t := DoEnv(s, e);
    EnvKeepsBasic(s, e);
    if e.CreateDev? {
      StoredStayHonest(s, t, e.uid, Dev(e.finalizers, false, NoPhase, ""));
    } else if e.TouchDev? || e.RequestDevDeletion? {
      assert Honest(s, e.uid, s.devs[e.uid][|s.devs[e.uid]| - 1]);
      StoredStayHonest(s, t, e.uid, if e.TouchDev? then LatestDev(s, e.uid) else LatestDev(s, e.uid).(deleting := true));
    } else {
      SameDevsHonest(s, t);
    }
  }

  lemma SameDevsHonest(s: State, t: State)
    requires Owned(s) && RealmsMoveOn(s, t) && "" !in t.realms && t.devs == s.devs
    ensures AllHonest(t)
  {
    forall v, i | v in t.devs && 0 <= i < |t.devs[v]| ensures Honest(t, v, t.devs[v][i]) {
      assert Honest(s, v, s.devs[v][i]);
      StaysHonest(s, t, v, s.devs[v][i]);
    }
  }

  lemma DevMovesRealmsOn(s: State, d: DevStep)
    requires DevEnabled(s, d)
    ensures RealmsMoveOn(s, DoDev(s, d))
  {
  }

  lemma DevKeepsMade(s: State, d: DevStep)
    requires Owned(s) && DevEnabled(s, d)
    ensures MadeApart(DoDev(s, d))
  {
    if d.DevCreateRealm? {
      CreateKeepsMade(s, d);
    } else {
      OthersMakeNothing(s, d);
    }
  }

  lemma CreateKeepsMade(s: State, d: DevStep)
    requires MadeApart(s) && DevEnabled(s, d) && d.DevCreateRealm?
    ensures MadeApart(DoDev(s, d))
  {
  }

  lemma OthersMakeNothing(s: State, d: DevStep)
    requires DevEnabled(s, d) && !d.DevCreateRealm?
    ensures DoDev(s, d).past.made == s.past.made && DoDev(s, d).past.created == s.past.created
  {
  }

  lemma DevKeepsSession(s: State, d: DevStep)
    requires Owned(s) && DevEnabled(s, d)
    ensures SessionHonest(DoDev(s, d))
  {
    if d.DevCreateRealm? {
      CreateKeepsSession(s, d);
    } else if d.DevDeleteRealm? {
      assert DoDev(s, d).dev.seen.realm !in DoDev(s, d).realms;
    } else if !d.DevRead? {
      DevKeepsRealms(s, d);
      OthersMakeNothing(s, d);
    }
  }

  /** Apart from making and deleting a realm, a step of a reconcile leaves the
      realms alone, and what the reconcile knows of them. */
  lemma DevKeepsRealms(s: State, d: DevStep)
    requires DevEnabled(s, d) && !d.DevRead? && !d.DevCreateRealm? && !d.DevDeleteRealm?
    ensures DoDev(s, d).realms == s.realms && SameReconcile(s.dev, DoDev(s, d).dev)
  {
    if d.DevMark? {
      MarkKeepsRealms(s, s.dev, d.landing, d.acked);
    } else if d.DevUpdate? || d.DevReleaseUser? || d.DevGiveUp? {
      WritesKeepRealms(s, d);
    } else {
      ObjectsKeepRealms(s, d);
    }
  }

  predicate SameReconcile(v: DevWorker, w: DevWorker) {
    w.DevBusy? ==>
      v.DevBusy? && w.uid == v.uid && w.seen == v.seen && w.made == v.made && w.realmGone == v.realmGone
  }

  lemma MarkKeepsRealms(s: State, w: DevWorker, landing: Mark, acked: bool)
    requires w.DevBusy? && DevBusyEnabled(s, w, DevMark(landing, acked))
    ensures DoDevBusy(s, w, DevMark(landing, acked)).realms == s.realms
    ensures SameReconcile(w, DoDevBusy(s, w, DevMark(landing, acked)).dev)
  {
  }

  lemma WritesKeepRealms(s: State, d: DevStep)
    requires DevEnabled(s, d) && (d.DevUpdate? || d.DevReleaseUser? || d.DevGiveUp?)
    ensures DoDev(s, d).realms == s.realms && SameReconcile(s.dev, DoDev(s, d).dev)
  {
  }

  lemma ObjectsKeepRealms(s: State, d: DevStep)
    requires DevEnabled(s, d)
    requires d.DevCreateClient? || d.DevFetchSecret? || d.DevFindObject? || d.DevCreateObject? ||
             d.DevSeeReady? || d.DevDeleteObject?
    ensures DoDev(s, d).realms == s.realms && DoDev(s, d).devs == s.devs
    ensures SameReconcile(s.dev, DoDev(s, d).dev)
  {
  }

  lemma CreateKeepsSession(s: State, d: DevStep)
    requires Owned(s) && DevEnabled(s, d) && d.DevCreateRealm?
    ensures SessionHonest(DoDev(s, d))
  {
    var made := DoDev(s, d).past.made;
    var m := Made(s.dev.uid, d.id, s.dev.mark == Landed);
    assert made[|made| - 1] == m;
  }

  lemma DevKeepsHonest(s: State, d: DevStep)
    requires Owned(s) && DevEnabled(s, d) && "" !in DoDev(s, d).realms
    ensures AllHonest(DoDev(s, d))
  {
    var t := DoDev(s, d);
    DevMovesRealmsOn(s, d);
    if d.DevMark? && d.landing == Landed {
      DevShapes(s.devs[s.dev.uid], s.dev.version);
      StoredStayHonest(s, t, s.dev.uid, s.dev.seen.(phase := RealmProvisioning));
    } else if d.DevUpdate? {
      ResultHonest(s);
      StoredStayHonest(s, t, s.dev.uid, Result(s.dev));
    } else {
      OtherDevStepsKeepDevs(s, d);
      SameDevsHonest(s, t);
    }
  }

  lemma OtherDevStepsKeepDevs(s: State, d: DevStep)
    requires DevEnabled(s, d) && !(d.DevMark? && d.landing == Landed) && !d.DevUpdate?
    ensures DoDev(s, d).devs == s.devs
  {
  }

  lemma ResultHonest(s: State)
    requires Owned(s) && DevEnabled(s, DevUpdate)
    ensures Honest(DoDev(s, DevUpdate), s.dev.uid, Result(s.dev))
  {
    assert Honest(s, s.dev.uid, s.devs[s.dev.uid][s.dev.version]);
  }

  lemma DevKeepsOwned(s: State, d: DevStep)
    requires Owned(s) && DevEnabled(s, d)
    ensures Owned(DoDev(s, d))
  {
    DevKeepsBasic(s, d);
    DevKeepsMade(s, d);
    DevKeepsHonest(s, d);
    DevKeepsSession(s, d);
  }

  lemma UserKeepsOwned(s: State, u: UserStep)
    requires Owned(s) && UserEnabled(s, u)
    ensures Owned(DoUser(s, u))
  {
    var t := DoUser(s, u);
    UserKeepsBasic(s, u);
    UserKeepsRealmNames(s, u, t);
    OnlyReleaseMovesDevs(s, u, t);
    if u.UserRelease? && u.landed {
      var i := s.user.items[0];
      assert ListedItem(s, i) && Honest(s, i.uid, s.devs[i.uid][i.version]);
      StoredStayHonest(s, t, i.uid, i.dev.(phase := Prepare));
    } else {
      SameDevsHonest(s, t);
    }
  }

  lemma UserKeepsRealmNames(s: State, u: UserStep, t: State)
    requires UserEnabled(s, u) && t == DoUser(s, u)
    ensures t.realms.Keys == s.realms.Keys && t.past == s.past && t.dev == s.dev
  {
    if u.UserWrite? {
      WriteKeepsRealmNames(s, u, t);
    } else {
      OthersKeepRealms(s, u, t);
    }
  }

  lemma WriteKeepsRealmNames(s: State, u: UserStep, t: State)
    requires UserEnabled(s, u) && t == DoUser(s, u) && u.UserWrite?
    ensures t.realms.Keys == s.realms.Keys && t.past == s.past && t.dev == s.dev
  {
  }

  lemma OthersKeepRealms(s: State, u: UserStep, t: State)
    requires UserEnabled(s, u) && t == DoUser(s, u) && !u.UserWrite?
    ensures t.realms == s.realms && t.past == s.past && t.dev == s.dev
  {
  }

  lemma OnlyReleaseMovesDevs(s: State, u: UserStep, t: State)
    requires UserEnabled(s, u) && t == DoUser(s, u)
    ensures (u.UserRelease? && u.landed) || t.devs == s.devs
  {
  }

  lemma StepKeepsOwned(s: State, t: State)
    requires Owned(s) && Next(s, t)
    ensures Owned(t)
  {
    var step :| Enabled(s, step) && t == Do(s, step);
    match step
    case Env(e) => EnvKeepsOwned(s, e);
    case OfDev(d) => DevKeepsOwned(s, d);
    case OfUser(u) => UserKeepsOwned(s, u);
  }

  lemma RunIsOwned(run: seq<State>, n: nat)
    requires IsRun(run) && n < |run|
    ensures Owned(run[n])
  {
    var inv := (s: State) => Owned(s);
    var along := (s: State) => true;
    InitBasic(run[0]);
    forall s, t | inv(s) && Next(s, t) && along(s) && along(t) ensures inv(t) {
      StepKeepsOwned(s, t);
    }
    RunKeeps(run, 0, n, inv, along);
  }

  /** No two RhpamDevs ever record the same realm, in whatever versions. */
  lemma RealmsAreNotShared(run: seq<State>, n: nat, uid: nat, i: nat, vid: nat, j: nat)
    requires IsRun(run) && n < |run|
    requires uid in run[n].devs && i < |run[n].devs[uid]| && vid in run[n].devs && j < |run[n].devs[vid]|
    requires run[n].devs[uid][i].realm == run[n].devs[vid][j].realm != ""
    ensures uid == vid
  {
    RunIsOwned(run, n);
    OneOwner(run[n], uid, i, vid, j);
  }

  lemma OneOwner(s: State, uid: nat, i: nat, vid: nat, j: nat)
    requires Owned(s) && uid in s.devs && i < |s.devs[uid]| && vid in s.devs && j < |s.devs[vid]|
    requires s.devs[uid][i].realm == s.devs[vid][j].realm != ""
    ensures uid == vid
  {
    assert Honest(s, uid, s.devs[uid][i]) && Honest(s, vid, s.devs[vid][j]);
    var realm := s.devs[uid][i].realm;
    var a :| a in s.past.made && a.uid == uid && a.realm == realm;
    var b :| b in s.past.made && b.uid == vid && b.realm == realm;
    var k, l :| 0 <= k < |s.past.made| && 0 <= l < |s.past.made| && s.past.made[k] == a && s.past.made[l] == b;
    assert k == l;
  }

  // --------------------------------------------------- recorded realms are there

  ghost predicate Stands(d: Dev, realms: map<string, Realm>) {
    !d.deleting && d.realm != "" ==> d.realm in realms
  }

  ghost predicate LatestStands(s: State, uid: nat) {
    uid in s.devs && s.devs[uid] != [] ==> Stands(LatestDev(s, uid), s.realms)
  }

  /** The realm a RhpamDev records, or a reconcile has made, is there. */
  ghost predicate RealmsStand(s: State) {
    && (forall uid :: LatestStands(s, uid))
    && (s.dev.DevBusy? && s.dev.made.Some? ==> s.dev.made.value in s.realms)
  }

  lemma OtherLatestStand(s: State, t: State, uid: nat)
    requires forall v :: LatestStands(s, v)
    requires forall r | r in s.realms :: r in t.realms
    requires forall v | v in t.devs && v != uid :: v in s.devs && t.devs[v] == s.devs[v]
    requires LatestStands(t, uid)
    ensures forall v :: LatestStands(t, v)
  {
    forall v ensures LatestStands(t, v) {
      assert LatestStands(s, v);
    }
  }

  lemma SameLatestStand(s: State, t: State)
    requires forall v :: LatestStands(s, v)
    requires t.devs == s.devs && forall r | r in s.realms :: r in t.realms
    ensures forall v :: LatestStands(t, v)
  {
    forall v ensures LatestStands(t, v) {
      assert LatestStands(s, v);
    }
  }

  lemma EnvKeepsStanding(s: State, e: EnvStep)
    requires Owned(s) && RealmsStand(s) && EnvEnabled(s, e)
    ensures RealmsStand(DoEnv(s, e))
  {
    var t := DoEnv(s, e);
    if e.CreateDev? || e.TouchDev? || e.RequestDevDeletion? {
      assert LatestStands(s, e.uid);
      OtherLatestStand(s, t, e.uid);
    } else {
      SameLatestStand(s, t);
    }
  }

  lemma DevKeepsStanding(s: State, d: DevStep)
    requires Owned(s) && RealmsStand(s) && DevEnabled(s, d)
    ensures RealmsStand(DoDev(s, d))
  {
    if d.DevDeleteRealm? {
      DeletionKeepsStanding(s, d);
    } else if d.DevMark? && d.landing == Landed {
      DevShapes(s.devs[s.dev.uid], s.dev.version);
      OtherLatestStand(s, DoDev(s, d), s.dev.uid);
    } else if d.DevUpdate? {
      assert LatestStands(s, s.dev.uid);
      OtherLatestStand(s, DoDev(s, d), s.dev.uid);
    } else {
      OtherStepsLoseNoRealm(s, d);
      SameLatestStand(s, DoDev(s, d));
    }
  }

  /** Only a RhpamDev that is being deleted names the realm deleted. */
  lemma DeletionKeepsStanding(s: State, d: DevStep)
    requires Owned(s) && RealmsStand(s) && DevEnabled(s, d) && d.DevDeleteRealm?
    ensures RealmsStand(DoDev(s, d))
  {
    var w, t := s.dev, DoDev(s, d);
    forall v ensures LatestStands(t, v) {
      assert LatestStands(s, v);
      if v in s.devs && s.devs[v] != [] && LatestDev(s, v).realm == w.seen.realm {
        OneOwner(s, w.uid, w.version, v, |s.devs[v]| - 1);
        DevOnlyForward(s.devs[v], w.version, |s.devs[v]| - 1);
      }
    }
  }

  lemma OtherStepsLoseNoRealm(s: State, d: DevStep)
    requires RealmsStand(s) && DevEnabled(s, d)
    requires !d.DevDeleteRealm? && !d.DevUpdate? && !(d.DevMark? && d.landing == Landed)
    ensures DoDev(s, d).devs == s.devs && forall r | r in s.realms :: r in DoDev(s, d).realms
    ensures DoDev(s, d).dev.DevBusy? && DoDev(s, d).dev.made.Some? ==> DoDev(s, d).dev.made.value in DoDev(s, d).realms
  {
    if !d.DevRead? && !d.DevCreateRealm? && !d.DevMark? && !d.DevReleaseUser? && !d.DevGiveUp? {
      ObjectsKeepRealms(s, d);
    }
  }

  lemma UserKeepsStanding(s: State, u: UserStep)
    requires Owned(s) && RealmsStand(s) && UserEnabled(s, u)
    ensures RealmsStand(DoUser(s, u))
  {
    var t := DoUser(s, u);
    UserKeepsRealmNames(s, u, t);
    if u.UserRelease? && u.landed {
      var i := s.user.items[0];
      assert ListedItem(s, i) && LatestStands(s, i.uid);
      OtherLatestStand(s, t, i.uid);
    } else {
      OnlyReleaseMovesDevs(s, u, t);
      SameLatestStand(s, t);
    }
  }

  lemma StepKeepsStanding(s: State, t: State)
    requires Owned(s) && RealmsStand(s) && Next(s, t)
    ensures RealmsStand(t)
  {
    var step :| Enabled(s, step) && t == Do(s, step);
    match step
    case Env(e) => EnvKeepsStanding(s, e);
    case OfDev(d) => DevKeepsStanding(s, d);
    case OfUser(u) => UserKeepsStanding(s, u);
  }

  lemma RunKeepsStanding(run: seq<State>, n: nat)
    requires IsRun(run) && n < |run|
    ensures RealmsStand(run[n])
  {
    var inv := (s: State) => RealmsStand(s);
    var along := (s: State) => Owned(s);
    forall k | 0 <= k <= n ensures along(run[k]) {
      RunIsOwned(run, k);
    }
    forall s, t | inv(s) && Next(s, t) && along(s) && along(t) ensures inv(t) {
      StepKeepsStanding(s, t);
    }
    RunKeeps(run, 0, n, inv, along);
  }

  /** In every run the realm that a RhpamDev records is there, until the RhpamDev
      is deleted. */
  lemma RecordedRealmStands(run: seq<State>, n: nat, uid: nat)
    requires IsRun(run) && n < |run| && uid in run[n].devs && run[n].devs[uid] != []
    requires !LatestDev(run[n], uid).deleting && LatestDev(run[n], uid).realm != ""
    ensures LatestDev(run[n], uid).realm in run[n].realms
  {
    RunKeepsStanding(run, n);
    assert LatestStands(run[n], uid);
  }
}
