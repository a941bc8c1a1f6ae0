/** Once a RhpamDev is deprovisioned, nothing is bound to its realm again. */
module Teardown {
  import opened ApiServer
  import opened DevPhaseHandler
  import opened Ownership
  import opened Prelude
  import opened Protocol
  import opened ProtocolSafety

  // ------------------------------------------------------ after a deprovisioning

  /** The realm has ended: no server has it, no RhpamDev that is still there names
      it, its users are "deprovisioned" or gone, and nobody is about to bind one. */
  ghost predicate RealmEnded(s: State, realm: string) {
    && realm != "" && realm in s.past.created && realm !in s.realms
    && (forall uid :: Freed(s, uid, realm))
    && (forall uid :: Unnamed(s, uid, realm))
    && (s.dev.DevBusy? ==> s.dev.made != Some(realm))
    && (s.user.UserBusy? ==> NotBindingTo(s.user, realm))
  }

  ghost predicate Unnamed(s: State, uid: nat, realm: string) {
    uid in s.devs && s.devs[uid] != [] && LatestDev(s, uid).realm == realm ==> DevGone(LatestDev(s, uid))
  }

  ghost predicate NotBindingTo(w: UserWorker, realm: string)
    requires w.UserBusy?
  {
    && (forall i | i in w.items && i.dev.realm == realm :: !Binding(i.dev.phase))
    && (w.copy.realm == realm ==> w.copy == w.seen)
  }

  /** A deprovisioned RhpamDev whose users are freed has ended its realm, whenever
      neither controller is at work. */
  lemma DeprovisioningEndsRealm(run: seq<State>, n: nat, uid: nat)
    requires IsRun(run) && n < |run| && run[n].dev == DevIdle && run[n].user == UserIdle
    requires uid in run[n].devs && run[n].devs[uid] != []
    requires LatestDev(run[n], uid).phase == Deprovisioned
    requires forall u :: Freed(run[n], u, LatestDev(run[n], uid).realm)
    ensures RealmEnded(run[n], LatestDev(run[n], uid).realm)
  {
    var s, d := run[n], LatestDev(run[n], uid);
    RunIsOwned(run, n);
    DevShapes(s.devs[uid], |s.devs[uid]| - 1);
    assert Honest(s, uid, s.devs[uid][|s.devs[uid]| - 1]);
    forall v ensures Unnamed(s, v, d.realm) {
      if v in s.devs && s.devs[v] != [] && LatestDev(s, v).realm == d.realm {
        OneOwner(s, uid, |s.devs[uid]| - 1, v, |s.devs[v]| - 1);
        DeprovisionedIsGone(s.devs[uid], |s.devs[uid]| - 1);
      }
    }
  }

  /** A calm reconcile of a RhpamDev that is being deleted ends its realm, if no
      reconcile of a RhpamUser is under way. */
  lemma ReconcileEndsRealm(run: seq<State>, m: nat, n: nat, uid: nat)
    requires IsRun(run) && m <= n < |run| && run[n].dev == DevIdle && run[n].user == UserIdle
    requires uid in run[m].devs && run[m].devs[uid] != []
    requires LatestDev(run[m], uid).deleting && LatestDev(run[m], uid).realm in run[m].realms
    requires Turned(run[m], run[n], uid, "") && TornDownCleanly(run[m], run[n], uid)
    ensures RealmEnded(run[n], LatestDev(run[m], uid).realm)
  {
    DeprovisioningEndsRealm(run, n, uid);
  }

  lemma {:induction false} DeprovisionedIsGone(log: seq<Dev>, i: nat)
    requires DevLog(log) && i < |log| && log[i].phase == Deprovisioned
    ensures DevGone(log[i])
  {
    assert i > 0 ==> DevEvolves(log[i - 1], log[i]);
    if log[i - 1].phase == Deprovisioned {
      DeprovisionedIsGone(log, i - 1);
    }
  }

  /** Not a listing that shows the realm's RhpamDev in a phase to bind to. */
  ghost predicate Harmless(step: Step, realm: string) {
    step.OfUser? && step.u.UserList? ==>
      forall i | i in step.u.items && i.dev.realm == realm :: !Binding(i.dev.phase)
  }

  /** An up-to-date listing is harmless. */
  lemma UpToDateIsHarmless(s: State, items: seq<Item>, realm: string)
    requires RealmEnded(s, realm) && UserEnabled(s, UserList(items))
    requires forall i | i in items :: IsLatest(s.devs, i.uid, i.version) && !DevGone(i.dev)
    ensures Harmless(OfUser(UserList(items)), realm)
  {
    forall i | i in items ensures i.dev.realm != realm {
      assert Unnamed(s, i.uid, realm);
    }
  }

  lemma NewUserVersionFreed(s: State, t: State, uid: nat, u: User, realm: string)
    requires forall v :: Freed(s, v, realm)
    requires uid in s.users && t.users == Append(s.users, uid, u)
    requires u.realm == realm ==> u.phase == Deprovisioned || UserGone(u)
    ensures forall v :: Freed(t, v, realm)
  {
    forall v ensures Freed(t, v, realm) {
      assert Freed(s, v, realm);
    }
  }

  lemma NewDevVersionUnnamed(s: State, t: State, uid: nat, d: Dev, realm: string)
    requires forall v :: Unnamed(s, v, realm)
    requires uid in s.devs && t.devs == Append(s.devs, uid, d) && d.realm != realm
    ensures forall v :: Unnamed(t, v, realm)
  {
    forall v ensures Unnamed(t, v, realm) {
      assert Unnamed(s, v, realm);
    }
  }

  lemma SameStored(s: State, t: State, realm: string)
    ensures t.users == s.users && (forall v :: Freed(s, v, realm)) ==> forall v :: Freed(t, v, realm)
    ensures t.devs == s.devs && (forall v :: Unnamed(s, v, realm)) ==> forall v :: Unnamed(t, v, realm)
  {
    if t.users == s.users && forall v :: Freed(s, v, realm) {
      forall v ensures Freed(t, v, realm) {
        assert Freed(s, v, realm);
      }
    }
    if t.devs == s.devs && forall v :: Unnamed(s, v, realm) {
      forall v ensures Unnamed(t, v, realm) {
        assert Unnamed(s, v, realm);
      }
    }
  }

  lemma EnvKeepsEnded(s: State, e: EnvStep, realm: string)
    requires Basic(s) && RealmEnded(s, realm) && EnvEnabled(s, e)
    ensures RealmEnded(DoEnv(s, e), realm)
  {
    var t := DoEnv(s, e);
    SameStored(s, t, realm);
    if e.TouchUser? || e.RequestUserDeletion? {
      assert Freed(s, e.uid, realm);
      var u := s.users[e.uid][|s.users[e.uid]| - 1];
      NewUserVersionFreed(s, t, e.uid, if e.TouchUser? then u else u.(deleting := true), realm);
    } else if e.TouchDev? || e.RequestDevDeletion? {
      assert Unnamed(s, e.uid, realm);
      var d := LatestDev(s, e.uid);
      NewDevVersionUnnamed(s, t, e.uid, if e.TouchDev? then d else d.(deleting := true), realm);
    } else {
      NewObjectsKeepEnded(s, e, realm);
    }
  }

  lemma NewObjectsKeepEnded(s: State, e: EnvStep, realm: string)
    requires RealmEnded(s, realm) && EnvEnabled(s, e) && (e.CreateDev? || e.CreateRhpamUser? || e.SetReady?)
    ensures RealmEnded(DoEnv(s, e), realm)
  {
    var t := DoEnv(s, e);
    forall v ensures Freed(t, v, realm) {
      assert Freed(s, v, realm);
    }
    forall v ensures Unnamed(t, v, realm) {
      assert Unnamed(s, v, realm);
    }
  }

  lemma DevKeepsEnded(s: State, d: DevStep, realm: string)
    requires Owned(s) && RealmEnded(s, realm) && DevEnabled(s, d)
    ensures RealmEnded(DoDev(s, d), realm)
  {
    if d.DevMark? && d.landing == Landed {
      MarkKeepsEnded(s, d, realm);
    } else if d.DevUpdate? {
      UpdateKeepsEnded(s, realm);
    } else if d.DevReleaseUser? {
      ReleaseKeepsEnded(s, d, realm);
    } else {
      OtherDevStepsKeepEnded(s, d, realm);
      SameStored(s, DoDev(s, d), realm);
    }
  }

  lemma MarkKeepsEnded(s: State, d: DevStep, realm: string)
    requires Owned(s) && RealmEnded(s, realm) && DevEnabled(s, d) && d.DevMark? && d.landing == Landed
    ensures RealmEnded(DoDev(s, d), realm)
  {
    DevShapes(s.devs[s.dev.uid], s.dev.version);
    SameStored(s, DoDev(s, d), realm);
    NewDevVersionUnnamed(s, DoDev(s, d), s.dev.uid, s.dev.seen.(phase := RealmProvisioning), realm);
  }

  lemma UpdateKeepsEnded(s: State, realm: string)
    requires Owned(s) && RealmEnded(s, realm) && DevEnabled(s, DevUpdate)
    ensures RealmEnded(DoDev(s, DevUpdate), realm)
  {
    assert Unnamed(s, s.dev.uid, realm);
    SameStored(s, DoDev(s, DevUpdate), realm);
    NewDevVersionUnnamed(s, DoDev(s, DevUpdate), s.dev.uid, Result(s.dev), realm);
  }

  lemma ReleaseKeepsEnded(s: State, d: DevStep, realm: string)
    requires Owned(s) && RealmEnded(s, realm) && DevEnabled(s, d) && d.DevReleaseUser?
    ensures RealmEnded(DoDev(s, d), realm)
  {
    SameStored(s, DoDev(s, d), realm);
    NewUserVersionFreed(s, DoDev(s, d), d.uid, s.users[d.uid][d.version].(phase := Deprovisioned), realm);
  }

  predicate TouchesRealms(d: DevStep) {
    d.DevCreateRealm? || d.DevCreateClient? || d.DevFetchSecret? || d.DevDeleteRealm?
  }

  lemma OtherDevStepsKeepEnded(s: State, d: DevStep, realm: string)
    requires RealmEnded(s, realm) && DevEnabled(s, d)
    requires !(d.DevMark? && d.landing == Landed) && !d.DevUpdate? && !d.DevReleaseUser?
    ensures SameStore(s, DoDev(s, d))
    ensures StillAway(DoDev(s, d), realm)
  {
    if TouchesRealms(d) {
      RealmStepKeepsEnded(s, d, realm);
    } else if TouchesObjects(d) {
      ObjectStepKeepsEnded(s, d, realm);
    } else {
      PlainStepKeepsEnded(s, d, realm);
    }
  }

  ghost predicate SameStore(s: State, t: State) {
    t.devs == s.devs && t.users == s.users && t.user == s.user
  }

  ghost predicate StillAway(s: State, realm: string) {
    && realm in s.past.created && realm !in s.realms
    && (s.dev.DevBusy? ==> s.dev.made != Some(realm))
  }

  lemma RealmStepKeepsEnded(s: State, d: DevStep, realm: string)
    requires StillAway(s, realm) && DevEnabled(s, d) && TouchesRealms(d)
    ensures SameStore(s, DoDev(s, d)) && StillAway(DoDev(s, d), realm)
  {
  }

  predicate TouchesObjects(d: DevStep) {
    d.DevFindObject? || d.DevCreateObject? || d.DevDeleteObject? || d.DevSeeReady?
  }

  lemma ObjectStepKeepsEnded(s: State, d: DevStep, realm: string)
    requires StillAway(s, realm) && DevEnabled(s, d) && TouchesObjects(d)
    ensures SameStore(s, DoDev(s, d)) && StillAway(DoDev(s, d), realm)
  {
  }

  lemma PlainStepKeepsEnded(s: State, d: DevStep, realm: string)
    requires StillAway(s, realm) && DevEnabled(s, d)
    requires d.DevRead? || d.DevGiveUp? || (d.DevMark? && d.landing == NotLanded)
    ensures SameStore(s, DoDev(s, d)) && StillAway(DoDev(s, d), realm)
  {
  }

  lemma UserKeepsEnded(s: State, u: UserStep, realm: string)
    requires Basic(s) && RealmEnded(s, realm) && UserEnabled(s, u) && Harmless(OfUser(u), realm)
    ensures RealmEnded(DoUser(s, u), realm)
  {
    var t := DoUser(s, u);
    SameStored(s, t, realm);
    UserKeepsRealmNames(s, u, t);
    OnlyReleaseMovesDevs(s, u, t);
    if u.UserRelease? && u.landed {
      var i := s.user.items[0];
      assert ListedItem(s, i);
      NewDevVersionUnnamed(s, t, i.uid, i.dev.(phase := Prepare), realm);
      UserStaysAway(s, u, realm);
    } else if u.UserUpdate? {
      UserUpdateKeepsFreed(s, u, realm);
    } else {
      UserStaysAway(s, u, realm);
    }
  }

  lemma UserUpdateKeepsFreed(s: State, u: UserStep, realm: string)
    requires Basic(s) && RealmEnded(s, realm) && UserEnabled(s, u) && u.UserUpdate?
    ensures forall v :: Freed(DoUser(s, u), v, realm)
  {
    var w := s.user;
    assert Freed(s, w.uid, realm);
    UserShapes(s.users[w.uid], w.version);
    NewUserVersionFreed(s, DoUser(s, u), w.uid, UserResult(w, u.failed), realm);
  }

  lemma UserStaysAway(s: State, u: UserStep, realm: string)
    requires RealmEnded(s, realm) && UserEnabled(s, u) && Harmless(OfUser(u), realm) && !u.UserUpdate?
    ensures DoUser(s, u).users == s.users
    ensures DoUser(s, u).user.UserBusy? ==> NotBindingTo(DoUser(s, u).user, realm)
  {
    if s.user.UserBusy? && !u.UserList? {
      OthersStayAway(s, u, realm);
    }
  }

  lemma OthersStayAway(s: State, u: UserStep, realm: string)
    requires s.user.UserBusy? && NotBindingTo(s.user, realm) && UserEnabled(s, u)
    requires !u.UserUpdate? && !u.UserList?
    ensures DoUser(s, u).users == s.users
    ensures DoUser(s, u).user.UserBusy? ==> NotBindingTo(DoUser(s, u).user, realm)
  {
    if u.UserPass? || u.UserBind? || u.UserRelease? {
      ConsideringStaysAway(s, u, realm);
    }
  }

  lemma ConsideringStaysAway(s: State, u: UserStep, realm: string)
    requires s.user.UserBusy? && NotBindingTo(s.user, realm) && UserEnabled(s, u)
    requires u.UserPass? || u.UserBind? || u.UserRelease?
    ensures DoUser(s, u).users == s.users && NotBindingTo(DoUser(s, u).user, realm)
  {
    assert forall i | i in s.user.items[1..] :: i in s.user.items;
  }

  /** A step keeps a realm ended exactly if it is no listing that shows its RhpamDev
      in a phase to bind to. */
  lemma StepKeepsEndedIff(s: State, step: Step, realm: string)
    requires Owned(s) && RealmEnded(s, realm) && Enabled(s, step)
    ensures RealmEnded(Do(s, step), realm) <==> Harmless(step, realm)
  {
    match step
    case Env(e) => EnvKeepsEnded(s, e, realm);
    case OfDev(d) => DevKeepsEnded(s, d, realm);
    case OfUser(u) =>
      if Harmless(step, realm) {
        UserKeepsEnded(s, u, realm);
      } else {
        HarmEndsIt(s, u, realm);
      }
  }

  lemma HarmEndsIt(s: State, u: UserStep, realm: string)
    requires UserEnabled(s, u) && !Harmless(OfUser(u), realm)
    ensures !RealmEnded(DoUser(s, u), realm)
  {
  }

  ghost predicate NextHarmless(s: State, t: State, realm: string) {
    exists step :: Enabled(s, step) && t == Do(s, step) && Harmless(step, realm)
  }

  /** A step of a run that is harmless for the realm. */
  ghost predicate HarmlessTo(run: seq<State>, n: nat, realm: string)
    requires 0 < n < |run|
  {
    NextHarmless(run[n - 1], run[n], realm)
  }

  /** Teardown isolation: once a realm has ended it stays so, no user being bound to
      it again and nobody making it anew, as long as no listing shows the
      RhpamDev that it belonged to as complete or "realm provisioned". */
  lemma {:induction false} TeardownIsolation(run: seq<State>, m: nat, n: nat, realm: string)
    requires IsRun(run) && m <= n < |run| && RealmEnded(run[m], realm)
    requires forall k | m < k <= n :: HarmlessTo(run, k, realm)
    ensures RealmEnded(run[n], realm)
    decreases n
  {
    if m < n {
      TeardownIsolation(run, m, n - 1, realm);
      RunIsOwned(run, n - 1);
      assert HarmlessTo(run, n, realm);
      var step :| Enabled(run[n - 1], step) && run[n] == Do(run[n - 1], step) && Harmless(step, realm);
      StepKeepsEndedIff(run[n - 1], step, realm);
    }
  }

  /** Deleting a "deprovisioned" user takes no Keycloak call: all such a reconcile
      can do is clear the finalizers, which ends the object. */
  lemma FreedUserJustGoes(run: seq<State>, n: nat, u: UserStep)
    requires IsRun(run) && n < |run| && run[n].user.UserBusy?
    requires run[n].user.seen.deleting && run[n].user.seen.phase == Deprovisioned
    requires UserEnabled(run[n], u) && !u.UserGiveUp?
    ensures u.UserUpdate? && DoUser(run[n], u).realms == run[n].realms
    ensures UserGone(DoUser(run[n], u).users[run[n].user.uid][run[n].user.version + 1])
  {
    RunIsOwned(run, n);
  }
}
