/** Exactly when a RhpamDev or a RhpamUser that is being deleted can still go. */
module Deletion {
  import opened Conservation
  import opened Ownership
  import opened Protocol
  import opened ProtocolSafety
  import opened Recovery
  import opened Scenarios

  // ---------------------------------------------------------------- RhpamDevs

  /** A reconcile has deleted the realm and knows the RhpamDev's latest version. */
  predicate Ending(s: State, uid: nat) {
    s.dev.DevBusy? && s.dev.uid == uid && s.dev.seen.deleting && s.dev.realmGone && IsLatest(s.devs, uid, s.dev.base)
  }

  predicate BeingDeleted(s: State, uid: nat) {
    uid in s.devs && s.devs[uid] != [] && LatestDev(s, uid).deleting && !DevGone(LatestDev(s, uid))
  }

  /** The realm is gone, and so is the chance to store that. */
  ghost predicate Orphaned(s: State, uid: nat) {
    BeingDeleted(s, uid) && LatestDev(s, uid).realm !in s.realms && !Ending(s, uid)
  }

  /** Whatever version a reconcile has read, its realm is the latest one's or none. */
  lemma SeenRealm(s: State, uid: nat)
    requires Basic(s) && Orphaned(s, uid) && s.dev.DevBusy? && s.dev.uid == uid
    ensures s.dev.seen.realm !in s.realms
    ensures IsLatest(s.devs, uid, s.dev.base) ==> s.dev.seen.deleting
  {
    DevOnlyForward(s.devs[uid], s.dev.version, |s.devs[uid]| - 1);
  }

  lemma EnvKeepsOrphaned(s: State, e: EnvStep, uid: nat)
    requires Basic(s) && Orphaned(s, uid) && EnvEnabled(s, e)
    ensures Orphaned(DoEnv(s, e), uid)
  {
  }

  lemma DevKeepsOrphaned(s: State, d: DevStep, uid: nat)
    requires Basic(s) && Orphaned(s, uid) && DevEnabled(s, d)
    ensures Orphaned(DoDev(s, d), uid)
  {
    if s.dev.DevBusy? && s.dev.uid == uid {
      SeenRealm(s, uid);
    }
    if d.DevCreateRealm? || d.DevDeleteRealm? {
      RealmStepKeepsOrphaned(s, d, uid);
    } else if (d.DevMark? && d.landing == Landed) || d.DevUpdate? {
      WriteKeepsOrphaned(s, d, uid);
    } else {
      OthersKeepOrphaned(s, d, uid);
    }
  }

  lemma RealmStepKeepsOrphaned(s: State, d: DevStep, uid: nat)
    requires Basic(s) && Orphaned(s, uid) && DevEnabled(s, d) && (d.DevCreateRealm? || d.DevDeleteRealm?)
    requires s.dev.uid == uid ==> s.dev.seen.realm !in s.realms
    ensures Orphaned(DoDev(s, d), uid)
  {
    var latest := s.devs[uid][|s.devs[uid]| - 1];
    assert latest.realm == "" || latest.realm in s.past.created;
  }

  lemma WriteKeepsOrphaned(s: State, d: DevStep, uid: nat)
    requires Basic(s) && Orphaned(s, uid) && DevEnabled(s, d)
    requires (d.DevMark? && d.landing == Landed) || d.DevUpdate?
    requires s.dev.uid == uid && IsLatest(s.devs, uid, s.dev.base) ==> s.dev.seen.deleting
    ensures Orphaned(DoDev(s, d), uid)
  {
    assert s.dev.uid != uid;
  }

  lemma OthersKeepOrphaned(s: State, d: DevStep, uid: nat)
    requires Orphaned(s, uid) && DevEnabled(s, d) && !d.DevCreateRealm? && !d.DevDeleteRealm?
    requires !(d.DevMark? && d.landing == Landed) && !d.DevUpdate?
    ensures Orphaned(DoDev(s, d), uid)
  {
    if d.DevMark? || d.DevRead? || d.DevGiveUp? || d.DevReleaseUser? {
      PlainKeepOrphaned(s, d, uid);
    } else {
      ObjectsKeepRealms(s, d);
    }
  }

  lemma PlainKeepOrphaned(s: State, d: DevStep, uid: nat)
    requires Orphaned(s, uid) && DevEnabled(s, d)
    requires (d.DevMark? && d.landing == NotLanded) || d.DevRead? || d.DevGiveUp? || d.DevReleaseUser?
    ensures Orphaned(DoDev(s, d), uid)
  {
  }

  lemma UserKeepsOrphaned(s: State, u: UserStep, uid: nat)
    requires Basic(s) && Orphaned(s, uid) && UserEnabled(s, u)
    ensures Orphaned(DoUser(s, u), uid)
  {
    UserLeavesClients(s, u);
    if u.UserRelease? && u.landed {
      ReleaseKeepsOrphaned(s, s.user.items[0], uid);
    } else {
      OnlyReleaseMovesDevs(s, u, DoUser(s, u));
    }
  }

  lemma ReleaseKeepsOrphaned(s: State, i: Item, uid: nat)
    requires Basic(s) && Orphaned(s, uid) && s.user.UserBusy? && i in s.user.items && IsLatest(s.devs, i.uid, i.version)
    ensures Orphaned(s.(devs := Append(s.devs, i.uid, i.dev.(phase := Prepare))), uid)
  {
    assert ListedItem(s, i);
  }

  lemma StepKeepsOrphaned(s: State, t: State, uid: nat)
    requires Basic(s) && Orphaned(s, uid) && Next(s, t)
    ensures Orphaned(t, uid)
  {
    var step :| Enabled(s, step) && t == Do(s, step);
    match step
    case Env(e) => EnvKeepsOrphaned(s, e, uid);
    case OfDev(d) => DevKeepsOrphaned(s, d, uid);
    case OfUser(u) => UserKeepsOrphaned(s, u, uid);
  }

  lemma OrphanedStays(run: seq<State>, m: nat, n: nat, uid: nat)
    requires IsRun(run) && m <= n < |run| && Orphaned(run[m], uid)
    ensures Orphaned(run[n], uid)
  {
    var inv := (s: State) => Orphaned(s, uid);
    var along := (s: State) => Basic(s);
    forall k | m <= k <= n ensures along(run[k]) {
      RunStaysBasic(run, k);
    }
    forall s, t | inv(s) && Next(s, t) && along(s) && along(t) ensures inv(t) {
      StepKeepsOrphaned(s, t, uid);
    }
    RunKeeps(run, m, n, inv, along);
  }

  ghost predicate EndsIn(run: seq<State>, longer: seq<State>, uid: nat) {
    && IsRun(longer) && run <= longer
    && uid in Last(longer).devs && Last(longer).devs[uid] != [] && DevGone(LatestDev(Last(longer), uid))
  }

  lemma Stops(run: seq<State>) returns (longer: seq<State>)
    requires IsRun(run)
    ensures IsRun(longer) && run <= longer && Last(longer) == Last(run).(dev := DevIdle)
  {
    longer := run;
    if Last(run).dev.DevBusy? {
      longer := Works(run, DevGiveUp);
    }
  }

  /** The realm is deleted, and the reconcile knows the latest version. */
  lemma BeginsToEnd(run: seq<State>, uid: nat) returns (longer: seq<State>)
    requires IsRun(run) && BeingDeleted(Last(run), uid) && LatestDev(Last(run), uid).realm in Last(run).realms
    ensures IsRun(longer) && run <= longer && BeingDeleted(Last(longer), uid) && Ending(Last(longer), uid)
  {
    longer := Stops(run);
    longer := Begins(longer, uid, |Last(run).devs[uid]| - 1);
    longer := Works(longer, DevDeleteRealm);
  }

  lemma Ends(run: seq<State>, uid: nat) returns (longer: seq<State>)
    requires IsRun(run) && BeingDeleted(Last(run), uid) && Ending(Last(run), uid)
    ensures EndsIn(run, longer, uid)
  {
    RunStaysBasic(run, |run| - 1);
    longer := Works(run, DevUpdate);
  }

  /** In every run, a RhpamDev being deleted can still go, in whatever way the run goes
      on, if and only if its realm is there, or the reconcile that deleted it is at
      work and knows its latest version. */
  lemma EndsIff(run: seq<State>, uid: nat)
    requires IsRun(run) && BeingDeleted(Last(run), uid)
    ensures (exists longer :: EndsIn(run, longer, uid)) <==>
            LatestDev(Last(run), uid).realm in Last(run).realms || Ending(Last(run), uid)
  {
    if Orphaned(Last(run), uid) {
      forall longer ensures !EndsIn(run, longer, uid) {
        if IsRun(longer) && run <= longer {
          OrphanedStays(longer, |run| - 1, |longer| - 1, uid);
        }
      }
    } else {
      var ending := run;
      if !Ending(Last(run), uid) {
        ending := BeginsToEnd(run, uid);
      }
      var longer := Ends(ending, uid);
      assert EndsIn(run, longer, uid);
    }
  }

  /** A deprovisioning that has deleted the realm and then fails is never made good. */
  lemma FailsHalfWay() returns (run: seq<State>)
    ensures IsRun(run) && Orphaned(Last(run), 0) && Last(run).dev == DevIdle
  {
    run := Completes();
    run := DeletesRealm(run);
    run := Works(run, DevGiveUp);
  }

  /** And a RhpamDev deleted before it has a realm has none that could be deleted. */
  lemma DeletedTooEarly() returns (run: seq<State>)
    ensures IsRun(run) && Orphaned(Last(run), 0) && Last(run).dev == DevIdle
  {
    run := Initialized();
    run := Then(run, Env(RequestDevDeletion(0)));
    assert Last(run).devs[0] == [FRESH, ACCEPTED, ACCEPTED.(deleting := true)];
  }

  // --------------------------------------------------------------- RhpamUsers

  function LatestUser(s: State, uid: nat): User
    requires uid in s.users && s.users[uid] != []
  {
    s.users[uid][|s.users[uid]| - 1]
  }

  predicate UserBeingDeleted(s: State, uid: nat) {
    uid in s.users && s.users[uid] != [] && LatestUser(s, uid).deleting && !UserGone(LatestUser(s, uid))
  }

  /** A deprovisioning of the RhpamDev has deleted the realm and not yet ended. */
  predicate Freeing(s: State, realm: string) {
    s.dev.DevBusy? && s.dev.seen.deleting && s.dev.realmGone && s.dev.seen.realm == realm
  }

  /** The user's own reconcile, of its latest version, has got through to its realm. */
  predicate Served(s: State, uid: nat) {
    && s.user.UserBusy? && s.user.uid == uid && s.user.seen.deleting && s.user.worked
    && IsLatest(s.users, uid, s.user.version)
  }

  predicate CanGo(s: State, uid: nat)
    requires uid in s.users && s.users[uid] != []
  {
    || LatestUser(s, uid).phase == Deprovisioned
    || LatestUser(s, uid).realm in s.realms
    || Freeing(s, LatestUser(s, uid).realm)
    || Served(s, uid)
  }

  /** The user cannot be deprovisioned any more. */
  ghost predicate Stranded(s: State, uid: nat) {
    UserBeingDeleted(s, uid) && !CanGo(s, uid)
  }

  lemma EnvKeepsStranded(s: State, e: EnvStep, uid: nat)
    requires Basic(s) && Stranded(s, uid) && EnvEnabled(s, e)
    ensures Stranded(DoEnv(s, e), uid)
  {
    if e.TouchUser? {
      NewVersionKeepsStranded(s, e.uid, LatestUser(s, e.uid), uid);
    } else if e.RequestUserDeletion? {
      NewVersionKeepsStranded(s, e.uid, LatestUser(s, e.uid).(deleting := true), uid);
    }
  }

  lemma NewVersionKeepsStranded(s: State, v: nat, user: User, uid: nat)
    requires UserSession(s) && Stranded(s, uid) && v in s.users && (v == uid ==> user == LatestUser(s, uid))
    ensures Stranded(s.(users := Append(s.users, v, user)), uid)
  {
  }

  lemma DevKeepsStranded(s: State, d: DevStep, uid: nat)
    requires Basic(s) && Stranded(s, uid) && DevEnabled(s, d)
    ensures Stranded(DoDev(s, d), uid)
  {
    if d.DevCreateRealm? || d.DevDeleteRealm? {
      RealmStepKeepsStranded(s, d, uid);
    } else if d.DevReleaseUser? {
      FreeingKeepsStranded(s, d, uid);
    } else {
      OthersKeepUsers(s, d);
      if !d.DevRead? {
        DevKeepsRealms(s, d);
      }
    }
  }

  lemma RealmStepKeepsStranded(s: State, d: DevStep, uid: nat)
    requires Basic(s) && Stranded(s, uid) && DevEnabled(s, d) && (d.DevCreateRealm? || d.DevDeleteRealm?)
    ensures Stranded(DoDev(s, d), uid)
  {
    var latest := s.users[uid][|s.users[uid]| - 1];
    assert latest.realm == "" || latest.realm in s.past.created;
  }

  lemma FreeingKeepsStranded(s: State, d: DevStep, uid: nat)
    requires Basic(s) && Stranded(s, uid) && DevEnabled(s, d) && d.DevReleaseUser?
    ensures Stranded(DoDev(s, d), uid)
  {
    assert d.uid != uid;
  }

  lemma OthersKeepUsers(s: State, d: DevStep)
    requires DevEnabled(s, d) && !d.DevReleaseUser?
    ensures DoDev(s, d).users == s.users && DoDev(s, d).user == s.user
  {
  }

  lemma UserKeepsStranded(s: State, u: UserStep, uid: nat)
    requires Basic(s) && Stranded(s, uid) && UserEnabled(s, u)
    ensures Stranded(DoUser(s, u), uid)
  {
    UserLeavesClients(s, u);
    if u.UserUpdate? {
      UpdateKeepsStranded(s, u, uid);
    } else if u.UserReachRealm? {
      ReachKeepsStranded(s, u, uid);
    } else {
      OthersKeepServed(s, u, uid);
    }
  }

  /** All its own reconcile can store is that the deprovisioning failed. */
  lemma UpdateKeepsStranded(s: State, u: UserStep, uid: nat)
    requires Basic(s) && Stranded(s, uid) && UserEnabled(s, u) && u.UserUpdate?
    ensures Stranded(DoUser(s, u), uid)
  {
    if s.user.uid == uid {
      assert LatestUser(s, uid) == s.user.seen;
      assert LatestUser(DoUser(s, u), uid) == s.user.seen.(phase := DeprovisionFailed);
    }
  }

  lemma ReachKeepsStranded(s: State, u: UserStep, uid: nat)
    requires Basic(s) && Stranded(s, uid) && UserEnabled(s, u) && u.UserReachRealm?
    ensures Stranded(DoUser(s, u), uid)
  {
  }

  lemma OthersKeepServed(s: State, u: UserStep, uid: nat)
    requires UserEnabled(s, u) && !u.UserUpdate? && !u.UserReachRealm?
    ensures DoUser(s, u).users == s.users
    ensures Served(DoUser(s, u), uid) ==> Served(s, uid)
  {
    if u.UserSee? || u.UserWrite? {
      WorkKeepsServed(s, u, uid);
    }
  }

  lemma WorkKeepsServed(s: State, u: UserStep, uid: nat)
    requires UserEnabled(s, u) && (u.UserSee? || u.UserWrite?)
    ensures DoUser(s, u).users == s.users
    ensures Served(DoUser(s, u), uid) ==> Served(s, uid)
  {
  }

  lemma StepKeepsStranded(s: State, t: State, uid: nat)
    requires Basic(s) && Stranded(s, uid) && Next(s, t)
    ensures Stranded(t, uid)
  {
    var step :| Enabled(s, step) && t == Do(s, step);
    match step
    case Env(e) => EnvKeepsStranded(s, e, uid);
    case OfDev(d) => DevKeepsStranded(s, d, uid);
    case OfUser(u) => UserKeepsStranded(s, u, uid);
  }

  lemma StrandedStays(run: seq<State>, m: nat, n: nat, uid: nat)
    requires IsRun(run) && m <= n < |run| && Stranded(run[m], uid)
    ensures Stranded(run[n], uid)
  {
    var inv := (s: State) => Stranded(s, uid);
    var along := (s: State) => Basic(s);
    forall k | m <= k <= n ensures along(run[k]) {
      RunStaysBasic(run, k);
    }
    forall s, t | inv(s) && Next(s, t) && along(s) && along(t) ensures inv(t) {
      StepKeepsStranded(s, t, uid);
    }
    RunKeeps(run, m, n, inv, along);
  }

  ghost predicate UserGoesIn(run: seq<State>, longer: seq<State>, uid: nat) {
    && IsRun(longer) && run <= longer
    && uid in Last(longer).users && Last(longer).users[uid] != [] && UserGone(LatestUser(Last(longer), uid))
  }

  lemma UserStops(run: seq<State>) returns (longer: seq<State>)
    requires IsRun(run)
    ensures IsRun(longer) && run <= longer && Last(longer) == Last(run).(user := UserIdle)
  {
    longer := run;
    if Last(run).user.UserBusy? {
      longer := Serves(run, UserGiveUp);
    }
  }

  /** A fresh reconcile reads the latest version. */
  lemma UserStarts(run: seq<State>, uid: nat) returns (longer: seq<State>)
    requires IsRun(run) && UserBeingDeleted(Last(run), uid)
    ensures IsRun(longer) && run <= longer
    ensures Last(longer) == Last(run).(user := UserBegun(uid, |Last(run).users[uid]| - 1, LatestUser(Last(run), uid)))
  {
    longer := UserStops(run);
    longer := UserBegins(longer, uid, |Last(run).users[uid]| - 1);
  }

  lemma DeprovisionedGoes(run: seq<State>, uid: nat) returns (longer: seq<State>)
    requires IsRun(run) && UserBeingDeleted(Last(run), uid) && LatestUser(Last(run), uid).phase == Deprovisioned
    ensures UserGoesIn(run, longer, uid)
  {
    longer := UserStarts(run, uid);
    longer := Serves(longer, UserUpdate(false));
  }

  lemma ServedGoes(run: seq<State>, uid: nat) returns (longer: seq<State>)
    requires IsRun(run) && UserBeingDeleted(Last(run), uid) && Served(Last(run), uid)
    requires LatestUser(Last(run), uid).phase != Deprovisioned
    ensures UserGoesIn(run, longer, uid)
  {
    RunStaysBasic(run, |run| - 1);
    var stored := Serves(run, UserUpdate(false));
    longer := DeprovisionedGoes(stored, uid);
  }

  lemma FreedGoes(run: seq<State>, uid: nat) returns (longer: seq<State>)
    requires IsRun(run) && UserBeingDeleted(Last(run), uid) && Freeing(Last(run), LatestUser(Last(run), uid).realm)
    ensures UserGoesIn(run, longer, uid)
  {
    var freed := Works(run, DevReleaseUser(uid, |Last(run).users[uid]| - 1));
    longer := DeprovisionedGoes(freed, uid);
  }

  lemma ReachesAndGoes(run: seq<State>, uid: nat) returns (longer: seq<State>)
    requires IsRun(run) && UserBeingDeleted(Last(run), uid) && LatestUser(Last(run), uid).realm in Last(run).realms
    requires LatestUser(Last(run), uid).phase != Deprovisioned
    ensures UserGoesIn(run, longer, uid)
  {
    var started := UserStarts(run, uid);
    var reached := Serves(started, UserReachRealm);
    longer := ServedGoes(reached, uid);
  }

  lemma Goes(run: seq<State>, uid: nat) returns (longer: seq<State>)
    requires IsRun(run) && UserBeingDeleted(Last(run), uid) && CanGo(Last(run), uid)
    ensures UserGoesIn(run, longer, uid)
  {
    var latest := LatestUser(Last(run), uid);
    if latest.phase == Deprovisioned {
      longer := DeprovisionedGoes(run, uid);
    } else if latest.realm in Last(run).realms {
      longer := ReachesAndGoes(run, uid);
    } else if Freeing(Last(run), latest.realm) {
      longer := FreedGoes(run, uid);
    } else {
      longer := ServedGoes(run, uid);
    }
  }

  /** In every run, a RhpamUser being deleted can still go, in whatever way the run goes
      on, if and only if it is "deprovisioned", or its realm is there, or the
      reconcile of the RhpamDev that deleted the realm is at work and can free it, or
      its own reconcile of the latest version has got through to the realm. */
  lemma UserGoesIff(run: seq<State>, uid: nat)
    requires IsRun(run) && UserBeingDeleted(Last(run), uid)
    ensures (exists longer :: UserGoesIn(run, longer, uid)) <==> CanGo(Last(run), uid)
  {
    if CanGo(Last(run), uid) {
      var longer := Goes(run, uid);
    } else {
      forall longer ensures !UserGoesIn(run, longer, uid) {
        if IsRun(longer) && run <= longer {
          StrandedStays(longer, |run| - 1, |longer| - 1, uid);
        }
      }
    }
  }

  /** A user deleted after it was accepted and before it is bound never goes. */
  lemma DeletedBeforeBound() returns (run: seq<State>)
    ensures IsRun(run) && Stranded(Last(run), 0) && Last(run).user == UserIdle
  {
    run := [NOTHING];
    run := AcceptsUser(run, 0);
    run := Then(run, Env(RequestUserDeletion(0)));
    assert Last(run).users[0] == [NEW_USER, ACCEPTED_USER, ACCEPTED_USER.(deleting := true)];
  }
}
