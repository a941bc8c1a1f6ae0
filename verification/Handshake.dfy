/** A RhpamDev goes past "realm provisioned" only with its realm filled. */
module Handshake {
  import opened Protocol
  import opened ProtocolSafety
  import opened Realms

  ghost predicate HasDefaults(r: Realm) {
    DefaultRoles() <= r.roles && DefaultUsers() <= r.accounts.Keys
  }

  /** Released by the RhpamUser controller and not yet torn down. */
  predicate Released(p: Phase) {
    4 <= Rank(p) <= 9
  }

  ghost predicate FilledIfReleased(d: Dev, realms: map<string, Realm>) {
    Released(d.phase) && d.realm in realms ==> HasDefaults(realms[d.realm])
  }

  ghost predicate AllFilled(s: State) {
    forall uid, i | uid in s.devs && 0 <= i < |s.devs[uid]| :: FilledIfReleased(s.devs[uid][i], s.realms)
  }

  predicate DefaultFact(f: Fact) {
    match f
    case RoleFact(r) => r in DefaultRoles()
    case UserFact(u) => u in DefaultUsers()
    case GrantFact(_, _) => false
  }

  /** What the RhpamUser controller has seen to in the realm it fills is still there. */
  ghost predicate AcksHold(w: UserWorker, realms: map<string, Realm>) {
    Filling(w) && CurrentRealm(w) in realms ==>
      forall f | f in w.acks && DefaultFact(f) :: Holds(f, realms[CurrentRealm(w)])
  }

  ghost predicate Safe(s: State) {
    Basic(s) && AllFilled(s) && AcksHold(s.user, s.realms)
  }

  /** Each realm of `b` was there in `a`, and has lost no default since. */
  ghost predicate KeepsDefaults(a: map<string, Realm>, b: map<string, Realm>) {
    forall r | r in b :: r in a && forall f | DefaultFact(f) && Holds(f, a[r]) :: Holds(f, b[r])
  }

  lemma DefaultsByFacts(r: Realm)
    ensures HasDefaults(r) <==> forall f | DefaultFact(f) :: Holds(f, r)
  {
    if forall f | DefaultFact(f) :: Holds(f, r) {
      forall x | x in DefaultRoles() ensures x in r.roles {
        assert DefaultFact(RoleFact(x));
      }
      forall x | x in DefaultUsers() ensures x in r.accounts.Keys {
        assert DefaultFact(UserFact(x));
      }
    }
  }

  /** Losing realms, or gaining things in them, does no harm. */
  lemma RealmsChange(s: State, realms: map<string, Realm>)
    requires AllFilled(s) && KeepsDefaults(s.realms, realms)
    ensures AllFilled(s.(realms := realms))
    ensures AcksHold(s.user, s.realms) ==> AcksHold(s.user, realms)
  {
    forall uid, i | uid in s.devs && 0 <= i < |s.devs[uid]| ensures FilledIfReleased(s.devs[uid][i], realms) {
      var d := s.devs[uid][i];
      assert FilledIfReleased(d, s.realms);
      if Released(d.phase) && d.realm in realms {
        DefaultsByFacts(s.realms[d.realm]);
        DefaultsByFacts(realms[d.realm]);
      }
    }
  }

  lemma FilledAppend(s: State, uid: nat, d: Dev)
    requires AllFilled(s) && uid in s.devs && FilledIfReleased(d, s.realms)
    ensures AllFilled(s.(devs := Append(s.devs, uid, d)))
  {
  }

  lemma LatestIsFilled(s: State, uid: nat)
    requires AllFilled(s) && uid in s.devs && s.devs[uid] != []
    ensures FilledIfReleased(LatestDev(s, uid), s.realms)
  {
  }

  lemma EnvKeepsFilled(s: State, e: EnvStep)
    requires Safe(s) && EnvEnabled(s, e)
    ensures AllFilled(DoEnv(s, e)) && AcksHold(s.user, s.realms)
  {
    match e
    case TouchDev(uid) =>
      LatestIsFilled(s, uid);
      FilledAppend(s, uid, LatestDev(s, uid));
    case RequestDevDeletion(uid) =>
      LatestIsFilled(s, uid);
      FilledAppend(s, uid, LatestDev(s, uid).(deleting := true));
    case _ =>
  }

  lemma ResultIsFilled(s: State, w: DevWorker)
    requires Safe(s) && w == s.dev && w.DevBusy? && Finished(w)
    ensures FilledIfReleased(Result(w), s.realms)
  {
    assert FilledIfReleased(s.devs[w.uid][w.version], s.realms);
  }

  /** A realm just created has a name that no stored object mentions. */
  lemma NewRealmKeepsFilled(s: State, id: string, r: Realm)
    requires Safe(s) && id !in s.past.created && id != ""
    ensures AllFilled(s.(realms := s.realms[id := r]))
    ensures AcksHold(s.user, s.realms[id := r])
  {
    var realms := s.realms[id := r];
    forall uid, i | uid in s.devs && 0 <= i < |s.devs[uid]| ensures FilledIfReleased(s.devs[uid][i], realms) {
      assert FilledIfReleased(s.devs[uid][i], s.realms);
    }
    if Filling(s.user) {
      assert ListedItem(s, s.user.items[0]);
    }
  }

  lemma DevKeepsFilled(s: State, d: DevStep)
    requires Safe(s) && DevEnabled(s, d)
    ensures AllFilled(DoDev(s, d)) && AcksHold(DoDev(s, d).user, DoDev(s, d).realms)
  {
    if d.DevCreateRealm? || d.DevDeleteRealm? {
      DevRealmKeepsFilled(s, d);
    } else if d.DevMark? && d.landing == Landed {
      FilledAppend(s, s.dev.uid, s.dev.seen.(phase := RealmProvisioning));
    } else if d.DevUpdate? {
      ResultIsFilled(s, s.dev);
      FilledAppend(s, s.dev.uid, Result(s.dev));
    }
  }

  lemma DevRealmKeepsFilled(s: State, d: DevStep)
    requires Safe(s) && DevEnabled(s, d) && (d.DevCreateRealm? || d.DevDeleteRealm?)
    ensures AllFilled(DoDev(s, d)) && AcksHold(DoDev(s, d).user, DoDev(s, d).realms)
  {
    if d.DevCreateRealm? {
      NewRealmKeepsFilled(s, d.id, Realm(d.auto, map[], d.auto));
    } else {
      var t := DoDev(s, d);
      assert KeepsDefaults(s.realms, t.realms);
      RealmsChange(s, t.realms);
    }
  }

  lemma WriteKeepsDefaults(r: Realm, w: Write, f: Fact)
    requires Accepts(r, w) && Protective(w) && DefaultFact(f) && Holds(f, r)
    ensures Holds(f, Apply(r, w))
  {
  }

  lemma UserWriteKeepsFilled(s: State, u: UserStep)
    requires Safe(s) && UserEnabled(s, u) && u.UserWrite?
    ensures AllFilled(DoUser(s, u)) && AcksHold(DoUser(s, u).user, DoUser(s, u).realms)
  {
    var t := DoUser(s, u);
    var here := CurrentRealm(s.user);
    forall r | r in t.realms
      ensures r in s.realms && forall f | DefaultFact(f) && Holds(f, s.realms[r]) :: Holds(f, t.realms[r])
    {
      if r == here {
        forall f | DefaultFact(f) && Holds(f, s.realms[r]) ensures Holds(f, t.realms[r]) {
          WriteKeepsDefaults(s.realms[r], u.w, f);
        }
      }
    }
    RealmsChange(s, t.realms);
  }

  lemma AllDefaultsAcked(w: UserWorker, realms: map<string, Realm>)
    requires Filling(w) && AllDefaults(w.acks) && AcksHold(w, realms) && CurrentRealm(w) in realms
    ensures HasDefaults(realms[CurrentRealm(w)])
  {
    forall f | DefaultFact(f) ensures Holds(f, realms[CurrentRealm(w)]) {
      assert f in w.acks;
    }
    DefaultsByFacts(realms[CurrentRealm(w)]);
  }

  lemma UserKeepsFilled(s: State, u: UserStep)
    requires Safe(s) && UserEnabled(s, u)
    ensures AllFilled(DoUser(s, u)) && AcksHold(DoUser(s, u).user, DoUser(s, u).realms)
  {
    if u.UserWrite? {
      UserWriteKeepsFilled(s, u);
    } else if u.UserRelease? && u.landed {
      var i := s.user.items[0];
      if i.dev.realm in s.realms {
        AllDefaultsAcked(s.user, s.realms);
      }
      FilledAppend(s, i.uid, i.dev.(phase := Prepare));
    }
  }

  lemma EnvIsSafe(s: State, e: EnvStep)
    requires Safe(s) && EnvEnabled(s, e)
    ensures Safe(DoEnv(s, e))
  {
    EnvKeepsBasic(s, e);
    EnvKeepsFilled(s, e);
  }

  lemma DevIsSafe(s: State, d: DevStep)
    requires Safe(s) && DevEnabled(s, d)
    ensures Safe(DoDev(s, d))
  {
    DevKeepsBasic(s, d);
    DevKeepsFilled(s, d);
  }

  lemma UserIsSafe(s: State, u: UserStep)
    requires Safe(s) && UserEnabled(s, u)
    ensures Safe(DoUser(s, u))
  {
    UserKeepsBasic(s, u);
    UserKeepsFilled(s, u);
  }

  lemma StepIsSafe(s: State, t: State)
    requires Safe(s) && Next(s, t)
    ensures Safe(t)
  {
    var step :| Enabled(s, step) && t == Do(s, step);
    match step
    case Env(e) => EnvIsSafe(s, e);
    case OfDev(d) => DevIsSafe(s, d);
    case OfUser(u) => UserIsSafe(s, u);
  }

  lemma RunIsSafe(run: seq<State>, n: nat)
    requires IsRun(run) && n < |run|
    ensures Safe(run[n])
  {
    var inv := (s: State) => Safe(s);
    var along := (s: State) => true;
    InitBasic(run[0]);
    forall s, t | inv(s) && Next(s, t) && along(s) && along(t) ensures inv(t) {
      StepIsSafe(s, t);
    }
    RunKeeps(run, 0, n, inv, along);
  }

  /** Handshake safety: in every run a RhpamDev that was ever stored at "prepare
      provisioning" or a later phase has all default roles and users in its
      realm, as long as that realm exists. */
  lemma HandshakeSafety(run: seq<State>, n: nat, uid: nat, i: nat)
    requires IsRun(run) && n < |run|
    requires uid in run[n].devs && i < |run[n].devs[uid]|
    requires Released(run[n].devs[uid][i].phase) && run[n].devs[uid][i].realm in run[n].realms
    ensures HasDefaults(run[n].realms[run[n].devs[uid][i].realm])
  {
    RunIsSafe(run, n);
    assert FilledIfReleased(run[n].devs[uid][i], run[n].realms);
  }

  /** In every run a stored RhpamDev only moves forward, whatever is read from
      caches and whichever updates are refused. */
  lemma StoredPhaseOnlyForward(run: seq<State>, n: nat, uid: nat, i: nat, j: nat)
    requires IsRun(run) && n < |run| && uid in run[n].devs && i <= j < |run[n].devs[uid]|
    ensures Rank(run[n].devs[uid][i].phase) <= Rank(run[n].devs[uid][j].phase)
    ensures run[n].devs[uid][i].realm != "" ==> run[n].devs[uid][j].realm == run[n].devs[uid][i].realm
    ensures i < j ==> DevEvolves(run[n].devs[uid][i], run[n].devs[uid][i + 1])
  {
    RunIsSafe(run, n);
    DevOnlyForward(run[n].devs[uid], i, j);
  }

  /** The finalizer invariant for RhpamDevs: in every run, past the first phase,
      the operator's finalizer and those that were there before stay until the
      update that ends a deprovisioning. */
  lemma DevFinalizerInvariant(run: seq<State>, n: nat, uid: nat, i: nat, j: nat)
    requires IsRun(run) && n < |run| && uid in run[n].devs && i <= j < |run[n].devs[uid]|
    ensures
      var a, b := run[n].devs[uid][i], run[n].devs[uid][j];
      || (a.finalizers <= b.finalizers && (b.phase != NoPhase ==> FINALIZER in b.finalizers))
      || (j == |run[n].devs[uid]| - 1 && DevGone(b) && b.phase == Deprovisioned)
  {
    RunIsSafe(run, n);
    DevFinalizersStay(run[n].devs[uid], i, j);
    DevShapes(run[n].devs[uid], j);
  }

  /** The finalizer invariant for RhpamUsers: in every run no finalizer is lost
      until the user is over, and till then the operator's own is there exactly
      if the user came with it or some version of it was "accepted". Only a user
      that failed its deprovisioning without ever having had a realm may lack it. */
  lemma UserFinalizerInvariant(run: seq<State>, n: nat, uid: nat, i: nat, j: nat)
    requires IsRun(run) && n < |run| && uid in run[n].users && i <= j < |run[n].users[uid]|
    ensures
      var log := run[n].users[uid];
      || (log[i].finalizers <= log[j].finalizers && FinalizerByAcceptance(log, j) &&
          (FINALIZER in log[j].finalizers || (log[j].realm == "" && log[j].phase in {NoPhase, DeprovisionFailed})))
      || (j == |log| - 1 && UserOver(log[j]))
  {
    RunIsSafe(run, n);
    UserFinalizersStay(run[n].users[uid], i, j);
    UserShapes(run[n].users[uid], j);
  }

  // ------------------------------------------------------ what moves a phase

  /** The only three ways a stored phase moves on: the "realm provisioning" mark,
      the update that ends a reconcile which did all its phase asks for, and the
      release by a RhpamUser reconcile which saw to all defaults. */
  ghost predicate PhaseMoves(s: State, t: State, uid: nat)
    requires uid in s.devs && s.devs[uid] != [] && uid in t.devs && t.devs[uid] != []
  {
    var a, b := LatestDev(s, uid).phase, LatestDev(t, uid).phase;
    || (s.dev.DevBusy? && s.dev.uid == uid && s.dev.mark == Unmarked &&
        t.dev.DevBusy? && t.dev.uid == uid && t.dev.mark == Landed && a == Accepted && b == RealmProvisioning)
    || (s.dev.DevBusy? && s.dev.uid == uid && Finished(s.dev) && b == Result(s.dev).phase && t.dev == DevIdle)
    || (Filling(s.user) && s.user.items[0].uid == uid && AllDefaults(s.user.acks) &&
        a == RealmProvisioned && b == Prepare)
  }

  ghost predicate PhaseKeptOrMoved(s: State, t: State, uid: nat) {
    && uid in s.devs && s.devs[uid] != [] && uid in t.devs && t.devs[uid] != []
    && (LatestDev(t, uid).phase == LatestDev(s, uid).phase || PhaseMoves(s, t, uid))
  }

  lemma EnvMovesNoPhase(s: State, e: EnvStep, uid: nat)
    requires Basic(s) && EnvEnabled(s, e) && uid in s.devs
    ensures PhaseKeptOrMoved(s, DoEnv(s, e), uid)
  {
  }

  lemma DevMovesPhase(s: State, d: DevStep, uid: nat)
    requires Basic(s) && DevEnabled(s, d) && uid in s.devs
    ensures PhaseKeptOrMoved(s, DoDev(s, d), uid)
  {
    if d.DevMark? && d.landing == Landed {
      MarkMovesPhase(s, d.acked, uid);
    } else if d.DevUpdate? {
      UpdateMovesPhase(s, uid);
    } else {
      assert DoDev(s, d).devs == s.devs;
    }
  }

  lemma MarkMovesPhase(s: State, acked: bool, uid: nat)
    requires Basic(s) && DevEnabled(s, DevMark(Landed, acked)) && uid in s.devs
    ensures PhaseKeptOrMoved(s, DoDev(s, DevMark(Landed, acked)), uid)
  {
    assert LatestDev(s, s.dev.uid) == s.dev.seen;
  }

  lemma UpdateMovesPhase(s: State, uid: nat)
    requires Basic(s) && DevEnabled(s, DevUpdate) && uid in s.devs
    ensures PhaseKeptOrMoved(s, DoDev(s, DevUpdate), uid)
  {
  }

  lemma UserMovesPhase(s: State, u: UserStep, uid: nat)
    requires Basic(s) && UserEnabled(s, u) && uid in s.devs
    ensures PhaseKeptOrMoved(s, DoUser(s, u), uid)
  {
    if u.UserRelease? && u.landed {
      ReleaseMovesPhase(s, uid);
    } else {
      OthersKeepDevs(s, u);
    }
  }

  lemma ReleaseMovesPhase(s: State, uid: nat)
    requires Basic(s) && UserEnabled(s, UserRelease(true)) && uid in s.devs
    ensures PhaseKeptOrMoved(s, DoUser(s, UserRelease(true)), uid)
  {
    assert ListedItem(s, s.user.items[0]);
  }

  lemma OthersKeepDevs(s: State, u: UserStep)
    requires UserEnabled(s, u) && !(u.UserRelease? && u.landed)
    ensures DoUser(s, u).devs == s.devs
  {
  }

  lemma OnlyFinishedStepsMovePhase(run: seq<State>, n: nat, uid: nat)
    requires IsRun(run) && 0 < n < |run| && uid in run[n - 1].devs
    ensures PhaseKeptOrMoved(run[n - 1], run[n], uid)
  {
    var s, t := run[n - 1], run[n];
    RunIsSafe(run, n - 1);
    assert StepTo(run, n);
    var step :| Enabled(s, step) && t == Do(s, step);
    match step
    case Env(e) => EnvMovesNoPhase(s, e, uid);
    case OfDev(d) => DevMovesPhase(s, d, uid);
    case OfUser(u) => UserMovesPhase(s, u, uid);
  }
}
