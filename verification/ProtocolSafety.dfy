/** What every interleaving of the two controllers keeps. */
module ProtocolSafety {
  import opened Protocol
  import opened Realms

  // ------------------------------------------------- how stored objects evolve

  /** How far a RhpamDev has come. */
  function Rank(p: Phase): nat {
    match p
    case NoPhase => 0
    case Accepted => 1
    case RealmProvisioning => 2
    case RealmProvisioned => 3
    case Prepare => 4
    case Prepared => 5
    case DatabaseInstalled => 6
    case BusinessCentralInstalled => 7
    case DatabaseReady => 8
    case Complete => 9
    case Deprovisioned => 10
    case Reconcile => 11
    case DeprovisionFailed => 11
  }

  /** The phase at which a RhpamDev's own reconcile continues to the next one. */
  predicate InstallPhase(p: Phase) {
    p == Prepare || p == Prepared || p == DatabaseInstalled || p == BusinessCentralInstalled || p == DatabaseReady
  }

  /** One stored version of a RhpamDev and the next. Nothing comes after an
      object is gone. */
  ghost predicate DevEvolves(a: Dev, b: Dev) {
    !DevGone(a) && DevMoves(a, b)
  }

  ghost predicate DevMoves(a: Dev, b: Dev) {
    || b == a
    || b == a.(deleting := true)
    || (a.phase == NoPhase && b == a.(phase := Accepted, finalizers := a.finalizers + {FINALIZER}))
    || (a.phase == Accepted && b == a.(phase := RealmProvisioning))
    || ((a.phase == Accepted || a.phase == RealmProvisioning) && b.realm != "" &&
        b == a.(phase := RealmProvisioned, realm := b.realm))
    || (a.phase == RealmProvisioned && b == a.(phase := Prepare))
    || (InstallPhase(a.phase) && b == a.(phase := NextPhase(a.phase)))
    || (a.deleting && a.realm != "" && b == a.(phase := Deprovisioned, finalizers := {}))
  }

  /** One stored version of a RhpamUser and the next. */
  ghost predicate UserEvolves(a: User, b: User) {
    !UserGone(a) && UserMoves(a, b)
  }

  ghost predicate UserMoves(a: User, b: User) {
    || b == a
    || b == a.(deleting := true)
    || (a.phase == NoPhase && b == a.(phase := Accepted, finalizers := a.finalizers + {FINALIZER}))
    || (a.phase == Accepted && b.realm != "" && b == a.(phase := Reconcile, realm := b.realm))
    || (a.realm != "" && b == a.(phase := Deprovisioned))
    || (a.deleting && b == a.(phase := DeprovisionFailed))
    || (a.deleting && a.phase == Deprovisioned && b == a.(phase := Complete, finalizers := {}))
  }

  ghost predicate DevLog(log: seq<Dev>) {
    && log != []
    && log[0].phase == NoPhase && log[0].realm == "" && !log[0].deleting
    && forall i | 0 <= i < |log| - 1 :: DevEvolves(log[i], log[i + 1])
  }

  ghost predicate UserLog(log: seq<User>) {
    && log != []
    && log[0].phase == NoPhase && log[0].realm == "" && !log[0].deleting
    && forall i | 0 <= i < |log| - 1 :: UserEvolves(log[i], log[i + 1])
  }

  lemma DevLogAppend(log: seq<Dev>, d: Dev)
    requires DevLog(log) && DevEvolves(log[|log| - 1], d)
    ensures DevLog(log + [d])
  {
  }

  lemma UserLogAppend(log: seq<User>, u: User)
    requires UserLog(log) && UserEvolves(log[|log| - 1], u)
    ensures UserLog(log + [u])
  {
  }

  /** A RhpamDev has a realm from "realm provisioned" on, and not before. Past its
      first phase it carries the operator's finalizer as long as it exists. */
  ghost predicate DevShape(d: Dev) {
    && d.phase != Reconcile && d.phase != DeprovisionFailed
    && (d.realm != "" <==> Rank(d.phase) >= 3)
    && (d.phase != NoPhase ==> FINALIZER in d.finalizers || (DevGone(d) && d.phase == Deprovisioned))
  }

  lemma {:induction false} DevShapes(log: seq<Dev>, i: nat)
    requires DevLog(log) && i < |log|
    ensures DevShape(log[i])
  {
    if i > 0 {
      DevShapes(log, i - 1);
      assert DevEvolves(log[i - 1], log[i]);
    }
  }

  /** The phase never goes back, a realm once recorded stays, and deletion is final. */
  lemma {:induction false} DevOnlyForward(log: seq<Dev>, i: nat, j: nat)
    requires DevLog(log) && i <= j < |log|
    ensures Rank(log[i].phase) <= Rank(log[j].phase)
    ensures log[i].realm != "" ==> log[j].realm == log[i].realm
    ensures log[i].deleting ==> log[j].deleting
    decreases j
  {
    if i < j {
      DevOnlyForward(log, i, j - 1);
      DevShapes(log, j - 1);
      assert DevEvolves(log[j - 1], log[j]);
    }
  }

  /** A RhpamUser is bound to a realm once it is past "accepted". The phase
      "deprovision failed" can also be reached straight from the first phase. */
  ghost predicate UserShape(u: User) {
    && (u.realm != "" ==> u.phase != NoPhase && u.phase != Accepted)
    && (u.phase == Reconcile ==> u.realm != "")
    && (u.phase != NoPhase && (u.phase == DeprovisionFailed ==> u.realm != "") ==>
          FINALIZER in u.finalizers || UserOver(u))
  }

  /** Gone after the update that follows a deprovisioning. */
  predicate UserOver(u: User) {
    UserGone(u) && u.phase == Complete
  }

  /** Some version up to the given one was "accepted". */
  ghost predicate AcceptedBy(log: seq<User>, i: nat) {
    exists k :: 0 <= k <= i && k < |log| && log[k].phase == Accepted
  }

  /** The operator's finalizer is there exactly if the user came with it or has
      been accepted, until the user is over. */
  ghost predicate FinalizerByAcceptance(log: seq<User>, i: nat)
    requires i < |log|
  {
    UserOver(log[i]) || (FINALIZER in log[i].finalizers <==> FINALIZER in log[0].finalizers || AcceptedBy(log, i))
  }

  lemma {:induction false} UserShapes(log: seq<User>, i: nat)
    requires UserLog(log) && i < |log|
    ensures UserShape(log[i]) && FinalizerByAcceptance(log, i)
  {
    if i > 0 {
      UserShapes(log, i - 1);
      assert UserEvolves(log[i - 1], log[i]);
      assert AcceptedBy(log, i) <==> AcceptedBy(log, i - 1) || log[i].phase == Accepted;
    }
  }

  /** The operator's finalizer, once set, stays with all others until the
      update that follows a deprovisioning clears the list and so ends the object. */
  lemma {:induction false} DevFinalizersStay(log: seq<Dev>, i: nat, j: nat)
    requires DevLog(log) && i <= j < |log|
    ensures log[i].finalizers <= log[j].finalizers ||
            (j == |log| - 1 && DevGone(log[j]) && log[j].phase == Deprovisioned)
    ensures j < |log| - 1 ==> !DevGone(log[j])
    decreases j
  {
    assert j < |log| - 1 ==> DevEvolves(log[j], log[j + 1]);
    if i < j {
      DevFinalizersStay(log, i, j - 1);
      assert DevEvolves(log[j - 1], log[j]);
    }
  }

  lemma {:induction false} UserFinalizersStay(log: seq<User>, i: nat, j: nat)
    requires UserLog(log) && i <= j < |log|
    ensures log[i].finalizers <= log[j].finalizers ||
            (j == |log| - 1 && UserGone(log[j]) && log[j].phase == Complete)
    ensures j < |log| - 1 ==> !UserGone(log[j])
    decreases j
  {
    assert j < |log| - 1 ==> UserEvolves(log[j], log[j + 1]);
    if i < j {
      UserFinalizersStay(log, i, j - 1);
      assert UserEvolves(log[j - 1], log[j]);
    }
  }

  // ------------------------------------------------------ the basic invariant

  /** What a RhpamDev reconcile knows about the object it works on. */
  ghost predicate DevSession(s: State) {
    s.dev.DevBusy? ==>
      var w := s.dev;
      && w.uid in s.devs
      && w.version < |s.devs[w.uid]|
      && s.devs[w.uid][w.version] == w.seen
      && (w.mark != Unmarked ==> w.seen.phase == Accepted && !w.seen.deleting)
      && (w.mark != Landed ==> w.base == w.version)
      && (w.mark == Landed ==>
            && w.version + 1 < |s.devs[w.uid]|
            && s.devs[w.uid][w.version + 1] == w.seen.(phase := RealmProvisioning)
            && w.version <= w.base <= w.version + 1)
      && (w.made.Some? ==>
            w.mark != Unmarked && w.made.value != "" && w.made.value in s.past.created)
      && (w.realmGone ==> w.seen.deleting && w.seen.realm != "")
  }

  ghost predicate ListedItem(s: State, i: Item) {
    i.uid in s.devs && i.version < |s.devs[i.uid]| && s.devs[i.uid][i.version] == i.dev
  }

  ghost predicate UserSession(s: State) {
    s.user.UserBusy? ==>
      var w := s.user;
      && w.uid in s.users
      && w.version < |s.users[w.uid]|
      && s.users[w.uid][w.version] == w.seen
      && (w.listed ==> !w.seen.deleting && w.seen.phase == Accepted)
      && (w.items != [] ==> w.listed)
      && (forall i | i in w.items :: ListedItem(s, i))
      && (w.copy == w.seen ||
          (w.listed && w.copy.realm != "" && w.copy.realm in s.past.created &&
           w.copy == w.seen.(phase := Reconcile, realm := w.copy.realm)))
      && (w.worked ==> w.seen.realm != "")
  }

  /** Realm names are never used again, so whatever names a realm names one
      that was created before. */
  ghost predicate RealmNames(s: State) {
    && "" !in s.past.created
    && s.realms.Keys <= s.past.created
    && (forall c | c in s.clients :: c.realm in s.past.created)
    && (forall uid, i | uid in s.devs && 0 <= i < |s.devs[uid]| ::
          s.devs[uid][i].realm == "" || s.devs[uid][i].realm in s.past.created)
    && (forall uid, i | uid in s.users && 0 <= i < |s.users[uid]| ::
          s.users[uid][i].realm == "" || s.users[uid][i].realm in s.past.created)
    && (forall r | r in s.realms :: s.realms[r].Valid())
  }

  ghost predicate Basic(s: State) {
    && (forall uid | uid in s.devs :: DevLog(s.devs[uid]))
    && (forall uid | uid in s.users :: UserLog(s.users[uid]))
    && DevSession(s)
    && UserSession(s)
    && RealmNames(s)
  }

  lemma InitBasic(s: State)
    requires Init(s)
    ensures Basic(s)
  {
  }

  // Each step is put together from changes to one component.

  lemma AddDevVersion(s: State, uid: nat, d: Dev)
    requires Basic(s) && uid in s.devs && DevEvolves(LatestDev(s, uid), d)
    requires d.realm == "" || d.realm in s.past.created
    ensures Basic(s.(devs := Append(s.devs, uid, d)))
  {
    var t := s.(devs := Append(s.devs, uid, d));
    DevLogAppend(s.devs[uid], d);
    forall u | u in s.devs ensures u in t.devs && s.devs[u] <= t.devs[u] {
    }
    forall i: Item | ListedItem(s, i) ensures ListedItem(t, i) {
    }
    assert DevSession(t);
    assert RealmNames(t);
  }

  lemma AddUserVersion(s: State, uid: nat, u: User)
    requires Basic(s) && uid in s.users && UserEvolves(s.users[uid][|s.users[uid]| - 1], u)
    requires u.realm == "" || u.realm in s.past.created
    ensures Basic(s.(users := Append(s.users, uid, u)))
  {
    var t := s.(users := Append(s.users, uid, u));
    UserLogAppend(s.users[uid], u);
    forall v | v in s.users ensures v in t.users && s.users[v] <= t.users[v] {
    }
    assert UserSession(t);
    assert RealmNames(t);
  }

  lemma SetDevWorker(s: State, w: DevWorker)
    requires Basic(s) && DevSession(s.(dev := w))
    ensures Basic(s.(dev := w))
  {
    assert UserSession(s.(dev := w));
    assert RealmNames(s.(dev := w));
  }

  lemma SetUserWorker(s: State, w: UserWorker)
    requires Basic(s) && UserSession(s.(user := w))
    ensures Basic(s.(user := w))
  {
    assert DevSession(s.(user := w));
    assert RealmNames(s.(user := w));
  }

  lemma SetPast(s: State, p: Past)
    requires Basic(s) && s.past.created <= p.created && "" !in p.created
    ensures Basic(s.(past := p))
  {
    assert DevSession(s.(past := p));
    assert UserSession(s.(past := p));
    assert RealmNames(s.(past := p));
  }

  /** Realms, clients, cluster objects and readiness. */
  lemma SetRest(s: State, realms: map<string, Realm>, clients: map<Client, string>, objects: map<Key, Payload>, ready: bool)
    requires Basic(s) && realms.Keys <= s.past.created
    requires forall r | r in realms :: realms[r].Valid()
    requires forall c | c in clients :: c.realm in s.past.created
    ensures Basic(s.(realms := realms, clients := clients, objects := objects, ready := ready))
  {
    var t := s.(realms := realms, clients := clients, objects := objects, ready := ready);
    assert DevSession(t);
    assert UserSession(t);
    assert RealmNames(t);
  }

  lemma NewDev(s: State, uid: nat, fs: set<string>)
    requires Basic(s) && uid !in s.devs
    ensures Basic(s.(devs := s.devs[uid := [Dev(fs, false, NoPhase, "")]]))
  {
    var t := s.(devs := s.devs[uid := [Dev(fs, false, NoPhase, "")]]);
    forall i: Item | ListedItem(s, i) ensures ListedItem(t, i) {
    }
    assert DevSession(t);
    assert RealmNames(t);
  }

  lemma NewUser(s: State, uid: nat, fs: set<string>)
    requires Basic(s) && uid !in s.users
    ensures Basic(s.(users := s.users[uid := [User(fs, false, NoPhase, "")]]))
  {
    var t := s.(users := s.users[uid := [User(fs, false, NoPhase, "")]]);
    assert UserSession(t);
    assert RealmNames(t);
  }

  lemma EnvKeepsBasic(s: State, e: EnvStep)
    requires Basic(s) && EnvEnabled(s, e)
    ensures Basic(DoEnv(s, e))
  {
    match e
    case CreateDev(uid, fs) => NewDev(s, uid, fs);
    case CreateRhpamUser(uid, fs) => NewUser(s, uid, fs);
    case TouchDev(uid) => AddDevVersion(s, uid, LatestDev(s, uid));
    case TouchUser(uid) => AddUserVersion(s, uid, s.users[uid][|s.users[uid]| - 1]);
    case RequestDevDeletion(uid) => AddDevVersion(s, uid, LatestDev(s, uid).(deleting := true));
    case RequestUserDeletion(uid) => AddUserVersion(s, uid, s.users[uid][|s.users[uid]| - 1].(deleting := true));
    case SetReady(r) => SetRest(s, s.realms, s.clients, s.objects, r);
  }

  /** What a finished RhpamDev reconcile writes follows from what it read. */
  lemma ResultEvolves(s: State, w: DevWorker)
    requires Basic(s) && w == s.dev && w.DevBusy? && Finished(w)
    requires IsLatest(s.devs, w.uid, w.base) && !DevGone(LatestDev(s, w.uid))
    ensures DevEvolves(LatestDev(s, w.uid), Result(w))
    ensures Result(w).realm == "" || Result(w).realm in s.past.created
  {
    assert LatestDev(s, w.uid) == s.devs[w.uid][w.base];
  }

  lemma DevKeepsBasic(s: State, d: DevStep)
    requires Basic(s) && DevEnabled(s, d)
    ensures Basic(DoDev(s, d))
  {
    if OnlyKnowledge(d) {
      DevLocalKeepsBasic(s, d);
    } else if d.DevMark? || d.DevCreateRealm? || d.DevCreateClient? {
      ProvisioningKeepsBasic(s, d);
    } else {
      InstallingKeepsBasic(s, d);
    }
  }

  /** Steps that change only what the controller knows. */
  predicate OnlyKnowledge(d: DevStep) {
    d.DevRead? || d.DevGiveUp? || (d.DevMark? && d.landing == NotLanded) ||
    d.DevFetchSecret? || d.DevFindObject? || d.DevSeeReady?
  }

  lemma ProvisioningKeepsBasic(s: State, d: DevStep)
    requires Basic(s) && DevEnabled(s, d) && !OnlyKnowledge(d)
    requires d.DevMark? || d.DevCreateRealm? || d.DevCreateClient?
    ensures Basic(DoDev(s, d))
  {
    if d.DevMark? {
      MarkKeepsBasic(s, d.acked);
    } else if d.DevCreateRealm? {
      CreationKeepsBasic(s, d);
    } else {
      ClientKeepsBasic(s, d);
    }
  }

  lemma InstallingKeepsBasic(s: State, d: DevStep)
    requires Basic(s) && DevEnabled(s, d)
    requires d.DevCreateObject? || d.DevDeleteObject? || d.DevDeleteRealm? || d.DevReleaseUser? || d.DevUpdate?
    ensures Basic(DoDev(s, d))
  {
    if d.DevCreateObject? || d.DevDeleteObject? {
      ObjectKeepsBasic(s, d);
    } else if d.DevDeleteRealm? {
      DeletionKeepsBasic(s, d);
    } else if d.DevReleaseUser? {
      ReleaseKeepsBasic(s, d);
    } else {
      UpdateKeepsBasic(s, d);
    }
  }

  lemma ReleaseKeepsBasic(s: State, d: DevStep)
    requires Basic(s) && DevEnabled(s, d) && d.DevReleaseUser?
    ensures Basic(DoDev(s, d))
  {
    AddUserVersion(s, d.uid, s.users[d.uid][d.version].(phase := Deprovisioned));
  }

  lemma UpdateKeepsBasic(s: State, d: DevStep)
    requires Basic(s) && DevEnabled(s, d) && d.DevUpdate?
    ensures Basic(DoDev(s, d))
  {
    ResultEvolves(s, s.dev);
    AddDevVersion(s, s.dev.uid, Result(s.dev));
    SetDevWorker(s.(devs := DoDev(s, d).devs), DevIdle);
  }

  lemma DevLocalKeepsBasic(s: State, d: DevStep)
    requires Basic(s) && DevEnabled(s, d) && OnlyKnowledge(d)
    ensures Basic(DoDev(s, d))
  {
    var t := DoDev(s, d);
    SetDevWorker(s, t.dev);
    SetPast(s.(dev := t.dev), t.past);
  }

  lemma DeletionKeepsBasic(s: State, d: DevStep)
    requires Basic(s) && DevEnabled(s, d) && d.DevDeleteRealm?
    ensures Basic(DoDev(s, d))
  {
    var t := DoDev(s, d);
    SetDevWorker(s, t.dev);
    SetRest(s.(dev := t.dev), t.realms, s.clients, s.objects, s.ready);
  }

  lemma CreationKeepsBasic(s: State, d: DevStep)
    requires Basic(s) && DevEnabled(s, d) && d.DevCreateRealm?
    ensures Basic(DoDev(s, d))
  {
    var t := DoDev(s, d);
    SetPast(s, t.past);
    SetDevWorker(s.(past := t.past), t.dev);
    SetRest(s.(past := t.past, dev := t.dev), t.realms, s.clients, s.objects, s.ready);
  }

  lemma ClientKeepsBasic(s: State, d: DevStep)
    requires Basic(s) && DevEnabled(s, d) && d.DevCreateClient?
    ensures Basic(DoDev(s, d))
  {
    var t := DoDev(s, d);
    SetDevWorker(s, t.dev);
    SetRest(s.(dev := t.dev), s.realms, t.clients, s.objects, s.ready);
  }

  lemma ObjectKeepsBasic(s: State, d: DevStep)
    requires Basic(s) && DevEnabled(s, d)
    requires d.DevCreateObject? || d.DevDeleteObject?
    ensures Basic(DoDev(s, d))
  {
    var t := DoDev(s, d);
    SetPast(s, t.past);
    SetDevWorker(s.(past := t.past), t.dev);
    SetRest(s.(past := t.past, dev := t.dev), s.realms, s.clients, t.objects, s.ready);
  }

  lemma MarkKeepsBasic(s: State, acked: bool)
    requires Basic(s) && DevEnabled(s, DevMark(Landed, acked))
    ensures Basic(DoDev(s, DevMark(Landed, acked)))
  {
    var w, t := s.dev, DoDev(s, DevMark(Landed, acked));
    assert LatestDev(s, w.uid) == w.seen;
    AddDevVersion(s, w.uid, w.seen.(phase := RealmProvisioning));
    SetDevWorker(s.(devs := t.devs), t.dev);
  }

  lemma UserResultEvolves(s: State, w: UserWorker, failed: bool)
    requires Basic(s) && w == s.user && w.UserBusy? && UserEnabled(s, UserUpdate(failed))
    ensures UserEvolves(w.seen, UserResult(w, failed))
    ensures UserResult(w, failed).realm == "" || UserResult(w, failed).realm in s.past.created
  {
    UserShapes(s.users[w.uid], w.version);
  }

  lemma UserKeepsBasic(s: State, u: UserStep)
    requires Basic(s) && UserEnabled(s, u)
    ensures Basic(DoUser(s, u))
  {
    if u.UserBind? || u.UserRelease? {
      ReleasingKeepsBasic(s, u);
    } else if u.UserWrite? {
      WriteKeepsBasic(s, u);
    } else if u.UserUpdate? {
      UserUpdateKeepsBasic(s, u);
    } else {
      UserLocalKeepsBasic(s, u);
    }
  }

  lemma UserLocalKeepsBasic(s: State, u: UserStep)
    requires Basic(s) && UserEnabled(s, u)
    requires !u.UserBind? && !u.UserRelease? && !u.UserWrite? && !u.UserUpdate?
    ensures Basic(DoUser(s, u))
  {
    if u.UserPass? {
      assert forall i | i in s.user.items[1..] :: i in s.user.items;
    }
    SetUserWorker(s, DoUser(s, u).user);
  }

  lemma ReleasingKeepsBasic(s: State, u: UserStep)
    requires Basic(s) && UserEnabled(s, u) && (u.UserBind? || u.UserRelease?)
    ensures Basic(DoUser(s, u))
  {
    BindKeepsBasic(s);
    if u.UserRelease? && u.landed {
      var i := s.user.items[0];
      assert ListedItem(s, i);
      AddDevVersion(s.(user := BoundTo(s.user)), i.uid, i.dev.(phase := Prepare));
    }
  }

  lemma UserUpdateKeepsBasic(s: State, u: UserStep)
    requires Basic(s) && UserEnabled(s, u) && u.UserUpdate?
    ensures Basic(DoUser(s, u))
  {
    UserResultEvolves(s, s.user, u.failed);
    AddUserVersion(s, s.user.uid, UserResult(s.user, u.failed));
    SetUserWorker(s.(users := DoUser(s, u).users), UserIdle);
  }

  lemma WriteKeepsBasic(s: State, u: UserStep)
    requires Basic(s) && UserEnabled(s, u) && u.UserWrite?
    ensures Basic(DoUser(s, u))
  {
    var t := DoUser(s, u);
    WriteKeepsRealms(s, u);
    SetUserWorker(s, t.user);
    SetRest(s.(user := t.user), t.realms, s.clients, s.objects, s.ready);
  }

  lemma WriteKeepsRealms(s: State, u: UserStep)
    requires Basic(s) && UserEnabled(s, u) && u.UserWrite?
    ensures DoUser(s, u) == s.(user := DoUser(s, u).user, realms := DoUser(s, u).realms)
    ensures DoUser(s, u).realms.Keys <= s.past.created
    ensures forall r | r in DoUser(s, u).realms :: DoUser(s, u).realms[r].Valid()
  {
  }

  lemma BindKeepsBasic(s: State)
    requires Basic(s) && s.user.UserBusy? && s.user.items != []
    requires s.user.items[0].dev.phase == Complete || s.user.items[0].dev.phase == RealmProvisioned
    ensures Basic(s.(user := BoundTo(s.user)))
  {
    var i := s.user.items[0];
    assert ListedItem(s, i);
    DevShapes(s.devs[i.uid], i.version);
    assert forall j | j in s.user.items[1..] :: j in s.user.items;
    SetUserWorker(s, BoundTo(s.user));
  }

  lemma StepKeepsBasic(s: State, step: Step)
    requires Basic(s) && Enabled(s, step)
    ensures Basic(Do(s, step))
  {
    match step
    case Env(e) => EnvKeepsBasic(s, e);
    case OfDev(d) => DevKeepsBasic(s, d);
    case OfUser(u) => UserKeepsBasic(s, u);
  }
}
