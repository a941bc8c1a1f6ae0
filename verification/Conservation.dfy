/** Realms are neither lost nor doubled, and the realm secrets name the right one. */
module Conservation {
  import opened Prelude
  import opened Protocol
  import opened ProtocolSafety
  import opened Provisioning

  // ------------------------------------------------------------- realms made

  /** No RhpamDev has had two realms made after a mark that landed. */
  ghost predicate MarkedOnce(made: seq<Made>) {
    forall i, j | 0 <= i < j < |made| && made[i].marked && made[j].marked :: made[i].uid != made[j].uid
  }

  /** The object records `realm`, or still awaits the update that will. */
  predicate Records(d: Dev, realm: string) {
    d.realm == realm || (d.realm == "" && d.phase == RealmProvisioning)
  }

  ghost predicate Recorded(s: State, m: Made) {
    m.realm != "" &&
    (m.marked ==> m.uid in s.devs && s.devs[m.uid] != [] && Records(LatestDev(s, m.uid), m.realm))
  }

  ghost predicate AllRecorded(s: State) {
    forall m | m in s.past.made :: Recorded(s, m)
  }

  predicate NoneMarked(made: seq<Made>, uid: nat) {
    forall m | m in made :: m.marked ==> m.uid != uid
  }

  /** What a reconcile has made is among the realms made, and while a marking
      reconcile goes on its RhpamDev stays "realm provisioning". */
  ghost predicate OwnRealmKnown(s: State) {
    s.dev.DevBusy? ==>
      && (s.dev.mark == Landed ==>
            s.dev.uid in s.devs && s.devs[s.dev.uid] != [] && LatestDev(s, s.dev.uid).phase == RealmProvisioning)
      && match s.dev.made
         case None => s.dev.mark == Landed ==> NoneMarked(s.past.made, s.dev.uid)
         case Some(r) => Made(s.dev.uid, r, s.dev.mark == Landed) in s.past.made
  }

  ghost predicate Conserved(s: State) {
    MarkedOnce(s.past.made) && AllRecorded(s) && OwnRealmKnown(s)
  }

  lemma NewVersionIsRecorded(s: State, uid: nat, d: Dev)
    requires AllRecorded(s) && uid in s.devs
    requires forall m | m in s.past.made && m.marked && m.uid == uid :: Records(d, m.realm)
    ensures AllRecorded(s.(devs := Append(s.devs, uid, d)))
  {
    var t := s.(devs := Append(s.devs, uid, d));
    assert LatestDev(t, uid) == d;
    forall m | m in s.past.made ensures Recorded(t, m) {
      assert Recorded(s, m);
      if m.uid != uid && m.marked {
        assert LatestDev(t, m.uid) == LatestDev(s, m.uid);
      }
    }
  }

  /** A version that leaves the realm alone, and the phase too while there is no realm. */
  lemma SameRealmIsRecorded(s: State, uid: nat, d: Dev)
    requires AllRecorded(s) && uid in s.devs && s.devs[uid] != []
    requires d.realm == LatestDev(s, uid).realm
    requires d.realm == "" ==> d.phase == LatestDev(s, uid).phase
    ensures AllRecorded(s.(devs := Append(s.devs, uid, d)))
  {
    forall m | m in s.past.made && m.marked && m.uid == uid ensures Records(d, m.realm) {
      assert Recorded(s, m);
    }
    NewVersionIsRecorded(s, uid, d);
  }

  lemma EnvConserves(s: State, e: EnvStep)
    requires Basic(s) && Conserved(s) && EnvEnabled(s, e)
    ensures Conserved(DoEnv(s, e))
  {
    if e.TouchDev? {
      SameRealmIsRecorded(s, e.uid, LatestDev(s, e.uid));
    } else if e.RequestDevDeletion? {
      SameRealmIsRecorded(s, e.uid, LatestDev(s, e.uid).(deleting := true));
    } else if e.CreateDev? {
      NewDevConserves(s, e);
    } else {
      SameObjectsConserved(s, DoEnv(s, e));
    }
  }

  lemma NewDevConserves(s: State, e: EnvStep)
    requires Conserved(s) && EnvEnabled(s, e) && e.CreateDev?
    ensures Conserved(DoEnv(s, e))
  {
    forall m | m in s.past.made ensures Recorded(DoEnv(s, e), m) {
      assert Recorded(s, m);
    }
  }

  lemma MarkConserves(s: State, d: DevStep)
    requires Basic(s) && Conserved(s) && DevEnabled(s, d) && d.DevMark? && d.landing == Landed
    ensures Conserved(DoDev(s, d))
  {
    var w := s.dev;
    assert LatestDev(s, w.uid) == w.seen;
    DevShapes(s.devs[w.uid], w.version);
    forall m | m in s.past.made ensures m.marked ==> m.uid != w.uid {
      assert Recorded(s, m);
    }
    NewVersionIsRecorded(s, w.uid, w.seen.(phase := RealmProvisioning));
  }

  lemma CreateRealmConserves(s: State, d: DevStep)
    requires Basic(s) && Conserved(s) && DevEnabled(s, d) && d.DevCreateRealm?
    ensures Conserved(DoDev(s, d))
  {
    var w, t := s.dev, DoDev(s, d);
    var m := Made(w.uid, d.id, w.mark == Landed);
    if m.marked {
      DevShapes(s.devs[w.uid], |s.devs[w.uid]| - 1);
    }
    NewRealmIsRecorded(s, t, m);
    OneMoreMade(s.past.made, m);
  }

  lemma OneMoreMade(made: seq<Made>, m: Made)
    requires MarkedOnce(made) && (m.marked ==> NoneMarked(made, m.uid))
    ensures MarkedOnce(made + [m]) && m in made + [m]
  {
    assert (made + [m])[|made|] == m;
  }

  lemma NewRealmIsRecorded(s: State, t: State, m: Made)
    requires AllRecorded(s) && t.devs == s.devs && m.realm != ""
    requires m.marked ==> m.uid in s.devs && s.devs[m.uid] != [] && Records(LatestDev(s, m.uid), m.realm)
    requires t.past.made == s.past.made + [m]
    ensures AllRecorded(t)
  {
    assert forall x | x in s.past.made :: Recorded(s, x) ==> Recorded(t, x);
  }

  /** What a finished reconcile writes back records the realm made, if any. */
  lemma UpdateConserves(s: State)
    requires Basic(s) && Conserved(s) && DevEnabled(s, DevUpdate)
    ensures Conserved(DoDev(s, DevUpdate))
  {
    var w := s.dev;
    var latest := LatestDev(s, w.uid);
    DevShapes(s.devs[w.uid], w.version);
    assert w.mark != Landed ==> latest == w.seen;
    forall m | m in s.past.made && m.marked && m.uid == w.uid ensures Records(Result(w), m.realm) {
      assert Recorded(s, m);
      if w.mark == Landed {
        OnlyOneMarked(s.past.made, m, Made(w.uid, w.made.value, true));
      }
    }
    NewVersionIsRecorded(s, w.uid, Result(w));
  }

  lemma OnlyOneMarked(made: seq<Made>, a: Made, b: Made)
    requires MarkedOnce(made) && a in made && b in made && a.marked && b.marked && a.uid == b.uid
    ensures a == b
  {
  }

  /** The same objects and realms made, and the same or a fresh reconcile. */
  ghost predicate SameObjects(s: State, t: State) {
    && t.devs == s.devs
    && t.past.made == s.past.made
    && (t.dev.DevBusy? ==>
          if s.dev.DevBusy? then t.dev.uid == s.dev.uid && t.dev.made == s.dev.made &&
            (t.dev.mark == s.dev.mark || (s.dev.made == None && t.dev.mark != Landed))
          else t.dev.made == None && t.dev.mark == Unmarked)
  }

  lemma SameObjectsConserved(s: State, t: State)
    requires Conserved(s) && SameObjects(s, t)
    ensures Conserved(t)
  {
    assert forall m :: Recorded(s, m) ==> Recorded(t, m);
  }

  predicate MadeAfterMark(w: DevWorker) {
    w.DevBusy? && w.made.Some? ==> w.mark != Unmarked
  }

  lemma OtherDevStepKeeps(s: State, d: DevStep)
    requires MadeAfterMark(s.dev) && DevEnabled(s, d)
    requires !(d.DevMark? && d.landing == Landed) && !d.DevCreateRealm? && !d.DevUpdate?
    ensures SameObjects(s, DoDev(s, d))
  {
  }

  lemma OtherUserStepKeeps(s: State, u: UserStep)
    requires UserEnabled(s, u) && !(u.UserRelease? && u.landed)
    ensures SameObjects(s, DoUser(s, u))
  {
  }

  lemma ReleaseConserves(s: State, i: Item)
    requires Basic(s) && Conserved(s) && ListedItem(s, i) && i.dev.phase == RealmProvisioned
    requires IsLatest(s.devs, i.uid, i.version)
    ensures Conserved(s.(devs := Append(s.devs, i.uid, i.dev.(phase := Prepare))))
  {
    DevShapes(s.devs[i.uid], i.version);
    SameRealmIsRecorded(s, i.uid, i.dev.(phase := Prepare));
  }

  lemma DevConserves(s: State, d: DevStep)
    requires Basic(s) && Conserved(s) && DevEnabled(s, d)
    ensures Conserved(DoDev(s, d))
  {
    if d.DevMark? && d.landing == Landed {
      MarkConserves(s, d);
    } else if d.DevCreateRealm? {
      CreateRealmConserves(s, d);
    } else if d.DevUpdate? {
      UpdateConserves(s);
    } else {
      OtherDevStepKeeps(s, d);
      SameObjectsConserved(s, DoDev(s, d));
    }
  }

  lemma UserConserves(s: State, u: UserStep)
    requires Basic(s) && Conserved(s) && UserEnabled(s, u)
    ensures Conserved(DoUser(s, u))
  {
    if u.UserRelease? && u.landed {
      var i := s.user.items[0];
      assert ListedItem(s, i);
      ReleaseConserves(s, i);
      SameObjectsConserved(s.(devs := DoUser(s, u).devs), DoUser(s, u));
    } else {
      OtherUserStepKeeps(s, u);
      SameObjectsConserved(s, DoUser(s, u));
    }
  }

  lemma StepConserves(s: State, t: State)
    requires Basic(s) && Conserved(s) && Next(s, t)
    ensures Conserved(t)
  {
    var step :| Enabled(s, step) && t == Do(s, step);
    match step
    case Env(e) => EnvConserves(s, e);
    case OfDev(d) => DevConserves(s, d);
    case OfUser(u) => UserConserves(s, u);
  }

  lemma RunConserves(run: seq<State>, n: nat)
    requires IsRun(run) && n < |run|
    ensures Basic(run[n]) && Conserved(run[n])
  {
    var inv := (s: State) => Conserved(s);
    var along := (s: State) => Basic(s);
    forall k | 0 <= k <= n ensures along(run[k]) {
      RunStaysBasic(run, k);
    }
    forall s, t | inv(s) && Next(s, t) && along(s) && along(t) ensures inv(t) {
      StepConserves(s, t);
    }
    RunKeeps(run, 0, n, inv, along);
  }

  lemma RunStaysBasic(run: seq<State>, n: nat)
    requires IsRun(run) && n < |run|
    ensures Basic(run[n])
  {
    RunIsStocked(run, n);
  }

  /** Realm conservation: in every run the reconciles of a RhpamDev whose "realm
      provisioning" mark landed have made at most one realm between them; it is
      the one recorded, or the RhpamDev is still "realm provisioning". */
  lemma RealmConservation(run: seq<State>, n: nat, i: nat, j: nat)
    requires IsRun(run) && n < |run| && i <= j < |run[n].past.made|
    requires run[n].past.made[i].marked && run[n].past.made[j].marked
    requires run[n].past.made[i].uid == run[n].past.made[j].uid
    ensures i == j
    ensures run[n].past.made[i].uid in run[n].devs && run[n].devs[run[n].past.made[i].uid] != []
    ensures Records(LatestDev(run[n], run[n].past.made[i].uid), run[n].past.made[i].realm)
  {
    RunConserves(run, n);
    assert Recorded(run[n], run[n].past.made[i]);
  }


  // ------------------------------------------------------ given up after the mark

  /** The reconcile that marked the RhpamDev is at work and knows its latest version. */
  predicate Marking(s: State, uid: nat) {
    s.dev.DevBusy? && s.dev.uid == uid && s.dev.mark == Landed && IsLatest(s.devs, uid, s.dev.base)
  }

  /** Marked "realm provisioning", and the reconcile that did it is over, or has
      missed a later version and so cannot store its result. */
  ghost predicate Abandoned(s: State, uid: nat) {
    && uid in s.devs && s.devs[uid] != [] && LatestDev(s, uid).phase == RealmProvisioning
    && !Marking(s, uid)
  }

  lemma EnvKeepsAbandoned(s: State, e: EnvStep, uid: nat)
    requires Basic(s) && Abandoned(s, uid) && EnvEnabled(s, e)
    ensures Abandoned(DoEnv(s, e), uid)
  {
  }

  lemma DevKeepsAbandoned(s: State, d: DevStep, uid: nat)
    requires Basic(s) && Abandoned(s, uid) && DevEnabled(s, d)
    ensures Abandoned(DoDev(s, d), uid)
  {
    DevShapes(s.devs[uid], |s.devs[uid]| - 1);
    if d.DevUpdate? {
      UpdateKeepsAbandoned(s, uid);
    } else if d.DevMark? && d.landing == Landed {
      assert LatestDev(s, s.dev.uid) == s.dev.seen;
    } else {
      OtherStepsKeepAbandoned(s, d, uid);
    }
  }

  /** Such a reconcile's update is refused. */
  lemma UpdateKeepsAbandoned(s: State, uid: nat)
    requires Basic(s) && Abandoned(s, uid) && DevEnabled(s, DevUpdate) && DevShape(LatestDev(s, uid))
    ensures Abandoned(DoDev(s, DevUpdate), uid)
  {
    NotItsOwnUpdate(s, uid);
  }

  lemma NotItsOwnUpdate(s: State, uid: nat)
    requires Basic(s) && Abandoned(s, uid) && DevEnabled(s, DevUpdate) && DevShape(LatestDev(s, uid))
    ensures s.dev.uid != uid
  {
  }

  lemma OtherStepsKeepAbandoned(s: State, d: DevStep, uid: nat)
    requires Abandoned(s, uid) && DevEnabled(s, d) && !d.DevUpdate? && !(d.DevMark? && d.landing == Landed)
    ensures Abandoned(DoDev(s, d), uid)
  {
  }

  lemma UserKeepsAbandoned(s: State, u: UserStep, uid: nat)
    requires Basic(s) && Abandoned(s, uid) && UserEnabled(s, u)
    ensures Abandoned(DoUser(s, u), uid)
  {
    if u.UserRelease? && u.landed {
      ReleaseKeepsAbandoned(s, s.user.items[0], uid);
    } else {
      OtherUserStepKeepsDev(s, u);
    }
  }

  lemma OtherUserStepKeepsDev(s: State, u: UserStep)
    requires UserEnabled(s, u) && !(u.UserRelease? && u.landed)
    ensures DoUser(s, u).devs == s.devs && DoUser(s, u).dev == s.dev
  {
  }

  lemma ReleaseKeepsAbandoned(s: State, i: Item, uid: nat)
    requires Basic(s) && Abandoned(s, uid) && ListedItem(s, i) && i.dev.phase == RealmProvisioned
    requires IsLatest(s.devs, i.uid, i.version)
    ensures Abandoned(s.(devs := Append(s.devs, i.uid, i.dev.(phase := Prepare))), uid)
  {
  }

  lemma StepKeepsAbandoned(s: State, t: State, uid: nat)
    requires Basic(s) && Abandoned(s, uid) && Next(s, t)
    ensures Abandoned(t, uid)
  {
    var step :| Enabled(s, step) && t == Do(s, step);
    match step
    case Env(e) => EnvKeepsAbandoned(s, e, uid);
    case OfDev(d) => DevKeepsAbandoned(s, d, uid);
    case OfUser(u) => UserKeepsAbandoned(s, u, uid);
  }

  /** A reconcile that fails between the mark and its result, its update included,
      leaves the RhpamDev at "realm provisioning" for good, whatever is retried; deleting it does not
      end it either, since no realm is recorded that could be deleted. */
  lemma AbandonedStays(run: seq<State>, m: nat, n: nat, uid: nat)
    requires IsRun(run) && m <= n < |run| && Abandoned(run[m], uid)
    ensures Abandoned(run[n], uid)
  {
    var inv := (s: State) => Abandoned(s, uid);
    var along := (s: State) => Basic(s);
    forall k | m <= k <= n ensures along(run[k]) {
      RunStaysBasic(run, k);
    }
    forall s, t | inv(s) && Next(s, t) && along(s) && along(t) ensures inv(t) {
      StepKeepsAbandoned(s, t, uid);
    }
    RunKeeps(run, m, n, inv, along);
  }
}
