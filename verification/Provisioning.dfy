/** What the RhpamDev controller has created by each phase: cluster objects,
    the realm, and the secrets that connect the two. */
module Provisioning {
  import opened Protocol
  import opened ProtocolSafety

  // ------------------------------------------------------- objects by phase

  /** The rank from which on a RhpamDev has the object. */
  function Since(k: Key): nat {
    match k
    case BcRealmSecret => 3
    case KsRealmSecret => 3
    case ServiceAccount => 5
    case DbCredentials => 6
    case DbInit => 6
    case DbPvc => 6
    case DbService => 6
    case DbDeployment => 6
    case BcPvc => 7
    case BcService => 7
    case BcRoute => 7
    case BcDeployment => 7
    case KsService => 9
    case KsRoute => 9
    case KsDeployment => 9
  }

  predicate Needs(p: Phase, k: Key) {
    Since(k) <= Rank(p) <= 9
  }

  /** Completing a phase adds to the needs exactly the work of that phase. */
  lemma WorkMeetsNeeds(p: Phase, k: Key)
    requires Rank(p) <= 8 && p != RealmProvisioning && p != RealmProvisioned
    ensures Needs(NextPhase(p), k) <==> Needs(p, k) || k in Work(p)
  {
  }

  ghost predicate Supplied(p: Phase, objects: map<Key, Payload>) {
    forall k :: Needs(p, k) ==> k in objects
  }

  ghost predicate AllSupplied(devs: map<nat, seq<Dev>>, objects: map<Key, Payload>) {
    forall uid, i | uid in devs && 0 <= i < |devs[uid]| :: Supplied(devs[uid][i].phase, objects)
  }

  ghost predicate Provided(s: State) {
    AllSupplied(s.devs, s.objects) && (s.dev.DevBusy? ==> s.dev.have <= s.objects.Keys)
  }

  predicate KieServerObject(k: Key) {
    k in Work(DatabaseReady)
  }

  ghost predicate AllReadied(devs: map<nat, seq<Dev>>, sawReady: bool) {
    forall uid, i | uid in devs && 0 <= i < |devs[uid]| :: 8 <= Rank(devs[uid][i].phase) <= 9 ==> sawReady
  }

  /** The KieServer objects, and the phases from "database ready" on, come only
      after the database has been seen ready. */
  ghost predicate ReadyFirst(s: State) {
    && (forall k | k in s.objects :: KieServerObject(k) ==> s.past.sawReady)
    && AllReadied(s.devs, s.past.sawReady)
    && (s.dev.DevBusy? && s.dev.ready ==> s.past.sawReady)
  }

  ghost predicate Stocked(s: State) {
    Basic(s) && ReadyFirst(s) && (s.past.tornDown || Provided(s))
  }

  /** What a new version of a RhpamDev must be for the shared state to stay in order. */
  ghost predicate InStock(s: State, d: Dev) {
    && (s.past.tornDown || Supplied(d.phase, s.objects))
    && (8 <= Rank(d.phase) <= 9 ==> s.past.sawReady)
  }

  lemma StoredIsInStock(s: State, uid: nat, i: nat)
    requires Stocked(s) && uid in s.devs && i < |s.devs[uid]|
    ensures InStock(s, s.devs[uid][i])
  {
  }

  ghost predicate StockKept(s: State) {
    ReadyFirst(s) && (s.past.tornDown || Provided(s))
  }

  lemma NewVersionKeepsStock(s: State, uid: nat, d: Dev)
    requires Stocked(s) && uid in s.devs && InStock(s, d)
    ensures StockKept(s.(devs := Append(s.devs, uid, d)))
  {
  }

  lemma EnvKeepsStock(s: State, e: EnvStep)
    requires Stocked(s) && EnvEnabled(s, e)
    ensures StockKept(DoEnv(s, e))
  {
    if e.TouchDev? {
      StoredIsInStock(s, e.uid, |s.devs[e.uid]| - 1);
      NewVersionKeepsStock(s, e.uid, LatestDev(s, e.uid));
    } else if e.RequestDevDeletion? {
      StoredIsInStock(s, e.uid, |s.devs[e.uid]| - 1);
      NewVersionKeepsStock(s, e.uid, LatestDev(s, e.uid).(deleting := true));
    } else if e.CreateDev? {
      NewDevKeepsStock(s, e.uid, e.finalizers);
    }
  }

  lemma NewDevKeepsStock(s: State, uid: nat, fs: set<string>)
    requires Stocked(s) && uid !in s.devs
    ensures StockKept(s.(devs := s.devs[uid := [Dev(fs, false, NoPhase, "")]]))
  {
  }

  /** A finished reconcile has seen to all that its next phase needs. */
  lemma ResultInStock(s: State)
    requires Stocked(s) && s.dev.DevBusy? && Finished(s.dev)
    ensures InStock(s, Result(s.dev))
  {
    var w := s.dev;
    StoredIsInStock(s, w.uid, w.version);
    if !w.seen.deleting && !s.past.tornDown {
      forall k | Needs(Result(w).phase, k) ensures k in s.objects {
        WorkMeetsNeeds(w.seen.phase, k);
      }
    }
  }

  lemma DevKeepsStock(s: State, d: DevStep)
    requires Stocked(s) && DevEnabled(s, d)
    ensures StockKept(DoDev(s, d))
  {
    if d.DevMark? && d.landing == Landed {
      NewVersionKeepsStock(s, s.dev.uid, s.dev.seen.(phase := RealmProvisioning));
    } else if d.DevUpdate? {
      ResultInStock(s);
      NewVersionKeepsStock(s, s.dev.uid, Result(s.dev));
    } else if d.DevCreateObject? {
      CreateKeepsStock(s, d);
    } else {
      OtherKeepsStock(s, d);
    }
  }

  lemma CreateKeepsStock(s: State, d: DevStep)
    requires Stocked(s) && DevEnabled(s, d) && d.DevCreateObject?
    ensures StockKept(DoDev(s, d))
  {
    StoredIsInStock(s, s.dev.uid, s.dev.version);
  }

  lemma OtherKeepsStock(s: State, d: DevStep)
    requires Stocked(s) && DevEnabled(s, d)
    requires !d.DevUpdate? && !d.DevCreateObject? && !(d.DevMark? && d.landing == Landed)
    ensures StockKept(DoDev(s, d))
  {
    if d.DevDeleteObject? || d.DevFindObject? || d.DevSeeReady? || d.DevRead? {
      LookingKeepsStock(s, d);
    }
  }

  lemma LookingKeepsStock(s: State, d: DevStep)
    requires Stocked(s) && DevEnabled(s, d)
    requires d.DevDeleteObject? || d.DevFindObject? || d.DevSeeReady? || d.DevRead?
    ensures StockKept(DoDev(s, d))
  {
  }

  lemma UserKeepsStock(s: State, u: UserStep)
    requires Stocked(s) && UserEnabled(s, u)
    ensures StockKept(DoUser(s, u))
  {
    if u.UserRelease? && u.landed {
      ReleaseKeepsStock(s, s.user.items[0]);
    }
  }

  lemma ReleaseKeepsStock(s: State, i: Item)
    requires Stocked(s) && ListedItem(s, i) && i.dev.phase == RealmProvisioned
    ensures StockKept(s.(devs := Append(s.devs, i.uid, i.dev.(phase := Prepare))))
  {
    StoredIsInStock(s, i.uid, i.version);
    assert forall k :: Needs(Prepare, k) ==> Needs(RealmProvisioned, k);
    NewVersionKeepsStock(s, i.uid, i.dev.(phase := Prepare));
  }

  lemma EnvIsStocked(s: State, e: EnvStep)
    requires Stocked(s) && EnvEnabled(s, e)
    ensures Stocked(DoEnv(s, e))
  {
    EnvKeepsBasic(s, e);
    EnvKeepsStock(s, e);
  }

  lemma DevIsStocked(s: State, d: DevStep)
    requires Stocked(s) && DevEnabled(s, d)
    ensures Stocked(DoDev(s, d))
  {
    DevKeepsBasic(s, d);
    DevKeepsStock(s, d);
  }

  lemma UserIsStocked(s: State, u: UserStep)
    requires Stocked(s) && UserEnabled(s, u)
    ensures Stocked(DoUser(s, u))
  {
    UserKeepsBasic(s, u);
    UserKeepsStock(s, u);
  }

  lemma StepIsStocked(s: State, t: State)
    requires Stocked(s) && Next(s, t)
    ensures Stocked(t)
  {
    var step :| Enabled(s, step) && t == Do(s, step);
    match step
    case Env(e) => EnvIsStocked(s, e);
    case OfDev(d) => DevIsStocked(s, d);
    case OfUser(u) => UserIsStocked(s, u);
  }

  lemma RunIsStocked(run: seq<State>, n: nat)
    requires IsRun(run) && n < |run|
    ensures Stocked(run[n])
  {
    var inv := (s: State) => Stocked(s);
    var along := (s: State) => true;
    InitBasic(run[0]);
    forall s, t | inv(s) && Next(s, t) && along(s) && along(t) ensures inv(t) {
      StepIsStocked(s, t);
    }
    RunKeeps(run, 0, n, inv, along);
  }

  /** In every run, until a RhpamDev is torn down, each RhpamDev has every object
      of its phase and all earlier ones. */
  lemma PhaseImpliesObjects(run: seq<State>, n: nat, uid: nat, i: nat, k: Key)
    requires IsRun(run) && n < |run| && !run[n].past.tornDown
    requires uid in run[n].devs && i < |run[n].devs[uid]|
    requires Needs(run[n].devs[uid][i].phase, k)
    ensures k in run[n].objects
  {
    RunIsStocked(run, n);
    StoredIsInStock(run[n], uid, i);
  }

  ghost predicate DatabaseReadyIn(s: State) {
    s.ready && DbDeployment in s.objects
  }

  lemma DevSeesOnlyReady(s: State, d: DevStep)
    requires DevEnabled(s, d) && DoDev(s, d).past.sawReady && !s.past.sawReady
    ensures DatabaseReadyIn(s)
  {
  }

  lemma SeesOnlyReady(s: State, t: State)
    requires Next(s, t) && t.past.sawReady && !s.past.sawReady
    ensures DatabaseReadyIn(s)
  {
    var step :| Enabled(s, step) && t == Do(s, step);
    match step
    case Env(e) => EnvKeepsPast(s, e);
    case OfDev(d) => DevSeesOnlyReady(s, d);
    case OfUser(u) => UserKeepsPast(s, u);
  }

  lemma EnvKeepsPast(s: State, e: EnvStep)
    requires EnvEnabled(s, e)
    ensures DoEnv(s, e).past == s.past
  {
  }

  lemma UserKeepsPast(s: State, u: UserStep)
    requires UserEnabled(s, u)
    ensures DoUser(s, u).past == s.past
  {
  }

  lemma {:induction false} SeenReadyBefore(run: seq<State>, n: nat)
    requires IsRun(run) && n < |run| && run[n].past.sawReady
    ensures exists m :: 0 <= m < n && DatabaseReadyIn(run[m])
  {
    assert StepTo(run, n);
    if run[n - 1].past.sawReady {
      SeenReadyBefore(run, n - 1);
    } else {
      SeesOnlyReady(run[n - 1], run[n]);
    }
  }

  /** In every run no KieServer object exists before the database deployment was
      there and ready. */
  lemma KieServerWaitsForDatabase(run: seq<State>, n: nat, k: Key)
    requires IsRun(run) && n < |run| && KieServerObject(k) && k in run[n].objects
    ensures exists m :: 0 <= m < n && DatabaseReadyIn(run[m])
  {
    RunIsStocked(run, n);
    SeenReadyBefore(run, n);
  }

  // ------------------------------------------------ objects are written once

  /** Nothing stored is lost or changed, short of a deprovisioning. */
  ghost predicate OnlyGrows(s: State, t: State) {
    && (s.past.tornDown ==> t.past.tornDown)
    && (s.past.lostMark ==> t.past.lostMark)
    && s.devs.Keys <= t.devs.Keys
    && (!t.past.tornDown ==> forall k | k in s.objects :: k in t.objects && t.objects[k] == s.objects[k])
  }

  lemma EnvOnlyGrows(s: State, e: EnvStep)
    requires EnvEnabled(s, e)
    ensures OnlyGrows(s, DoEnv(s, e))
  {
  }

  lemma DevOnlyGrows(s: State, d: DevStep)
    requires DevEnabled(s, d)
    ensures OnlyGrows(s, DoDev(s, d))
  {
    if d.DevMark? || d.DevUpdate? || d.DevCreateObject? || d.DevDeleteObject? {
      WriteOnlyGrows(s, d);
    }
  }

  lemma WriteOnlyGrows(s: State, d: DevStep)
    requires DevEnabled(s, d) && (d.DevMark? || d.DevUpdate? || d.DevCreateObject? || d.DevDeleteObject?)
    ensures OnlyGrows(s, DoDev(s, d))
  {
  }

  lemma UserOnlyGrows(s: State, u: UserStep)
    requires UserEnabled(s, u) && Basic(s)
    ensures OnlyGrows(s, DoUser(s, u))
  {
    if u.UserRelease? && u.landed {
      assert ListedItem(s, s.user.items[0]);
    }
  }

  lemma StepOnlyGrows(s: State, t: State)
    requires Basic(s) && Next(s, t)
    ensures OnlyGrows(s, t)
  {
    var step :| Enabled(s, step) && t == Do(s, step);
    match step
    case Env(e) => EnvOnlyGrows(s, e);
    case OfDev(d) => DevOnlyGrows(s, d);
    case OfUser(u) => UserOnlyGrows(s, u);
  }

  lemma GrowthAddsUp(a: State, b: State, c: State)
    requires OnlyGrows(a, b) && OnlyGrows(b, c)
    ensures OnlyGrows(a, c)
  {
  }

  lemma LastStepOnlyGrows(run: seq<State>, n: nat)
    requires IsRun(run) && 0 < n < |run|
    ensures OnlyGrows(run[n - 1], run[n])
  {
    RunIsStocked(run, n - 1);
    assert StepTo(run, n);
    StepOnlyGrows(run[n - 1], run[n]);
  }

  lemma {:induction false} RunOnlyGrows(run: seq<State>, m: nat, n: nat)
    requires IsRun(run) && m <= n < |run|
    ensures OnlyGrows(run[m], run[n])
    decreases n
  {
    if m < n {
      RunOnlyGrows(run, m, n - 1);
      LastStepOnlyGrows(run, n);
      GrowthAddsUp(run[m], run[n - 1], run[n]);
    }
  }

  /** Whatever is retried, an object once stored keeps its first contents; so
      the database credentials keep their first random values. */
  lemma ObjectsWrittenOnce(run: seq<State>, m: nat, n: nat, k: Key)
    requires IsRun(run) && m <= n < |run| && !run[n].past.tornDown && k in run[m].objects
    ensures k in run[n].objects && run[n].objects[k] == run[m].objects[k]
  {
    RunOnlyGrows(run, m, n);
  }
}
