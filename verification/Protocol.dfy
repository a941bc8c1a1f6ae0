/** The two controllers, the API server and the Keycloak server as one state
    machine. Every step is one call: a controller's other reads and all its
    failures leave the shared state alone, so a controller may give up at any point. */
module Protocol {
  import opened Prelude
  import opened Realms

  const FINALIZER: string := "finalizer.rhpam"

  datatype Phase =
    | NoPhase | Accepted | RealmProvisioning | RealmProvisioned | Prepare | Prepared
    | DatabaseInstalled | BusinessCentralInstalled | DatabaseReady | Complete
    | Reconcile | Deprovisioned | DeprovisionFailed

  datatype Dev = Dev(finalizers: set<string>, deleting: bool, phase: Phase, realm: string)

  datatype User = User(finalizers: set<string>, deleting: bool, phase: Phase, realm: string)

  /** The cluster objects a RhpamDev is made of, each a kind and a name. */
  datatype Key =
    | BcRealmSecret | KsRealmSecret
    | ServiceAccount
    | DbCredentials | DbInit | DbPvc | DbService | DbDeployment
    | BcPvc | BcService | BcRoute | BcDeployment
    | KsService | KsRoute | KsDeployment

  datatype Payload =
    | Rendered(content: int)
    | Credentials(user: string, password: string)
    | RealmSecret(realm: string, client: string, secret: string)

  datatype Client = Client(realm: string, id: string)

  const BC_CLIENT: string := "rhpambc"
  const KS_CLIENT: string := "rhpamks"
  const KS_DIRECT_CLIENT: string := "rhpamks-direct"
  const ALL_CLIENTS: set<string> := {BC_CLIENT, KS_CLIENT, KS_DIRECT_CLIENT}

  /** What became of the update that marks a RhpamDev "realm provisioning". */
  datatype Mark = Unmarked | Landed | NotLanded

  /** One reconcile of the RhpamDev controller. `seen` is the object as read,
      `version` its version then and `base` the version the controller believes
      to be the latest; the other fields are what it has learnt or done so far. */
  datatype DevWorker =
    | DevIdle
    | DevBusy(uid: nat, version: nat, base: nat, seen: Dev,
              mark: Mark, made: Option<string>, clients: set<string>, fetched: Option<(string, string)>,
              have: set<Key>, ready: bool, realmGone: bool)

  /** A RhpamDev as the RhpamUser controller listed it. */
  datatype Item = Item(uid: nat, version: nat, dev: Dev)

  datatype UserWorker =
    | UserIdle
    | UserBusy(uid: nat, version: nat, seen: User, copy: User,
               listed: bool, items: seq<Item>, acks: set<Fact>, worked: bool)

  datatype Made = Made(uid: nat, realm: string, marked: bool)

  /** What has happened so far. */
  datatype Past = Past(created: set<string>, made: seq<Made>, lostMark: bool, tornDown: bool, sawReady: bool)

  /** Objects are kept with all their versions, the latest last: a read may come
      from a cache, but an update lands only on the latest version. */
  datatype State = State(
    devs: map<nat, seq<Dev>>,
    users: map<nat, seq<User>>,
    objects: map<Key, Payload>,
    realms: map<string, Realm>,
    clients: map<Client, string>,
    ready: bool,
    dev: DevWorker,
    user: UserWorker,
    past: Past)

  ghost predicate Init(s: State) {
    && s.devs == map[] && s.users == map[] && s.realms == map[] && s.clients == map[]
    && s.objects == map[]
    && s.dev == DevIdle && s.user == UserIdle
    && s.past == Past({}, [], false, false, false)
  }

  // --------------------------------------------------------- the object store

  predicate IsLatest<T>(store: map<nat, seq<T>>, uid: nat, version: nat) {
    uid in store && version + 1 == |store[uid]|
  }

  function Append<T>(store: map<nat, seq<T>>, uid: nat, x: T): map<nat, seq<T>>
    requires uid in store
  {
    store[uid := store[uid] + [x]]
  }

  function LatestDev(s: State, uid: nat): Dev
    requires uid in s.devs && s.devs[uid] != []
  {
    s.devs[uid][|s.devs[uid]| - 1]
  }

  /** The server removes an object marked for deletion once nothing finalizes it. */
  predicate DevGone(d: Dev) {
    d.deleting && d.finalizers == {}
  }

  predicate UserGone(u: User) {
    u.deleting && u.finalizers == {}
  }

  // -------------------------------------------------------------- environment

  datatype EnvStep =
    | CreateDev(uid: nat, finalizers: set<string>)
    | CreateRhpamUser(uid: nat, finalizers: set<string>)
    | TouchDev(uid: nat)
    | TouchUser(uid: nat)
    | RequestDevDeletion(uid: nat)
    | RequestUserDeletion(uid: nat)
    | SetReady(ready: bool)

  predicate EnvEnabled(s: State, e: EnvStep) {
    match e
    case CreateDev(uid, _) => uid !in s.devs
    case CreateRhpamUser(uid, _) => uid !in s.users
    case TouchDev(uid) => uid in s.devs && s.devs[uid] != [] && !DevGone(LatestDev(s, uid))
    case TouchUser(uid) => uid in s.users && s.users[uid] != [] && !UserGone(s.users[uid][|s.users[uid]| - 1])
    case RequestDevDeletion(uid) => uid in s.devs && s.devs[uid] != [] && !DevGone(LatestDev(s, uid))
    case RequestUserDeletion(uid) => uid in s.users && s.users[uid] != [] && !UserGone(s.users[uid][|s.users[uid]| - 1])
    case SetReady(_) => true
  }

  function DoEnv(s: State, e: EnvStep): State
    requires EnvEnabled(s, e)
  {
    match e
    case CreateDev(uid, fs) => s.(devs := s.devs[uid := [Dev(fs, false, NoPhase, "")]])
    case CreateRhpamUser(uid, fs) => s.(users := s.users[uid := [User(fs, false, NoPhase, "")]])
    case TouchDev(uid) => s.(devs := Append(s.devs, uid, LatestDev(s, uid)))
    case TouchUser(uid) => s.(users := Append(s.users, uid, s.users[uid][|s.users[uid]| - 1]))
    case RequestDevDeletion(uid) => s.(devs := Append(s.devs, uid, LatestDev(s, uid).(deleting := true)))
    case RequestUserDeletion(uid) =>
      s.(users := Append(s.users, uid, s.users[uid][|s.users[uid]| - 1].(deleting := true)))
    case SetReady(ready) => s.(ready := ready)
  }

  // ------------------------------------------------------ RhpamDev controller

  /** The objects each phase step sees to. */
  function Work(p: Phase): set<Key> {
    match p
    case Accepted => {BcRealmSecret, KsRealmSecret}
    case Prepare => {ServiceAccount}
    case Prepared => {DbCredentials, DbInit, DbPvc, DbService, DbDeployment}
    case DatabaseInstalled => {BcPvc, BcService, BcRoute, BcDeployment}
    case DatabaseReady => {KsService, KsRoute, KsDeployment}
    case _ => {}
  }

  function ClientOf(k: Key): string {
    if k == BcRealmSecret then BC_CLIENT else KS_CLIENT
  }

  datatype DevStep =
    | DevRead(uid: nat, version: nat)
    | DevGiveUp
    | DevMark(landing: Mark, acked: bool)
    | DevCreateRealm(id: string, auto: set<string>)
    | DevCreateClient(client: string, secret: string)
    | DevFetchSecret(client: string)
    | DevFindObject(key: Key)
    | DevCreateObject(key: Key, payload: Payload)
    | DevSeeReady
    | DevDeleteRealm
    | DevReleaseUser(uid: nat, version: nat)
    | DevDeleteObject(key: Key)
    | DevUpdate

  /** May this reconcile see to `k` now? The realm secrets wait for the client secret. */
  predicate Handles(w: DevWorker, k: Key)
    requires w.DevBusy?
  {
    && !w.seen.deleting
    && k in Work(w.seen.phase)
    && (w.seen.phase == Accepted ==> w.made.Some? && w.fetched.Some? && w.fetched.value.0 == ClientOf(k))
  }

  predicate Suits(w: DevWorker, k: Key, p: Payload)
    requires w.DevBusy? && Handles(w, k)
  {
    match k
    case BcRealmSecret => p == RealmSecret(w.made.value, BC_CLIENT, w.fetched.value.1)
    case KsRealmSecret => p == RealmSecret(w.made.value, KS_CLIENT, w.fetched.value.1)
    case DbCredentials => p.Credentials?
    case _ => p.Rendered?
  }

  /** The reconcile has done all its phase asks for. */
  predicate Finished(w: DevWorker)
    requires w.DevBusy?
  {
    if w.seen.deleting then w.realmGone
    else match w.seen.phase
      case NoPhase => true
      case Accepted => w.made.Some? && Work(Accepted) <= w.have
      case Prepare => Work(Prepare) <= w.have
      case Prepared => Work(Prepared) <= w.have
      case DatabaseInstalled => Work(DatabaseInstalled) <= w.have
      case BusinessCentralInstalled => w.ready
      case DatabaseReady => Work(DatabaseReady) <= w.have
      case _ => false
  }

  function NextPhase(p: Phase): Phase {
    match p
    case NoPhase => Accepted
    case Accepted => RealmProvisioned
    case Prepare => Prepared
    case Prepared => DatabaseInstalled
    case DatabaseInstalled => BusinessCentralInstalled
    case BusinessCentralInstalled => DatabaseReady
    case DatabaseReady => Complete
    case p => p
  }

  /** The object a finished reconcile writes back. */
  function Result(w: DevWorker): Dev
    requires w.DevBusy? && Finished(w)
  {
    if w.seen.deleting then w.seen.(finalizers := {}, phase := Deprovisioned)
    else match w.seen.phase
      case NoPhase => w.seen.(finalizers := w.seen.finalizers + {FINALIZER}, phase := Accepted)
      case Accepted => w.seen.(phase := RealmProvisioned, realm := w.made.value)
      case p => w.seen.(phase := NextPhase(p))
  }

  predicate DevEnabled(s: State, d: DevStep) {
    if d.DevRead? then s.dev == DevIdle && d.uid in s.devs && d.version < |s.devs[d.uid]|
    else s.dev.DevBusy? && DevBusyEnabled(s, s.dev, d)
  }

  predicate DevBusyEnabled(s: State, w: DevWorker, d: DevStep)
    requires w.DevBusy?
  {
    match d
    case DevRead(_, _) => false
    case DevGiveUp => true
    case DevMark(landing, acked) =>
      && !w.seen.deleting && w.seen.phase == Accepted && w.mark == Unmarked
      && landing != Unmarked
      && (landing == Landed ==> IsLatest(s.devs, w.uid, w.base) && !DevGone(LatestDev(s, w.uid)))
      && (landing == NotLanded ==> !acked)
    case DevCreateRealm(id, auto) =>
      && !w.seen.deleting && w.seen.phase == Accepted && w.mark != Unmarked && w.made == None
      && id != "" && id !in s.past.created && "" !in auto
    case DevCreateClient(c, _) =>
      && w.made.Some? && w.made.value in s.realms
      && c in ALL_CLIENTS
      && Client(w.made.value, c) !in s.clients
    case DevFetchSecret(c) =>
      && w.made.Some? && w.made.value in s.realms
      && c in {BC_CLIENT, KS_CLIENT} && w.clients == ALL_CLIENTS
      && Client(w.made.value, c) in s.clients
    case DevFindObject(k) => Handles(w, k) && k in s.objects
    case DevCreateObject(k, p) => Handles(w, k) && k !in s.objects && Suits(w, k, p)
    case DevSeeReady =>
      !w.seen.deleting && w.seen.phase == BusinessCentralInstalled && DbDeployment in s.objects && s.ready
    case DevDeleteRealm => w.seen.deleting && !w.realmGone && w.seen.realm in s.realms
    case DevReleaseUser(uid, v) =>
      && w.seen.deleting && w.realmGone
      && IsLatest(s.users, uid, v) && s.users[uid][v].realm == w.seen.realm && !UserGone(s.users[uid][v])
    case DevDeleteObject(_) => w.seen.deleting && w.realmGone
    case DevUpdate =>
      && Finished(w) && IsLatest(s.devs, w.uid, w.base) && !DevGone(LatestDev(s, w.uid))
  }

  function DoDev(s: State, d: DevStep): State
    requires DevEnabled(s, d)
  {
    if d.DevRead? then
      s.(dev := DevBusy(d.uid, d.version, d.version, s.devs[d.uid][d.version],
                        Unmarked, None, {}, None, {}, false, false))
    else DoDevBusy(s, s.dev, d)
  }

  function DoDevBusy(s: State, w: DevWorker, d: DevStep): State
    requires w.DevBusy? && !d.DevRead? && DevBusyEnabled(s, w, d)
  {
    match d
    case DevGiveUp => s.(dev := DevIdle)
    case DevMark(landing, acked) =>
      if landing == NotLanded then
        s.(dev := w.(mark := NotLanded), past := s.past.(lostMark := true))
      else
        s.(devs := Append(s.devs, w.uid, w.seen.(phase := RealmProvisioning)),
           dev := w.(mark := Landed, base := if acked then w.base + 1 else w.base))
    case DevCreateRealm(id, auto) =>
      s.(realms := s.realms[id := Realm(auto, map[], auto)],
         dev := w.(made := Some(id)),
         past := s.past.(created := s.past.created + {id},
                         made := s.past.made + [Made(w.uid, id, w.mark == Landed)]))
    case DevCreateClient(c, secret) =>
      s.(clients := s.clients[Client(w.made.value, c) := secret], dev := w.(clients := w.clients + {c}))
    case DevFetchSecret(c) => s.(dev := w.(fetched := Some((c, s.clients[Client(w.made.value, c)]))))
    case DevFindObject(k) => s.(dev := w.(have := w.have + {k}))
    case DevCreateObject(k, p) => s.(objects := s.objects[k := p], dev := w.(have := w.have + {k}))
    case DevSeeReady => s.(dev := w.(ready := true), past := s.past.(sawReady := true))
    case DevDeleteRealm => s.(realms := s.realms - {w.seen.realm}, dev := w.(realmGone := true))
    case DevReleaseUser(uid, v) => s.(users := Append(s.users, uid, s.users[uid][v].(phase := Deprovisioned)))
    case DevDeleteObject(k) => s.(objects := s.objects - {k}, past := s.past.(tornDown := true))
    case DevUpdate => s.(devs := Append(s.devs, w.uid, Result(w)), dev := DevIdle)
  }

  // ----------------------------------------------------- RhpamUser controller

  datatype UserStep =
    | UserRead(uid: nat, version: nat)
    | UserGiveUp
    | UserList(items: seq<Item>)
    | UserPass
    | UserBind
    | UserRelease(landed: bool)
    | UserSee(fact: Fact)
    | UserWrite(w: Write)
    | UserReachRealm
    | UserUpdate(failed: bool)

  /** A RhpamUser that lists a RhpamDev in such a phase binds to its realm. */
  predicate Binding(p: Phase) {
    p == Complete || p == RealmProvisioned
  }

  /** The listed RhpamDev whose realm is being filled. */
  predicate Filling(w: UserWorker) {
    w.UserBusy? && w.items != [] && w.items[0].dev.phase == RealmProvisioned
  }

  /** The realm this reconcile works on. */
  function CurrentRealm(w: UserWorker): string
    requires w.UserBusy?
  {
    if Filling(w) then w.items[0].dev.realm else w.seen.realm
  }

  /** A reconcile that may write to its user's own realm. */
  predicate OwnsRealm(w: UserWorker)
    requires w.UserBusy?
  {
    if w.seen.deleting then w.seen.phase != Deprovisioned else w.seen.phase == Reconcile
  }

  /** All default roles and users have been seen or created. */
  predicate AllDefaults(acks: set<Fact>) {
    && (forall r | r in DefaultRoles() :: RoleFact(r) in acks)
    && (forall u | u in DefaultUsers() :: UserFact(u) in acks)
  }

  predicate UserEnabled(s: State, u: UserStep) {
    if u.UserRead? then s.user == UserIdle && u.uid in s.users && u.version < |s.users[u.uid]|
    else s.user.UserBusy? && UserBusyEnabled(s, s.user, u)
  }

  predicate UserBusyEnabled(s: State, w: UserWorker, u: UserStep)
    requires w.UserBusy?
  {
    match u
    case UserRead(_, _) => false
    case UserGiveUp => true
    case UserList(items) =>
      && !w.seen.deleting && w.seen.phase == Accepted && !w.listed
      && forall i | i in items ::
           i.uid in s.devs && i.version < |s.devs[i.uid]| && s.devs[i.uid][i.version] == i.dev
    case UserPass => w.items != [] && !Binding(w.items[0].dev.phase)
    case UserBind => w.items != [] && w.items[0].dev.phase == Complete
    case UserRelease(landed) =>
      && Filling(w) && AllDefaults(w.acks)
      && (landed ==>
            && IsLatest(s.devs, w.items[0].uid, w.items[0].version)
            && !DevGone(LatestDev(s, w.items[0].uid)))
    case UserSee(f) =>
      && (Filling(w) || OwnsRealm(w))
      && CurrentRealm(w) in s.realms && Holds(f, s.realms[CurrentRealm(w)])
    case UserWrite(k) =>
      && (Filling(w) || OwnsRealm(w))
      && CurrentRealm(w) in s.realms && Accepts(s.realms[CurrentRealm(w)], k) && Protective(k)
    case UserReachRealm => OwnsRealm(w) && w.seen.realm in s.realms
    case UserUpdate(failed) =>
      && IsLatest(s.users, w.uid, w.version) && !UserGone(s.users[w.uid][w.version])
      && (failed ==> w.seen.deleting && w.seen.phase != Deprovisioned)
      && UserFinished(w, failed)
  }

  predicate UserFinished(w: UserWorker, failed: bool)
    requires w.UserBusy?
  {
    if w.seen.deleting then w.seen.phase == Deprovisioned || w.worked || failed
    else match w.seen.phase
      case NoPhase => true
      case Accepted => w.listed && w.items == []
      case Reconcile => w.worked
      case _ => false
  }

  /** The object a reconcile writes back. */
  function UserResult(w: UserWorker, failed: bool): User
    requires w.UserBusy?
  {
    if w.seen.deleting then
      if w.seen.phase == Deprovisioned then w.seen.(finalizers := {}, phase := Complete)
      else w.seen.(phase := if failed then DeprovisionFailed else Deprovisioned)
    else if w.seen.phase == NoPhase then
      w.seen.(finalizers := w.seen.finalizers + {FINALIZER}, phase := Accepted)
    else w.copy
  }

  function DoUser(s: State, u: UserStep): State
    requires UserEnabled(s, u)
  {
    if u.UserRead? then
      s.(user := UserBusy(u.uid, u.version, s.users[u.uid][u.version], s.users[u.uid][u.version],
                          false, [], {}, false))
    else DoUserBusy(s, s.user, u)
  }

  function DoUserBusy(s: State, w: UserWorker, u: UserStep): State
    requires w.UserBusy? && !u.UserRead? && UserBusyEnabled(s, w, u)
  {
    match u
    case UserGiveUp => s.(user := UserIdle)
    case UserList(items) => s.(user := w.(listed := true, items := items, acks := {}))
    case UserPass => s.(user := w.(items := w.items[1..], acks := {}))
    case UserBind => s.(user := BoundTo(w))
    case UserRelease(landed) =>
      if landed then
        s.(user := BoundTo(w),
           devs := Append(s.devs, w.items[0].uid, w.items[0].dev.(phase := Prepare)))
      else s.(user := BoundTo(w))
    case UserSee(f) => s.(user := w.(acks := w.acks + {f}))
    case UserWrite(k) =>
      s.(realms := s.realms[CurrentRealm(w) := Apply(s.realms[CurrentRealm(w)], k)],
         user := if k.CreateRole? || k.CreateUser? then w.(acks := w.acks + {Subject(k)}) else w)
    case UserReachRealm => s.(user := w.(worked := true))
    case UserUpdate(failed) => s.(users := Append(s.users, w.uid, UserResult(w, failed)), user := UserIdle)
  }

  /** The user takes the realm of the first listed RhpamDev; on to the next. */
  function BoundTo(w: UserWorker): UserWorker
    requires w.UserBusy? && w.items != []
  {
    w.(copy := w.copy.(phase := Reconcile, realm := w.items[0].dev.realm), items := w.items[1..], acks := {})
  }

  // ------------------------------------------------------------------- runs

  datatype Step = Env(e: EnvStep) | OfDev(d: DevStep) | OfUser(u: UserStep)

  predicate Enabled(s: State, step: Step) {
    match step
    case Env(e) => EnvEnabled(s, e)
    case OfDev(d) => DevEnabled(s, d)
    case OfUser(u) => UserEnabled(s, u)
  }

  function Do(s: State, step: Step): State
    requires Enabled(s, step)
  {
    match step
    case Env(e) => DoEnv(s, e)
    case OfDev(d) => DoDev(s, d)
    case OfUser(u) => DoUser(s, u)
  }

  ghost predicate Next(s: State, t: State) {
    exists step :: Enabled(s, step) && t == Do(s, step)
  }

  ghost predicate StepTo(run: seq<State>, n: nat)
    requires 0 < n < |run|
  {
    Next(run[n - 1], run[n])
  }

  ghost predicate IsRun(run: seq<State>) {
    && run != []
    && Init(run[0])
    && forall n | 0 < n < |run| :: StepTo(run, n)
  }

  /** The state a run has come to. */
  function Last(run: seq<State>): State
    requires run != []
  {
    run[|run| - 1]
  }

  /** What every step keeps, as long as `along` holds, is kept by the run. */
  lemma {:induction false} RunKeeps(run: seq<State>, m: nat, n: nat, inv: State -> bool, along: State -> bool)
    requires IsRun(run) && m <= n < |run| && inv(run[m])
    requires forall k | m <= k <= n :: along(run[k])
    requires forall s, t | inv(s) && Next(s, t) && along(s) && along(t) :: inv(t)
    ensures inv(run[n])
    decreases n
  {
    if m < n {
      RunKeeps(run, m, n - 1, inv, along);
      assert StepTo(run, n);
    }
  }
}
