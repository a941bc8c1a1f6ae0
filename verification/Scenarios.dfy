/** Runs that end where the code falls short: what the exact conditions proved
    elsewhere exclude does happen. */
module Scenarios {
  import opened ApiServer
  import opened Conservation
  import DevPhaseHandler
  import opened Prelude
  import opened Protocol
  import opened ProtocolSafety
  import opened RealmReplay
  import opened Realms
  import opened Teardown
  import opened Termination
  import opened UserController
  import opened UserPhaseHandler

  // ------------------------------------------------------------ making a run

  lemma Then(run: seq<State>, step: Step) returns (longer: seq<State>)
    requires IsRun(run) && Enabled(Last(run), step)
    ensures IsRun(longer) && run <= longer && Last(longer) == Do(Last(run), step)
  {
    RunGoesOn(run, step);
    longer := run + [Do(Last(run), step)];
  }

  /** The RhpamDev controller takes a step of a reconcile. */
  lemma Works(run: seq<State>, d: DevStep) returns (longer: seq<State>)
    requires IsRun(run) && Last(run).dev.DevBusy? && !d.DevRead? && DevBusyEnabled(Last(run), Last(run).dev, d)
    ensures IsRun(longer) && run <= longer && Last(longer) == DoDevBusy(Last(run), Last(run).dev, d)
  {
    longer := Then(run, OfDev(d));
  }

  /** The RhpamUser controller takes a step of a reconcile. */
  lemma Serves(run: seq<State>, u: UserStep) returns (longer: seq<State>)
    requires IsRun(run) && Last(run).user.UserBusy? && !u.UserRead? && UserBusyEnabled(Last(run), Last(run).user, u)
    ensures IsRun(longer) && run <= longer && Last(longer) == DoUserBusy(Last(run), Last(run).user, u)
  {
    longer := Then(run, OfUser(u));
  }

  /** A reconcile begins with the object as it was at some version. */
  lemma Begins(run: seq<State>, uid: nat, version: nat) returns (longer: seq<State>)
    requires IsRun(run) && Last(run).dev == DevIdle && uid in Last(run).devs && version < |Last(run).devs[uid]|
    ensures IsRun(longer) && run <= longer
    ensures Last(longer) == Last(run).(dev := Begun(uid, version, Last(run).devs[uid][version]))
  {
    longer := Then(run, OfDev(DevRead(uid, version)));
  }

  function Begun(uid: nat, version: nat, seen: Dev): DevWorker {
    DevBusy(uid, version, version, seen, Unmarked, None, {}, None, {}, false, false)
  }

  lemma UserBegins(run: seq<State>, uid: nat, version: nat) returns (longer: seq<State>)
    requires IsRun(run) && Last(run).user == UserIdle && uid in Last(run).users && version < |Last(run).users[uid]|
    ensures IsRun(longer) && run <= longer
    ensures Last(longer) == Last(run).(user := UserBegun(uid, version, Last(run).users[uid][version]))
  {
    longer := Then(run, OfUser(UserRead(uid, version)));
  }

  function UserBegun(uid: nat, version: nat, seen: User): UserWorker {
    UserBusy(uid, version, seen, seen, false, [], {}, false)
  }

  const NOTHING: State :=
    State(map[], map[], map[], map[], map[], false, DevIdle, UserIdle, Past({}, [], false, false, false))

  const FRESH: Dev := Dev({}, false, NoPhase, "")
  const ACCEPTED: Dev := Dev({FINALIZER}, false, Phase.Accepted, "")
  const MARKED: Dev := Dev({FINALIZER}, false, RealmProvisioning, "")
  const EMPTY: Realm := Realm({}, map[], {})

  /** A RhpamDev that has been accepted. */
  const INITIALIZED: State := NOTHING.(devs := map[0 := [FRESH, ACCEPTED]])

  lemma Initialized() returns (run: seq<State>)
    ensures IsRun(run) && Last(run) == INITIALIZED
  {
    run := [NOTHING];
    run := Then(run, Env(CreateDev(0, {})));
    assert Last(run) == NOTHING.(devs := map[0 := [FRESH]]);
    run := Begins(run, 0, 0);
    assert Result(Last(run).dev) == ACCEPTED;
    run := Works(run, DevUpdate);
    assert Last(run).devs[0] == [FRESH, ACCEPTED];
    assert Last(run).devs == map[0 := [FRESH, ACCEPTED]];
  }

  // --------------------------------------------------- left "realm provisioning"

  /** The mark lands and the reconcile then fails: nothing else has to go wrong
      for a RhpamDev to stay "realm provisioning" for good. */
  lemma GivesUpAfterMark() returns (run: seq<State>)
    ensures IsRun(run) && Abandoned(Last(run), 0)
    ensures Last(run) == INITIALIZED.(devs := map[0 := [FRESH, ACCEPTED, MARKED]])
  {
    run := Initialized();
    run := Begins(run, 0, 1);
    run := Works(run, DevMark(Landed, true));
    assert Last(run).devs[0] == [FRESH, ACCEPTED, MARKED];
    assert Last(run).devs == map[0 := [FRESH, ACCEPTED, MARKED]];
    run := Works(run, DevGiveUp);
  }

  // ------------------------------------------- a user without its finalizer

  const OTHERS: User := User({"other"}, false, NoPhase, "")

  /** A user deleted before it was first looked at has its deprovisioning tried,
      and fail, without having got the operator's finalizer. */
  lemma FailsWithoutFinalizer() returns (run: seq<State>)
    ensures IsRun(run) && Last(run).user == UserIdle && 0 in Last(run).users
    ensures Last(run).users[0] ==
      [OTHERS, OTHERS.(deleting := true), OTHERS.(deleting := true, phase := DeprovisionFailed)]
    ensures FINALIZER !in Last(run).users[0][2].finalizers && !UserGone(Last(run).users[0][2])
  {
    run := [NOTHING];
    run := Then(run, Env(CreateRhpamUser(0, {"other"})));
    run := Then(run, Env(RequestUserDeletion(0)));
    assert Last(run).users[0] == [OTHERS, OTHERS.(deleting := true)];
    run := UserBegins(run, 0, 1);
    run := Serves(run, UserUpdate(true));
    assert UserResult(UserBegun(0, 1, OTHERS.(deleting := true)), true).finalizers == {"other"};
    assert "other" != FINALIZER by {
      assert "other"[0] == 'o' && FINALIZER[0] == 'f';
    }
  }

  // ----------------------------------------------------- provisioning a realm

  lemma AddsClient(run: seq<State>, realm: string, c: string) returns (longer: seq<State>)
    requires IsRun(run) && Last(run).dev.DevBusy? && Last(run).dev.made == Some(realm) && realm in Last(run).realms
    requires c in ALL_CLIENTS && Client(realm, c) !in Last(run).clients
    ensures IsRun(longer)
    ensures Last(longer) == Last(run).(
      clients := Last(run).clients[Client(realm, c) := "s"],
      dev := Last(run).dev.(clients := Last(run).dev.clients + {c}))
  {
    longer := Works(run, DevCreateClient(c, "s"));
  }

  function ClientsOf(realm: string): map<Client, string> {
    map[Client(realm, BC_CLIENT) := "s", Client(realm, KS_CLIENT) := "s", Client(realm, KS_DIRECT_CLIENT) := "s"]
  }

  lemma AddsClients(run: seq<State>, realm: string) returns (longer: seq<State>)
    requires IsRun(run) && Last(run).dev.DevBusy? && Last(run).dev.made == Some(realm)
    requires Last(run).dev.clients == {} && realm in Last(run).realms
    requires forall c | c in Last(run).clients :: c.realm != realm
    ensures IsRun(longer)
    ensures Last(longer) == Last(run).(
      clients := Last(run).clients + ClientsOf(realm), dev := Last(run).dev.(clients := ALL_CLIENTS))
  {
    longer := AddsClient(run, realm, BC_CLIENT);
    longer := AddsClient(longer, realm, KS_CLIENT);
    longer := AddsClient(longer, realm, KS_DIRECT_CLIENT);
    ThreeClients(Last(run).clients, realm);
  }

  lemma ThreeClients(clients: map<Client, string>, realm: string)
    ensures {} + {BC_CLIENT} + {KS_CLIENT} + {KS_DIRECT_CLIENT} == ALL_CLIENTS
    ensures
      clients[Client(realm, BC_CLIENT) := "s"][Client(realm, KS_CLIENT) := "s"][Client(realm, KS_DIRECT_CLIENT) := "s"] ==
      clients + ClientsOf(realm)
  {
  }

  /** The reconcile of the accepted RhpamDev after its mark and a new realm. */
  function Building(base: nat, mark: Mark, realm: string): DevWorker {
    DevBusy(0, 1, base, ACCEPTED, mark, Some(realm), ALL_CLIENTS, None, {}, false, false)
  }

  const ONLY_MARKED: map<nat, seq<Dev>> := map[0 := [FRESH, ACCEPTED, MARKED]]

  /** The mark lands and a realm is made. */
  lemma MakesRealm(run: seq<State>, id: string) returns (longer: seq<State>)
    requires IsRun(run) && Last(run).dev == DevIdle && Last(run).devs == map[0 := [FRESH, ACCEPTED]]
    requires id != "" && id !in Last(run).past.created
    ensures IsRun(longer)
    ensures Last(longer) == Last(run).(
      devs := ONLY_MARKED,
      realms := Last(run).realms[id := EMPTY],
      past := Last(run).past.(created := Last(run).past.created + {id},
                              made := Last(run).past.made + [Made(0, id, true)]),
      dev := Building(2, Landed, id).(clients := {}))
  {
    longer := Begins(run, 0, 1);
    longer := Works(longer, DevMark(Landed, true));
    assert Last(longer).devs[0] == [FRESH, ACCEPTED, MARKED];
    assert Last(longer).devs == ONLY_MARKED;
    longer := Works(longer, DevCreateRealm(id, {}));
  }

  /** One realm secret: found, or stored for the new realm. */
  lemma StoresSecret(run: seq<State>, k: Key, id: string) returns (longer: seq<State>)
    requires IsRun(run) && Last(run).dev.DevBusy? && Last(run).dev.seen == ACCEPTED
    requires Last(run).dev.made == Some(id) && Last(run).dev.clients == ALL_CLIENTS && id in Last(run).realms
    requires k in Work(Phase.Accepted)
    requires Client(id, ClientOf(k)) in Last(run).clients && Last(run).clients[Client(id, ClientOf(k))] == "s"
    ensures IsRun(longer)
    ensures Last(longer) == Last(run).(
      objects := if k in Last(run).objects then Last(run).objects
                 else Last(run).objects[k := RealmSecret(id, ClientOf(k), "s")],
      dev := Last(run).dev.(fetched := Some((ClientOf(k), "s")), have := Last(run).dev.have + {k}))
  {
    longer := Works(run, DevFetchSecret(ClientOf(k)));
    if k in Last(run).objects {
      longer := FindsObject(longer, k);
    } else {
      longer := CreatesObject(longer, k, RealmSecret(id, ClientOf(k), "s"));
    }
  }

  lemma FindsObject(run: seq<State>, k: Key) returns (longer: seq<State>)
    requires IsRun(run) && Last(run).dev.DevBusy? && Handles(Last(run).dev, k) && k in Last(run).objects
    ensures IsRun(longer) && run <= longer
    ensures Last(longer) == Last(run).(dev := Last(run).dev.(have := Last(run).dev.have + {k}))
  {
    longer := Works(run, DevFindObject(k));
  }

  lemma CreatesObject(run: seq<State>, k: Key, p: Payload) returns (longer: seq<State>)
    requires IsRun(run) && Last(run).dev.DevBusy? && Handles(Last(run).dev, k)
    requires k !in Last(run).objects && Suits(Last(run).dev, k, p)
    ensures IsRun(longer) && run <= longer
    ensures Last(longer) ==
      Last(run).(objects := Last(run).objects[k := p], dev := Last(run).dev.(have := Last(run).dev.have + {k}))
  {
    longer := Works(run, DevCreateObject(k, p));
  }

  function Provisioned(id: string): Dev {
    Dev({FINALIZER}, false, RealmProvisioned, id)
  }

  /** A RhpamDev whose realm "a" has been made and waits to be filled. */
  const WAITING: State := INITIALIZED.(
    devs := map[0 := [FRESH, ACCEPTED, MARKED, Provisioned("a")]],
    objects := map[BcRealmSecret := RealmSecret("a", BC_CLIENT, "s"),
                   KsRealmSecret := RealmSecret("a", KS_CLIENT, "s")],
    realms := map["a" := EMPTY], clients := ClientsOf("a"),
    past := Past({"a"}, [Made(0, "a", true)], false, false, false))

  lemma MakesFirstRealm() returns (run: seq<State>)
    ensures IsRun(run)
    ensures Last(run) == WAITING.(devs := ONLY_MARKED, objects := map[], dev := Building(2, Landed, "a"))
  {
    run := Initialized();
    run := MakesRealm(run, "a");
    run := AddsClients(run, "a");
    assert map[] + ClientsOf("a") == ClientsOf("a");
    assert Last(run).past == WAITING.past;
  }

  lemma Provisions() returns (run: seq<State>)
    ensures IsRun(run) && Last(run) == WAITING
  {
    run := MakesFirstRealm();
    run := StoresSecret(run, BcRealmSecret, "a");
    run := StoresSecret(run, KsRealmSecret, "a");
    assert Work(Phase.Accepted) <= Last(run).dev.have;
    assert Result(Last(run).dev) == Provisioned("a");
    run := Works(run, DevUpdate);
    assert Last(run).devs[0] == [FRESH, ACCEPTED, MARKED, Provisioned("a")];
    assert Last(run).devs == WAITING.devs;
  }

  // ------------------------------------------------------- users, and filling

  const NEW_USER: User := User({}, false, NoPhase, "")
  const ACCEPTED_USER: User := User({FINALIZER}, false, Phase.Accepted, "")

  function BoundUser(realm: string): User {
    User({FINALIZER}, false, Phase.Reconcile, realm)
  }

  lemma AcceptsUser(run: seq<State>, v: nat) returns (longer: seq<State>)
    requires IsRun(run) && Last(run).user == UserIdle && v !in Last(run).users
    ensures IsRun(longer) && Last(longer) == Last(run).(users := Last(run).users[v := [NEW_USER, ACCEPTED_USER]])
  {
    longer := Then(run, Env(CreateRhpamUser(v, {})));
    longer := UserBegins(longer, v, 0);
    assert UserResult(UserBegun(v, 0, NEW_USER), false) == ACCEPTED_USER;
    longer := Serves(longer, UserUpdate(false));
    assert Last(longer).users[v] == [NEW_USER, ACCEPTED_USER];
    assert Last(longer).users == Last(run).users[v := [NEW_USER, ACCEPTED_USER]];
  }

  /** The reconcile of an accepted user that has listed one RhpamDev. */
  function Looking(v: nat, item: Item, acks: set<Fact>): UserWorker {
    UserBusy(v, 1, ACCEPTED_USER, ACCEPTED_USER, true, [item], acks, false)
  }

  lemma Lists(run: seq<State>, v: nat, item: Item) returns (longer: seq<State>)
    requires IsRun(run) && Last(run).user == UserIdle
    requires v in Last(run).users && Last(run).users[v] == [NEW_USER, ACCEPTED_USER]
    requires ListedItem(Last(run), item)
    ensures IsRun(longer) && run <= longer
    ensures Last(longer) == Last(run).(user := Looking(v, item, {}))
  {
    longer := UserBegins(run, v, 1);
    longer := Serves(longer, UserList([item]));
  }

  /** The reconcile finds what is there. */
  lemma {:induction false} SeesAll(run: seq<State>, fs: seq<Fact>) returns (longer: seq<State>)
    requires IsRun(run) && Filling(Last(run).user) && CurrentRealm(Last(run).user) in Last(run).realms
    requires forall f | f in fs :: Holds(f, Last(run).realms[CurrentRealm(Last(run).user)])
    ensures IsRun(longer) && run <= longer
    ensures Last(longer) == Last(run).(user := Last(longer).user) && SameFilling(Last(run).user, Last(longer).user)
    ensures forall f | f in fs :: f in Last(longer).user.acks
    decreases fs
  {
    longer := run;
    if fs != [] {
      longer := Sees(run, fs[0]);
      longer := SeesAll(longer, fs[1..]);
    }
  }

  lemma Sees(run: seq<State>, f: Fact) returns (longer: seq<State>)
    requires IsRun(run) && Filling(Last(run).user) && CurrentRealm(Last(run).user) in Last(run).realms
    requires Holds(f, Last(run).realms[CurrentRealm(Last(run).user)])
    ensures IsRun(longer) && run <= longer
    ensures Last(longer) == Last(run).(user := Last(longer).user) && SameFilling(Last(run).user, Last(longer).user)
    ensures f in Last(longer).user.acks
  {
    longer := Serves(run, UserSee(f));
  }

  /** The realm gets all its defaults, and nothing else. */
  lemma Fills(run: seq<State>) returns (longer: seq<State>)
    requires IsRun(run) && Filling(Last(run).user) && CurrentRealm(Last(run).user) in Last(run).realms
    ensures IsRun(longer) && run <= longer
    ensures Still(Last(run), Last(longer)) && SameFilling(Last(run).user, Last(longer).user)
    ensures FilledIn(Last(run), Last(longer), CurrentRealm(Last(run).user))
    ensures OnlyIn(Last(run), Last(longer), CurrentRealm(Last(run).user))
    ensures AllDefaults(Last(longer).user.acks)
  {
    var realm := CurrentRealm(Last(run).user);
    RunStaysBasic(run, |run| - 1);
    var h := FillingHistory(Last(run).realms[realm]);
    var filled := HistoryReplays(run, realm, h, 0, |h.writes|);
    ProvisionedIs(Last(run).realms[realm]);
    DefaultFactsHold(Last(filled).realms[realm]);
    longer := SeesAll(filled, DEFAULT_FACTS);
    DefaultFactsAreAll(Last(longer).user.acks);
  }

  /** The reconcile that has bound its user to `realm` and has nothing left to look at. */
  function DoneBinding(v: nat, realm: string): UserWorker {
    UserBusy(v, 1, ACCEPTED_USER, BoundUser(realm), true, [], {}, false)
  }

  lemma StoresUser(run: seq<State>, v: nat, realm: string) returns (longer: seq<State>)
    requires IsRun(run) && Last(run).user == DoneBinding(v, realm)
    requires v in Last(run).users && Last(run).users[v] == [NEW_USER, ACCEPTED_USER]
    ensures IsRun(longer) && run <= longer
    ensures Last(longer) == Last(run).(
      users := Last(run).users[v := [NEW_USER, ACCEPTED_USER, BoundUser(realm)]], user := UserIdle)
  {
    longer := Serves(run, UserUpdate(false));
    assert Last(longer).users[v] == [NEW_USER, ACCEPTED_USER, BoundUser(realm)];
  }

  // ---------------------------------------------------- a release that is lost

  lemma FillsFirstRealm() returns (run: seq<State>)
    ensures IsRun(run) && Last(run).user.UserBusy? && Last(run).realms.Keys == {"a"}
    ensures Last(run) == WAITING.(
      users := map[0 := [NEW_USER, ACCEPTED_USER]], realms := Last(run).realms, user := Last(run).user)
    ensures Last(run).user == Looking(0, Item(0, 3, Provisioned("a")), Last(run).user.acks)
    ensures AllDefaults(Last(run).user.acks)
  {
    run := Provisions();
    run := AcceptsUser(run, 0);
    run := Lists(run, 0, Item(0, 3, Provisioned("a")));
    run := Fills(run);
  }

  /** The user fills the realm and binds to it, but its release of the RhpamDev is
      refused, which it does not notice: the RhpamDev waits for good. */
  lemma LosesRelease() returns (run: seq<State>)
    ensures IsRun(run) && Last(run).dev == DevIdle && Last(run).user == UserIdle
    ensures Shows(Last(run), 0, 0, System(Provisioned("a"), BoundUser("a")))
    ensures Stuck(System(Provisioned("a"), BoundUser("a")))
    ensures "a" in Last(run).realms && !Last(run).past.lostMark && !Last(run).past.tornDown
  {
    run := FillsFirstRealm();
    run := Serves(run, UserRelease(false));
    run := StoresUser(run, 0, "a");
  }

  // ------------------------------------------------------------ a whole install

  function PayloadFor(k: Key): Payload {
    if k == DbCredentials then Credentials("u", "p") else Rendered(0)
  }

  /** The reconcile sees to some of its phase's objects. */
  lemma {:induction false} SeesToObjects(run: seq<State>, keys: seq<Key>) returns (longer: seq<State>)
    requires IsRun(run) && Last(run).dev.DevBusy? && Last(run).dev.seen.phase != Phase.Accepted
    requires forall k | k in keys :: Handles(Last(run).dev, k)
    ensures IsRun(longer) && run <= longer && Last(run).objects.Keys <= Last(longer).objects.Keys
    ensures Last(longer) == Last(run).(
      objects := Last(longer).objects, dev := Last(run).dev.(have := Last(run).dev.have + ToSet(keys)))
    ensures ToSet(keys) <= Last(longer).objects.Keys
    decreases keys
  {
    longer := run;
    if keys == [] {
      assert Last(run).dev.have + ToSet(keys) == Last(run).dev.have;
    } else {
      longer := SeesToObject(run, keys[0]);
      forall k | k in keys[1..] ensures Handles(Last(longer).dev, k) {
        HandlesStill(Last(run).dev, Last(longer).dev, k);
      }
      longer := SeesToObjects(longer, keys[1..]);
      assert keys == [keys[0]] + keys[1..];
      assert ToSet(keys) == {keys[0]} + ToSet(keys[1..]);
      assert Last(run).dev.have + {keys[0]} + ToSet(keys[1..]) == Last(run).dev.have + ToSet(keys);
    }
  }

  lemma SeesToObject(run: seq<State>, k: Key) returns (longer: seq<State>)
    requires IsRun(run) && Last(run).dev.DevBusy? && Last(run).dev.seen.phase != Phase.Accepted
    requires Handles(Last(run).dev, k)
    ensures IsRun(longer) && run <= longer
    ensures Last(run).objects.Keys <= Last(longer).objects.Keys && k in Last(longer).objects
    ensures Last(longer) == Last(run).(
      objects := Last(longer).objects, dev := Last(run).dev.(have := Last(run).dev.have + {k}))
  {
    if k in Last(run).objects {
      longer := FindsObject(run, k);
    } else {
      ItSuits(Last(run).dev, k);
      longer := CreatesObject(run, k, PayloadFor(k));
    }
  }

  lemma HandlesStill(v: DevWorker, w: DevWorker, k: Key)
    requires v.DevBusy? && w.DevBusy? && w == v.(have := w.have) && Handles(v, k)
    ensures Handles(w, k)
  {
  }

  lemma ItSuits(w: DevWorker, k: Key)
    requires w.DevBusy? && w.seen.phase != Phase.Accepted && Handles(w, k)
    ensures Suits(w, k, PayloadFor(k))
  {
    assert k !in Work(Phase.Accepted);
  }

  function Listing(p: Phase): (keys: seq<Key>)
    requires InstallPhase(p)
    ensures ToSet(keys) == Work(p)
  {
    match p
    case Prepare => [ServiceAccount]
    case Prepared => [DbCredentials, DbInit, DbPvc, DbService, DbDeployment]
    case DatabaseInstalled => [BcPvc, BcService, BcRoute, BcDeployment]
    case DatabaseReady => [KsService, KsRoute, KsDeployment]
    case _ => []
  }

  /** The RhpamDev as released and at some phase from then on. */
  function At(p: Phase): Dev {
    Dev({FINALIZER}, false, p, "a")
  }

  /** RhpamDev 0 is being installed and has come to `p`; the rest is as in `s`. */
  ghost predicate Installing(s: State, t: State, p: Phase) {
    && t == s.(devs := t.devs, objects := t.objects, past := s.past.(sawReady := t.past.sawReady), ready := t.ready)
    && t.dev == DevIdle && t.devs.Keys == {0} && t.devs[0] != [] && LatestDev(t, 0) == At(p)
    && (Rank(p) >= 6 ==> DbDeployment in t.objects)
  }

  /** One undisturbed reconcile of the RhpamDev. */
  lemma InstallsNext(run: seq<State>, s: State, p: Phase) returns (longer: seq<State>)
    requires IsRun(run) && InstallPhase(p) && Installing(s, Last(run), p) && Last(run).ready
    ensures IsRun(longer) && Installing(s, Last(longer), NextPhase(p)) && Last(longer).ready
  {
    longer := Begins(run, 0, |Last(run).devs[0]| - 1);
    longer := DoesPhase(longer, p);
    longer := Stores(longer, p);
  }

  /** All that the phase asks for. */
  lemma DoesPhase(run: seq<State>, p: Phase) returns (longer: seq<State>)
    requires IsRun(run) && InstallPhase(p) && Last(run).ready
    requires Last(run).dev.DevBusy? && Last(run).dev.seen.phase == p && !Last(run).dev.seen.deleting
    requires p == BusinessCentralInstalled ==> DbDeployment in Last(run).objects
    ensures IsRun(longer) && run <= longer && Last(longer).dev.DevBusy? && Finished(Last(longer).dev)
    ensures Last(run).objects.Keys + Work(p) <= Last(longer).objects.Keys
    ensures Last(longer) == Last(run).(
      objects := Last(longer).objects, past := Last(run).past.(sawReady := Last(longer).past.sawReady),
      dev := Last(run).dev.(have := Last(longer).dev.have, ready := Last(longer).dev.ready))
  {
    longer := SeesToObjects(run, Listing(p));
    if p == BusinessCentralInstalled {
      longer := Works(longer, DevSeeReady);
    }
  }

  lemma Stores(run: seq<State>, p: Phase) returns (longer: seq<State>)
    requires IsRun(run) && InstallPhase(p) && Last(run).dev.DevBusy? && Last(run).dev.uid == 0
    requires Last(run).dev.seen == At(p) && Finished(Last(run).dev)
    requires Last(run).devs.Keys == {0} && |Last(run).devs[0]| == Last(run).dev.base + 1
    requires LatestDev(Last(run), 0) == At(p)
    ensures IsRun(longer)
    ensures Last(longer) == Last(run).(devs := map[0 := Last(run).devs[0] + [At(NextPhase(p))]], dev := DevIdle)
  {
    longer := Works(run, DevUpdate);
    assert Last(longer).devs == map[0 := Last(run).devs[0] + [At(NextPhase(p))]];
  }

  lemma Installs(run: seq<State>, s: State) returns (longer: seq<State>)
    requires IsRun(run) && Installing(s, Last(run), Prepare) && Last(run).ready
    ensures IsRun(longer) && Installing(s, Last(longer), Complete)
  {
    longer := InstallsNext(run, s, Prepare);
    longer := InstallsNext(longer, s, Prepared);
    longer := InstallsNext(longer, s, DatabaseInstalled);
    longer := InstallsNext(longer, s, BusinessCentralInstalled);
    longer := InstallsNext(longer, s, DatabaseReady);
  }

  // ------------------------------------------------------------ a stale listing

  /** One user has filled and released the RhpamDev; another has only been accepted. */
  lemma Releases() returns (run: seq<State>)
    ensures IsRun(run) && Last(run).ready && Last(run).user == UserIdle
    ensures Last(run).users == map[0 := [NEW_USER, ACCEPTED_USER, BoundUser("a")], 1 := [NEW_USER, ACCEPTED_USER]]
    ensures Last(run).realms.Keys == {"a"} && Last(run).past.created == {"a"}
    ensures Installing(Last(run), Last(run), Prepare)
  {
    run := ReleasesFirst();
    run := AcceptsUser(run, 1);
    run := Then(run, Env(SetReady(true)));
  }

  lemma ReleasesFirst() returns (run: seq<State>)
    ensures IsRun(run) && Last(run).realms.Keys == {"a"}
    ensures Last(run) == WAITING.(
      users := map[0 := [NEW_USER, ACCEPTED_USER, BoundUser("a")]], realms := Last(run).realms,
      devs := map[0 := WAITING.devs[0] + [At(Prepare)]])
  {
    run := FillsFirstRealm();
    run := Serves(run, UserRelease(true));
    run := StoresUser(run, 0, "a");
  }

  /** The RhpamDev is complete. */
  lemma Completes() returns (run: seq<State>)
    ensures IsRun(run) && Last(run).user == UserIdle
    ensures Last(run).users == map[0 := [NEW_USER, ACCEPTED_USER, BoundUser("a")], 1 := [NEW_USER, ACCEPTED_USER]]
    ensures Last(run).realms.Keys == {"a"} && Last(run).past.created == {"a"}
    ensures Installing(Last(run), Last(run), Complete)
  {
    run := Releases();
    run := Installs(run, Last(run));
  }

  const DELETING: Dev := At(Complete).(deleting := true)

  /** The reconcile of the deletion once the realm is deleted. */
  function Ending(version: nat): DevWorker {
    DevBusy(0, version, version, DELETING, Unmarked, None, {}, None, {}, false, true)
  }

  /** The RhpamDev is asked to go and its realm is deleted. */
  lemma DeletesRealm(run: seq<State>) returns (longer: seq<State>)
    requires IsRun(run) && Last(run).devs.Keys == {0} && Last(run).devs[0] != [] && Last(run).dev == DevIdle
    requires LatestDev(Last(run), 0) == At(Complete) && "a" in Last(run).realms
    ensures IsRun(longer)
    ensures Last(longer) == Last(run).(
      devs := map[0 := Last(run).devs[0] + [DELETING]], realms := Last(run).realms - {"a"},
      dev := Ending(|Last(run).devs[0]|))
  {
    longer := Then(run, Env(RequestDevDeletion(0)));
    assert Last(longer).devs == map[0 := Last(run).devs[0] + [DELETING]];
    longer := Begins(longer, 0, |Last(run).devs[0]|);
    longer := Works(longer, DevDeleteRealm);
  }

  lemma {:induction false} DeletesObjects(run: seq<State>, keys: seq<Key>) returns (longer: seq<State>)
    requires IsRun(run) && Last(run).dev.DevBusy? && Last(run).dev.seen.deleting && Last(run).dev.realmGone
    ensures IsRun(longer)
    ensures Last(longer) == Last(run).(
      objects := Last(run).objects - ToSet(keys),
      past := Last(run).past.(tornDown := Last(run).past.tornDown || keys != []))
    decreases keys
  {
    longer := run;
    if keys == [] {
      assert Last(run).objects - ToSet(keys) == Last(run).objects;
    } else {
      longer := Works(run, DevDeleteObject(keys[0]));
      longer := DeletesObjects(longer, keys[1..]);
      assert keys == [keys[0]] + keys[1..];
      assert Last(run).objects - {keys[0]} - ToSet(keys[1..]) == Last(run).objects - ToSet(keys);
    }
  }

  /** The whole teardown: the realm, the one user bound to it, and the objects. */
  lemma TearsDown() returns (run: seq<State>, version: nat)
    ensures IsRun(run) && Last(run).dev == DevIdle && Last(run).user == UserIdle
    ensures 1 in Last(run).users && Last(run).users[1] == [NEW_USER, ACCEPTED_USER]
    ensures ListedItem(Last(run), Item(0, version, At(Complete)))
    ensures RealmEnded(Last(run), "a") && DevGone(LatestDev(Last(run), 0))
  {
    run, version := TearsDownAll();
    run := Works(run, DevUpdate);
  }

  lemma TearsDownAll() returns (run: seq<State>, version: nat)
    ensures IsRun(run) && Last(run).dev == Ending(version + 1)
    ensures Last(run).devs.Keys == {0} && |Last(run).devs[0]| == version + 2
    ensures Last(run).devs[0][version] == At(Complete) && Last(run).devs[0][version + 1] == DELETING
    ensures Last(run).users == map[
      0 := [NEW_USER, ACCEPTED_USER, BoundUser("a"), BoundUser("a").(phase := Deprovisioned)],
      1 := [NEW_USER, ACCEPTED_USER]]
    ensures Last(run).user == UserIdle && Last(run).realms == map[] && Last(run).past.created == {"a"}
  {
    run := Completes();
    version := |Last(run).devs[0]| - 1;
    run := DeletesRealm(run);
    run := FreesUser(run);
    run := DeletesObjects(run, DevPhaseHandler.ASSETS);
  }

  lemma FreesUser(run: seq<State>) returns (longer: seq<State>)
    requires IsRun(run) && Last(run).dev.DevBusy? && Last(run).dev.realmGone && Last(run).dev.seen == DELETING
    requires Last(run).users == map[0 := [NEW_USER, ACCEPTED_USER, BoundUser("a")], 1 := [NEW_USER, ACCEPTED_USER]]
    ensures IsRun(longer)
    ensures Last(longer) == Last(run).(users := map[
      0 := [NEW_USER, ACCEPTED_USER, BoundUser("a"), BoundUser("a").(phase := Deprovisioned)],
      1 := [NEW_USER, ACCEPTED_USER]])
  {
    longer := Works(run, DevReleaseUser(0, 2));
    assert Last(longer).users[0] == [NEW_USER, ACCEPTED_USER, BoundUser("a"), BoundUser("a").(phase := Deprovisioned)];
  }

  /** After the teardown the other user reads a listing from before it, and binds
      to a realm that is gone. */
  lemma BindsToEndedRealm() returns (before: seq<State>, run: seq<State>)
    ensures IsRun(before) && RealmEnded(Last(before), "a")
    ensures IsRun(run) && before <= run && Last(run).dev == DevIdle && Last(run).user == UserIdle
    ensures UserAt(Last(run), 1, BoundUser("a")) && !RealmEnded(Last(run), "a")
    ensures "a" !in Last(run).realms
  {
    var version;
    before, version := TearsDown();
    run := Lists(before, 1, Item(0, version, At(Complete)));
    run := Serves(run, UserBind);
    run := StoresUser(run, 1, "a");
    assert !Freed(Last(run), 1, "a");
  }
}
