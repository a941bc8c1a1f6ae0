/** The cluster and Keycloak as the RhpamDev controller calls them. Between any
    two calls the other actors may take steps, and any call may fail, with or
    without its effect; every call is a step of the protocol. */
module ApiServer {
  import opened KeycloakServer
  import opened Prelude
  import opened Protocol
  import opened Realms

  /** The controller's own copy of a RhpamDev, with the version it was read at. */
  class RhpamDev {
    const uid: nat
    var version: nat
    var finalizers: seq<string>
    var deleting: bool
    var phase: Phase
    var realm: string

    constructor (uid: nat, version: nat, finalizers: seq<string>, dev: Dev)
      requires ToSet(finalizers) == dev.finalizers
      ensures this.uid == uid && this.version == version && AsStored() == dev
      ensures this.finalizers == finalizers
    {
      this.uid := uid;
      this.version := version;
      this.finalizers := finalizers;
      deleting := dev.deleting;
      phase := dev.phase;
      realm := dev.realm;
    }

    function AsStored(): Dev
      reads this
    {
      Dev(ToSet(finalizers), deleting, phase, realm)
    }
  }

  /** A client as Keycloak lists it: its internal id and its name. */
  datatype ClientRep = ClientRep(id: Client, clientId: string)

  /** A RhpamUser as the controller lists it. */
  datatype ListedUser = ListedUser(uid: nat, version: nat, user: User)

  datatype Answer = Found | NotFound | Failed

  /** The default roles of every realm the operator creates. */
  const REALM_DEFAULT_ROLES: set<string> := {"offline_access", "uma_authorization"}

  ghost predicate Extends<T>(older: map<nat, seq<T>>, newer: map<nat, seq<T>>) {
    forall uid | uid in older :: uid in newer && older[uid] <= newer[uid]
  }

  /** What the other actors may change while a RhpamDev reconcile goes on. */
  ghost predicate OthersChanged(s: State, t: State) {
    && t.dev == s.dev && t.objects == s.objects && t.clients == s.clients && t.past == s.past
    && t.realms.Keys == s.realms.Keys
    && Extends(s.devs, t.devs) && Extends(s.users, t.users)
  }

  lemma EnvStepChanges(s: State, e: EnvStep)
    requires EnvEnabled(s, e)
    ensures OthersChanged(s, DoEnv(s, e))
  {
  }

  lemma UserStepChanges(s: State, u: UserStep)
    requires UserEnabled(s, u)
    ensures OthersChanged(s, DoUser(s, u))
  {
    if u.UserRelease? {
      UserReleaseChanges(s, u);
    } else if u.UserUpdate? || u.UserWrite? {
      UserStoreChanges(s, u);
    }
  }

  lemma UserReleaseChanges(s: State, u: UserStep)
    requires UserEnabled(s, u) && u.UserRelease?
    ensures OthersChanged(s, DoUser(s, u))
  {
  }

  lemma UserStoreChanges(s: State, u: UserStep)
    requires UserEnabled(s, u) && (u.UserUpdate? || u.UserWrite?)
    ensures OthersChanged(s, DoUser(s, u))
  {
  }

  lemma OthersChangedOn(a: State, b: State, c: State)
    requires OthersChanged(a, b) && OthersChanged(b, c)
    ensures OthersChanged(a, c)
  {
  }

  lemma RunGoesOn(run: seq<State>, step: Step)
    requires IsRun(run) && Enabled(run[|run| - 1], step)
    ensures IsRun(run + [Do(run[|run| - 1], step)])
  {
    var t := run + [Do(run[|run| - 1], step)];
    forall n | 0 < n < |t| ensures StepTo(t, n) {
      if n < |run| {
        assert StepTo(run, n);
      }
    }
  }

  /** Both are the same reconcile, of the same version of the same RhpamDev. */
  ghost predicate SameWork(v: DevWorker, w: DevWorker) {
    v.DevBusy? && w.DevBusy? && w.uid == v.uid && w.version == v.version && w.seen == v.seen
  }

  ghost predicate FromLog(s: State, i: ListedUser) {
    i.uid in s.users && i.version < |s.users[i.uid]| && s.users[i.uid][i.version] == i.user
  }

  predicate Live(s: State, uid: nat) {
    uid in s.users && s.users[uid] != [] && !UserGone(s.users[uid][|s.users[uid]| - 1])
  }

  /** The user is gone, bound to another realm than `realm`, or "deprovisioned". */
  ghost predicate Freed(s: State, uid: nat, realm: string) {
    Live(s, uid) ==>
      s.users[uid][|s.users[uid]| - 1].realm == realm ==> s.users[uid][|s.users[uid]| - 1].phase == Deprovisioned
  }

  /** At most the listed user has been marked "deprovisioned". */
  ghost predicate MaybeFreed(s: State, t: State, i: ListedUser) {
    t == s || (i.uid in s.users && t == s.(users := Append(s.users, i.uid, i.user.(phase := Deprovisioned))))
  }

  ghost predicate ListedLatest(s: State, items: seq<ListedUser>, uid: nat) {
    exists i :: i in items && i.uid == uid && IsLatest(s.users, uid, i.version)
  }

  lemma StillListed(s: State, items: seq<ListedUser>, more: seq<ListedUser>)
    requires items <= more
    ensures forall uid | ListedLatest(s, items, uid) :: ListedLatest(s, more, uid)
  {
    forall uid | ListedLatest(s, items, uid) ensures ListedLatest(s, more, uid) {
      var i :| i in items && i.uid == uid && IsLatest(s.users, uid, i.version);
      assert i in more;
    }
  }

  ghost predicate AtMostAdded(a: map<Key, Payload>, b: map<Key, Payload>, key: Key, payload: Payload) {
    b == a || (key !in a && b == a[key := payload])
  }

  ghost predicate OnlyAdded(s: State, t: State, key: Key) {
    forall k | k in t.objects :: k in s.objects || k == key
  }

  /** No object is lost or changed. */
  ghost predicate ObjectsKept(s: State, t: State) {
    forall k | k in s.objects :: k in t.objects && t.objects[k] == s.objects[k]
  }

  /** Nothing but the RhpamDev's own versions, and what is known of its mark, has changed. */
  ghost predicate OnlyMarked(s: State, t: State) {
    t == s.(dev := t.dev, devs := t.devs, past := t.past)
  }

  /** The objects whose look-up only a found object stops from being created: its
      errors are not looked at. */
  const SECRETS: set<Key> := {BcRealmSecret, KsRealmSecret, DbCredentials, DbInit}

  /** What a reconcile has come to: a result to store, nothing to store, or a failure. */
  datatype Decision = Store(requeue: bool) | Skip(requeue: bool) | Fail

  /** What a reconcile answers the work queue: no error, perhaps asking to be run
      again, or an error. */
  datatype Reply = Nil(requeue: bool) | Err

  /** A decision that, if its result can be stored, is answered with `reply`. */
  predicate DecidesOn(decision: Decision, reply: Reply, storing: bool) {
    match decision
    case Store(requeue) => storing && reply == Nil(requeue)
    case Skip(requeue) => !storing && reply == Nil(requeue)
    case Fail => reply == Err
  }

  /** A name that may be drawn for a realm: it may be in use, by an earlier draw
      within the same second, but it is not the name of a realm deleted since. */
  predicate Drawable(s: State, id: string) {
    id != "" && (id in s.past.created ==> id in s.realms)
  }

  /** The realm has got the clients in `names`, and the reconcile knows. */
  ghost predicate ClientsAdded(s: State, t: State, realm: string, names: set<string>) {
    && s.dev.DevBusy?
    && t.dev == s.dev.(clients := s.dev.clients + names)
    && t.realms.Keys == s.realms.Keys && t.objects == s.objects
    && forall c :: c in t.clients <==> c in s.clients || (c.realm == realm && c.id in names)
  }

  lemma ClientsAddUp(s: State, t: State, u: State, realm: string, a: set<string>, b: set<string>)
    requires ClientsAdded(s, t, realm, a) && ClientsAdded(t, u, realm, b)
    ensures ClientsAdded(s, u, realm, a + b)
  {
    assert s.dev.clients + a + b == s.dev.clients + (a + b);
  }

  /** All but the RhpamDev controller's own objects is as it was. */
  ghost predicate Steady(s: State, t: State) {
    t.devs == s.devs && t.users == s.users && t.user == s.user && t.ready == s.ready
  }

  /** And so are the realms. */
  ghost predicate Settled(s: State, t: State) {
    Steady(s, t) && t.realms == s.realms
  }

  /** A realm as the server makes it of the operator's template. */
  const NEW_REALM: Realm := Realm(REALM_DEFAULT_ROLES, map[], REALM_DEFAULT_ROLES)

  /** The old objects are there as they were, and no new ones but in `keys`. */
  ghost predicate AddedAmong(s: State, t: State, keys: set<Key>) {
    ObjectsKept(s, t) && forall k | k in t.objects :: k in s.objects || k in keys
  }

  method AnyBool() returns (b: bool) {
    b := *;
  }

  method AnyStep() returns (step: Step) {
    step := *;
  }

  method AnyNumber() returns (n: nat) {
    n := *;
  }

  class Cluster {
    var state: State
    /** Every state so far, and those before this reconcile. */
    ghost var run: seq<State>
    ghost var start: seq<State>
    /** What has gone wrong in this reconcile: nothing, only calls whose errors are
        not looked at, or something else. */
    ghost var trouble: nat
    /** The RhpamDev controller has fetched the administrator's token. */
    ghost var session: bool

    /** No call has failed and nobody else has got in between. */
    ghost predicate Calm()
      reads this`trouble
    {
      trouble == 0
    }

    /** Nobody has got in between, and only calls failed whose errors are not looked at. */
    ghost predicate Quiet()
      reads this`trouble
    {
      trouble <= 1
    }

    /** A call has failed whose error is not looked at. */
    ghost method NoteDropped()
      modifies `trouble
      ensures trouble == if old(trouble) == 0 then 1 else old(trouble)
    {
      if trouble == 0 {
        trouble := 1;
      }
    }

    ghost predicate Valid()
      reads this
    {
      IsRun(run) && state == run[|run| - 1] && start <= run && trouble <= 2
    }

    ghost method Begin()
      requires Valid()
      modifies `start, `trouble, `session
      ensures Valid() && start == run && trouble == 0 && !session
    {
      start, trouble, session := run, 0, false;
    }

    method Take(step: Step)
      requires Valid() && Enabled(state, step)
      modifies `state, `run, `trouble
      ensures Valid() && trouble == old(trouble) && state == Do(old(state), step)
    {
      RunGoesOn(run, step);
      state := Do(state, step);
      run := run + [state];
    }

    /** A step of the RhpamDev reconcile under way. */
    method TakeDev(d: DevStep)
      requires Valid() && state.dev.DevBusy? && !d.DevRead? && DevBusyEnabled(state, state.dev, d)
      modifies `state, `run, `trouble
      ensures Valid() && trouble == old(trouble) && state == DoDevBusy(old(state), old(state).dev, d)
    {
      Take(OfDev(d));
    }

    /** A step of the RhpamUser reconcile under way. */
    method TakeUser(u: UserStep)
      requires Valid() && state.user.UserBusy? && !u.UserRead? && UserBusyEnabled(state, state.user, u)
      modifies `state, `run, `trouble
      ensures Valid() && trouble == old(trouble) && state == DoUserBusy(old(state), old(state).user, u)
    {
      Take(OfUser(u));
    }

    method Others()
      requires Valid()
      modifies `state, `run, `trouble
      ensures Valid() && old(trouble) <= trouble && OthersChanged(old(state), state)
      ensures Quiet() ==> state == old(state)
    {
      var n := AnyNumber();
      for i := 0 to n
        invariant Valid() && old(trouble) <= trouble && OthersChanged(old(state), state)
        invariant Quiet() ==> state == old(state)
      {
        ghost var s := state;
        Other();
        OthersChangedOn(old(state), s, state);
      }
    }

    method Other()
      requires Valid()
      modifies `state, `run, `trouble
      ensures Valid() && old(trouble) <= trouble && OthersChanged(old(state), state)
      ensures Quiet() ==> state == old(state)
    {
      var step := AnyStep();
      if !step.OfDev? && Enabled(state, step) {
        if step.Env? {
          EnvStepChanges(state, step.e);
        } else {
          UserStepChanges(state, step.u);
        }
        Take(step);
        trouble := 2;
      }
    }

    // ------------------------------------------------------------- RhpamDevs

    /** A read, possibly of an old version. */
    method Get(uid: nat, version: nat) returns (rhpam: RhpamDev)
      requires Valid() && state.dev == DevIdle
      requires uid in state.devs && version < |state.devs[uid]|
      modifies `state, `run, `trouble
      ensures Valid() && old(trouble) <= trouble && fresh(rhpam)
      ensures rhpam.uid == uid && rhpam.version == version
      ensures rhpam.AsStored() == old(state).devs[uid][version]
      ensures state.dev == DevBusy(uid, version, version, rhpam.AsStored(), Unmarked, None, {}, None, {}, false, false)
      ensures state.past == old(state).past && state.realms.Keys == old(state).realms.Keys
      ensures Quiet() ==> state == old(state).(dev := state.dev)
    {
      Others();
      var dev := state.devs[uid][version];
      var finalizers := AnyOrder(dev.finalizers);
      rhpam := new RhpamDev(uid, version, finalizers, dev);
      Take(OfDev(DevRead(uid, version)));
    }

    /** An update lands on the latest version of an object that is still there. */
    predicate Lands(rhpam: RhpamDev)
      reads this, rhpam
    {
      IsLatest(state.devs, rhpam.uid, rhpam.version) && !DevGone(LatestDev(state, rhpam.uid))
    }

    /** The copy is what a mark would write. */
    ghost predicate IsMark(rhpam: RhpamDev)
      reads this, rhpam
    {
      && state.dev.DevBusy? && state.dev.mark == Unmarked
      && state.dev.seen.phase == Accepted && !state.dev.seen.deleting
      && rhpam.uid == state.dev.uid && rhpam.version == state.dev.base
      && rhpam.AsStored() == state.dev.seen.(phase := RealmProvisioning)
    }

    /** The update that marks a RhpamDev "realm provisioning". Its error is not looked at. */
    method UpdateMark(rhpam: RhpamDev)
      requires Valid() && IsMark(rhpam)
      modifies `state, `run, `trouble, rhpam`version
      ensures Valid() && old(trouble) <= trouble
      ensures state.dev.DevBusy? && state.dev.mark != Unmarked
      ensures state.dev == old(state.dev).(mark := state.dev.mark, base := rhpam.version)
      ensures state.clients == old(state).clients && state.past.created == old(state).past.created
      ensures state.objects == old(state).objects && state.realms.Keys == old(state).realms.Keys
      ensures Quiet() ==> old(Quiet()) && OnlyMarked(old(state), state)
      ensures Calm() && old(Lands(rhpam)) ==>
        && rhpam.version == old(rhpam.version) + 1
        && state == old(state).(dev := state.dev, devs := Append(old(state).devs, rhpam.uid, rhpam.AsStored()))
    {
      Others();
      var reached := AnyBool();
      if reached && Lands(rhpam) {
        LandMark(rhpam);
      } else {
        TakeDev(DevMark(NotLanded, false));
        if !reached {
          NoteDropped();
        }
      }
    }

    method LandMark(rhpam: RhpamDev)
      requires Valid() && IsMark(rhpam) && Lands(rhpam)
      modifies `state, `run, `trouble, rhpam`version
      ensures Valid() && old(trouble) <= trouble && (Quiet() ==> old(Quiet()))
      ensures state.dev == old(state.dev).(mark := Landed, base := rhpam.version)
      ensures state == old(state).(dev := state.dev, devs := Append(old(state).devs, rhpam.uid, rhpam.AsStored()))
      ensures Calm() ==> rhpam.version == old(rhpam.version) + 1
    {
      var acked := AnyBool();
      TakeDev(DevMark(Landed, acked));
      if acked {
        rhpam.version := rhpam.version + 1;
      } else {
        NoteDropped();
      }
    }

    /** The copy is what the reconcile ends with. */
    ghost predicate IsResult(rhpam: RhpamDev)
      reads this, rhpam
    {
      && state.dev.DevBusy? && Finished(state.dev)
      && rhpam.uid == state.dev.uid && rhpam.version == state.dev.base
      && rhpam.AsStored() == Result(state.dev)
    }

    /** The copy is the latest version stored, right after the one it was read or marked at. */
    predicate Stored(rhpam: RhpamDev)
      reads this, rhpam
    {
      && IsLatest(state.devs, rhpam.uid, rhpam.version + 1)
      && LatestDev(state, rhpam.uid) == rhpam.AsStored()
    }

    /** The update that ends a reconcile. */
    method Update(rhpam: RhpamDev) returns (ok: bool)
      requires Valid() && IsResult(rhpam)
      modifies `state, `run, `trouble
      ensures Valid() && old(trouble) <= trouble && state.dev == DevIdle
      ensures Quiet() ==> state == old(state).(dev := DevIdle, devs := state.devs)
      ensures ok ==> Stored(rhpam)
      ensures Quiet() && old(Lands(rhpam)) ==>
        && ok
        && state == old(state).(dev := DevIdle, devs := Append(old(state).devs, rhpam.uid, rhpam.AsStored()))
    {
      Others();
      var reached := AnyBool();
      if reached && Lands(rhpam) {
        LandUpdate(rhpam);
        ok := AnyBool();
      } else {
        GiveUp();
        ok := false;
      }
      if !ok {
        trouble := 2;
      }
    }

    method LandUpdate(rhpam: RhpamDev)
      requires Valid() && IsResult(rhpam) && Lands(rhpam)
      modifies `state, `run, `trouble
      ensures Valid() && trouble == old(trouble)
      ensures state == old(state).(dev := DevIdle, devs := Append(old(state).devs, rhpam.uid, rhpam.AsStored()))
    {
      TakeDev(DevUpdate);
    }

    method GiveUp()
      requires Valid() && state.dev.DevBusy?
      modifies `state, `run, `trouble
      ensures Valid() && state == old(state).(dev := DevIdle) && trouble == old(trouble)
    {
      TakeDev(DevGiveUp);
    }

    // -------------------------------------------------------------- Keycloak

    /** Reading the administrator's credentials and fetching a token. */
    method AuthenticatedClient() returns (ok: bool)
      requires Valid()
      modifies `state, `run, `trouble, `session
      ensures Valid() && old(trouble) <= trouble && OthersChanged(old(state), state)
      ensures session == ok
      ensures Quiet() ==> ok && state == old(state)
    {
      Others();
      ok := AnyBool();
      if !ok {
        trouble := 2;
      }
      session := ok;
    }

    /** The server refuses a realm that it has already. */
    method CreateRealm(id: string) returns (ok: bool)
      requires Valid() && session && state.dev.DevBusy? && state.dev.mark != Unmarked && state.dev.made == None
      requires state.dev.seen.phase == Accepted && !state.dev.seen.deleting && Drawable(state, id)
      modifies `state, `run, `trouble
      ensures Valid() && old(trouble) <= trouble && SameWork(old(state.dev), state.dev)
      ensures state.clients == old(state.clients) && state.objects == old(state.objects)
      ensures ok ==> id !in old(state.past.created)
      ensures ok ==> state.dev == old(state.dev).(made := Some(id)) && id in state.realms
      ensures Quiet() ==> ok == (id !in old(state.realms)) && Steady(old(state), state)
      ensures Quiet() ==> state.realms == if ok then old(state).realms[id := NEW_REALM] else old(state).realms
    {
      Others();
      ok := PostRealm(id);
    }

    method PostRealm(id: string) returns (ok: bool)
      requires Valid() && state.dev.DevBusy? && state.dev.mark != Unmarked && state.dev.made == None
      requires state.dev.seen.phase == Accepted && !state.dev.seen.deleting && Drawable(state, id)
      modifies `state, `run, `trouble
      ensures Valid() && old(trouble) <= trouble && SameWork(old(state.dev), state.dev)
      ensures state == old(state).(dev := state.dev, realms := state.realms, past := state.past)
      ensures ok ==> id !in old(state.past.created)
      ensures ok ==> state.dev == old(state.dev).(made := Some(id)) && id in state.realms
      ensures Quiet() ==> ok == (id !in old(state.realms))
      ensures state.realms == old(state).realms || state.realms == old(state).realms[id := NEW_REALM]
      ensures ok ==> state.realms == old(state).realms[id := NEW_REALM]
      ensures Quiet() && !ok ==> state.realms == old(state).realms
    {
      var through := AnyBool();
      if !through {
        trouble := 2;
      }
      var reached := AnyBool();
      ok := through && id !in state.realms;
      if id !in state.realms && (through || reached) {
        AddRealm(id);
      }
    }

    method AddRealm(id: string)
      requires Valid() && state.dev.DevBusy? && state.dev.mark != Unmarked && state.dev.made == None
      requires state.dev.seen.phase == Accepted && !state.dev.seen.deleting
      requires id != "" && id !in state.past.created
      modifies `state, `run, `trouble
      ensures Valid() && trouble == old(trouble)
      ensures state.dev == old(state.dev).(made := Some(id))
      ensures state == old(state).(dev := state.dev, realms := state.realms, past := state.past)
      ensures state.realms == old(state).realms[id := NEW_REALM]
    {
      TakeDev(DevCreateRealm(id, REALM_DEFAULT_ROLES));
    }

    predicate TakesClient(client: string, realm: string)
      reads this
    {
      realm in state.realms && Client(realm, client) !in state.clients
    }

    /** The server refuses a client that it has already or a realm it has not. */
    method CreateClient(client: string, realm: string) returns (ok: bool)
      requires Valid() && session && state.dev.DevBusy? && state.dev.made == Some(realm)
      requires client in ALL_CLIENTS
      modifies `state, `run, `trouble
      ensures Valid() && old(trouble) <= trouble && SameWork(old(state.dev), state.dev)
      ensures ok ==> ClientsAdded(old(state), state, realm, {client})
      ensures state.objects == old(state.objects)
      ensures Quiet() ==> Settled(old(state), state)
      ensures Quiet() ==> ok == old(TakesClient(client, realm))
    {
      Others();
      ok := PostClient(client, realm);
    }

    method PostClient(client: string, realm: string) returns (ok: bool)
      requires Valid() && state.dev.DevBusy? && state.dev.made == Some(realm)
      requires client in ALL_CLIENTS
      modifies `state, `run, `trouble
      ensures Valid() && old(trouble) <= trouble && SameWork(old(state.dev), state.dev)
      ensures state == old(state).(dev := state.dev, clients := state.clients)
      ensures ok ==> state.dev == old(state.dev).(clients := old(state.dev).clients + {client})
      ensures ok ==> state.clients.Keys == old(state.clients).Keys + {Client(realm, client)}
      ensures Quiet() ==> ok == old(TakesClient(client, realm))
    {
      var through := AnyBool();
      var reached := AnyBool();
      ok := through && TakesClient(client, realm);
      if ok || (reached && TakesClient(client, realm)) {
        AddClient(client, realm);
      }
      if !through {
        trouble := 2;
      }
    }

    method AddClient(client: string, realm: string)
      requires Valid() && state.dev.DevBusy? && state.dev.made == Some(realm)
      requires client in ALL_CLIENTS && TakesClient(client, realm)
      modifies `state, `run, `trouble
      ensures Valid() && trouble == old(trouble)
      ensures state.dev == old(state.dev).(clients := old(state.dev).clients + {client})
      ensures state == old(state).(dev := state.dev, clients := state.clients)
      ensures state.clients.Keys == old(state.clients).Keys + {Client(realm, client)}
    {
      var secret: string := *;
      TakeDev(DevCreateClient(client, secret));
    }

    method ListClients(realm: string) returns (ok: bool, clients: seq<ClientRep>)
      requires Valid() && session
      modifies `state, `run, `trouble
      ensures Valid() && old(trouble) <= trouble && OthersChanged(old(state), state)
      ensures ok ==> forall c :: c in clients <==> c.id in state.clients && c.id == Client(realm, c.clientId)
      ensures ok ==> realm in state.realms
      ensures Quiet() ==> ok == (realm in state.realms) && state == old(state)
    {
      Others();
      ok := AnyBool();
      clients := [];
      if !ok {
        trouble := 2;
      } else if realm !in state.realms {
        ok := false;
      } else {
        clients := ClientsOf(realm);
      }
    }

    method ClientsOf(realm: string) returns (clients: seq<ClientRep>)
      ensures forall c :: c in clients <==> c.id in state.clients && c.id == Client(realm, c.clientId)
    {
      clients := [];
      var todo := state.clients.Keys;
      while todo != {}
        invariant todo <= state.clients.Keys
        invariant forall c :: c in clients <==>
          c.id in state.clients && c.id !in todo && c.id == Client(realm, c.clientId)
      {
        var id :| id in todo;
        if id.realm == realm {
          clients := clients + [ClientRep(id, id.id)];
        }
        todo := todo - {id};
      }
    }

    method GetClientSecret(id: Option<Client>, realm: string) returns (ok: bool, secret: string)
      requires Valid() && session && state.dev.DevBusy? && state.dev.made == Some(realm)
      requires state.dev.clients == ALL_CLIENTS
      requires id.Some? ==> id.value.realm == realm && id.value.id in {BC_CLIENT, KS_CLIENT}
      modifies `state, `run, `trouble
      ensures Valid() && old(trouble) <= trouble && SameWork(old(state.dev), state.dev)
      ensures state.clients == old(state.clients) && state.realms.Keys == old(state.realms).Keys
      ensures state.objects == old(state.objects)
      ensures ok ==> id.Some? && id.value in state.clients && secret == state.clients[id.value]
      ensures ok ==> state.dev == old(state.dev).(fetched := Some((id.value.id, secret)))
      ensures Quiet() ==> Settled(old(state), state)
      ensures Quiet() ==>
        ok == (realm in old(state.realms) && id.Some? && id.value in old(state.clients))
    {
      Others();
      ok := AnyBool();
      secret := "";
      if !ok {
        trouble := 2;
      } else if realm in state.realms && id.Some? && id.value in state.clients {
        secret := FetchSecret(realm, id.value.id);
      } else {
        ok := false;
      }
    }

    method FetchSecret(realm: string, client: string) returns (secret: string)
      requires Valid() && state.dev.DevBusy? && state.dev.made == Some(realm)
      requires state.dev.clients == ALL_CLIENTS
      requires realm in state.realms && client in {BC_CLIENT, KS_CLIENT} && Client(realm, client) in state.clients
      modifies `state, `run, `trouble
      ensures Valid() && trouble == old(trouble)
      ensures secret == old(state).clients[Client(realm, client)]
      ensures state == old(state).(dev := old(state.dev).(fetched := Some((client, secret))))
    {
      secret := state.clients[Client(realm, client)];
      TakeDev(DevFetchSecret(client));
    }

    /** The server answers anything but "deleted" with an error. */
    method DeleteRealm(realm: string) returns (ok: bool)
      requires Valid() && session && state.dev.DevBusy? && state.dev.seen.deleting && !state.dev.realmGone
      requires realm == state.dev.seen.realm
      modifies `state, `run, `trouble
      ensures Valid() && old(trouble) <= trouble && SameWork(old(state.dev), state.dev)
      ensures ok ==> state.dev == old(state.dev).(realmGone := true) && realm !in state.realms
      ensures Quiet() ==> ok == (realm in old(state.realms)) && Steady(old(state), state)
      ensures Quiet() ==> state == old(state).(dev := state.dev, realms := old(state).realms - {realm})
      ensures state.objects == old(state).objects
    {
      Others();
      ok := SendDeletion(realm);
    }

    method SendDeletion(realm: string) returns (ok: bool)
      requires Valid() && state.dev.DevBusy? && state.dev.seen.deleting && !state.dev.realmGone
      requires realm == state.dev.seen.realm
      modifies `state, `run, `trouble
      ensures Valid() && old(trouble) <= trouble
      ensures state == old(state).(dev := state.dev, realms := state.realms)
      ensures SameWork(old(state.dev), state.dev)
      ensures ok ==> state.dev == old(state.dev).(realmGone := true) && realm !in state.realms
      ensures Quiet() ==> ok == (realm in old(state.realms)) && state.realms == old(state).realms - {realm}
    {
      var through := AnyBool();
      if !through {
        trouble := 2;
      }
      var reached := AnyBool();
      ok := through && realm in state.realms;
      if realm in state.realms && (through || reached) {
        DropRealm(realm);
      }
    }

    method DropRealm(realm: string)
      requires Valid() && state.dev.DevBusy? && state.dev.seen.deleting && !state.dev.realmGone
      requires realm == state.dev.seen.realm && realm in state.realms
      modifies `state, `run, `trouble
      ensures Valid() && trouble == old(trouble)
      ensures state.dev == old(state.dev).(realmGone := true)
      ensures state == old(state).(dev := state.dev, realms := old(state).realms - {realm})
    {
      TakeDev(DevDeleteRealm);
    }

    // ------------------------------------------------------- cluster objects

    /** Seeing an object counts as having it. */
    method GetObject(key: Key) returns (answer: Answer)
      requires Valid() && state.dev.DevBusy? && Handles(state.dev, key)
      modifies `state, `run, `trouble
      ensures Valid() && old(trouble) <= trouble && SameWork(old(state.dev), state.dev)
      ensures state.objects == old(state.objects) && state.clients == old(state.clients)
      ensures answer == Found ==> key in state.objects
      ensures answer == Found ==> state.dev == old(state.dev).(have := old(state.dev).have + {key})
      ensures answer != Found ==> state.dev == old(state.dev)
      ensures Quiet() ==> Settled(old(state), state)
      ensures Quiet() ==> (answer == Found <==> key in old(state.objects))
      ensures Quiet() && key !in SECRETS ==> answer == if key in old(state.objects) then Found else NotFound
    {
      Others();
      answer := LookUp(key);
    }

    method LookUp(key: Key) returns (answer: Answer)
      requires Valid() && state.dev.DevBusy? && Handles(state.dev, key)
      modifies `state, `run, `trouble
      ensures Valid() && old(trouble) <= trouble && state == old(state).(dev := state.dev)
      ensures answer == Found ==> key in state.objects
      ensures answer == Found ==> state.dev == old(state.dev).(have := old(state.dev).have + {key})
      ensures answer != Found ==> state.dev == old(state.dev)
      ensures Quiet() ==> (answer == Found <==> key in old(state.objects))
      ensures Quiet() && key !in SECRETS ==> answer == if key in old(state.objects) then Found else NotFound
    {
      var through := AnyBool();
      if !through {
        if key in SECRETS && key !in state.objects {
          NoteDropped();
        } else {
          trouble := 2;
        }
        answer := Failed;
      } else if key in state.objects {
        FindObject(key);
        answer := Found;
      } else {
        answer := NotFound;
      }
    }

    method FindObject(key: Key)
      requires Valid() && state.dev.DevBusy? && Handles(state.dev, key) && key in state.objects
      modifies `state, `run, `trouble
      ensures Valid() && trouble == old(trouble)
      ensures state == old(state).(dev := old(state.dev).(have := old(state.dev).have + {key}))
    {
      TakeDev(DevFindObject(key));
    }

    /** The server refuses an object that it has already. */
    method CreateObject(key: Key, payload: Payload) returns (ok: bool)
      requires Valid() && state.dev.DevBusy? && Handles(state.dev, key) && Suits(state.dev, key, payload)
      modifies `state, `run, `trouble
      ensures Valid() && old(trouble) <= trouble && SameWork(old(state.dev), state.dev)
      ensures ok ==> key !in old(state.objects) && state.objects == old(state.objects)[key := payload]
      ensures ok ==> state.dev == old(state.dev).(have := old(state.dev).have + {key})
      ensures state.clients == old(state.clients)
      ensures ObjectsKept(old(state), state) && OnlyAdded(old(state), state, key)
      ensures Quiet() ==> Settled(old(state), state)
      ensures Quiet() ==> ok == (key !in old(state.objects))
    {
      Others();
      ok := PostObject(key, payload);
    }

    method PostObject(key: Key, payload: Payload) returns (ok: bool)
      requires Valid() && state.dev.DevBusy? && Handles(state.dev, key) && Suits(state.dev, key, payload)
      modifies `state, `run, `trouble
      ensures Valid() && old(trouble) <= trouble
      ensures SameWork(old(state.dev), state.dev)
      ensures AtMostAdded(old(state.objects), state.objects, key, payload)
      ensures state == old(state).(objects := state.objects, dev := state.dev)
      ensures ok ==> key !in old(state.objects) && state.objects == old(state.objects)[key := payload]
      ensures ok ==> state.dev == old(state.dev).(have := old(state.dev).have + {key})
      ensures Quiet() ==> ok == (key !in old(state.objects))
    {
      var through := AnyBool();
      if !through {
        trouble := 2;
      }
      var reached := AnyBool();
      ok := through && key !in state.objects;
      if key !in state.objects && (through || reached) {
        AddObject(key, payload);
      }
    }

    method AddObject(key: Key, payload: Payload)
      requires Valid() && state.dev.DevBusy? && Handles(state.dev, key) && Suits(state.dev, key, payload)
      requires key !in state.objects
      modifies `state, `run, `trouble
      ensures Valid() && trouble == old(trouble)
      ensures state.dev == old(state.dev).(have := old(state.dev).have + {key})
      ensures state == old(state).(objects := old(state.objects)[key := payload], dev := state.dev)
    {
      TakeDev(DevCreateObject(key, payload));
    }

    /** The database deployment, and whether its one replica is ready. */
    method GetDatabase() returns (answer: Answer, ready: bool)
      requires Valid() && state.dev.DevBusy?
      requires state.dev.seen.phase == BusinessCentralInstalled && !state.dev.seen.deleting
      modifies `state, `run, `trouble
      ensures Valid() && old(trouble) <= trouble && SameWork(old(state.dev), state.dev)
      ensures answer == Found && ready ==> state.dev == old(state.dev).(ready := true)
      ensures state.objects == old(state).objects
      ensures Quiet() ==> Settled(old(state), state)
      ensures Quiet() ==>
        && answer == (if DbDeployment in old(state.objects) then Found else NotFound)
        && (answer == Found ==> ready == old(state.ready))
    {
      Others();
      var through := AnyBool();
      ready := false;
      if !through {
        trouble := 2;
        answer := Failed;
      } else if DbDeployment !in state.objects {
        answer := NotFound;
      } else {
        answer := Found;
        ready := state.ready;
        if ready {
          SeeReady();
        }
      }
    }

    method SeeReady()
      requires Valid() && state.dev.DevBusy? && DbDeployment in state.objects && state.ready
      requires state.dev.seen.phase == BusinessCentralInstalled && !state.dev.seen.deleting
      modifies `state, `run, `trouble
      ensures Valid() && trouble == old(trouble)
      ensures state == old(state).(dev := old(state.dev).(ready := true), past := state.past)
    {
      TakeDev(DevSeeReady);
    }

    // ---------------------------------------------------------- tearing down

    predicate Tearing()
      reads this
    {
      state.dev.DevBusy? && state.dev.seen.deleting && state.dev.realmGone
    }

    /** The users there are, each in its latest version unless the list is stale. */
    method ListUsers() returns (ok: bool, items: seq<ListedUser>)
      requires Valid()
      modifies `state, `run, `trouble
      ensures Valid() && old(trouble) <= trouble && OthersChanged(old(state), state)
      ensures ok ==> forall i | i in items :: FromLog(state, i)
      ensures Quiet() ==> ok && state == old(state)
      ensures Calm() ==> forall uid | Live(state, uid) :: ListedLatest(state, items, uid)
    {
      Others();
      ok := AnyBool();
      items := [];
      if !ok {
        trouble := 2;
        return;
      }
      var todo := state.users.Keys;
      while todo != {}
        modifies `trouble
        invariant todo <= state.users.Keys && old(trouble) <= trouble <= 2 && (Quiet() ==> state == old(state))
        invariant forall i | i in items :: FromLog(state, i)
        invariant Calm() ==> forall uid | Live(state, uid) && uid !in todo :: ListedLatest(state, items, uid)
      {
        var uid :| uid in todo;
        todo := todo - {uid};
        var version := AnyNumber();
        ghost var listed := items;
        if version < |state.users[uid]| && Live(state, uid) {
          items := items + [ListedUser(uid, version, state.users[uid][version])];
          assert items[|listed|] in items;
        }
        if version + 1 != |state.users[uid]| {
          NoteDropped();
        }
        StillListed(state, listed, items);
      }
    }

    /** Marks a user "deprovisioned". Its error is not looked at. */
    method UpdateUser(item: ListedUser)
      requires Valid() && Tearing() && FromLog(state, item) && item.user.realm == state.dev.seen.realm
      modifies `state, `run, `trouble
      ensures Valid() && old(trouble) <= trouble && state.dev == old(state.dev) && Extends(old(state).users, state.users)
      ensures Quiet() ==> state == old(state).(users := state.users)
      ensures Quiet() ==> MaybeFreed(old(state), state, item)
      ensures Quiet() ==> state.users.Keys == old(state).users.Keys
      ensures Quiet() ==>
        forall uid | uid in state.users && uid != item.uid :: state.users[uid] == old(state).users[uid]
      ensures Calm() ==>
        if IsLatest(old(state).users, item.uid, item.version)
        then Freed(state, item.uid, item.user.realm)
        else state == old(state)
    {
      Others();
      var through := AnyBool();
      if through && IsLatest(state.users, item.uid, item.version) && Live(state, item.uid) {
        LandUser(item);
      }
      if !through {
        NoteDropped();
      }
    }

    method LandUser(item: ListedUser)
      requires Valid() && Tearing() && FromLog(state, item) && item.user.realm == state.dev.seen.realm
      requires IsLatest(state.users, item.uid, item.version) && Live(state, item.uid)
      modifies `state, `run, `trouble
      ensures Valid() && trouble == old(trouble)
      ensures state == old(state).(users := Append(old(state).users, item.uid, item.user.(phase := Deprovisioned)))
    {
      TakeDev(DevReleaseUser(item.uid, item.version));
    }

    /** Deletes an object, if it is there. Its error is not looked at. */
    method Delete(key: Key)
      requires Valid() && Tearing()
      modifies `state, `run, `trouble
      ensures Valid() && old(trouble) <= trouble && state.dev == old(state.dev)
      ensures Quiet() ==> Settled(old(state), state)
      ensures Calm() ==> state.objects == old(state).objects - {key}
      ensures Quiet() ==> state.objects == old(state).objects || state.objects == old(state).objects - {key}
    {
      Others();
      var through := AnyBool();
      if through {
        TakeDev(DevDeleteObject(key));
      } else {
        NoteDropped();
      }
    }
  }
}
