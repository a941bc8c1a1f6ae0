/** The RhpamDev phase handler and its controller, call by call. Whatever fails
    and whoever interferes, what they do is a run of the protocol. */
module DevPhaseHandler {
  import opened ApiServer
  import opened Finalizers
  import opened Prelude
  import opened Protocol
  import opened ProtocolSafety
  import opened Provisioning
  import opened Realms
  import opened Secrets

  /** What a template renders to is opaque here. */
  method Render(key: Key) returns (payload: Payload)
    ensures payload.Rendered?
  {
    var content: int := *;
    payload := Rendered(content);
  }

  /** The reconcile has got all of `keys`, and lost nothing. */
  ghost predicate Gathered(v: DevWorker, w: DevWorker, keys: seq<Key>) {
    && v.DevBusy? && w.DevBusy? && w == v.(have := w.have) && v.have <= w.have
    && forall k | k in keys :: k in w.have
  }

  lemma OneMoreGathered(v: DevWorker, w: DevWorker, x: DevWorker, keys: seq<Key>, i: nat)
    requires i < |keys| && Gathered(v, w, keys[..i]) && x == w.(have := w.have + {keys[i]})
    ensures Gathered(v, x, keys[..i + 1])
  {
    assert keys[..i + 1] == keys[..i] + [keys[i]];
  }

  /** The same realms, with the same clients. */
  ghost predicate SameKeycloak(s: State, t: State) {
    t.realms.Keys == s.realms.Keys && t.clients == s.clients
  }

  /** The reconcile has got the client's secret. */
  ghost predicate Fetched(s: State, w: DevWorker, c: Client, secret: string) {
    && s.dev.DevBusy? && w == s.dev.(fetched := Some((c.id, secret)))
    && c in s.clients && secret == s.clients[c]
  }

  /** The object is there, and the reconcile knows. */
  ghost predicate Got(s: State, t: State, key: Key) {
    s.dev.DevBusy? && t.dev == s.dev.(have := s.dev.have + {key}) && key in t.objects
  }

  /** A realm just created. */
  ghost predicate EmptyRealm(s: State, realm: string) {
    realm in s.realms && forall c | c in s.clients :: c.realm != realm
  }

  predicate HasClient(s: State, realm: string, client: string) {
    realm in s.realms && Client(realm, client) in s.clients
  }

  ghost predicate SecretStored(s: State, t: State, key: Key) {
    && s.dev.DevBusy? && t.dev.DevBusy? && s.dev.made.Some?
    && t.dev == s.dev.(fetched := t.dev.fetched, have := s.dev.have + {key})
    && key in t.objects && Client(s.dev.made.value, ClientOf(key)) in t.clients
  }

  predicate HasClients(s: State, realm: string) {
    HasClient(s, realm, BC_CLIENT) && HasClient(s, realm, KS_CLIENT)
  }

  ghost predicate SecretsStored(v: DevWorker, w: DevWorker) {
    v.DevBusy? && w.DevBusy? && w == v.(fetched := w.fetched, have := w.have) && Work(Accepted) <= w.have
  }

  ghost predicate RealmBuilt(v: DevWorker, w: DevWorker, realm: string) {
    && v.DevBusy? && w.DevBusy?
    && w == v.(made := Some(realm), clients := w.clients, fetched := w.fetched, have := w.have)
    && Work(Accepted) <= w.have
  }

  predicate AtLatest(s: State, uid: nat, dev: Dev) {
    uid in s.devs && s.devs[uid] != [] && LatestDev(s, uid) == dev
  }

  predicate BothName(s: State, realm: string) {
    NamesRealm(s, BcRealmSecret, realm) && NamesRealm(s, KsRealmSecret, realm)
  }

  /** Every realm secret that was not there before names the realm. */
  ghost predicate NewSecretsName(s: State, t: State, realm: string) {
    forall k | RealmSecretKey(k) && k !in s.objects :: NamesRealm(t, k, realm)
  }

  lemma SecretSeenTo(s: State, t: State, u: State, key: Key, realm: string, secret: string)
    requires s.dev.DevBusy? && s.dev.made == Some(realm) && key in Work(Accepted)
    requires Fetched(s, t.dev, Client(realm, ClientOf(key)), secret) && t.objects == s.objects && t.clients == s.clients
    requires Got(t, u, key) && u.clients == t.clients
    requires key !in t.objects ==> u.objects[key] == RealmSecret(realm, ClientOf(key), secret)
    ensures SecretStored(s, u, key) && (key !in s.objects ==> NamesRealm(u, key, realm))
  {
  }

  lemma NewRealmIsEmpty(s: State, t: State, realmId: string)
    requires realmId !in s.past.created && t.clients == s.clients && realmId in t.realms
    ensures ClientsKnown(s) ==> EmptyRealm(t, realmId)
  {
  }

  lemma ClientsThere(s: State, t: State, realmId: string)
    requires ClientsAdded(s, t, realmId, ALL_CLIENTS) && realmId in s.realms
    ensures HasClients(t, realmId)
  {
  }

  lemma BothSeenTo(s: State, t: State, u: State, realm: string)
    requires OnlyAdded(s, t, BcRealmSecret)
    requires ObjectsKept(t, u) && u.clients == t.clients
    requires BcRealmSecret !in s.objects ==> NamesRealm(t, BcRealmSecret, realm)
    requires KsRealmSecret !in t.objects ==> NamesRealm(u, KsRealmSecret, realm)
    requires SecretStored(s, t, BcRealmSecret) && SecretStored(t, u, KsRealmSecret)
    ensures NewSecretsName(s, u, realm) && SecretsStored(s.dev, u.dev)
  {
  }

  lemma AddedOn(s: State, t: State, u: State, a: set<Key>, b: set<Key>, c: set<Key>)
    requires AddedAmong(s, t, a) && AddedAmong(t, u, b) && a <= c && b <= c
    ensures AddedAmong(s, u, c)
  {
  }

  /** Secrets that were there name a realm made before, so not one made since. */
  lemma OldSecretsNameOthers(run: seq<State>, s: State, t: State, realm: string)
    requires IsRun(run) && s == run[|run| - 1] && ObjectsKept(s, t)
    requires realm !in s.past.created && NewSecretsName(s, t, realm)
    ensures BothName(t, realm) <==> Work(Accepted) !! s.objects.Keys
  {
    RunKeepsNamed(run, |run| - 1);
    assert Work(Accepted) == {BcRealmSecret, KsRealmSecret};
    assert NamesRealm(t, BcRealmSecret, realm) || BcRealmSecret in s.objects;
    assert NamesRealm(t, KsRealmSecret, realm) || KsRealmSecret in s.objects;
  }

  /** The realms once the server has been asked for one of that name. */
  function WithNewRealm(realms: map<string, Realm>, realmId: string): map<string, Realm> {
    if realmId in realms then realms else realms[realmId := NEW_REALM]
  }

  /** A realm of that name has been made, unless there was one, and then nothing is stored. */
  ghost predicate RealmMade(s: State, t: State, realmId: string) {
    t.realms == WithNewRealm(s.realms, realmId) && (realmId in s.realms ==> t.objects == s.objects)
  }

  /** All clients belong to realms created before. */
  ghost predicate ClientsKnown(s: State) {
    forall c | c in s.clients :: c.realm in s.past.created
  }

  /** The users listed before place `i` are freed, each later one is so or still
      has the version it was listed with. */
  ghost predicate FreeSoFar(s: State, items: seq<ListedUser>, i: nat, t: State, realm: string) {
    && (forall uid :: Live(s, uid) || Freed(t, uid, realm))
    && forall k | 0 <= k < |items| && IsLatest(s.users, items[k].uid, items[k].version) ::
         Freed(t, items[k].uid, realm) || (i <= k && IsLatest(t.users, items[k].uid, items[k].version))
  }

  lemma OneMoreFreed(s: State, items: seq<ListedUser>, i: nat, t: State, u: State, realm: string)
    requires i < |items| && FreeSoFar(s, items, i, t, realm) && FromLog(t, items[i])
    requires forall uid | uid != items[i].uid :: Freed(t, uid, realm) ==> Freed(u, uid, realm)
    requires forall uid | uid != items[i].uid && uid in t.users :: uid in u.users && u.users[uid] == t.users[uid]
    requires if items[i].user.realm == realm && IsLatest(t.users, items[i].uid, items[i].version)
             then Freed(u, items[i].uid, realm) else u == t
    ensures FreeSoFar(s, items, i + 1, u, realm)
  {
  }

  lemma SameUsersFreed(s: State, t: State, realm: string)
    requires t.users == s.users && forall uid :: Freed(s, uid, realm)
    ensures forall uid :: Freed(t, uid, realm)
  {
    forall uid ensures Freed(t, uid, realm) {
      assert Freed(s, uid, realm);
    }
  }

  lemma AllFreed(s: State, items: seq<ListedUser>, t: State, realm: string)
    requires FreeSoFar(s, items, |items|, t, realm)
    ensures forall uid :: !Live(s, uid) || ListedLatest(s, items, uid) ==> Freed(t, uid, realm)
  {
    forall uid | ListedLatest(s, items, uid) ensures Freed(t, uid, realm) {
      var i :| i in items && i.uid == uid && IsLatest(s.users, uid, i.version);
      var k :| 0 <= k < |items| && items[k] == i;
    }
  }

  class PhaseHandler {
    const client: Cluster

    constructor (client: Cluster)
      ensures this.client == client
    {
      this.client := client;
    }

    /** A reconcile that has read the RhpamDev and done nothing else yet. */
    ghost predicate Begun(rhpam: RhpamDev)
      reads client, rhpam
    {
      && client.Valid()
      && client.state.dev == DevBusy(rhpam.uid, rhpam.version, rhpam.version, rhpam.AsStored(),
                                     Unmarked, None, {}, None, {}, false, false)
    }

    /** The reconcile has done its work and may write `rhpam` back, or has failed. */
    ghost predicate Ended(ok: bool, rhpam: RhpamDev)
      reads client, rhpam
    {
      client.Valid() && client.state.dev.DevBusy? && (ok ==> client.IsResult(rhpam))
    }

    method Initialize(rhpam: RhpamDev)
      requires Begun(rhpam) && rhpam.phase == NoPhase && !rhpam.deleting
      modifies rhpam
      ensures Ended(true, rhpam)
    {
      rhpam.finalizers := AddFinalizer(rhpam.finalizers, FINALIZER);
      rhpam.phase := Accepted;
    }

    // ------------------------------------------------------- cluster objects

    /** A secret or config map. Any error of the look-up counts as "not there". */
    method CreateSecret(key: Key, payload: Payload) returns (ok: bool)
      requires client.Valid() && client.state.dev.DevBusy?
      requires Handles(client.state.dev, key) && Suits(client.state.dev, key, payload)
      modifies client`state, client`run, client`trouble
      ensures client.Valid() && old(client.trouble) <= client.trouble && SameWork(old(client.state.dev), client.state.dev)
      ensures ok ==> Got(old(client.state), client.state, key)
      ensures ok && key !in old(client.state).objects ==> client.state.objects[key] == payload
      ensures ObjectsKept(old(client.state), client.state)
      ensures OnlyAdded(old(client.state), client.state, key)
      ensures client.Quiet() ==> ok && Settled(old(client.state), client.state)
      ensures client.Quiet() ==> SameKeycloak(old(client.state), client.state)
      ensures client.state.clients == old(client.state).clients
    {
      var answer := client.GetObject(key);
      if answer == Found {
        ok := true;
      } else {
        ok := Create(key, payload);
      }
    }

    method Create(key: Key, payload: Payload) returns (ok: bool)
      requires client.Valid() && client.state.dev.DevBusy?
      requires Handles(client.state.dev, key) && Suits(client.state.dev, key, payload)
      modifies client`state, client`run, client`trouble
      ensures client.Valid() && old(client.trouble) <= client.trouble && SameWork(old(client.state.dev), client.state.dev)
      ensures ok ==> Got(old(client.state), client.state, key) && client.state.objects[key] == payload
      ensures ObjectsKept(old(client.state), client.state) && OnlyAdded(old(client.state), client.state, key)
      ensures client.Quiet() ==> ok == (key !in old(client.state).objects) && Settled(old(client.state), client.state)
      ensures client.Quiet() ==> SameKeycloak(old(client.state), client.state)
      ensures client.state.clients == old(client.state).clients
    {
      ok := client.CreateObject(key, payload);
    }

    /** A templated resource. Only "not found" leads to its creation. */
    method CreateResource(key: Key) returns (ok: bool, ghost answer: Answer)
      requires client.Valid() && client.state.dev.DevBusy?
      requires Handles(client.state.dev, key) && client.state.dev.seen.phase != Accepted && key !in SECRETS
      modifies client`state, client`run, client`trouble
      ensures client.Valid() && old(client.trouble) <= client.trouble && SameWork(old(client.state.dev), client.state.dev)
      ensures ok ==> Got(old(client.state), client.state, key)
      ensures AddedAmong(old(client.state), client.state, {key})
      ensures client.Quiet() ==> ok && Settled(old(client.state), client.state)
      ensures answer != NotFound ==> client.state.objects == old(client.state).objects && ok == (answer == Found)
      ensures answer == Found ==> key in old(client.state).objects
    {
      var resource := Render(key);
      var found := client.GetObject(key);
      answer := found;
      if found != NotFound {
        ok := found == Found;
      } else {
        ok := Create(key, resource);
      }
    }

    method CreateResources(resources: seq<Key>) returns (ok: bool)
      requires client.Valid() && client.state.dev.DevBusy? && client.state.dev.seen.phase != Accepted
      requires forall key | key in resources :: Handles(client.state.dev, key) && key !in SECRETS
      modifies client`state, client`run, client`trouble
      ensures client.Valid() && old(client.trouble) <= client.trouble && SameWork(old(client.state.dev), client.state.dev)
      ensures ok ==> Gathered(old(client.state.dev), client.state.dev, resources)
      ensures AddedAmong(old(client.state), client.state, ToSet(resources))
      ensures ok ==> ToSet(resources) <= client.state.objects.Keys
      ensures client.Quiet() ==> ok && Settled(old(client.state), client.state)
    {
      ok := true;
      ghost var s := client.state;
      for i := 0 to |resources|
        invariant ok && client.Valid() && old(client.trouble) <= client.trouble
        invariant Collected(s, client.state, resources, i)
        invariant client.Quiet() ==> Settled(s, client.state)
      {
        assert resources[i] in resources;
        ok := CollectNext(s, resources, i);
        if !ok {
          return;
        }
      }
      assert resources[..|resources|] == resources;
    }

    /** The first `i` of the resources are there, and the reconcile knows. */
    ghost predicate Collected(s: State, t: State, resources: seq<Key>, i: nat) {
      && i <= |resources| && Gathered(s.dev, t.dev, resources[..i])
      && AddedAmong(s, t, ToSet(resources))
      && forall j | 0 <= j < i :: resources[j] in t.objects
    }

    method CollectNext(ghost s: State, resources: seq<Key>, i: nat) returns (ok: bool)
      requires client.Valid() && i < |resources| && Collected(s, client.state, resources, i)
      requires client.state.dev.seen.phase != Accepted && (client.Quiet() ==> Settled(s, client.state))
      requires Handles(client.state.dev, resources[i]) && resources[i] !in SECRETS
      modifies client`state, client`run, client`trouble
      ensures client.Valid() && old(client.trouble) <= client.trouble && SameWork(s.dev, client.state.dev)
      ensures ok ==> Collected(s, client.state, resources, i + 1)
      ensures AddedAmong(s, client.state, ToSet(resources))
      ensures client.Quiet() ==> ok && Settled(s, client.state)
    {
      ghost var t := client.state;
      assert resources[i] in resources && resources[i] in ToSet(resources);
      ghost var answer;
      ok, answer := CreateResource(resources[i]);
      AddedOn(s, t, client.state, ToSet(resources), {resources[i]}, ToSet(resources));
      if ok {
        OneMoreGathered(s.dev, t.dev, client.state.dev, resources, i);
      }
    }

    // -------------------------------------------------------------- the realm

    /** Looks the client up by name and fetches its secret by its id. */
    method GetClientSecret(realm: string, clientId: string) returns (ok: bool, secret: string)
      requires client.Valid() && client.session && client.state.dev.DevBusy? && client.state.dev.made == Some(realm)
      requires client.state.dev.clients == ALL_CLIENTS
      requires clientId in {BC_CLIENT, KS_CLIENT}
      modifies client`state, client`run, client`trouble
      ensures client.Valid() && old(client.trouble) <= client.trouble && SameWork(old(client.state.dev), client.state.dev)
      ensures SameKeycloak(old(client.state), client.state) && client.state.objects == old(client.state).objects
      ensures ok ==> Fetched(old(client.state), client.state.dev, Client(realm, clientId), secret)
      ensures client.Quiet() ==> Settled(old(client.state), client.state)
      ensures client.Quiet() ==> ok == HasClient(old(client.state), realm, clientId)
    {
      var clients;
      ok, clients := client.ListClients(realm);
      if !ok {
        return false, "";
      }
      var id: Option<Client> := None;
      for i := 0 to |clients|
        invariant id == None && forall j | 0 <= j < i :: clients[j].clientId != clientId
      {
        if clients[i].clientId == clientId {
          id := Some(clients[i].id);
          assert clients[i] in clients;
          break;
        }
      }
      assert id == None ==> ClientRep(Client(realm, clientId), clientId) !in clients;
      ok, secret := client.GetClientSecret(id, realm);
    }

    /** The three clients of a new realm. */
    method CreateClients(realm: string) returns (ok: bool)
      requires client.Valid() && client.session && client.state.dev.DevBusy? && client.state.dev.made == Some(realm)
      modifies client`state, client`run, client`trouble
      ensures client.Valid() && old(client.trouble) <= client.trouble
      ensures SameWork(old(client.state.dev), client.state.dev)
      ensures ok ==> ClientsAdded(old(client.state), client.state, realm, ALL_CLIENTS)
      ensures client.state.objects == old(client.state).objects
      ensures client.Quiet() ==> Settled(old(client.state), client.state)
      ensures client.Quiet() && EmptyRealm(old(client.state), realm) ==> ok
    {
      ghost var s := client.state;
      ok := CreateSecretClients(realm);
      if !ok {
        return;
      }
      ghost var t := client.state;
      ok := client.CreateClient(KS_DIRECT_CLIENT, realm);
      if ok {
        ClientsAddUp(s, t, client.state, realm, {BC_CLIENT, KS_CLIENT}, {KS_DIRECT_CLIENT});
        assert {BC_CLIENT, KS_CLIENT} + {KS_DIRECT_CLIENT} == ALL_CLIENTS;
      }
    }

    /** The two clients whose secrets are asked for later. */
    method CreateSecretClients(realm: string) returns (ok: bool)
      requires client.Valid() && client.session && client.state.dev.DevBusy? && client.state.dev.made == Some(realm)
      modifies client`state, client`run, client`trouble
      ensures client.Valid() && old(client.trouble) <= client.trouble
      ensures SameWork(old(client.state.dev), client.state.dev)
      ensures ok ==> ClientsAdded(old(client.state), client.state, realm, {BC_CLIENT, KS_CLIENT})
      ensures client.state.objects == old(client.state).objects
      ensures client.Quiet() ==> Settled(old(client.state), client.state)
      ensures client.Quiet() && EmptyRealm(old(client.state), realm) ==> ok
    {
      ghost var s := client.state;
      ok := client.CreateClient(BC_CLIENT, realm);
      if !ok {
        return;
      }
      ghost var t := client.state;
      ok := client.CreateClient(KS_CLIENT, realm);
      if ok {
        ClientsAddUp(s, t, client.state, realm, {BC_CLIENT}, {KS_CLIENT});
        assert {BC_CLIENT} + {KS_CLIENT} == {BC_CLIENT, KS_CLIENT};
      }
    }

    /** Stores the realm, a client and the client's secret under `key`. */
    method CreateRealmSecret(key: Key, realm: string, clientId: string) returns (ok: bool)
      requires client.Valid() && client.session && client.state.dev.DevBusy? && client.state.dev.made == Some(realm)
      requires client.state.dev.clients == ALL_CLIENTS
      requires client.state.dev.seen.phase == Accepted && !client.state.dev.seen.deleting
      requires key in Work(Accepted) && clientId == ClientOf(key)
      modifies client`state, client`run, client`trouble
      ensures client.Valid() && old(client.trouble) <= client.trouble && SameWork(old(client.state.dev), client.state.dev)
      ensures ok ==> SecretStored(old(client.state), client.state, key)
      ensures ok && key !in old(client.state).objects ==> NamesRealm(client.state, key, realm)
      ensures ObjectsKept(old(client.state), client.state) && client.state.clients == old(client.state).clients
      ensures OnlyAdded(old(client.state), client.state, key)
      ensures client.Quiet() ==> Settled(old(client.state), client.state) && SameKeycloak(old(client.state), client.state)
      ensures client.Quiet() && HasClient(old(client.state), realm, clientId) ==> ok
    {
      ghost var s := client.state;
      var clientSecret;
      ok, clientSecret := GetClientSecret(realm, clientId);
      if ok {
        ok := StoreClientSecret(key, realm, clientSecret, s);
      }
    }

    method StoreClientSecret(key: Key, realm: string, clientSecret: string, ghost s: State) returns (ok: bool)
      requires client.Valid() && SameWork(s.dev, client.state.dev) && s.dev.made == Some(realm)
      requires s.dev.seen.phase == Accepted && !s.dev.seen.deleting && key in Work(Accepted)
      requires Fetched(s, client.state.dev, Client(realm, ClientOf(key)), clientSecret)
      requires client.state.objects == s.objects && client.state.clients == s.clients
      requires client.Quiet() ==> Settled(s, client.state)
      modifies client`state, client`run, client`trouble
      ensures client.Valid() && old(client.trouble) <= client.trouble && SameWork(s.dev, client.state.dev)
      ensures ok ==> SecretStored(s, client.state, key)
      ensures ok && key !in s.objects ==> NamesRealm(client.state, key, realm)
      ensures ObjectsKept(s, client.state) && client.state.clients == s.clients && OnlyAdded(s, client.state, key)
      ensures client.Quiet() ==> ok && Settled(s, client.state) && SameKeycloak(s, client.state)
    {
      ghost var t := client.state;
      ok := CreateSecret(key, RealmSecret(realm, ClientOf(key), clientSecret));
      if ok {
        SecretSeenTo(s, t, client.state, key, realm, clientSecret);
      }
    }

    /** A new realm with its three clients. */
    method MakeRealm(realmId: string) returns (ok: bool)
      requires client.Valid() && client.session && client.state.dev.DevBusy? && client.state.dev.mark != Unmarked
      requires client.state.dev.made == None && client.state.dev.clients == {}
      requires client.state.dev.seen.phase == Accepted && !client.state.dev.seen.deleting
      requires Drawable(client.state, realmId)
      modifies client`state, client`run, client`trouble
      ensures client.Valid() && old(client.trouble) <= client.trouble
      ensures SameWork(old(client.state.dev), client.state.dev)
      ensures ok ==> client.state.dev == old(client.state.dev).(made := Some(realmId), clients := ALL_CLIENTS)
      ensures client.Quiet() ==> Steady(old(client.state), client.state)
      ensures client.state.objects == old(client.state).objects
      ensures client.Quiet() ==> client.state.realms == WithNewRealm(old(client.state).realms, realmId)
      ensures ok ==> realmId !in old(client.state).past.created
      ensures client.Quiet() && realmId in old(client.state).realms ==> !ok
      ensures client.Quiet() && ClientsKnown(old(client.state)) && realmId !in old(client.state).realms ==>
        ok && HasClients(client.state, realmId)
    {
      ghost var s := client.state;
      ok := client.CreateRealm(realmId);
      if ok {
        ghost var t := client.state;
        NewRealmIsEmpty(s, t, realmId);
        ok := CreateAllClients(realmId, s);
      }
    }

    /** The clients of a realm made since `s`. */
    method CreateAllClients(realmId: string, ghost s: State) returns (ok: bool)
      requires client.Valid() && client.session && client.state.dev.DevBusy? && client.state.dev.made == Some(realmId)
      requires client.state.dev.clients == {} && realmId in client.state.realms
      requires client.Quiet() ==> Steady(s, client.state)
      modifies client`state, client`run, client`trouble
      ensures client.Valid() && old(client.trouble) <= client.trouble
      ensures SameWork(old(client.state.dev), client.state.dev)
      ensures ok ==> client.state.dev == old(client.state.dev).(clients := ALL_CLIENTS)
      ensures client.state.objects == old(client.state).objects
      ensures client.Quiet() ==> Steady(s, client.state) && client.state.realms == old(client.state).realms
      ensures client.Quiet() && EmptyRealm(old(client.state), realmId) ==> ok && HasClients(client.state, realmId)
    {
      ghost var t := client.state;
      ok := CreateClients(realmId);
      if ok {
        ClientsThere(t, client.state, realmId);
      }
    }

    /** Both realm secrets. */
    method StoreSecrets(realmId: string) returns (ok: bool)
      requires client.Valid() && client.session && client.state.dev.DevBusy? && client.state.dev.made == Some(realmId)
      requires client.state.dev.clients == ALL_CLIENTS
      requires client.state.dev.seen.phase == Accepted && !client.state.dev.seen.deleting
      modifies client`state, client`run, client`trouble
      ensures client.Valid() && old(client.trouble) <= client.trouble
      ensures SameWork(old(client.state.dev), client.state.dev)
      ensures ok ==> SecretsStored(old(client.state.dev), client.state.dev)
      ensures AddedAmong(old(client.state), client.state, Work(Accepted))
      ensures ok ==> Work(Accepted) <= client.state.objects.Keys
      ensures ok ==> NewSecretsName(old(client.state), client.state, realmId)
      ensures client.Quiet() ==> Settled(old(client.state), client.state)
      ensures client.Quiet() && HasClients(old(client.state), realmId) ==> ok
    {
      ghost var s := client.state;
      ok := CreateRealmSecret(BcRealmSecret, realmId, BC_CLIENT);
      if ok {
        ok := StoreOtherSecret(realmId, s);
      }
    }

    method StoreOtherSecret(realmId: string, ghost s: State) returns (ok: bool)
      requires client.Valid() && client.session && client.state.dev.DevBusy? && client.state.dev.made == Some(realmId)
      requires client.state.dev.clients == ALL_CLIENTS
      requires client.state.dev.seen.phase == Accepted && !client.state.dev.seen.deleting
      requires ObjectsKept(s, client.state) && OnlyAdded(s, client.state, BcRealmSecret)
      requires SecretStored(s, client.state, BcRealmSecret)
      requires BcRealmSecret !in s.objects ==> NamesRealm(client.state, BcRealmSecret, realmId)
      requires SameWork(s.dev, client.state.dev) && (client.Quiet() ==> Settled(s, client.state))
      modifies client`state, client`run, client`trouble
      ensures client.Valid() && old(client.trouble) <= client.trouble
      ensures SameWork(s.dev, client.state.dev) && AddedAmong(s, client.state, Work(Accepted))
      ensures ok ==> Work(Accepted) <= client.state.objects.Keys
      ensures ok ==> SecretsStored(s.dev, client.state.dev) && NewSecretsName(s, client.state, realmId)
      ensures client.Quiet() ==> Settled(s, client.state)
      ensures client.Quiet() && HasClient(old(client.state), realmId, KS_CLIENT) ==> ok
    {
      ghost var t := client.state;
      ok := CreateRealmSecret(KsRealmSecret, realmId, KS_CLIENT);
      AddedOn(s, t, client.state, {BcRealmSecret}, {KsRealmSecret}, Work(Accepted));
      if ok {
        BothSeenTo(s, t, client.state, realmId);
      }
    }

    method BuildRealm(realmId: string) returns (ok: bool)
      requires client.Valid() && client.state.dev.DevBusy? && client.state.dev.mark != Unmarked
      requires client.state.dev.made == None && client.state.dev.clients == {}
      requires client.state.dev.seen.phase == Accepted && !client.state.dev.seen.deleting
      requires Drawable(client.state, realmId)
      modifies client`state, client`run, client`trouble, client`session
      ensures client.Valid() && old(client.trouble) <= client.trouble
      ensures SameWork(old(client.state.dev), client.state.dev)
      ensures ok ==> RealmBuilt(old(client.state.dev), client.state.dev, realmId)
      ensures client.Quiet() ==> Steady(old(client.state), client.state)
      ensures AddedAmong(old(client.state), client.state, Work(Accepted))
      ensures ok ==> Work(Accepted) <= client.state.objects.Keys
      ensures client.Quiet() && realmId in old(client.state).realms ==>
        client.state.objects == old(client.state).objects
      ensures client.Quiet() ==> client.state.realms == WithNewRealm(old(client.state).realms, realmId)
      ensures ok ==> realmId !in old(client.state).past.created
      ensures ok ==> NewSecretsName(old(client.state), client.state, realmId)
      ensures client.Quiet() && ClientsKnown(old(client.state)) ==> ok == (realmId !in old(client.state).realms)
    {
      ok := client.AuthenticatedClient();
      if ok {
        ok := MakeAndStore(realmId);
      }
    }

    /** The realm, and then its secrets. */
    method MakeAndStore(realmId: string) returns (ok: bool)
      requires client.Valid() && client.session && client.state.dev.DevBusy? && client.state.dev.mark != Unmarked
      requires client.state.dev.made == None && client.state.dev.clients == {}
      requires client.state.dev.seen.phase == Accepted && !client.state.dev.seen.deleting
      requires Drawable(client.state, realmId)
      modifies client`state, client`run, client`trouble
      ensures client.Valid() && old(client.trouble) <= client.trouble
      ensures SameWork(old(client.state.dev), client.state.dev)
      ensures ok ==> RealmBuilt(old(client.state.dev), client.state.dev, realmId)
      ensures client.Quiet() ==> Steady(old(client.state), client.state)
      ensures AddedAmong(old(client.state), client.state, Work(Accepted))
      ensures ok ==> Work(Accepted) <= client.state.objects.Keys
      ensures client.Quiet() && realmId in old(client.state).realms ==>
        client.state.objects == old(client.state).objects
      ensures client.Quiet() ==> client.state.realms == WithNewRealm(old(client.state).realms, realmId)
      ensures ok ==> realmId !in old(client.state).past.created
      ensures ok ==> NewSecretsName(old(client.state), client.state, realmId)
      ensures client.Quiet() && ClientsKnown(old(client.state)) ==> ok == (realmId !in old(client.state).realms)
    {
      ok := MakeRealm(realmId);
      if ok {
        ok := StoreSecrets(realmId);
      }
    }

    lemma KnowsClients()
      requires client.Valid()
      ensures ClientsKnown(client.state)
    {
      RunIsStocked(client.run, |client.run| - 1);
    }

    method MarkAndBuild(rhpam: RhpamDev, realmId: string) returns (ok: bool)
      requires Begun(rhpam) && rhpam.phase == Accepted && !rhpam.deleting && Drawable(client.state, realmId)
      modifies client`state, client`run, client`trouble, client`session, rhpam`phase, rhpam`version
      ensures client.Valid() && old(client.trouble) <= client.trouble
      ensures SameWork(old(client.state.dev), client.state.dev) && (ok ==> client.state.dev.base == rhpam.version)
      ensures rhpam.phase == RealmProvisioning && AddedAmong(old(client.state), client.state, Work(Accepted))
      ensures ok ==> client.state.dev.made == Some(realmId) && Work(Accepted) <= client.state.dev.have
      ensures ok ==> realmId !in old(client.state).past.created
      ensures ok ==> NewSecretsName(old(client.state), client.state, realmId)
      ensures ok ==> Work(Accepted) <= client.state.objects.Keys
      ensures client.Quiet() ==> ok == (realmId !in old(client.state).realms)
      ensures client.Quiet() ==> client.state.users == old(client.state).users
      ensures client.Quiet() ==> RealmMade(old(client.state), client.state, realmId)
      ensures client.Calm() && old(client.Lands(rhpam)) ==>
        client.Lands(rhpam) && AtLatest(client.state, rhpam.uid, rhpam.AsStored())
    {
      KnowsClients();
      rhpam.phase := RealmProvisioning;
      client.UpdateMark(rhpam);
      ok := BuildRealm(realmId);
    }

    /** Marks the RhpamDev, makes a realm with its three clients and stores the
        realm secrets. The name drawn may be in use, and is refused then. The two
        secrets name the new realm exactly if neither was there before: one that
        is found is kept, whatever it says. */
    method ProvisionRealm(rhpam: RhpamDev, realmId: string) returns (ok: bool)
      requires Begun(rhpam) && rhpam.phase == Accepted && !rhpam.deleting && Drawable(client.state, realmId)
      modifies client`state, client`run, client`trouble, client`session, rhpam
      ensures client.Valid() && old(client.trouble) <= client.trouble
      ensures Ended(ok, rhpam) && SameWork(old(client.state.dev), client.state.dev)
      ensures ok ==> rhpam.realm == realmId && rhpam.phase == RealmProvisioned
      ensures ok ==> (BothName(client.state, realmId) <==> Work(Accepted) !! old(client.state).objects.Keys)
      ensures AddedAmong(old(client.state), client.state, Work(Accepted))
      ensures ok ==> Work(Accepted) <= client.state.objects.Keys
      ensures client.Quiet() ==> ok == (realmId !in old(client.state).realms)
      ensures client.Quiet() ==> client.state.users == old(client.state).users
      ensures client.Quiet() ==> RealmMade(old(client.state), client.state, realmId)
      ensures client.Calm() && old(client.Lands(rhpam)) && ok ==> client.Lands(rhpam)
      ensures client.Calm() && old(client.Lands(rhpam)) && !ok ==>
        AtLatest(client.state, rhpam.uid, old(rhpam.AsStored()).(phase := RealmProvisioning))
    {
      ghost var run, s := client.run, client.state;
      ok := MarkAndBuild(rhpam, realmId);
      if !ok {
        return;
      }
      OldSecretsNameOthers(run, s, client.state, realmId);
      rhpam.phase := RealmProvisioned;
      rhpam.realm := realmId;
    }

    // ---------------------------------------------------------- installation

    /** A reconcile that has read a RhpamDev in phase `p`. */
    ghost predicate Installing(rhpam: RhpamDev, p: Phase)
      reads client, rhpam
    {
      Begun(rhpam) && rhpam.phase == p && !rhpam.deleting
    }

    method Prepare(rhpam: RhpamDev) returns (ok: bool)
      requires Installing(rhpam, Phase.Prepare)
      modifies client`state, client`run, client`trouble, rhpam`phase
      ensures client.Valid() && old(client.trouble) <= client.trouble
      ensures Ended(ok, rhpam) && SameWork(old(client.state.dev), client.state.dev)
      ensures AddedAmong(old(client.state), client.state, Work(Phase.Prepare))
      ensures ok ==> Work(Phase.Prepare) <= client.state.objects.Keys
      ensures client.Quiet() ==> ok && Settled(old(client.state), client.state)
      ensures ok ==> rhpam.AsStored() == old(rhpam.AsStored()).(phase := NextPhase(old(rhpam.phase)))
    {
      assert [ServiceAccount][0] == ServiceAccount && ToSet([ServiceAccount]) == Work(Phase.Prepare);
      ok := CreateResources([ServiceAccount]);
      if !ok {
        return;
      }
      rhpam.phase := Prepared;
    }

    method CreateDatabaseInputs(dbUser: string, dbPassword: string) returns (ok: bool)
      requires client.Valid() && client.state.dev.DevBusy?
      requires client.state.dev.seen.phase == Prepared && !client.state.dev.seen.deleting
      modifies client`state, client`run, client`trouble
      ensures client.Valid() && old(client.trouble) <= client.trouble
      ensures SameWork(old(client.state.dev), client.state.dev)
      ensures ok ==>
        client.state.dev == old(client.state.dev).(have := old(client.state.dev).have + {DbCredentials} + {DbInit})
      ensures AddedAmong(old(client.state), client.state, {DbCredentials, DbInit})
      ensures ok ==> {DbCredentials, DbInit} <= client.state.objects.Keys
      ensures ok && DbCredentials !in old(client.state).objects ==>
        client.state.objects[DbCredentials] == Credentials(dbUser, dbPassword)
      ensures client.Quiet() ==> ok && Settled(old(client.state), client.state)
    {
      ghost var s := client.state;
      ok := CreateSecret(DbCredentials, Credentials(dbUser, dbPassword));
      if ok {
        ghost var t := client.state;
        var configmap := Render(DbInit);
        ok := CreateSecret(DbInit, configmap);
        AddedOn(s, t, client.state, {DbCredentials}, {DbInit}, {DbCredentials, DbInit});
      }
    }

    /** Draws new credentials each time, which are stored the first time only. */
    method InstallDatabase(rhpam: RhpamDev, dbUser: string, dbPassword: string) returns (ok: bool)
      requires Installing(rhpam, Prepared)
      modifies client`state, client`run, client`trouble, rhpam`phase
      ensures client.Valid() && old(client.trouble) <= client.trouble
      ensures Ended(ok, rhpam) && SameWork(old(client.state.dev), client.state.dev)
      ensures AddedAmong(old(client.state), client.state, Work(Prepared))
      ensures ok ==> Work(Prepared) <= client.state.objects.Keys
      ensures client.Quiet() ==> ok && Settled(old(client.state), client.state)
      ensures ok ==> rhpam.AsStored() == old(rhpam.AsStored()).(phase := NextPhase(old(rhpam.phase)))
      ensures ok && DbCredentials !in old(client.state).objects ==>
        client.state.objects[DbCredentials] == Credentials(dbUser, dbPassword)
    {
      ghost var s := client.state;
      ok := CreateDatabaseInputs(dbUser, dbPassword);
      if ok {
        ok := InstallDatabaseResources(rhpam, s);
      }
    }

    method InstallDatabaseResources(rhpam: RhpamDev, ghost s: State) returns (ok: bool)
      requires client.Valid() && client.state.dev.DevBusy? && rhpam.phase == Prepared
      requires client.state.dev.seen == rhpam.AsStored() && !rhpam.deleting && client.state.dev.mark == Unmarked
      requires rhpam.uid == client.state.dev.uid && rhpam.version == client.state.dev.base
      requires {DbCredentials, DbInit} <= client.state.dev.have
      requires AddedAmong(s, client.state, {DbCredentials, DbInit})
      requires {DbCredentials, DbInit} <= client.state.objects.Keys
      modifies client`state, client`run, client`trouble, rhpam`phase
      ensures client.Valid() && old(client.trouble) <= client.trouble
      ensures Ended(ok, rhpam) && SameWork(old(client.state.dev), client.state.dev)
      ensures AddedAmong(s, client.state, Work(Prepared)) && ObjectsKept(old(client.state), client.state)
      ensures ok ==> Work(Prepared) <= client.state.objects.Keys
      ensures client.Quiet() ==> ok && Settled(old(client.state), client.state)
      ensures ok ==> rhpam.AsStored() == old(rhpam.AsStored()).(phase := NextPhase(old(rhpam.phase)))
    {
      ghost var t := client.state;
      var resources := [DbPvc, DbService, DbDeployment];
      assert resources[0] == DbPvc && resources[1] == DbService && resources[2] == DbDeployment;
      assert ToSet(resources) == {DbPvc, DbService, DbDeployment};
      ok := CreateResources(resources);
      AddedOn(s, t, client.state, {DbCredentials, DbInit}, {DbPvc, DbService, DbDeployment}, Work(Prepared));
      if ok {
        rhpam.phase := DatabaseInstalled;
      }
    }

    method InstallBusinessCentral(rhpam: RhpamDev) returns (ok: bool)
      requires Installing(rhpam, DatabaseInstalled)
      modifies client`state, client`run, client`trouble, rhpam`phase
      ensures client.Valid() && old(client.trouble) <= client.trouble
      ensures Ended(ok, rhpam) && SameWork(old(client.state.dev), client.state.dev)
      ensures AddedAmong(old(client.state), client.state, Work(DatabaseInstalled))
      ensures ok ==> Work(DatabaseInstalled) <= client.state.objects.Keys
      ensures client.Quiet() ==> ok && Settled(old(client.state), client.state)
      ensures ok ==> rhpam.AsStored() == old(rhpam.AsStored()).(phase := NextPhase(old(rhpam.phase)))
    {
      var resources := [BcPvc, BcService, BcRoute, BcDeployment];
      assert resources[0] == BcPvc && resources[1] == BcService;
      assert resources[2] == BcRoute && resources[3] == BcDeployment;
      assert ToSet(resources) == Work(DatabaseInstalled);
      ok := CreateResources(resources);
      if !ok {
        return;
      }
      rhpam.phase := BusinessCentralInstalled;
    }

    method WaitForDatabase(rhpam: RhpamDev) returns (ok: bool, ready: bool)
      requires Installing(rhpam, BusinessCentralInstalled)
      modifies client`state, client`run, client`trouble, rhpam`phase
      ensures client.Valid() && old(client.trouble) <= client.trouble
      ensures Ended(ok && ready, rhpam) && SameWork(old(client.state.dev), client.state.dev)
      ensures client.state.objects == old(client.state).objects
      ensures client.Quiet() ==> Settled(old(client.state), client.state)
      ensures client.Quiet() ==> ok == (DbDeployment in old(client.state).objects)
      ensures client.Quiet() && ok ==> ready == old(client.state).ready
      ensures ok && ready ==> rhpam.AsStored() == old(rhpam.AsStored()).(phase := NextPhase(old(rhpam.phase)))
      ensures !(ok && ready) ==> rhpam.AsStored() == old(rhpam.AsStored())
    {
      var answer;
      answer, ready := client.GetDatabase();
      ok := answer == Found;
      if ok && ready {
        rhpam.phase := DatabaseReady;
      }
    }

    method InstallKieServer(rhpam: RhpamDev) returns (ok: bool)
      requires Installing(rhpam, DatabaseReady)
      modifies client`state, client`run, client`trouble, rhpam`phase
      ensures client.Valid() && old(client.trouble) <= client.trouble
      ensures Ended(ok, rhpam) && SameWork(old(client.state.dev), client.state.dev)
      ensures AddedAmong(old(client.state), client.state, Work(DatabaseReady))
      ensures ok ==> Work(DatabaseReady) <= client.state.objects.Keys
      ensures client.Quiet() ==> ok && Settled(old(client.state), client.state)
      ensures ok ==> rhpam.AsStored() == old(rhpam.AsStored()).(phase := NextPhase(old(rhpam.phase)))
    {
      var resources := [KsService, KsRoute, KsDeployment];
      assert resources[0] == KsService && resources[1] == KsRoute && resources[2] == KsDeployment;
      assert ToSet(resources) == Work(DatabaseReady);
      ok := CreateResources(resources);
      if !ok {
        return;
      }
      rhpam.phase := Complete;
    }

    // --------------------------------------------------------- deprovisioning

    /** Marks every listed user of the realm "deprovisioned". */
    method ReleaseUsers(items: seq<ListedUser>, realm: string)
      requires client.Valid() && client.Tearing() && realm == client.state.dev.seen.realm
      requires forall i | i in items :: FromLog(client.state, i)
      modifies client`state, client`run, client`trouble
      ensures client.Valid() && old(client.trouble) <= client.trouble && client.state.dev == old(client.state.dev)
      ensures client.Quiet() ==> client.state == old(client.state).(users := client.state.users)
      ensures client.Calm() ==> forall uid ::
        !Live(old(client.state), uid) || ListedLatest(old(client.state), items, uid) ==> Freed(client.state, uid, realm)
    {
      ghost var s := client.state;
      for i := 0 to |items|
        invariant client.Valid() && old(client.trouble) <= client.trouble && client.state.dev == s.dev
        invariant Extends(s.users, client.state.users)
        invariant client.Quiet() ==> client.state == s.(users := client.state.users)
        invariant client.Calm() ==> FreeSoFar(s, items, i, client.state, realm)
      {
        assert items[i] in items;
        ReleaseNext(s, items, i, realm);
      }
      if client.Calm() {
        AllFreed(s, items, client.state, realm);
      }
    }

    method ReleaseNext(ghost s: State, items: seq<ListedUser>, i: nat, realm: string)
      requires client.Valid() && client.Tearing() && realm == client.state.dev.seen.realm
      requires i < |items| && FromLog(s, items[i]) && Extends(s.users, client.state.users)
      requires client.Quiet() ==> client.state == s.(users := client.state.users)
      requires client.Calm() ==> FreeSoFar(s, items, i, client.state, realm)
      modifies client`state, client`run, client`trouble
      ensures client.Valid() && old(client.trouble) <= client.trouble && client.state.dev == old(client.state.dev)
      ensures Extends(s.users, client.state.users)
      ensures client.Quiet() ==> client.state == s.(users := client.state.users)
      ensures client.Calm() ==> FreeSoFar(s, items, i + 1, client.state, realm)
    {
      ghost var t := client.state;
      if items[i].user.realm == realm {
        client.UpdateUser(items[i]);
      }
      if client.Calm() {
        OneMoreFreed(s, items, i, t, client.state, realm);
      }
    }

    /** Deletes the assets one after the other, whatever becomes of each. */
    method DeleteAssets()
      requires client.Valid() && client.Tearing()
      modifies client`state, client`run, client`trouble
      ensures client.Valid() && old(client.trouble) <= client.trouble && client.state.dev == old(client.state.dev)
      ensures client.Quiet() ==> Settled(old(client.state), client.state)
      ensures client.Calm() ==> client.state.objects == old(client.state).objects - ToSet(ASSETS)
    {
      assert old(client.state).objects - ToSet(ASSETS[..0]) == old(client.state).objects;
      for i := 0 to |ASSETS|
        invariant client.Valid() && old(client.trouble) <= client.trouble && client.state.dev == old(client.state.dev)
        invariant client.Quiet() ==> Settled(old(client.state), client.state)
        invariant client.Calm() ==> client.state.objects == old(client.state).objects - ToSet(ASSETS[..i])
      {
        ToSetTake(ASSETS, i);
        ghost var t := client.state.objects;
        client.Delete(ASSETS[i]);
        assert old(client.state).objects - ToSet(ASSETS[..i]) - {ASSETS[i]} ==
          old(client.state).objects - (ToSet(ASSETS[..i]) + {ASSETS[i]});
      }
      ToSetAll(ASSETS);
    }

    /** Ends the realm, then its users' bindings, then the assets. A realm that
        is not there makes it fail, so a second attempt after a partial one does. */
    method Deprovision(rhpam: RhpamDev) returns (ok: bool)
      requires Begun(rhpam) && rhpam.deleting
      modifies client`state, client`run, client`trouble, client`session, rhpam`phase
      ensures client.Valid() && old(client.trouble) <= client.trouble
      ensures SameWork(old(client.state.dev), client.state.dev)
      ensures ok ==> client.Tearing() && client.state.dev.base == rhpam.version && rhpam.phase == Deprovisioned
      ensures client.Quiet() ==> ok == (rhpam.realm in old(client.state).realms)
      ensures client.Quiet() ==> client.state.devs == old(client.state).devs
      ensures client.Quiet() ==> client.state.realms == old(client.state).realms - {rhpam.realm}
      ensures client.Quiet() && !ok ==> client.state == old(client.state).(dev := client.state.dev)
      ensures client.Calm() && ok ==> forall uid :: Freed(client.state, uid, rhpam.realm)
      ensures client.Calm() && ok ==> client.state.objects == old(client.state).objects - ToSet(ASSETS)
    {
      ok := client.AuthenticatedClient();
      if ok {
        ok := client.DeleteRealm(rhpam.realm);
        assert rhpam.realm !in old(client.state).realms ==>
          old(client.state).realms - {rhpam.realm} == old(client.state).realms;
      }
      if ok {
        ok := ReleaseAndDelete(rhpam.realm);
      }
      if ok {
        rhpam.phase := Deprovisioned;
      }
    }

    method ReleaseAndDelete(realm: string) returns (ok: bool)
      requires client.Valid() && client.Tearing() && realm == client.state.dev.seen.realm
      modifies client`state, client`run, client`trouble
      ensures client.Valid() && old(client.trouble) <= client.trouble && client.state.dev == old(client.state.dev)
      ensures client.Quiet() ==> ok
      ensures client.Quiet() ==> client.state.devs == old(client.state).devs
      ensures client.Quiet() ==> client.state.realms == old(client.state).realms
      ensures client.Calm() ==> forall uid :: Freed(client.state, uid, realm)
      ensures client.Calm() ==> client.state.objects == old(client.state).objects - ToSet(ASSETS)
    {
      var users;
      ok, users := client.ListUsers();
      if ok {
        ReleaseUsers(users, realm);
        ghost var s := client.state;
        DeleteAssets();
        if client.Calm() {
          SameUsersFreed(s, client.state, realm);
        }
      }
    }
  }

  /** The objects a deprovisioning deletes itself, in its order; the service of
      the KieServer is not among them. */
  const ASSETS: seq<Key> :=
    [ BcService, KsRoute, KsDeployment, BcService, BcRoute, BcDeployment, BcPvc,
      DbService, DbDeployment, DbPvc, DbInit, DbCredentials, KsRealmSecret, BcRealmSecret, ServiceAccount ]

  lemma OnlyKsServiceStays(k: Key)
    ensures k in ToSet(ASSETS) <==> k != KsService
  {
    assert ASSETS[0] == BcService && ASSETS[1] == KsRoute && ASSETS[2] == KsDeployment && ASSETS[4] == BcRoute;
    assert ASSETS[5] == BcDeployment && ASSETS[6] == BcPvc && ASSETS[7] == DbService && ASSETS[8] == DbDeployment;
    assert ASSETS[9] == DbPvc && ASSETS[10] == DbInit && ASSETS[11] == DbCredentials && ASSETS[12] == KsRealmSecret;
    assert ASSETS[13] == BcRealmSecret && ASSETS[14] == ServiceAccount;
  }

  // ------------------------------------------------------------- controller

  /** What one undisturbed reconcile makes of a RhpamDev: `free` says whether the
      realm name drawn is not in use, `realmThere` whether its own realm exists. */
  function DevTurn(d: Dev, realmId: string, free: bool, realmThere: bool, ready: bool): Dev {
    if d.deleting then
      if realmThere then d.(finalizers := {}, phase := Deprovisioned) else d
    else
      match d.phase
      case NoPhase => d.(finalizers := d.finalizers + {FINALIZER}, phase := Accepted)
      case Accepted =>
        if free then d.(phase := RealmProvisioned, realm := realmId) else d.(phase := RealmProvisioning)
      case Prepare => d.(phase := Prepared)
      case Prepared => d.(phase := DatabaseInstalled)
      case DatabaseInstalled => d.(phase := BusinessCentralInstalled)
      case BusinessCentralInstalled => if ready then d.(phase := DatabaseReady) else d
      case DatabaseReady => d.(phase := Complete)
      case _ => d
  }

  function DevTurnIn(s: State, d: Dev, realmId: string): Dev {
    DevTurn(d, realmId, realmId !in s.realms, d.realm in s.realms, s.ready && DbDeployment in s.objects)
  }

  /** The phases whose step installs something, and does so if nothing fails. */
  predicate Installs(s: State, p: Phase) {
    || p == Prepare || p == Prepared || p == DatabaseInstalled || p == DatabaseReady
    || (p == BusinessCentralInstalled && s.ready && DbDeployment in s.objects)
  }

  function DecisionFor(s: State, p: Phase): Decision {
    if p == BusinessCentralInstalled then
      if DbDeployment !in s.objects then Fail else if s.ready then Store(true) else Skip(true)
    else if InstallPhase(p) then Store(true)
    else Skip(false)
  }

  lemma InstallingIsTurn(s: State, d: Dev, realmId: string)
    requires !d.deleting && d.phase != NoPhase && d.phase != Accepted
    ensures DevTurnIn(s, d, realmId) == if Installs(s, d.phase) then d.(phase := NextPhase(d.phase)) else d
    ensures Installs(s, d.phase) ==> NextPhase(d.phase) != d.phase && NextPhase(d.phase) != RealmProvisioning
    ensures Installs(s, d.phase) ==> DevTurn(d, realmId, true, true, true) == d.(phase := NextPhase(d.phase))
  {
  }

  /** In a calm reconcile of the latest version: `done` if the phase has been
      completed, and then the copy can be stored; else, at most the mark has been. */
  predicate Moved(s: State, dev: Dev, realmId: string, t: State, uid: nat, done: bool, lands: bool) {
    var after := DevTurnIn(s, dev, realmId);
    && t.users == s.users
    && done == (after != dev && after.phase != RealmProvisioning)
    && if done then lands else if after == dev then t.devs == s.devs else AtLatest(t, uid, after)
  }

  lemma InstallingMoves(s: State, dev: Dev, realmId: string, t: State, uid: nat, done: bool, lands: bool)
    requires !dev.deleting && dev.phase != NoPhase && dev.phase != Accepted && Steady(s, t)
    requires done == Installs(s, dev.phase) && lands
    ensures Moved(s, dev, realmId, t, uid, done, lands)
  {
    InstallingIsTurn(s, dev, realmId);
  }

  lemma InstallDecides(s: State, dev: Dev, realmId: string, dbUser: string, dbPassword: string, t: State,
                       decision: Decision)
    requires !dev.deleting && dev.phase != NoPhase && dev.phase != Accepted
    requires Settled(s, t) && decision == DecisionFor(s, dev.phase) && AddedAmong(s, t, Work(dev.phase))
    requires decision.Store? ==> Work(dev.phase) <= t.objects.Keys
    requires decision.Store? && dev.phase == Prepared && DbCredentials !in s.objects ==>
      t.objects[DbCredentials] == Credentials(dbUser, dbPassword)
    ensures DecidesOn(decision, DevReply(s, dev, realmId), Installs(s, dev.phase))
    ensures Outfitted(s, dev, realmId, dbUser, dbPassword, t)
  {
  }

  lemma ProvisioningMoves(s: State, dev: Dev, realmId: string, t: State, uid: nat, done: bool, lands: bool)
    requires !dev.deleting && dev.phase == Accepted && t.users == s.users
    requires done == (realmId !in s.realms)
    requires if done then lands else AtLatest(t, uid, dev.(phase := RealmProvisioning))
    ensures Moved(s, dev, realmId, t, uid, done, lands)
  {
  }

  /** What a reconcile that nobody gets in the way of answers. */
  function DevReply(s: State, dev: Dev, realmId: string): Reply {
    if dev.deleting then if dev.realm in s.realms then Nil(true) else Err
    else
      match dev.phase
      case Accepted => if realmId in s.realms then Err else Nil(true)
      case BusinessCentralInstalled => if DbDeployment in s.objects then Nil(true) else Err
      case p => Nil(p == NoPhase || InstallPhase(p))
  }

  /** The phases whose result a reconcile stores. */
  predicate Stores(s: State, dev: Dev) {
    dev.deleting || dev.phase == NoPhase || dev.phase == Accepted || Installs(s, dev.phase)
  }

  /** The objects and realms after a calm reconcile: what the phase installs has been
      added, a new RhpamDev's realm made, or realm and assets deleted. */
  ghost predicate Outfitted(s: State, dev: Dev, realmId: string, dbUser: string, dbPassword: string, t: State) {
    if dev.deleting then
      && t.realms == s.realms - {dev.realm}
      && t.objects == if dev.realm in s.realms then s.objects - ToSet(ASSETS) else s.objects
    else
      && AddedAmong(s, t, Work(dev.phase))
      && (dev.phase == Accepted ==> RealmMade(s, t, realmId))
      && (dev.phase != Accepted ==> t.realms == s.realms)
      && (DevReply(s, dev, realmId).Nil? ==> Work(dev.phase) <= t.objects.Keys)
      && (dev.phase == Prepared && DbCredentials !in s.objects ==>
            DbCredentials in t.objects && t.objects[DbCredentials] == Credentials(dbUser, dbPassword))
  }

  predicate CanLand(s: State, uid: nat, version: nat) {
    IsLatest(s.devs, uid, version) && !DevGone(LatestDev(s, uid))
  }

  /** The stored RhpamDev has done its turn. */
  predicate Turned(s: State, t: State, uid: nat, realmId: string)
    requires uid in s.devs && s.devs[uid] != []
  {
    && AtLatest(t, uid, DevTurnIn(s, LatestDev(s, uid), realmId))
    && (!LatestDev(s, uid).deleting ==> t.users == s.users)
  }

  ghost predicate TornDownCleanly(s: State, t: State, uid: nat)
    requires uid in s.devs && s.devs[uid] != []
  {
    LatestDev(s, uid).deleting && LatestDev(s, uid).realm in s.realms ==>
      forall u :: Freed(t, u, LatestDev(s, uid).realm)
  }

  /** The reconcile of this RhpamDev begins with an update whose error is not looked at. */
  predicate Marks(dev: Dev) {
    !dev.deleting && dev.phase == Accepted
  }

  /** All that a calm reconcile leaves. */
  ghost predicate ServedIn(s: State, dev: Dev, uid: nat, realmId: string, dbUser: string, dbPassword: string, t: State) {
    && AtLatest(s, uid, dev)
    && Turned(s, t, uid, realmId) && TornDownCleanly(s, t, uid)
    && Outfitted(s, dev, realmId, dbUser, dbPassword, t)
  }

  /** From what the phase has come to, to what is stored of it. */
  lemma StoredTurn(s: State, dev: Dev, realmId: string, dbUser: string, dbPassword: string, t: State, uid: nat,
                   decision: Decision, able: bool, u: State)
    requires !dev.deleting && AtLatest(s, uid, dev)
    requires Outfitted(s, dev, realmId, dbUser, dbPassword, t)
    requires Moved(s, dev, realmId, t, uid, decision.Store?, able)
    requires u == t.(dev := u.dev, devs := u.devs)
    requires if decision.Store? then AtLatest(u, uid, DevTurn(dev, realmId, true, true, true)) else u.devs == t.devs
    ensures ServedIn(s, dev, uid, realmId, dbUser, dbPassword, u)
  {
  }

  /** Only what the controller knows may differ at the start. */
  lemma SameTurn(s: State, t: State, u: State, uid: nat, realmId: string, dbUser: string, dbPassword: string)
    requires t == s.(dev := t.dev) && uid in s.devs && s.devs[uid] != []
    requires Turned(t, u, uid, realmId) && TornDownCleanly(t, u, uid)
    requires Outfitted(t, LatestDev(t, uid), realmId, dbUser, dbPassword, u)
    ensures Turned(s, u, uid, realmId) && TornDownCleanly(s, u, uid)
    ensures Outfitted(s, LatestDev(s, uid), realmId, dbUser, dbPassword, u)
  {
  }

  class ReconcileRhpamDev {
    const client: Cluster
    const phaseHandler: PhaseHandler

    constructor (client: Cluster)
      ensures this.client == client && phaseHandler.client == client
    {
      this.client := client;
      phaseHandler := new PhaseHandler(client);
    }

    /** Writes `rhpam` back if there is a result, or gives up. */
    method HandleResult(rhpam: RhpamDev, decision: Decision) returns (reply: Reply)
      requires phaseHandler.client == client && phaseHandler.Ended(decision.Store?, rhpam)
      modifies client`state, client`run, client`trouble
      ensures client.Valid() && old(client.trouble) <= client.trouble && client.state.dev == DevIdle
      ensures decision.Skip? ==> reply == Nil(decision.requeue)
      ensures decision.Fail? ==> reply == Err
      ensures !decision.Store? ==> client.state == old(client.state).(dev := DevIdle)
      ensures !decision.Store? ==> client.trouble == old(client.trouble)
      ensures decision.Store? && reply.Nil? ==> reply.requeue == decision.requeue && client.Stored(rhpam)
      ensures client.Quiet() ==> client.state == old(client.state).(dev := DevIdle, devs := client.state.devs)
      ensures client.Quiet() && decision.Store? && old(client.Lands(rhpam)) ==>
        reply.Nil? && client.state.devs == Append(old(client.state).devs, rhpam.uid, rhpam.AsStored())
    {
      match decision
      case Store(requeue) =>
        var ok := client.Update(rhpam);
        reply := if ok then Nil(requeue) else Err;
      case Skip(requeue) =>
        client.GiveUp();
        reply := Nil(requeue);
      case Fail =>
        client.GiveUp();
        reply := Err;
    }

    /** Does what the phase of the RhpamDev asks for. */
    method Dispatch(rhpam: RhpamDev, realmId: string, dbUser: string, dbPassword: string) returns (decision: Decision)
      requires phaseHandler.client == client && phaseHandler.Begun(rhpam) && !rhpam.deleting
      requires Drawable(client.state, realmId)
      modifies client`state, client`run, client`trouble, client`session, rhpam
      ensures client.Valid() && old(client.trouble) <= client.trouble && phaseHandler.Ended(decision.Store?, rhpam)
      ensures decision.Store? ==> rhpam.AsStored() == DevTurn(old(rhpam.AsStored()), realmId, true, true, true)
      ensures client.Quiet() ==> DecidesOn(decision,
        DevReply(old(client.state), old(rhpam.AsStored()), realmId), Stores(old(client.state), old(rhpam.AsStored())))
      ensures client.Quiet() ==>
        Outfitted(old(client.state), old(rhpam.AsStored()), realmId, dbUser, dbPassword, client.state)
      ensures client.Calm() && old(client.Lands(rhpam)) ==>
        Moved(old(client.state), old(rhpam.AsStored()), realmId,
              client.state, rhpam.uid, decision.Store?, client.Lands(rhpam))
      ensures client.Quiet() && old(rhpam.phase) != Accepted ==> client.state.devs == old(client.state).devs
      ensures old(rhpam.phase) != Accepted ==> rhpam.version == old(rhpam.version)
    {
      if rhpam.phase == NoPhase {
        phaseHandler.Initialize(rhpam);
        decision := Store(true);
      } else if rhpam.phase == Accepted {
        decision := DispatchProvisioning(rhpam, realmId, dbUser, dbPassword);
      } else {
        decision := DispatchInstall(rhpam, realmId, dbUser, dbPassword);
      }
    }

    method DispatchProvisioning(rhpam: RhpamDev, realmId: string, ghost dbUser: string, ghost dbPassword: string)
      returns (decision: Decision)
      requires phaseHandler.client == client && phaseHandler.Begun(rhpam) && !rhpam.deleting
      requires rhpam.phase == Accepted && Drawable(client.state, realmId)
      modifies client`state, client`run, client`trouble, client`session, rhpam
      ensures client.Valid() && old(client.trouble) <= client.trouble && phaseHandler.Ended(decision.Store?, rhpam)
      ensures decision.Store? ==> rhpam.AsStored() == DevTurn(old(rhpam.AsStored()), realmId, true, true, true)
      ensures client.Quiet() ==> decision == if realmId in old(client.state).realms then Fail else Store(true)
      ensures client.Quiet() ==>
        Outfitted(old(client.state), old(rhpam.AsStored()), realmId, dbUser, dbPassword, client.state)
      ensures client.Calm() && old(client.Lands(rhpam)) ==>
        Moved(old(client.state), old(rhpam.AsStored()), realmId,
              client.state, rhpam.uid, decision.Store?, client.Lands(rhpam))
    {
      ghost var s, dev, lands := client.state, rhpam.AsStored(), client.Lands(rhpam);
      var ok := phaseHandler.ProvisionRealm(rhpam, realmId);
      decision := if ok then Store(true) else Fail;
      if client.Calm() && lands {
        ProvisioningMoves(s, dev, realmId, client.state, rhpam.uid, ok, client.Lands(rhpam));
      }
    }

    method DispatchInstall(rhpam: RhpamDev, ghost realmId: string, dbUser: string, dbPassword: string)
      returns (decision: Decision)
      requires phaseHandler.client == client && phaseHandler.Begun(rhpam) && !rhpam.deleting
      requires rhpam.phase != NoPhase && rhpam.phase != Accepted
      modifies client`state, client`run, client`trouble, rhpam`phase
      ensures client.Valid() && old(client.trouble) <= client.trouble && phaseHandler.Ended(decision.Store?, rhpam)
      ensures decision.Store? ==> rhpam.AsStored() == DevTurn(old(rhpam.AsStored()), realmId, true, true, true)
      ensures client.Quiet() ==> client.state.devs == old(client.state).devs
      ensures client.Quiet() ==> DecidesOn(decision,
        DevReply(old(client.state), old(rhpam.AsStored()), realmId), Installs(old(client.state), old(rhpam.phase)))
      ensures client.Quiet() ==>
        Outfitted(old(client.state), old(rhpam.AsStored()), realmId, dbUser, dbPassword, client.state)
      ensures client.Calm() && old(client.Lands(rhpam)) ==>
        Moved(old(client.state), old(rhpam.AsStored()), realmId,
              client.state, rhpam.uid, decision.Store?, client.Lands(rhpam))
    {
      ghost var s, dev, lands := client.state, rhpam.AsStored(), client.Lands(rhpam);
      decision := Install(rhpam, dbUser, dbPassword);
      InstallingIsTurn(s, dev, realmId);
      if client.Quiet() {
        InstallDecides(s, dev, realmId, dbUser, dbPassword, client.state, decision);
      }
      if client.Calm() && lands {
        InstallingMoves(s, dev, realmId, client.state, rhpam.uid, decision.Store?, client.Lands(rhpam));
      }
    }

    method Install(rhpam: RhpamDev, dbUser: string, dbPassword: string) returns (decision: Decision)
      requires phaseHandler.client == client && phaseHandler.Begun(rhpam) && !rhpam.deleting
      requires rhpam.phase != NoPhase && rhpam.phase != Accepted
      modifies client`state, client`run, client`trouble, rhpam`phase
      ensures client.Valid() && old(client.trouble) <= client.trouble && phaseHandler.Ended(decision.Store?, rhpam)
      ensures decision.Store? ==> rhpam.AsStored() == old(rhpam.AsStored()).(phase := NextPhase(old(rhpam.phase)))
      ensures client.Quiet() ==> Settled(old(client.state), client.state)
      ensures client.Quiet() ==> decision == DecisionFor(old(client.state), old(rhpam.phase))
      ensures AddedAmong(old(client.state), client.state, Work(old(rhpam.phase)))
      ensures decision.Store? ==> Work(old(rhpam.phase)) <= client.state.objects.Keys
      ensures decision.Store? && old(rhpam.phase) == Prepared && DbCredentials !in old(client.state).objects ==>
        client.state.objects[DbCredentials] == Credentials(dbUser, dbPassword)
    {
      if rhpam.phase == BusinessCentralInstalled {
        var ok, ready := phaseHandler.WaitForDatabase(rhpam);
        decision := if !ok then Fail else if ready then Store(true) else Skip(true);
      } else if InstallPhase(rhpam.phase) {
        var ok := InstallObjects(rhpam, dbUser, dbPassword);
        decision := if ok then Store(true) else Fail;
      } else {
        decision := Skip(false);
      }
    }

    method InstallObjects(rhpam: RhpamDev, dbUser: string, dbPassword: string) returns (ok: bool)
      requires phaseHandler.client == client && phaseHandler.Begun(rhpam) && !rhpam.deleting
      requires InstallPhase(rhpam.phase) && rhpam.phase != BusinessCentralInstalled
      modifies client`state, client`run, client`trouble, rhpam`phase
      ensures client.Valid() && old(client.trouble) <= client.trouble && phaseHandler.Ended(ok, rhpam)
      ensures ok ==> rhpam.AsStored() == old(rhpam.AsStored()).(phase := NextPhase(old(rhpam.phase)))
      ensures client.Quiet() ==> ok && Settled(old(client.state), client.state)
      ensures AddedAmong(old(client.state), client.state, Work(old(rhpam.phase)))
      ensures ok ==> Work(old(rhpam.phase)) <= client.state.objects.Keys
      ensures ok && old(rhpam.phase) == Prepared && DbCredentials !in old(client.state).objects ==>
        client.state.objects[DbCredentials] == Credentials(dbUser, dbPassword)
    {
      match rhpam.phase
      case Prepare =>
        ok := phaseHandler.Prepare(rhpam);
      case Prepared =>
        ok := phaseHandler.InstallDatabase(rhpam, dbUser, dbPassword);
      case DatabaseInstalled =>
        ok := phaseHandler.InstallBusinessCentral(rhpam);
      case DatabaseReady =>
        ok := phaseHandler.InstallKieServer(rhpam);
    }

    /** Deprovisions, and if that works clears the finalizers. */
    method TearDown(rhpam: RhpamDev) returns (done: bool)
      requires phaseHandler.client == client && phaseHandler.Begun(rhpam) && rhpam.deleting
      modifies client`state, client`run, client`trouble, client`session, rhpam`phase, rhpam`finalizers
      ensures client.Valid() && old(client.trouble) <= client.trouble && phaseHandler.Ended(done, rhpam)
      ensures done ==> rhpam.AsStored() == DevTurn(old(rhpam.AsStored()), "", true, true, true)
      ensures client.Quiet() ==> client.state.devs == old(client.state).devs
      ensures client.Quiet() ==> done == (rhpam.realm in old(client.state).realms)
      ensures client.Quiet() ==> client.state.realms == old(client.state).realms - {rhpam.realm}
      ensures client.Quiet() && !done ==> client.state == old(client.state).(dev := client.state.dev)
      ensures client.Calm() && done ==> forall uid :: Freed(client.state, uid, rhpam.realm)
      ensures client.Calm() && done ==> client.state.objects == old(client.state).objects - ToSet(ASSETS)
    {
      done := phaseHandler.Deprovision(rhpam);
      if done {
        rhpam.finalizers := [];
      }
    }

    /** One reconcile of the RhpamDev `uid`, read at `version`. It leaves the
        controller idle, and all it did is a run of the protocol. If nothing gets
        in its way it does the turn of its phase; if that is a deprovisioning,
        no user stays bound to the realm. */
    method Reconcile(uid: nat, version: nat, realmId: string, dbUser: string, dbPassword: string)
      returns (reply: Reply)
      requires phaseHandler.client == client && client.Valid() && client.state.dev == DevIdle
      requires uid in client.state.devs && version < |client.state.devs[uid]|
      requires Drawable(client.state, realmId)
      modifies client`state, client`run, client`trouble, client`session, client`start
      ensures client.Valid() && client.state.dev == DevIdle && client.start == old(client.run)
      ensures client.Calm() && CanLand(old(client.state), uid, version) ==>
        Turned(old(client.state), client.state, uid, realmId)
      ensures client.Calm() && CanLand(old(client.state), uid, version) ==>
        TornDownCleanly(old(client.state), client.state, uid)
      ensures client.Calm() && CanLand(old(client.state), uid, version) ==>
        Outfitted(old(client.state), LatestDev(old(client.state), uid), realmId, dbUser, dbPassword, client.state)
      ensures client.Calm() && CanLand(old(client.state), uid, version) ==>
        reply == DevReply(old(client.state), LatestDev(old(client.state), uid), realmId)
      ensures client.Quiet() && CanLand(old(client.state), uid, version) &&
              !Marks(LatestDev(old(client.state), uid)) ==>
        reply == DevReply(old(client.state), LatestDev(old(client.state), uid), realmId)
    {
      client.Begin();
      ghost var s := client.state;
      var rhpam := client.Get(uid, version);
      reply := ServeRead(rhpam, realmId, dbUser, dbPassword, s);
    }

    /** The rest of a reconcile begun in `s`. */
    method ServeRead(rhpam: RhpamDev, realmId: string, dbUser: string, dbPassword: string, ghost s: State)
      returns (reply: Reply)
      requires phaseHandler.client == client && phaseHandler.Begun(rhpam) && Drawable(client.state, realmId)
      requires client.Quiet() ==> client.state == s.(dev := client.state.dev)
      modifies client`state, client`run, client`trouble, client`session, rhpam
      ensures client.Valid() && old(client.trouble) <= client.trouble && client.state.dev == DevIdle
      ensures client.Calm() && CanLand(s, rhpam.uid, old(rhpam.version)) ==>
        Turned(s, client.state, rhpam.uid, realmId) && TornDownCleanly(s, client.state, rhpam.uid) &&
        Outfitted(s, LatestDev(s, rhpam.uid), realmId, dbUser, dbPassword, client.state)
      ensures client.Quiet() && CanLand(s, rhpam.uid, old(rhpam.version)) &&
              (client.Calm() || !Marks(LatestDev(s, rhpam.uid))) ==>
        reply == DevReply(s, LatestDev(s, rhpam.uid), realmId)
    {
      ghost var t, uid, version := client.state, rhpam.uid, rhpam.version;
      reply := ServeEither(rhpam, realmId, dbUser, dbPassword);
      if client.Calm() && CanLand(s, uid, version) {
        SameTurn(s, t, client.state, uid, realmId, dbUser, dbPassword);
      }
    }

    method ServeEither(rhpam: RhpamDev, realmId: string, dbUser: string, dbPassword: string) returns (reply: Reply)
      requires phaseHandler.client == client && phaseHandler.Begun(rhpam) && Drawable(client.state, realmId)
      modifies client`state, client`run, client`trouble, client`session, rhpam
      ensures client.Valid() && old(client.trouble) <= client.trouble && client.state.dev == DevIdle
      ensures client.Calm() && old(client.Lands(rhpam)) ==>
        ServedIn(old(client.state), old(rhpam.AsStored()), rhpam.uid, realmId, dbUser, dbPassword, client.state)
      ensures old(client.Lands(rhpam)) && (client.Calm() || (client.Quiet() && !Marks(old(rhpam.AsStored())))) ==>
        reply == DevReply(old(client.state), old(rhpam.AsStored()), realmId)
      ensures old(client.Lands(rhpam)) ==> AtLatest(old(client.state), rhpam.uid, old(rhpam.AsStored()))
    {
      if client.Lands(rhpam) {
        ReadIsLatest(rhpam);
      }
      if rhpam.deleting {
        reply := ServeDeletion(rhpam, realmId, dbUser, dbPassword);
      } else {
        reply := Serve(rhpam, realmId, dbUser, dbPassword);
      }
    }

    lemma ReadIsLatest(rhpam: RhpamDev)
      requires phaseHandler.client == client && phaseHandler.Begun(rhpam) && client.Lands(rhpam)
      ensures AtLatest(client.state, rhpam.uid, rhpam.AsStored())
    {
      RunIsStocked(client.run, |client.run| - 1);
    }

    method Serve(rhpam: RhpamDev, realmId: string, dbUser: string, dbPassword: string) returns (reply: Reply)
      requires phaseHandler.client == client && phaseHandler.Begun(rhpam) && !rhpam.deleting
      requires Drawable(client.state, realmId)
      requires client.Lands(rhpam) ==> AtLatest(client.state, rhpam.uid, rhpam.AsStored())
      modifies client`state, client`run, client`trouble, client`session, rhpam
      ensures client.Valid() && old(client.trouble) <= client.trouble && client.state.dev == DevIdle
      ensures client.Calm() && old(client.Lands(rhpam)) ==>
        ServedIn(old(client.state), old(rhpam.AsStored()), rhpam.uid, realmId, dbUser, dbPassword, client.state)
      ensures old(client.Lands(rhpam)) && (client.Calm() || (client.Quiet() && !Marks(old(rhpam.AsStored())))) ==>
        reply == DevReply(old(client.state), old(rhpam.AsStored()), realmId)
    {
      ghost var s, dev, lands := client.state, rhpam.AsStored(), client.Lands(rhpam);
      var decision := Dispatch(rhpam, realmId, dbUser, dbPassword);
      ghost var t, able := client.state, client.Lands(rhpam);
      reply := HandleResult(rhpam, decision);
      if client.Calm() && lands {
        StoredTurn(s, dev, realmId, dbUser, dbPassword, t, rhpam.uid, decision, able, client.state);
      }
    }

    method ServeDeletion(rhpam: RhpamDev, ghost realmId: string, ghost dbUser: string, ghost dbPassword: string)
      returns (reply: Reply)
      requires phaseHandler.client == client && phaseHandler.Begun(rhpam) && rhpam.deleting
      requires client.Lands(rhpam) ==> AtLatest(client.state, rhpam.uid, rhpam.AsStored())
      modifies client`state, client`run, client`trouble, client`session, rhpam`phase, rhpam`finalizers
      ensures client.Valid() && old(client.trouble) <= client.trouble && client.state.dev == DevIdle
      ensures client.Calm() && old(client.Lands(rhpam)) ==>
        ServedIn(old(client.state), old(rhpam.AsStored()), rhpam.uid, realmId, dbUser, dbPassword, client.state)
      ensures client.Quiet() && old(client.Lands(rhpam)) ==>
        reply == DevReply(old(client.state), old(rhpam.AsStored()), realmId)
    {
      var done := TearDown(rhpam);
      ghost var t := client.state;
      reply := HandleResult(rhpam, if done then Store(true) else Fail);
      if client.Calm() && done {
        SameUsersFreed(t, client.state, rhpam.realm);
      }
    }
  }
}
