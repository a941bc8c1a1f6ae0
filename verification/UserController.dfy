/** The RhpamUser controller against the cluster: binding a user to a realm,
    releasing the RhpamDev that waits for it, and reconciling or tearing down the
    user's own realm with the writes that the phase handler makes there. */
module UserController {
  import opened ApiServer
  import opened Convergence
  import opened Finalizers
  import opened Handshake
  import opened KeycloakServer
  import opened Ownership
  import opened RealmWork
  import opened Prelude
  import opened Protocol
  import opened ProtocolSafety
  import opened Realms
  import opened UserPhaseHandler

  /** The controller's own copy of a RhpamUser, with the version it was read at. */
  class RhpamUser {
    const uid: nat
    const version: nat
    var finalizers: seq<string>
    var deleting: bool
    var phase: Phase
    var realm: string

    constructor (uid: nat, version: nat, finalizers: seq<string>, user: User)
      requires ToSet(finalizers) == user.finalizers
      ensures this.uid == uid && this.version == version && AsStored() == user
      ensures this.finalizers == finalizers
    {
      this.uid := uid;
      this.version := version;
      this.finalizers := finalizers;
      deleting := user.deleting;
      phase := user.phase;
      realm := user.realm;
    }

    function AsStored(): User
      reads this
    {
      User(ToSet(finalizers), deleting, phase, realm)
    }
  }

  /** What the other actors leave alone while a RhpamUser reconcile goes on. */
  ghost predicate OthersActed(s: State, t: State) {
    t.user == s.user && Extends(s.devs, t.devs) && Extends(s.users, t.users)
  }

  lemma EnvActs(s: State, e: EnvStep)
    requires EnvEnabled(s, e)
    ensures OthersActed(s, DoEnv(s, e))
  {
  }

  lemma DevActs(s: State, d: DevStep)
    requires DevEnabled(s, d)
    ensures OthersActed(s, DoDev(s, d))
  {
    if d.DevMark? || d.DevUpdate? || d.DevReleaseUser? {
      DevWrites(s, d);
    } else {
      DevStores(s, d);
    }
  }

  lemma DevWrites(s: State, d: DevStep)
    requires DevEnabled(s, d) && (d.DevMark? || d.DevUpdate? || d.DevReleaseUser?)
    ensures OthersActed(s, DoDev(s, d))
  {
  }

  lemma DevStores(s: State, d: DevStep)
    requires DevEnabled(s, d) && !d.DevMark? && !d.DevUpdate? && !d.DevReleaseUser?
    ensures DoDev(s, d).devs == s.devs && DoDev(s, d).users == s.users && DoDev(s, d).user == s.user
  {
  }

  lemma OthersActedOn(a: State, b: State, c: State)
    requires OthersActed(a, b) && OthersActed(b, c)
    ensures OthersActed(a, c)
  {
  }

  lemma ExtendsOn(a: map<nat, seq<Dev>>, b: map<nat, seq<Dev>>, c: map<nat, seq<Dev>>)
    requires Extends(a, b) && Extends(b, c)
    ensures Extends(a, c)
  {
  }

  /** All but the RhpamUser controller's own reconcile and the realms is as it was. */
  ghost predicate Still(s: State, t: State) {
    t == s.(user := t.user, realms := t.realms) && t.realms.Keys == s.realms.Keys
  }

  /** The same reconcile, perhaps with more seen to in the realm being filled. */
  ghost predicate SameFilling(v: UserWorker, w: UserWorker) {
    v.UserBusy? && w.UserBusy? && w == v.(acks := w.acks) && v.acks <= w.acks
  }

  /** The same reconcile, perhaps with work done in the user's realm. */
  ghost predicate SameWorker(v: UserWorker, w: UserWorker) {
    v.UserBusy? && w.UserBusy? && w == v.(acks := w.acks, worked := w.worked)
  }

  /** A reconcile that works on its user's own realm. */
  predicate AtWorkOn(w: UserWorker, realm: string) {
    w.UserBusy? && OwnsRealm(w) && !Filling(w) && realm == w.seen.realm
  }

  /** A reconcile that works on its user's realm or on one to be filled. */
  predicate WritesTo(w: UserWorker, realm: string) {
    w.UserBusy? && (Filling(w) || OwnsRealm(w)) && CurrentRealm(w) == realm
  }

  lemma ReachedOn(s: State, t: State, u: State, realm: string)
    requires SameFilling(s.user, t.user) && SameWorker(t.user, u.user) && u == t.(user := u.user)
    requires Meanwhile(s, t, realm)
    ensures SameWorker(s.user, u.user) && Meanwhile(s, u, realm)
    ensures OnlyIn(s, t, realm) ==> OnlyIn(s, u, realm)
  {
  }

  lemma FillingGoesOn(s: State, t: State, u: State, realm: string)
    requires WritesTo(s.user, realm) && SameFilling(s.user, t.user) && SameFilling(t.user, u.user)
    ensures WritesTo(u.user, realm) && SameFilling(s.user, u.user)
    ensures OnlyIn(s, t, realm) && OnlyIn(t, u, realm) ==> OnlyIn(s, u, realm)
  {
  }

  /** The user's own realm apart, all is still. */
  ghost predicate OnlyIn(s: State, t: State, realm: string) {
    Still(s, t) && OnlyRealm(s.realms, t.realms, realm)
  }

  /** The realm has come to what success of a run certifies. */
  ghost predicate Certified(s: State, t: State, realm: string, spec: UserSpec, leftover: set<string>) {
    && realm in s.realms && realm in t.realms
    && Certifies(spec, s.realms[realm], t.realms[realm], leftover)
  }

  /** What a reconcile nobody gets in the way of does to the user's own realm, with
      the Keycloak requests that failed meanwhile. */
  ghost predicate Reconciled(s: State, t: State, realm: string, spec: UserSpec, a: seq<Request>, b: seq<Request>,
                             ok: bool)
  {
    && OnlyIn(s, t, realm)
    && ok == (realm in s.realms && Satisfiable(spec, s.realms[realm]) && OnlyDropped(spec, a, b))
    && (ok && b == a ==> t.realms[realm] == Outcome(spec, s.realms[realm]))
  }

  /** The realm has got exactly the defaults. */
  ghost predicate FilledIn(s: State, t: State, realm: string) {
    realm in s.realms && realm in t.realms && t.realms[realm] == Provisioned(s.realms[realm])
  }

  /** What a deprovisioning has come to; the roles stay if they could not be listed. */
  ghost predicate TornDownTo(s: State, t: State, realm: string, a: seq<Request>, b: seq<Request>) {
    && realm in s.realms && realm in t.realms
    && t.realms[realm] == if b == a then Stripped(s.realms[realm]) else StrippedUsers(s.realms[realm])
  }

  /** What a deprovisioning nobody gets in the way of does. */
  ghost predicate TornDownIn(s: State, t: State, realm: string, a: seq<Request>, b: seq<Request>, ok: bool) {
    OnlyIn(s, t, realm) && ok == (realm in s.realms && FailedAmong(a, b, {Request.ListRoles}))
  }

  /** Every realm but one is as it was, or gone. */
  ghost predicate RealmsBut(s: State, t: State, realm: string) {
    forall r | r in t.realms && r in s.past.created && r != realm :: r in s.realms && t.realms[r] == s.realms[r]
  }

  /** Not more than the defaults has been added to the realm. */
  ghost predicate FilledAtMost(s: State, t: State, realm: string) {
    && RealmsBut(s, t, realm)
    && (realm in t.realms ==>
          realm in s.realms && Between(s.realms[realm], t.realms[realm], Provisioned(s.realms[realm])))
  }

  /** Nobody but the RhpamUser controller writes to a realm: the others leave each
      as it is, or delete it for good. */
  ghost predicate RealmsLeft(s: State, t: State) {
    && (forall r | r in s.past.created :: r in t.past.created)
    && forall r | r in t.realms && r in s.past.created :: r in s.realms && t.realms[r] == s.realms[r]
  }

  lemma EnvLeavesRealms(s: State, e: EnvStep)
    requires EnvEnabled(s, e)
    ensures RealmsLeft(s, DoEnv(s, e))
  {
  }

  lemma DevLeavesRealms(s: State, d: DevStep)
    requires DevEnabled(s, d)
    ensures RealmsLeft(s, DoDev(s, d))
  {
    if !d.DevRead? && !d.DevCreateRealm? && !d.DevDeleteRealm? {
      DevKeepsRealms(s, d);
      OthersMakeNothing(s, d);
    }
  }

  /** Realm names stay taken, and every realm but one is as it was, or gone. */
  ghost predicate Meanwhile(s: State, t: State, realm: string) {
    && (forall r | r in s.past.created :: r in t.past.created)
    && RealmsBut(s, t, realm)
  }

  lemma MeanwhileOn(a: State, b: State, c: State, realm: string)
    requires Meanwhile(a, b, realm) && Meanwhile(b, c, realm)
    ensures Meanwhile(a, c, realm)
  {
  }

  lemma RealmsLeftOn(a: State, b: State, c: State)
    requires RealmsLeft(a, b) && RealmsLeft(b, c)
    ensures RealmsLeft(a, c)
  {
  }

  predicate LiveDev(devs: map<nat, seq<Dev>>, uid: nat) {
    uid in devs && devs[uid] != [] && !DevGone(devs[uid][|devs[uid]| - 1])
  }

  ghost predicate AllLatest(devs: map<nat, seq<Dev>>, items: seq<Item>) {
    forall i | i in items :: IsLatest(devs, i.uid, i.version) && devs[i.uid][i.version] == i.dev && !DevGone(i.dev)
  }

  ghost predicate OneEach(items: seq<Item>) {
    forall j, k | 0 <= j < k < |items| :: items[j].uid != items[k].uid
  }

  /** A list of all RhpamDevs there are, each once and in its latest version. */
  ghost predicate UpToDate(devs: map<nat, seq<Dev>>, items: seq<Item>) {
    && AllLatest(devs, items) && OneEach(items)
    && forall uid | LiveDev(devs, uid) :: exists i :: i in items && i.uid == uid
  }

  /** The RhpamUser has been stored as `user`. */
  ghost predicate Stored(s: State, t: State, uid: nat, user: User) {
    uid in s.users && t == s.(user := t.user, users := Append(s.users, uid, user))
  }

  /** The version after `version` is the latest, and is `user`. */
  predicate StoredNext(s: State, uid: nat, version: nat, user: User) {
    IsLatest(s.users, uid, version + 1) && s.users[uid][version + 1] == user
  }

  /** The RhpamDev has been stored at "prepare provisioning". */
  ghost predicate ReleasedIn(s: State, t: State, i: Item) {
    && i.uid in s.devs
    && t == s.(user := t.user, devs := Append(s.devs, i.uid, i.dev.(phase := Prepare)))
  }

  function PassedBy(w: UserWorker): UserWorker
    requires w.UserBusy? && w.items != []
  {
    w.(items := w.items[1..], acks := {})
  }

  /** The cluster as the RhpamUser controller calls it. */
  class UserClient {
    const cluster: Cluster
    /** The admin interface, which keeps count of the requests that failed. */
    const sso: Keycloak

    constructor (cluster: Cluster)
      ensures this.cluster == cluster && fresh(sso)
    {
      this.cluster := cluster;
      sso := new Keycloak(Realm({}, map[], {}));
    }

    method Others()
      requires cluster.Valid()
      modifies cluster`state, cluster`run, cluster`trouble
      ensures cluster.Valid() && old(cluster.trouble) <= cluster.trouble
      ensures OthersActed(old(cluster.state), cluster.state) && RealmsLeft(old(cluster.state), cluster.state)
      ensures cluster.Quiet() ==> cluster.state == old(cluster.state)
    {
      var n := AnyNumber();
      for i := 0 to n
        invariant cluster.Valid() && old(cluster.trouble) <= cluster.trouble
        invariant OthersActed(old(cluster.state), cluster.state) && RealmsLeft(old(cluster.state), cluster.state)
        invariant cluster.Quiet() ==> cluster.state == old(cluster.state)
      {
        ghost var s := cluster.state;
        Other();
        OthersActedOn(old(cluster.state), s, cluster.state);
        RealmsLeftOn(old(cluster.state), s, cluster.state);
      }
    }

    method Other()
      requires cluster.Valid()
      modifies cluster`state, cluster`run, cluster`trouble
      ensures cluster.Valid() && old(cluster.trouble) <= cluster.trouble
      ensures OthersActed(old(cluster.state), cluster.state) && RealmsLeft(old(cluster.state), cluster.state)
      ensures cluster.Quiet() ==> cluster.state == old(cluster.state)
    {
      var step := AnyStep();
      if !step.OfUser? && Enabled(cluster.state, step) {
        if step.Env? {
          EnvActs(cluster.state, step.e);
          EnvLeavesRealms(cluster.state, step.e);
        } else {
          DevActs(cluster.state, step.d);
          DevLeavesRealms(cluster.state, step.d);
        }
        cluster.Take(step);
        cluster.trouble := 2;
      }
    }

    predicate Reading(uid: nat, version: nat)
      reads cluster
    {
      uid in cluster.state.users && version < |cluster.state.users[uid]|
    }

    /** A read, possibly of an old version. */
    method Get(uid: nat, version: nat) returns (user: RhpamUser)
      requires cluster.Valid() && cluster.state.user == UserIdle && Reading(uid, version)
      modifies cluster`state, cluster`run, cluster`trouble
      ensures cluster.Valid() && old(cluster.trouble) <= cluster.trouble
      ensures fresh(user) && user.uid == uid && user.version == version
      ensures user.AsStored() == old(cluster.state).users[uid][version]
      ensures cluster.state.user == UserBusy(uid, version, user.AsStored(), user.AsStored(), false, [], {}, false)
      ensures cluster.Quiet() ==> cluster.state == old(cluster.state).(user := cluster.state.user)
    {
      Others();
      var stored := cluster.state.users[uid][version];
      var finalizers := AnyOrder(stored.finalizers);
      user := new RhpamUser(uid, version, finalizers, stored);
      cluster.Take(OfUser(UserRead(uid, version)));
    }

    // ------------------------------------------------------------- RhpamDevs

    /** The RhpamDevs there are, each in its latest version unless the list is stale. */
    method List() returns (ok: bool, items: seq<Item>)
      requires cluster.Valid() && cluster.state.user.UserBusy?
      requires !cluster.state.user.seen.deleting && cluster.state.user.seen.phase == Accepted
      requires !cluster.state.user.listed
      modifies cluster`state, cluster`run, cluster`trouble
      ensures cluster.Valid() && old(cluster.trouble) <= cluster.trouble
      ensures ok ==> cluster.state.user == old(cluster.state.user).(listed := true, items := items, acks := {})
      ensures !ok ==> cluster.state.user == old(cluster.state.user)
      ensures ok ==> forall i | i in items :: ListedItem(cluster.state, i)
      ensures RealmsLeft(old(cluster.state), cluster.state)
      ensures cluster.Quiet() ==> ok && cluster.state == old(cluster.state).(user := cluster.state.user)
      ensures cluster.Quiet() ==> UpToDate(cluster.state.devs, items)
    {
      Others();
      ok := AnyBool();
      if !ok {
        cluster.trouble := 2;
        return false, [];
      }
      items := ListDevs();
      cluster.TakeUser(UserList(items));
    }

    method ListDevs() returns (items: seq<Item>)
      requires cluster.Valid()
      modifies cluster`trouble
      ensures cluster.Valid() && old(cluster.trouble) <= cluster.trouble
      ensures forall i | i in items :: ListedItem(cluster.state, i)
      ensures cluster.Quiet() ==> old(cluster.Quiet()) && UpToDate(cluster.state.devs, items)
    {
      items := [];
      var todo := cluster.state.devs.Keys;
      while todo != {}
        invariant todo <= cluster.state.devs.Keys && cluster.Valid() && old(cluster.trouble) <= cluster.trouble
        invariant forall i | i in items :: ListedItem(cluster.state, i)
        invariant cluster.Quiet() ==> AllLatest(cluster.state.devs, items)
        invariant cluster.Quiet() ==> OneEach(items) && forall i | i in items :: i.uid !in todo
        invariant cluster.Quiet() ==>
          forall uid | LiveDev(cluster.state.devs, uid) && uid !in todo :: exists i :: i in items && i.uid == uid
      {
        var uid :| uid in todo;
        todo := todo - {uid};
        var version := AnyNumber();
        ghost var listed := items;
        if version < |cluster.state.devs[uid]| && LiveDev(cluster.state.devs, uid) {
          items := items + [Item(uid, version, cluster.state.devs[uid][version])];
          assert items[|listed|] in items;
        }
        if version + 1 != |cluster.state.devs[uid]| {
          cluster.trouble := 2;
        }
        assert forall i | i in listed :: i in items;
      }
    }

    /** The update that releases a RhpamDev whose realm has been filled. Its error
        is not looked at. */
    method UpdateDev(item: Item)
      requires cluster.Valid() && Filling(cluster.state.user) && cluster.state.user.items[0] == item
      requires AllDefaults(cluster.state.user.acks) && ListedItem(cluster.state, item)
      modifies cluster`state, cluster`run, cluster`trouble
      ensures cluster.Valid() && old(cluster.trouble) <= cluster.trouble
      ensures cluster.state.user == BoundTo(old(cluster.state.user))
      ensures Extends(old(cluster.state).devs, cluster.state.devs) && RealmsLeft(old(cluster.state), cluster.state)
      ensures cluster.Quiet() ==>
        cluster.state == old(cluster.state).(user := cluster.state.user, devs := cluster.state.devs)
      ensures cluster.Calm() && IsLatest(old(cluster.state).devs, item.uid, item.version) && !DevGone(item.dev) ==>
        ReleasedIn(old(cluster.state), cluster.state, item)
    {
      Others();
      PutDev(item);
    }

    predicate DevLands(item: Item)
      reads cluster
    {
      && IsLatest(cluster.state.devs, item.uid, item.version)
      && !DevGone(LatestDev(cluster.state, item.uid))
    }

    method PutDev(item: Item)
      requires cluster.Valid() && Filling(cluster.state.user) && cluster.state.user.items[0] == item
      requires AllDefaults(cluster.state.user.acks)
      modifies cluster`state, cluster`run, cluster`trouble
      ensures cluster.Valid() && old(cluster.trouble) <= cluster.trouble
      ensures cluster.state.user == BoundTo(old(cluster.state.user))
      ensures Extends(old(cluster.state).devs, cluster.state.devs)
      ensures cluster.state == old(cluster.state).(user := cluster.state.user, devs := cluster.state.devs)
      ensures cluster.Calm() && old(DevLands(item)) ==> ReleasedIn(old(cluster.state), cluster.state, item)
    {
      var reached := AnyBool();
      if reached && DevLands(item) {
        LandRelease(item);
      } else {
        LoseRelease();
        if !reached {
          cluster.NoteDropped();
        }
      }
    }

    method LoseRelease()
      requires cluster.Valid() && Filling(cluster.state.user) && AllDefaults(cluster.state.user.acks)
      modifies cluster`state, cluster`run, cluster`trouble
      ensures cluster.Valid() && cluster.trouble == old(cluster.trouble)
      ensures cluster.state == old(cluster.state).(user := BoundTo(old(cluster.state.user)))
    {
      cluster.TakeUser(UserRelease(false));
    }

    method LandRelease(item: Item)
      requires cluster.Valid() && Filling(cluster.state.user) && cluster.state.user.items[0] == item
      requires AllDefaults(cluster.state.user.acks)
      requires IsLatest(cluster.state.devs, item.uid, item.version)
      requires !DevGone(LatestDev(cluster.state, item.uid))
      modifies cluster`state, cluster`run, cluster`trouble
      ensures cluster.Valid() && cluster.trouble == old(cluster.trouble)
      ensures cluster.state.user == BoundTo(old(cluster.state.user))
      ensures ReleasedIn(old(cluster.state), cluster.state, item)
    {
      cluster.TakeUser(UserRelease(true));
    }

    /** Binding to a RhpamDev that is complete, or passing by one in another phase. */
    method BindOrPass(ghost item: Item)
      requires cluster.Valid() && cluster.state.user.UserBusy? && cluster.state.user.items != []
      requires cluster.state.user.items[0] == item && item.dev.phase != RealmProvisioned
      modifies cluster`state, cluster`run, cluster`trouble
      ensures cluster.Valid() && cluster.trouble == old(cluster.trouble)
      ensures cluster.state == old(cluster.state).(user := cluster.state.user)
      ensures cluster.state.user == if item.dev.phase == Complete then BoundTo(old(cluster.state.user))
                                    else PassedBy(old(cluster.state.user))
    {
      if cluster.state.user.items[0].dev.phase == Complete {
        cluster.TakeUser(UserBind);
      } else {
        cluster.TakeUser(UserPass);
      }
    }

    // -------------------------------------------------------------- Keycloak

    /** A reconcile that is filling the realm of a listed RhpamDev. */
    predicate IsFilling(realm: string)
      reads cluster
    {
      Filling(cluster.state.user) && CurrentRealm(cluster.state.user) == realm
    }

    /** The realm has been made, and if it is still there it is as in `r`. */
    ghost predicate AsLeft(realm: string, r: Realm)
      reads cluster
    {
      && realm in cluster.state.past.created
      && (realm in cluster.state.realms ==> cluster.state.realms[realm] == r)
    }

    /** A write, if the realm is still there. */
    method WriteOne(realm: string, w: Write, ghost r: Realm) returns (there: bool)
      requires cluster.Valid() && WritesTo(cluster.state.user, realm)
      requires AsLeft(realm, r) && Accepts(r, w) && Protective(w)
      modifies cluster`state, cluster`run, cluster`trouble
      ensures cluster.Valid() && old(cluster.trouble) <= cluster.trouble
      ensures Extends(old(cluster.state).devs, cluster.state.devs)
      ensures SameFilling(old(cluster.state.user), cluster.state.user)
      ensures AsLeft(realm, Apply(r, w)) && there == (realm in cluster.state.realms)
      ensures Meanwhile(old(cluster.state), cluster.state, realm)
      ensures cluster.Quiet() ==> OnlyIn(old(cluster.state), cluster.state, realm)
    {
      Others();
      there := realm in cluster.state.realms;
      if there {
        LandWrite(realm, w);
      }
    }

    method LandWrite(realm: string, w: Write)
      requires cluster.Valid() && WritesTo(cluster.state.user, realm) && realm in cluster.state.realms
      requires Accepts(cluster.state.realms[realm], w) && Protective(w)
      modifies cluster`state, cluster`run, cluster`trouble
      ensures cluster.Valid() && cluster.trouble == old(cluster.trouble)
      ensures SameFilling(old(cluster.state.user), cluster.state.user)
      ensures cluster.state == old(cluster.state).(
        user := cluster.state.user,
        realms := old(cluster.state).realms[realm := Apply(old(cluster.state).realms[realm], w)])
    {
      cluster.TakeUser(UserWrite(w));
    }

    /** The writes of a history, with the others acting in between. Only the
        deletion of the realm can stop them. */
    method WriteAll(realm: string, h: History) returns (there: bool)
      requires cluster.Valid() && WritesTo(cluster.state.user, realm)
      requires h.Valid() && ProtectiveFrom(h, 0) && AsLeft(realm, h.states[0]) && realm in cluster.state.realms
      modifies cluster`state, cluster`run, cluster`trouble
      ensures cluster.Valid() && old(cluster.trouble) <= cluster.trouble
      ensures Extends(old(cluster.state).devs, cluster.state.devs)
      ensures SameFilling(old(cluster.state.user), cluster.state.user)
      ensures there == (realm in cluster.state.realms) && (there ==> cluster.state.realms[realm] == h.Last())
      ensures Meanwhile(old(cluster.state), cluster.state, realm)
      ensures cluster.Quiet() ==> there && OnlyIn(old(cluster.state), cluster.state, realm)
    {
      there := true;
      for k := 0 to |h.writes|
        invariant cluster.Valid() && old(cluster.trouble) <= cluster.trouble
        invariant Extends(old(cluster.state).devs, cluster.state.devs)
        invariant SameFilling(old(cluster.state.user), cluster.state.user)
        invariant there && realm in cluster.state.realms && AsLeft(realm, h.states[k])
        invariant Meanwhile(old(cluster.state), cluster.state, realm)
        invariant cluster.Quiet() ==> OnlyIn(old(cluster.state), cluster.state, realm)
      {
        ghost var s := cluster.state;
        FillingGoesOn(old(cluster.state), old(cluster.state), s, realm);
        there := WriteOne(realm, h.writes[k], h.states[k]);
        ExtendsOn(old(cluster.state).devs, s.devs, cluster.state.devs);
        FillingGoesOn(old(cluster.state), s, cluster.state, realm);
        MeanwhileOn(old(cluster.state), s, cluster.state, realm);
        if !there {
          return;
        }
      }
    }

    predicate OwnsThe(realm: string)
      reads cluster
    {
      cluster.state.user.UserBusy? && OwnsRealm(cluster.state.user) && cluster.state.user.seen.realm == realm
    }

    method Reach(realm: string)
      requires cluster.Valid() && OwnsThe(realm) && realm in cluster.state.realms
      modifies cluster`state, cluster`run, cluster`trouble
      ensures cluster.Valid() && cluster.trouble == old(cluster.trouble)
      ensures SameWorker(old(cluster.state.user), cluster.state.user) && cluster.state.user.worked
      ensures cluster.state == old(cluster.state).(user := cluster.state.user)
    {
      cluster.TakeUser(UserReachRealm);
    }

    /** The writes, and the realm reached if all of them succeeded. */
    method Carry(realm: string, h: History, done: bool) returns (ok: bool)
      requires cluster.Valid() && AtWorkOn(cluster.state.user, realm)
      requires h.Valid() && ProtectiveFrom(h, 0) && AsLeft(realm, h.states[0]) && realm in cluster.state.realms
      modifies cluster`state, cluster`run, cluster`trouble
      ensures cluster.Valid() && old(cluster.trouble) <= cluster.trouble
      ensures SameWorker(old(cluster.state.user), cluster.state.user)
      ensures ok ==> done && cluster.state.user.worked && realm in cluster.state.realms
      ensures realm in cluster.state.realms ==> cluster.state.realms[realm] == h.Last()
      ensures Meanwhile(old(cluster.state), cluster.state, realm)
      ensures cluster.Quiet() ==> realm in cluster.state.realms
      ensures cluster.Quiet() ==> ok == done && OnlyIn(old(cluster.state), cluster.state, realm)
    {
      ghost var s := cluster.state;
      ok := WriteAll(realm, h);
      ok := ok && done;
      if ok {
        ghost var t := cluster.state;
        Reach(realm);
        ReachedOn(s, t, cluster.state, realm);
      }
    }

    /** A realm that is there is well-formed, and was made. */
    lemma RealmIsGood(realm: string)
      requires cluster.Valid() && realm in cluster.state.realms
      ensures realm != "" && realm in cluster.state.past.created && cluster.state.realms[realm].Valid()
    {
      RunIsSafe(cluster.run, |cluster.run| - 1);
    }

    lemma RealmWasMade(realm: string)
      requires cluster.Valid() && WritesTo(cluster.state.user, realm)
      ensures realm == "" || realm in cluster.state.past.created
    {
      RunIsSafe(cluster.run, |cluster.run| - 1);
      if cluster.state.user.items != [] {
        assert ListedItem(cluster.state, cluster.state.user.items[0]);
      }
    }

    /** The Keycloak session for a realm, if that is there. */
    method Enter(realm: string) returns (there: bool)
      requires cluster.Valid() && WritesTo(cluster.state.user, realm)
      modifies cluster`state, cluster`run, cluster`trouble
      ensures cluster.Valid() && old(cluster.trouble) <= cluster.trouble
      ensures cluster.state.user == old(cluster.state.user)
      ensures Extends(old(cluster.state).devs, cluster.state.devs)
      ensures cluster.Quiet() ==> cluster.state == old(cluster.state) && there == (realm in cluster.state.realms)
      ensures there == (realm in cluster.state.realms) && (there ==> realm in old(cluster.state).realms)
      ensures Meanwhile(old(cluster.state), cluster.state, realm)
      ensures there ==> AsLeft(realm, old(cluster.state).realms[realm]) && cluster.state.realms[realm].Valid()
    {
      RealmWasMade(realm);
      Others();
      there := realm in cluster.state.realms;
      if there {
        RealmIsGood(realm);
      }
    }

    /** Looking up what is there. */
    method See(realm: string, facts: seq<Fact>)
      requires cluster.Valid() && IsFilling(realm) && realm in cluster.state.realms
      requires forall f | f in facts :: Holds(f, cluster.state.realms[realm])
      modifies cluster`state, cluster`run, cluster`trouble
      ensures cluster.Valid() && cluster.trouble == old(cluster.trouble)
      ensures SameFilling(old(cluster.state.user), cluster.state.user)
      ensures cluster.state == old(cluster.state).(user := cluster.state.user)
      ensures forall f | f in facts :: f in cluster.state.user.acks
      decreases |facts|
    {
      if facts != [] {
        assert facts[0] in facts && forall f | f in facts[1..] :: f in facts;
        SeeOne(realm, facts[0]);
        See(realm, facts[1..]);
        assert facts == [facts[0]] + facts[1..];
      }
    }

    method SeeOne(realm: string, fact: Fact)
      requires cluster.Valid() && IsFilling(realm)
      requires realm in cluster.state.realms && Holds(fact, cluster.state.realms[realm])
      modifies cluster`state, cluster`run, cluster`trouble
      ensures cluster.Valid() && cluster.trouble == old(cluster.trouble)
      ensures SameFilling(old(cluster.state.user), cluster.state.user) && fact in cluster.state.user.acks
      ensures cluster.state == old(cluster.state).(user := cluster.state.user)
    {
      cluster.TakeUser(UserSee(fact));
    }

    /** Filling the realm of a listed RhpamDev, with the others acting all the while. */
    method FillRealm(realm: string) returns (ok: bool)
      requires cluster.Valid() && IsFilling(realm)
      modifies cluster`state, cluster`run, cluster`trouble, sso
      ensures cluster.Valid() && old(cluster.trouble) <= cluster.trouble && old(sso.failed) <= sso.failed
      ensures Extends(old(cluster.state).devs, cluster.state.devs)
      ensures SameFilling(old(cluster.state.user), cluster.state.user)
      ensures ok ==> FilledIn(old(cluster.state), cluster.state, realm)
      ensures FilledAtMost(old(cluster.state), cluster.state, realm)
      ensures forall r | r in old(cluster.state).past.created :: r in cluster.state.past.created
      ensures cluster.Quiet() ==> OnlyIn(old(cluster.state), cluster.state, realm)
      ensures cluster.Quiet() ==> ok == (realm in old(cluster.state).realms && sso.failed == old(sso.failed))
    {
      ok := Enter(realm);
      if ok {
        ghost var s := cluster.state;
        ok := RunFilling(sso, cluster.state.realms[realm]);
        var there := WriteAll(realm, sso.history);
        ExtendsOn(old(cluster.state).devs, s.devs, cluster.state.devs);
        MeanwhileOn(old(cluster.state), s, cluster.state, realm);
        ok := ok && there;
      }
    }

    /** Reconciling the user's own realm, with the others acting all the while.
        Success certifies the decision whoever has interfered, and without it no
        write but one towards the specification has been made. */
    method ReconcileRealm(realm: string, spec: UserSpec) returns (ok: bool, ghost leftover: set<string>)
      requires cluster.Valid() && AtWorkOn(cluster.state.user, realm)
      modifies cluster`state, cluster`run, cluster`trouble, sso
      ensures cluster.Valid() && old(cluster.trouble) <= cluster.trouble
      ensures SameWorker(old(cluster.state.user), cluster.state.user)
      ensures ok ==> cluster.state.user.worked
      ensures ok ==> Certified(old(cluster.state), cluster.state, realm, spec, leftover)
      ensures RealmsBut(old(cluster.state), cluster.state, realm)
      ensures realm in cluster.state.realms ==>
        realm in old(cluster.state).realms && Towards(spec, old(cluster.state).realms[realm], cluster.state.realms[realm])
      ensures cluster.Quiet() ==>
        Reconciled(old(cluster.state), cluster.state, realm, spec, old(sso.failed), sso.failed, ok)
    {
      leftover := {};
      ok := Enter(realm);
      if ok {
        ghost var s := cluster.state;
        ok, leftover := RunTowards(sso, cluster.state.realms[realm], spec);
        ok := Carry(realm, sso.history, ok);
        MeanwhileOn(old(cluster.state), s, cluster.state, realm);
      }
    }

    /** Tearing the user's own realm down. */
    method DeprovisionRealm(realm: string) returns (ok: bool)
      requires cluster.Valid() && AtWorkOn(cluster.state.user, realm)
      modifies cluster`state, cluster`run, cluster`trouble, sso
      ensures cluster.Valid() && old(cluster.trouble) <= cluster.trouble
      ensures SameWorker(old(cluster.state.user), cluster.state.user)
      ensures ok ==> cluster.state.user.worked
      ensures ok ==> TornDownTo(old(cluster.state), cluster.state, realm, old(sso.failed), sso.failed)
      ensures RealmsBut(old(cluster.state), cluster.state, realm)
      ensures realm in cluster.state.realms ==>
        realm in old(cluster.state).realms &&
        OnTheWayDown(old(cluster.state).realms[realm], cluster.state.realms[realm])
      ensures cluster.Quiet() ==>
        TornDownIn(old(cluster.state), cluster.state, realm, old(sso.failed), sso.failed, ok)
    {
      ok := Enter(realm);
      if ok {
        ghost var s := cluster.state;
        ok := RunDown(sso, cluster.state.realms[realm]);
        ok := Carry(realm, sso.history, ok);
        MeanwhileOn(old(cluster.state), s, cluster.state, realm);
      }
    }

    // ------------------------------------------------------------ RhpamUsers

    /** The copy is what the reconcile ends with. */
    ghost predicate IsResult(user: RhpamUser, failed: bool)
      reads cluster, user
    {
      && cluster.state.user.UserBusy?
      && user.uid == cluster.state.user.uid && user.version == cluster.state.user.version
      && (failed ==> cluster.state.user.seen.deleting && cluster.state.user.seen.phase != Deprovisioned)
      && UserFinished(cluster.state.user, failed)
      && user.AsStored() == UserResult(cluster.state.user, failed)
    }

    predicate Lands(user: RhpamUser)
      reads cluster, user
    {
      && IsLatest(cluster.state.users, user.uid, user.version)
      && !UserGone(cluster.state.users[user.uid][user.version])
    }

    /** The update that ends a reconcile. */
    method Update(user: RhpamUser, failed: bool) returns (ok: bool)
      requires cluster.Valid() && IsResult(user, failed)
      modifies cluster`state, cluster`run, cluster`trouble
      ensures cluster.Valid() && old(cluster.trouble) <= cluster.trouble && cluster.state.user == UserIdle
      ensures ok ==> StoredNext(cluster.state, user.uid, user.version, user.AsStored())
      ensures cluster.Quiet() && old(Lands(user)) ==>
        ok && Stored(old(cluster.state), cluster.state, user.uid, user.AsStored())
    {
      Others();
      var reached := AnyBool();
      if reached && Lands(user) {
        LandUpdate(user, failed);
        ok := AnyBool();
      } else {
        GiveUp();
        ok := false;
      }
      if !ok {
        cluster.trouble := 2;
      }
    }

    method LandUpdate(user: RhpamUser, failed: bool)
      requires cluster.Valid() && IsResult(user, failed) && Lands(user)
      modifies cluster`state, cluster`run, cluster`trouble
      ensures cluster.Valid() && cluster.trouble == old(cluster.trouble) && cluster.state.user == UserIdle
      ensures Stored(old(cluster.state), cluster.state, user.uid, user.AsStored())
    {
      cluster.TakeUser(UserUpdate(failed));
    }

    method GiveUp()
      requires cluster.Valid() && cluster.state.user.UserBusy?
      modifies cluster`state, cluster`run, cluster`trouble
      ensures cluster.Valid() && cluster.trouble == old(cluster.trouble)
      ensures cluster.state == old(cluster.state).(user := UserIdle)
    {
      cluster.TakeUser(UserGiveUp);
    }
  }

  /** On to the next listed RhpamDev, with the user as in `copy`. */
  ghost predicate Advanced(v: UserWorker, w: UserWorker, copy: User) {
    v.UserBusy? && v.items != [] && w == v.(copy := copy, items := v.items[1..])
  }

  /** The realm to be filled for the RhpamDev, if any, is there. */
  predicate CanFill(s: State, i: Item) {
    i.dev.phase == RealmProvisioned ==> i.dev.realm in s.realms
  }

  function BoundBy(user: User, i: Item): User {
    if Binding(i.dev.phase)
    then user.(phase := Phase.Reconcile, realm := i.dev.realm)
    else user
  }

  function DevsAfter(devs: map<nat, seq<Dev>>, i: Item): map<nat, seq<Dev>> {
    if i.dev.phase == RealmProvisioned && i.uid in devs
    then Append(devs, i.uid, i.dev.(phase := Prepare))
    else devs
  }

  /** The user after all listed RhpamDevs have been looked at. */
  function BoundByAll(user: User, items: seq<Item>): User
    decreases |items|
  {
    if items == [] then user else BoundByAll(BoundBy(user, items[0]), items[1..])
  }

  function DevsAfterAll(devs: map<nat, seq<Dev>>, items: seq<Item>): map<nat, seq<Dev>>
    decreases |items|
  {
    if items == [] then devs else DevsAfterAll(DevsAfter(devs, items[0]), items[1..])
  }

  ghost predicate AllCanFill(s: State, items: seq<Item>) {
    forall i | i in items :: CanFill(s, i)
  }

  /** The realms once one at "realm provisioned" has been filled. */
  function RealmsAfter(realms: map<string, Realm>, i: Item): map<string, Realm> {
    if i.dev.phase == RealmProvisioned && i.dev.realm in realms
    then realms[i.dev.realm := Provisioned(realms[i.dev.realm])]
    else realms
  }

  function RealmsAfterAll(realms: map<string, Realm>, items: seq<Item>): map<string, Realm>
    decreases |items|
  {
    if items == [] then realms else RealmsAfterAll(RealmsAfter(realms, items[0]), items[1..])
  }

  /** One of the listed RhpamDevs is at "realm provisioned" and records `realm`. */
  ghost predicate ToFill(items: seq<Item>, realm: string) {
    exists i :: i in items && i.dev.phase == RealmProvisioned && i.dev.realm == realm
  }

  /** Just the realms of listed RhpamDevs at "realm provisioned" are filled; every
      other is as it was. */
  lemma {:induction false} RealmsAfterAllAre(realms: map<string, Realm>, items: seq<Item>, realm: string)
    ensures RealmsAfterAll(realms, items).Keys == realms.Keys
    ensures realm in realms ==>
      RealmsAfterAll(realms, items)[realm] == if ToFill(items, realm) then Provisioned(realms[realm]) else realms[realm]
    decreases |items|
  {
    if items != [] {
      var i, rest := items[0], items[1..];
      RealmsAfterAllAre(RealmsAfter(realms, i), rest, realm);
      assert items == [i] + rest;
      assert ToFill(items, realm) <==> ToFill(rest, realm) || (i.dev.phase == RealmProvisioned && i.dev.realm == realm);
      if realm in realms {
        ProvisionedTwice(realms[realm]);
      }
    }
  }

  ghost predicate AllConsidered(s: State, items: seq<Item>, t: State) {
    t.users == s.users && t.devs == DevsAfterAll(s.devs, items) && t.realms == RealmsAfterAll(s.realms, items)
  }

  /** From `t` and the items in `rest` the same comes out as from `s` and all. */
  ghost predicate OnTrack(s: State, items: seq<Item>, t: State, rest: seq<Item>) {
    && AllLatest(t.devs, rest) && OneEach(rest)
    && DevsAfterAll(t.devs, rest) == DevsAfterAll(s.devs, items)
  }

  lemma StillOnTrack(s: State, items: seq<Item>, t: State, rest: seq<Item>, u: State)
    requires rest != [] && OnTrack(s, items, t, rest) && u.devs == DevsAfter(t.devs, rest[0])
    ensures OnTrack(s, items, u, rest[1..])
  {
    RestStaysLatest(t.devs, rest);
  }

  /** All up to `rest` could be filled, and have been. */
  ghost predicate FilledSoFar(s: State, items: seq<Item>, t: State, rest: seq<Item>) {
    && t.users == s.users && t.realms.Keys == s.realms.Keys
    && (AllCanFill(s, items) <==> AllCanFill(t, rest))
    && RealmsAfterAll(t.realms, rest) == RealmsAfterAll(s.realms, items)
  }

  lemma StillFilledSoFar(s: State, items: seq<Item>, t: State, rest: seq<Item>, u: State)
    requires rest != [] && FilledSoFar(s, items, t, rest) && CanFill(t, rest[0])
    requires u.users == t.users && u.realms == RealmsAfter(t.realms, rest[0])
    ensures FilledSoFar(s, items, u, rest[1..])
  {
    assert rest == [rest[0]] + rest[1..];
    forall i ensures CanFill(u, i) <==> CanFill(t, i) {
    }
    assert AllCanFill(t, rest) <==> AllCanFill(u, rest[1..]);
  }

  /** Whatever fails and whoever interferes, the realms still there are as they were,
      but for defaults in those of listed RhpamDevs at "realm provisioned". */
  ghost predicate OnlyFilled(s: State, t: State, items: seq<Item>) {
    && (forall r | r in s.past.created :: r in t.past.created)
    && forall r | r in t.realms && r in s.past.created ::
         && r in s.realms
         && Between(s.realms[r], t.realms[r], Provisioned(s.realms[r]))
         && (!ToFill(items, r) ==> t.realms[r] == s.realms[r])
  }

  lemma FillingAddsUp(a: Realm, b: Realm, c: Realm)
    requires Between(a, b, Provisioned(a)) && Between(b, c, Provisioned(b))
    ensures Between(a, c, Provisioned(a))
  {
    ProvisionedIs(a);
    ProvisionedIs(b);
  }

  lemma OnlyFilledOn(s: State, t: State, u: State, items: seq<Item>)
    requires OnlyFilled(s, t, items) && OnlyFilled(t, u, items)
    ensures OnlyFilled(s, u, items)
  {
    forall r | r in u.realms && r in s.past.created
      ensures r in s.realms && Between(s.realms[r], u.realms[r], Provisioned(s.realms[r]))
    {
      FillingAddsUp(s.realms[r], t.realms[r], u.realms[r]);
    }
  }

  lemma LeavesFilled(s: State, t: State, items: seq<Item>)
    requires RealmsLeft(s, t)
    ensures OnlyFilled(s, t, items)
  {
    forall r | r in t.realms && r in s.past.created
      ensures Between(s.realms[r], t.realms[r], Provisioned(s.realms[r]))
    {
      ProvisionedIs(s.realms[r]);
    }
  }

  lemma FilledIsAfter(s: State, t: State, item: Item)
    requires item.dev.phase == RealmProvisioned
    requires OnlyIn(s, t, item.dev.realm) && FilledIn(s, t, item.dev.realm)
    ensures t == s.(user := t.user, realms := RealmsAfter(s.realms, item))
  {
    assert t.realms == RealmsAfter(s.realms, item);
  }

  /** What looking at one listed RhpamDev leaves of the realms. */
  lemma OneTended(s: State, t: State, item: Item, items: seq<Item>)
    requires item in items && (forall r | r in s.past.created :: r in t.past.created)
    requires if item.dev.phase == RealmProvisioned then FilledAtMost(s, t, item.dev.realm) else RealmsLeft(s, t)
    ensures OnlyFilled(s, t, items)
  {
    forall r | r in t.realms && r in s.past.created
      ensures r in s.realms && Between(s.realms[r], t.realms[r], Provisioned(s.realms[r]))
      ensures !ToFill(items, r) ==> t.realms[r] == s.realms[r]
    {
      if item.dev.phase == RealmProvisioned && r == item.dev.realm {
        assert ToFill(items, r);
      } else {
        ProvisionedIs(s.realms[r]);
      }
    }
  }

  /** The last listed RhpamDev in a phase to bind to. */
  ghost predicate LastBinding(items: seq<Item>, k: int) {
    && 0 <= k < |items| && Binding(items[k].dev.phase)
    && forall j | k < j < |items| :: !Binding(items[j].dev.phase)
  }

  lemma {:induction false} OneMoreBound(user: User, items: seq<Item>, last: Item)
    ensures BoundByAll(user, items + [last]) == BoundBy(BoundByAll(user, items), last)
    decreases |items|
  {
    if items == [] {
      assert ([last])[1..] == [];
    } else {
      assert (items + [last])[1..] == items[1..] + [last];
      OneMoreBound(BoundBy(user, items[0]), items[1..], last);
    }
  }

  lemma {:induction false} LastBinds(user: User, items: seq<Item>)
    ensures forall k | LastBinding(items, k) ::
      BoundByAll(user, items) == user.(phase := Phase.Reconcile, realm := items[k].dev.realm)
    ensures (forall k :: !LastBinding(items, k)) ==> BoundByAll(user, items) == user
    decreases |items|
  {
    if items != [] {
      var front, last := items[..|items| - 1], items[|items| - 1];
      assert items == front + [last];
      OneMoreBound(user, front, last);
      LastBinds(user, front);
      if Binding(last.dev.phase) {
        assert LastBinding(items, |items| - 1);
      } else {
        forall k ensures LastBinding(items, k) <==> LastBinding(front, k) {
        }
      }
    }
  }

  /** A user becomes bound to a realm exactly if the last listed RhpamDev that is
      complete or "realm provisioned" records that realm. */
  lemma BindsToLast(user: User, items: seq<Item>, realm: string)
    requires user.phase != Phase.Reconcile
    ensures
      (BoundByAll(user, items).phase == Phase.Reconcile && BoundByAll(user, items).realm == realm) <==>
      exists k :: LastBinding(items, k) && items[k].dev.realm == realm
  {
    LastBinds(user, items);
  }

  lemma RestStaysLatest(devs: map<nat, seq<Dev>>, items: seq<Item>)
    requires items != [] && AllLatest(devs, items) && OneEach(items)
    ensures AllLatest(DevsAfter(devs, items[0]), items[1..]) && OneEach(items[1..])
  {
    forall i | i in items[1..] ensures i in items && i.uid != items[0].uid {
      var k :| 0 < k < |items| && items[k] == i;
    }
  }

  /** What a calm reconcile does to a RhpamUser that is not being deleted, to the
      RhpamDevs and to the realms. */
  ghost predicate UserTurned(s: State, was: User, spec: UserSpec, items: seq<Item>, t: State, user: User) {
    match was.phase
    case NoPhase =>
      t == s && user == was.(phase := Phase.Accepted, finalizers := was.finalizers + {FINALIZER})
    case Accepted =>
      UpToDate(s.devs, items) && (AllCanFill(s, items) ==> user == BoundByAll(was, items) && AllConsidered(s, items, t))
    case Reconcile =>
      && OnlyIn(s, t, was.realm) && user == was
      && (RealmMeets(s, was, spec) ==> t.realms[was.realm] == Outcome(spec, s.realms[was.realm]))
    case _ => t == s && user == was
  }

  /** The user's realm is there and the specification can be met in it. */
  ghost predicate RealmMeets(s: State, was: User, spec: UserSpec) {
    was.realm in s.realms && Satisfiable(spec, s.realms[was.realm])
  }

  /** The answer of a reconcile that nobody got in the way of, `a` and `b` being the
      Keycloak requests that had failed before and after it. */
  ghost function UserReply(s: State, was: User, spec: UserSpec, items: seq<Item>, a: seq<Request>, b: seq<Request>)
    : Reply
  {
    match was.phase
    case NoPhase => Nil(true)
    case Accepted => if AllCanFill(s, items) && b == a then Nil(true) else Err
    case Reconcile => if RealmMeets(s, was, spec) && OnlyDropped(spec, a, b) then Nil(false) else Err
    case _ => Nil(false)
  }

  ghost function DeletionReply(s: State, was: User, a: seq<Request>, b: seq<Request>): Reply {
    if was.phase == Deprovisioned then Nil(false)
    else if was.realm in s.realms && FailedAmong(a, b, {Request.ListRoles}) then Nil(true)
    else Err
  }

  /** The phases whose reconcile writes the user back. */
  predicate Storing(was: User) {
    was.deleting || was.phase == NoPhase || was.phase == Phase.Accepted || was.phase == Phase.Reconcile
  }

  predicate UserAt(s: State, uid: nat, user: User) {
    uid in s.users && s.users[uid] != [] && s.users[uid][|s.users[uid]| - 1] == user
  }

  predicate CanStore(s: State, uid: nat, version: nat) {
    IsLatest(s.users, uid, version) && !UserGone(s.users[uid][version])
  }

  /** What a calm reconcile leaves stored, for a RhpamUser not being deleted. */
  ghost predicate UserServed(s: State, was: User, spec: UserSpec, items: seq<Item>, t: State, uid: nat) {
    match was.phase
    case NoPhase =>
      && t.devs == s.devs && t.realms == s.realms
      && UserAt(t, uid, was.(phase := Phase.Accepted, finalizers := was.finalizers + {FINALIZER}))
    case Accepted =>
      UpToDate(s.devs, items) && (AllCanFill(s, items) ==>
        t.devs == DevsAfterAll(s.devs, items) && t.realms == RealmsAfterAll(s.realms, items) &&
        UserAt(t, uid, BoundByAll(was, items)))
    case Reconcile => t.devs == s.devs && UserAt(t, uid, was) && RealmServed(s.realms, t.realms, was.realm, spec)
    case _ => t.devs == s.devs && t.users == s.users && t.realms == s.realms
  }

  /** At most the one realm has changed, and if the specification can be met it is
      what a run without failures makes of it. */
  ghost predicate RealmServed(realms: map<string, Realm>, after: map<string, Realm>, realm: string, spec: UserSpec) {
    && OnlyRealm(realms, after, realm)
    && (realm in realms && Satisfiable(spec, realms[realm]) ==> after[realm] == Outcome(spec, realms[realm]))
  }

  ghost predicate OnlyRealm(realms: map<string, Realm>, after: map<string, Realm>, realm: string) {
    after.Keys == realms.Keys && forall r | r in realms && r != realm :: after[r] == realms[r]
  }

  /** Two calm reconciles in a row bring the user's realm to its target, and leave
      all others alone. */
  lemma TwoReconcilesReachTarget(s: State, t: State, u: State, was: User, spec: UserSpec, uid: nat,
                                 items: seq<Item>, items': seq<Item>)
    requires was.phase == Phase.Reconcile && was.realm in s.realms && s.realms[was.realm].Valid()
    requires Satisfiable(spec, s.realms[was.realm])
    requires UserServed(s, was, spec, items, t, uid) && UserServed(t, was, spec, items', u, uid)
    ensures u.realms == s.realms[was.realm := Target(spec, s.realms[was.realm])]
  {
    var r := s.realms[was.realm];
    assert Kept(spec, Outcome(spec, r)) == Kept(spec, r);
    TwoRunsReachTarget(spec, r);
  }

  /** What a calm reconcile leaves stored, for a RhpamUser being deleted: a
      "deprovisioned" one goes and nothing else changes; any other is deprovisioned,
      its realm left with nothing but defaults, or fails if its realm is not there. */
  ghost predicate DeletionServed(s: State, was: User, t: State, uid: nat) {
    if was.phase == Deprovisioned then Stored(s, t, uid, was.(finalizers := {}, phase := Complete))
    else
      && t.devs == s.devs && OnlyRealm(s.realms, t.realms, was.realm)
      && if was.realm in s.realms
         then t.realms[was.realm] == Stripped(s.realms[was.realm]) && UserAt(t, uid, was.(phase := Deprovisioned))
         else UserAt(t, uid, was.(phase := DeprovisionFailed))
  }

  /** Everything that a filled realm holds. */
  const DEFAULT_FACTS: seq<Fact> :=
    seq(|DEFAULT_ROLES|, i requires 0 <= i < |DEFAULT_ROLES| => RoleFact(DEFAULT_ROLES[i])) +
    seq(|DEFAULT_USERS|, i requires 0 <= i < |DEFAULT_USERS| => UserFact(DEFAULT_USERS[i].name))

  lemma DefaultFactsAreAll(acks: set<Fact>)
    requires forall f | f in DEFAULT_FACTS :: f in acks
    ensures AllDefaults(acks)
  {
    forall r | r in DefaultRoles() ensures RoleFact(r) in acks {
      var i :| 0 <= i < |DEFAULT_ROLES| && DEFAULT_ROLES[i] == r;
      assert DEFAULT_FACTS[i] == RoleFact(r);
    }
    forall u | u in DefaultUsers() ensures UserFact(u) in acks {
      var i :| 0 <= i < |DEFAULT_USERS| && DEFAULT_USERS[i].name == u;
      assert DEFAULT_FACTS[|DEFAULT_ROLES| + i] == UserFact(u);
    }
  }

  lemma DefaultFactsHold(r: Realm)
    requires DefaultRoles() <= r.roles && DefaultUsers() <= r.accounts.Keys
    ensures forall f | f in DEFAULT_FACTS :: Holds(f, r)
  {
    forall i | 0 <= i < |DEFAULT_FACTS| ensures Holds(DEFAULT_FACTS[i], r) {
      if i < |DEFAULT_ROLES| {
        assert DEFAULT_ROLES[i] in DefaultRoles();
      } else {
        assert DEFAULT_USERS[i - |DEFAULT_ROLES|].name in DefaultUsers();
      }
    }
  }

  class ReconcileRhpamUser {
    const cluster: Cluster
    const client: UserClient

    constructor (cluster: Cluster)
      ensures this.cluster == cluster && client.cluster == cluster
    {
      this.cluster := cluster;
      client := new UserClient(cluster);
    }

    ghost predicate Filling(realm: string)
      reads cluster
    {
      client.cluster == cluster && cluster.Valid() && client.IsFilling(realm)
    }

    /** Fills a new realm with the default roles and users. */
    method CreateDefaults(realm: string) returns (ok: bool)
      requires Filling(realm)
      modifies cluster`state, cluster`run, cluster`trouble, client.sso
      ensures cluster.Valid() && old(cluster.trouble) <= cluster.trouble && old(client.sso.failed) <= client.sso.failed
      ensures Extends(old(cluster.state).devs, cluster.state.devs)
      ensures SameFilling(old(cluster.state.user), cluster.state.user)
      ensures ok ==> AllDefaults(cluster.state.user.acks)
      ensures ok ==> FilledIn(old(cluster.state), cluster.state, realm)
      ensures FilledAtMost(old(cluster.state), cluster.state, realm)
      ensures forall r | r in old(cluster.state).past.created :: r in cluster.state.past.created
      ensures cluster.Quiet() ==>
        ok == (realm in old(cluster.state).realms && client.sso.failed == old(client.sso.failed))
      ensures cluster.Quiet() ==> OnlyIn(old(cluster.state), cluster.state, realm)
    {
      ok := client.FillRealm(realm);
      if ok {
        ProvisionedIs(old(cluster.state).realms[realm]);
        DefaultFactsHold(cluster.state.realms[realm]);
        client.See(realm, DEFAULT_FACTS);
        DefaultFactsAreAll(cluster.state.user.acks);
      }
    }

    // --------------------------------------------------------------- binding

    /** One listed RhpamDev of the Accepted phase. */
    method Consider(user: RhpamUser, item: Item) returns (ok: bool)
      requires client.cluster == cluster && cluster.Valid() && BindingTo(user, item)
      modifies cluster`state, cluster`run, cluster`trouble, client.sso, user`phase, user`realm
      ensures cluster.Valid() && old(cluster.trouble) <= cluster.trouble && old(client.sso.failed) <= client.sso.failed
      ensures Extends(old(cluster.state).devs, cluster.state.devs)
      ensures cluster.state.user.UserBusy?
      ensures ok ==> user.AsStored() == BoundBy(old(user.AsStored()), item)
      ensures ok ==> Advanced(old(cluster.state.user), cluster.state.user, user.AsStored())
      ensures OnlyFilled(old(cluster.state), cluster.state, [item])
      ensures cluster.Quiet() ==>
        ok == (CanFill(old(cluster.state), item) && client.sso.failed == old(client.sso.failed))
      ensures cluster.Quiet() && ok ==>
        cluster.state == old(cluster.state).(user := cluster.state.user, devs := cluster.state.devs,
                                             realms := RealmsAfter(old(cluster.state).realms, item))
      ensures cluster.Calm() && ok && IsLatest(old(cluster.state).devs, item.uid, item.version) && !DevGone(item.dev) ==>
        cluster.state.devs == DevsAfter(old(cluster.state).devs, item)
    {
      ghost var s := cluster.state;
      if item.dev.phase == RealmProvisioned {
        ok := FillAndRelease(item);
      } else {
        ok := true;
        client.BindOrPass(item);
        OneTended(s, cluster.state, item, [item]);
      }
      if ok && Binding(item.dev.phase) {
        user.phase := Phase.Reconcile;
        user.realm := item.dev.realm;
      }
    }

    method FillAndRelease(item: Item) returns (ok: bool)
      requires Filling(item.dev.realm) && cluster.state.user.items[0] == item && ListedItem(cluster.state, item)
      modifies cluster`state, cluster`run, cluster`trouble, client.sso
      ensures cluster.Valid() && old(cluster.trouble) <= cluster.trouble && old(client.sso.failed) <= client.sso.failed
      ensures Extends(old(cluster.state).devs, cluster.state.devs) && cluster.state.user.UserBusy?
      ensures ok ==> cluster.state.user == BoundTo(old(cluster.state.user))
      ensures OnlyFilled(old(cluster.state), cluster.state, [item])
      ensures cluster.Quiet() ==>
        ok == (item.dev.realm in old(cluster.state).realms && client.sso.failed == old(client.sso.failed))
      ensures cluster.Quiet() && ok ==>
        cluster.state == old(cluster.state).(user := cluster.state.user, devs := cluster.state.devs,
                                             realms := RealmsAfter(old(cluster.state).realms, item))
      ensures cluster.Calm() && ok && IsLatest(old(cluster.state).devs, item.uid, item.version) && !DevGone(item.dev) ==>
        cluster.state.devs == DevsAfter(old(cluster.state).devs, item)
    {
      ghost var s := cluster.state;
      ok := CreateDefaults(item.dev.realm);
      OneTended(s, cluster.state, item, [item]);
      if ok {
        if cluster.Quiet() {
          FilledIsAfter(s, cluster.state, item);
        }
        Release(item, s);
      }
    }

    /** Once its realm is filled. */
    method Release(item: Item, ghost s: State)
      requires Filling(item.dev.realm) && cluster.state.user.items[0] == item && ListedItem(cluster.state, item)
      requires AllDefaults(cluster.state.user.acks) && OnlyFilled(s, cluster.state, [item])
      requires Extends(s.devs, cluster.state.devs)
      requires cluster.Quiet() ==>
        cluster.state == s.(user := cluster.state.user, realms := RealmsAfter(s.realms, item))
      modifies cluster`state, cluster`run, cluster`trouble
      ensures cluster.Valid() && old(cluster.trouble) <= cluster.trouble
      ensures Extends(s.devs, cluster.state.devs) && OnlyFilled(s, cluster.state, [item])
      ensures cluster.state.user == BoundTo(old(cluster.state.user))
      ensures cluster.Quiet() ==>
        cluster.state == s.(user := cluster.state.user, devs := cluster.state.devs, realms := RealmsAfter(s.realms, item))
      ensures cluster.Calm() && IsLatest(s.devs, item.uid, item.version) && !DevGone(item.dev) ==>
        cluster.state.devs == DevsAfter(s.devs, item)
    {
      ghost var t := cluster.state;
      client.UpdateDev(item);
      LeavesFilled(t, cluster.state, [item]);
      OnlyFilledOn(s, t, cluster.state, [item]);
      ExtendsOn(s.devs, t.devs, cluster.state.devs);
    }

    /** In the Accepted phase, with `item` the next RhpamDev to look at. */
    ghost predicate BindingTo(user: RhpamUser, item: Item)
      reads cluster, user
    {
      && cluster.state.user.UserBusy? && cluster.state.user.items != [] && cluster.state.user.items[0] == item
      && cluster.state.user.copy == user.AsStored() && cluster.state.user.acks == {}
      && ListedItem(cluster.state, item)
    }

    /** A reconcile that has read the RhpamUser and done nothing else yet. */
    ghost predicate Begun(user: RhpamUser)
      reads cluster, user
    {
      && client.cluster == cluster && cluster.Valid()
      && cluster.state.user ==
           UserBusy(user.uid, user.version, user.AsStored(), user.AsStored(), false, [], {}, false)
    }

    /** The reconcile has done its work and may write `user` back, or has failed. */
    ghost predicate Ended(done: bool, user: RhpamUser)
      reads cluster, user
    {
      && client.cluster == cluster && cluster.Valid() && cluster.state.user.UserBusy?
      && (done ==> client.IsResult(user, false))
    }

    method Initialize(user: RhpamUser)
      requires Begun(user) && user.phase == NoPhase && !user.deleting
      modifies user
      ensures Ended(true, user)
      ensures user.AsStored() == old(user.AsStored()).(
        phase := Phase.Accepted, finalizers := old(user.AsStored()).finalizers + {FINALIZER})
    {
      user.finalizers := AddFinalizer(user.finalizers, FINALIZER);
      user.phase := Phase.Accepted;
    }

    /** In the Accepted phase, with `rest` still to look at. */
    predicate IsBinding(uid: nat, version: nat, seen: User, copy: User, rest: seq<Item>)
      reads cluster
    {
      cluster.state.user == UserBusy(uid, version, seen, copy, true, rest, {}, false)
    }

    /** The listed RhpamDevs, one after the other. */
    method ConsiderAll(user: RhpamUser, items: seq<Item>) returns (ok: bool)
      requires client.cluster == cluster && cluster.Valid()
      requires IsBinding(user.uid, user.version, user.AsStored(), user.AsStored(), items)
      requires forall i | i in items :: ListedItem(cluster.state, i)
      modifies cluster`state, cluster`run, cluster`trouble, client.sso, user`phase, user`realm
      ensures cluster.Valid() && old(cluster.trouble) <= cluster.trouble && cluster.state.user.UserBusy?
      ensures Extends(old(cluster.state).devs, cluster.state.devs) && old(client.sso.failed) <= client.sso.failed
      ensures ok ==> user.AsStored() == BoundByAll(old(user.AsStored()), items)
      ensures ok ==> IsBinding(user.uid, user.version, old(user.AsStored()), user.AsStored(), [])
      ensures OnlyFilled(old(cluster.state), cluster.state, items)
      ensures cluster.Quiet() ==>
        ok == (AllCanFill(old(cluster.state), items) && client.sso.failed == old(client.sso.failed))
      ensures cluster.Quiet() && ok ==>
        cluster.state.users == old(cluster.state).users &&
        cluster.state.realms == RealmsAfterAll(old(cluster.state).realms, items)
      ensures cluster.Calm() && ok && UpToDate(old(cluster.state).devs, items) ==>
        cluster.state.devs == DevsAfterAll(old(cluster.state).devs, items)
    {
      ok := true;
      ghost var s, was, f := cluster.state, user.AsStored(), client.sso.failed;
      var rest := items;
      LeavesFilled(s, s, items);
      while rest != []
        invariant old(cluster.trouble) <= cluster.trouble && ok
        invariant Considering(user, s, was, f, items, rest)
      {
        ok := ConsiderNext(user, s, was, f, items, rest);
        if !ok {
          return;
        }
        rest := rest[1..];
      }
    }

    /** All listed up to `rest` have been looked at, since `s`. */
    ghost predicate Considering(user: RhpamUser, s: State, was: User, f: seq<Request>, items: seq<Item>, rest: seq<Item>)
      reads cluster, client.sso, user
    {
      && client.cluster == cluster && cluster.Valid() && f <= client.sso.failed
      && IsBinding(user.uid, user.version, was, user.AsStored(), rest)
      && Extends(s.devs, cluster.state.devs) && OnlyFilled(s, cluster.state, items)
      && (forall i | i in rest :: i in items && ListedItem(cluster.state, i))
      && BoundByAll(user.AsStored(), rest) == BoundByAll(was, items)
      && (cluster.Quiet() ==> client.sso.failed == f && FilledSoFar(s, items, cluster.state, rest))
      && (cluster.Calm() && UpToDate(s.devs, items) ==> OnTrack(s, items, cluster.state, rest))
    }

    method ConsiderNext(user: RhpamUser, ghost s: State, ghost was: User, ghost f: seq<Request>,
                        ghost items: seq<Item>, rest: seq<Item>)
      returns (ok: bool)
      requires rest != [] && Considering(user, s, was, f, items, rest)
      modifies cluster`state, cluster`run, cluster`trouble, client.sso, user`phase, user`realm
      ensures old(cluster.trouble) <= cluster.trouble && cluster.Valid() && cluster.state.user.UserBusy?
      ensures Extends(s.devs, cluster.state.devs) && f <= client.sso.failed && OnlyFilled(s, cluster.state, items)
      ensures ok ==> Considering(user, s, was, f, items, rest[1..])
      ensures cluster.Quiet() && !ok ==> !AllCanFill(s, items) || client.sso.failed != f
    {
      ghost var t := cluster.state;
      assert forall i | i in rest[1..] :: i in rest;
      ok := Consider(user, rest[0]);
      MoreFilled(s, t, cluster.state, rest[0], items);
      ExtendsOn(s.devs, t.devs, cluster.state.devs);
      if ok {
        OneMoreConsidered(s, items, t, rest, cluster.state, cluster.Quiet(), cluster.Calm());
      }
    }

    lemma OneMoreConsidered(s: State, items: seq<Item>, t: State, rest: seq<Item>, u: State, quiet: bool, calm: bool)
      requires rest != []
      requires quiet ==> FilledSoFar(s, items, t, rest) && CanFill(t, rest[0])
      requires quiet ==> u.users == t.users && u.realms == RealmsAfter(t.realms, rest[0])
      requires calm && UpToDate(s.devs, items) ==> OnTrack(s, items, t, rest) && u.devs == DevsAfter(t.devs, rest[0])
      ensures quiet ==> FilledSoFar(s, items, u, rest[1..])
      ensures calm && UpToDate(s.devs, items) ==> OnTrack(s, items, u, rest[1..])
    {
      if quiet {
        StillFilledSoFar(s, items, t, rest, u);
      }
      if calm && UpToDate(s.devs, items) {
        StillOnTrack(s, items, t, rest, u);
      }
    }

    lemma MoreFilled(s: State, t: State, u: State, item: Item, items: seq<Item>)
      requires OnlyFilled(s, t, items) && OnlyFilled(t, u, [item]) && item in items
      ensures OnlyFilled(s, u, items)
    {
      forall r | ToFill([item], r) ensures ToFill(items, r) {
      }
      OnlyFilledOn(s, t, u, items);
    }

    /** Looks at every RhpamDev listed: one at "realm provisioned" has its realm
        filled and is released; the user is bound to the last one that is complete
        or has been released. */
    method Accepted(user: RhpamUser) returns (ok: bool, ghost items: seq<Item>)
      requires Begun(user) && user.phase == Phase.Accepted && !user.deleting
      modifies cluster`state, cluster`run, cluster`trouble, client.sso, user`phase, user`realm
      ensures old(cluster.trouble) <= cluster.trouble && Ended(ok, user) && old(client.sso.failed) <= client.sso.failed
      ensures ok ==> user.AsStored() == BoundByAll(old(user.AsStored()), items)
      ensures ok ==> forall i | i in items :: ListedItem(cluster.state, i)
      ensures OnlyFilled(old(cluster.state), cluster.state, items)
      ensures cluster.Quiet() ==> UpToDate(old(cluster.state).devs, items)
      ensures cluster.Quiet() ==>
        ok == (AllCanFill(old(cluster.state), items) && client.sso.failed == old(client.sso.failed))
      ensures cluster.Quiet() && ok ==>
        cluster.state.users == old(cluster.state).users &&
        cluster.state.realms == RealmsAfterAll(old(cluster.state).realms, items)
      ensures cluster.Calm() && ok ==> AllConsidered(old(cluster.state), items, cluster.state)
    {
      ghost var s := cluster.state;
      var rest;
      ok, rest := client.List();
      items := rest;
      LeavesFilled(s, cluster.state, items);
      if ok {
        ghost var t := cluster.state;
        ok := ConsiderAll(user, rest);
        OnlyFilledOn(s, t, cluster.state, items);
      }
    }

    // ------------------------------------------------------------- controller

    /** Writes `user` back if there is a result, or gives up. */
    method HandleResult(user: RhpamUser, decision: Decision) returns (reply: Reply)
      requires Ended(decision.Store?, user)
      modifies cluster`state, cluster`run, cluster`trouble
      ensures cluster.Valid() && old(cluster.trouble) <= cluster.trouble && cluster.state.user == UserIdle
      ensures decision.Skip? ==> reply == Nil(decision.requeue)
      ensures decision.Fail? ==> reply == Err
      ensures !decision.Store? ==> cluster.state == old(cluster.state).(user := UserIdle)
      ensures !decision.Store? ==> cluster.trouble == old(cluster.trouble)
      ensures decision.Store? && reply.Nil? ==>
        reply.requeue == decision.requeue && StoredNext(cluster.state, user.uid, user.version, user.AsStored())
      ensures decision.Store? && cluster.Quiet() && old(client.Lands(user)) ==>
        reply.Nil? && Stored(old(cluster.state), cluster.state, user.uid, user.AsStored())
    {
      match decision
      case Store(requeue) =>
        var ok := client.Update(user, false);
        reply := if ok then Nil(requeue) else Err;
      case Skip(requeue) =>
        client.GiveUp();
        reply := Nil(requeue);
      case Fail =>
        client.GiveUp();
        reply := Err;
    }

    /** A RhpamUser that is not being deleted. */
    method Dispatch(user: RhpamUser, spec: UserSpec) returns (decision: Decision, ghost items: seq<Item>)
      requires Begun(user) && !user.deleting
      modifies cluster`state, cluster`run, cluster`trouble, client.sso, user
      ensures old(cluster.trouble) <= cluster.trouble && Ended(decision.Store?, user)
      ensures cluster.Quiet() ==> DecidesOn(decision,
        UserReply(old(cluster.state), old(user.AsStored()), spec, items, old(client.sso.failed), client.sso.failed),
        Storing(old(user.AsStored())))
      ensures cluster.Calm() && client.sso.failed == old(client.sso.failed) ==>
        UserTurned(old(cluster.state), old(user.AsStored()), spec, items, cluster.state, user.AsStored())
      ensures decision.Skip? ==> !Storing(old(user.AsStored()))
      ensures cluster.Quiet() && decision.Store? ==> cluster.state.users == old(cluster.state).users
    {
      items := [];
      match user.phase
      case NoPhase =>
        Initialize(user);
        decision := Store(true);
      case Accepted =>
        var ok;
        ok, items := Accepted(user);
        decision := if ok then Store(true) else Fail;
      case Reconcile =>
        var ok;
        ghost var leftover;
        ok, leftover := client.ReconcileRealm(user.realm, spec);
        decision := if ok then Store(false) else Fail;
      case _ =>
        decision := Skip(false);
    }

    /** A RhpamUser that is being deleted: without its realm it just goes; else it
        is deprovisioned, and goes the next time. */
    method DispatchDeletion(user: RhpamUser) returns (failed: bool)
      requires Begun(user) && user.deleting
      modifies cluster`state, cluster`run, cluster`trouble, client.sso, user
      ensures old(cluster.trouble) <= cluster.trouble && cluster.Valid() && client.IsResult(user, failed)
      ensures old(user.phase) == Deprovisioned ==>
        !failed && user.AsStored() == old(user.AsStored()).(finalizers := {}, phase := Complete)
      ensures old(user.phase) == Deprovisioned ==>
        cluster.state == old(cluster.state) && cluster.run == old(cluster.run) &&
        client.sso.failed == old(client.sso.failed)
      ensures old(user.phase) != Deprovisioned ==>
        user.AsStored() == old(user.AsStored()).(phase := if failed then DeprovisionFailed else Deprovisioned)
      ensures cluster.Quiet() && old(user.phase) != Deprovisioned ==>
        TornDownIn(old(cluster.state), cluster.state, user.realm, old(client.sso.failed), client.sso.failed, !failed)
      ensures !failed && old(user.phase) != Deprovisioned ==>
        TornDownTo(old(cluster.state), cluster.state, user.realm, old(client.sso.failed), client.sso.failed)
    {
      if user.phase == Deprovisioned {
        user.finalizers := [];
        user.phase := Complete;
        failed := false;
      } else {
        var ok := client.DeprovisionRealm(user.realm);
        failed := !ok;
        user.phase := if failed then DeprovisionFailed else Deprovisioned;
      }
    }

    method Serve(user: RhpamUser, spec: UserSpec) returns (reply: Reply, ghost items: seq<Item>)
      requires Begun(user) && !user.deleting
      modifies cluster`state, cluster`run, cluster`trouble, client.sso, user
      ensures cluster.Valid() && old(cluster.trouble) <= cluster.trouble && cluster.state.user == UserIdle
      ensures Storing(old(user.AsStored())) && reply.Nil? ==>
        IsLatest(cluster.state.users, user.uid, user.version + 1)
      ensures cluster.Quiet() && old(client.Lands(user)) ==>
        reply ==
        UserReply(old(cluster.state), old(user.AsStored()), spec, items, old(client.sso.failed), client.sso.failed)
      ensures cluster.Calm() && client.sso.failed == old(client.sso.failed) && old(client.Lands(user)) ==>
        UserServed(old(cluster.state), old(user.AsStored()), spec, items, cluster.state, user.uid)
    {
      RunIsSafe(cluster.run, |cluster.run| - 1);
      var decision;
      decision, items := Dispatch(user, spec);
      reply := HandleResult(user, decision);
    }

    method ServeDeletion(user: RhpamUser) returns (reply: Reply)
      requires Begun(user) && user.deleting
      modifies cluster`state, cluster`run, cluster`trouble, client.sso, user
      ensures cluster.Valid() && old(cluster.trouble) <= cluster.trouble && cluster.state.user == UserIdle
      ensures reply.Nil? ==> StoredNext(cluster.state, user.uid, user.version, user.AsStored())
      ensures reply.Nil? ==> user.phase == if old(user.phase) == Deprovisioned then Complete else Deprovisioned
      ensures cluster.Quiet() && old(client.Lands(user)) ==>
        reply == DeletionReply(old(cluster.state), old(user.AsStored()), old(client.sso.failed), client.sso.failed)
      ensures cluster.Calm() && client.sso.failed == old(client.sso.failed) && old(client.Lands(user)) ==>
        DeletionServed(old(cluster.state), old(user.AsStored()), cluster.state, user.uid)
    {
      ghost var freed := user.phase == Deprovisioned;
      var failed := DispatchDeletion(user);
      var last := user.phase == Complete;
      var ok := client.Update(user, failed);
      reply := if ok && !failed then Nil(!last) else Err;
    }

    /** One reconcile of the RhpamUser `uid`, read at `version` with `spec` as its
        specification. It leaves the controller idle, and all it did is a run of
        the protocol. */
    method Reconcile(uid: nat, version: nat, spec: UserSpec) returns (reply: Reply, ghost items: seq<Item>)
      requires client.cluster == cluster && cluster.Valid() && cluster.state.user == UserIdle
      requires client.Reading(uid, version)
      modifies cluster, client.sso
      ensures cluster.Valid() && cluster.state.user == UserIdle && cluster.start == old(cluster.run)
      ensures Storing(old(cluster.state).users[uid][version]) && reply.Nil? ==>
        IsLatest(cluster.state.users, uid, version + 1)
      ensures cluster.Quiet() && CanStore(old(cluster.state), uid, version) ==>
        var was := old(cluster.state).users[uid][version];
        reply ==
          if was.deleting then DeletionReply(old(cluster.state), was, old(client.sso.failed), client.sso.failed)
          else UserReply(old(cluster.state), was, spec, items, old(client.sso.failed), client.sso.failed)
      ensures cluster.Calm() && client.sso.failed == old(client.sso.failed) &&
              CanStore(old(cluster.state), uid, version) ==>
        var was := old(cluster.state).users[uid][version];
        if was.deleting then DeletionServed(old(cluster.state), was, cluster.state, uid)
        else UserServed(old(cluster.state), was, spec, items, cluster.state, uid)
    {
      cluster.Begin();
      items := [];
      var user := client.Get(uid, version);
      if user.deleting {
        reply := ServeDeletion(user);
      } else {
        reply, items := Serve(user, spec);
      }
    }
  }
}
