/** Exactly when a RhpamDev gets past "realm provisioning": as long as the
    reconcile that marked it is at work and has missed no later version. */
module Recovery {
  import opened Conservation
  import opened Prelude
  import opened Protocol
  import opened ProtocolSafety
  import opened Scenarios

  // ------------------------------------------- what a reconcile's clients are

  /** The realm a reconcile has made is there, with the clients it made in it. */
  ghost predicate KnowsClients(s: State) {
    s.dev.DevBusy? ==>
      match s.dev.made
      case None => s.dev.clients == {}
      case Some(r) =>
        && r in s.realms && s.dev.clients <= ALL_CLIENTS
        && forall c :: Client(r, c) in s.clients <==> c in s.dev.clients
  }

  lemma DevKeepsClients(s: State, d: DevStep)
    requires Basic(s) && KnowsClients(s) && DevEnabled(s, d)
    ensures KnowsClients(DoDev(s, d))
  {
    if d.DevDeleteRealm? {
      assert s.dev.made == None;
    } else if d.DevCreateRealm? || d.DevCreateClient? {
      MakingKeepsClients(s, d);
    } else if d.DevMark? {
      MarkKeepsClients(s, s.dev, d.landing, d.acked);
    } else if d.DevUpdate? || d.DevReleaseUser? || d.DevGiveUp? {
      WritesKeepClients(s, d);
    } else {
      OthersKeepClients(s, d);
    }
  }

  lemma MakingKeepsClients(s: State, d: DevStep)
    requires Basic(s) && KnowsClients(s) && DevEnabled(s, d) && (d.DevCreateRealm? || d.DevCreateClient?)
    ensures KnowsClients(DoDev(s, d))
  {
  }

  lemma OthersKeepClients(s: State, d: DevStep)
    requires KnowsClients(s) && DevEnabled(s, d)
    requires d.DevRead? || d.DevFetchSecret? || d.DevFindObject? || d.DevCreateObject? ||
             d.DevSeeReady? || d.DevDeleteObject?
    ensures KnowsClients(DoDev(s, d))
  {
  }

  lemma MarkKeepsClients(s: State, w: DevWorker, landing: Mark, acked: bool)
    requires KnowsClients(s) && w == s.dev && w.DevBusy? && DevBusyEnabled(s, w, DevMark(landing, acked))
    ensures KnowsClients(DoDevBusy(s, w, DevMark(landing, acked)))
  {
  }

  lemma WritesKeepClients(s: State, d: DevStep)
    requires KnowsClients(s) && DevEnabled(s, d)
    requires d.DevUpdate? || d.DevReleaseUser? || d.DevGiveUp?
    ensures KnowsClients(DoDev(s, d))
  {
  }

  lemma EnvKeepsClients(s: State, e: EnvStep)
    requires KnowsClients(s) && EnvEnabled(s, e)
    ensures KnowsClients(DoEnv(s, e))
  {
  }

  lemma UserKeepsClients(s: State, u: UserStep)
    requires KnowsClients(s) && UserEnabled(s, u)
    ensures KnowsClients(DoUser(s, u))
  {
    UserLeavesClients(s, u);
  }

  lemma UserLeavesClients(s: State, u: UserStep)
    requires UserEnabled(s, u)
    ensures DoUser(s, u).dev == s.dev && DoUser(s, u).clients == s.clients
    ensures DoUser(s, u).realms.Keys == s.realms.Keys
  {
    if u.UserWrite? || u.UserSee? || u.UserReachRealm? {
      WorkLeavesClients(s, u);
    }
  }

  lemma WorkLeavesClients(s: State, u: UserStep)
    requires UserEnabled(s, u) && (u.UserWrite? || u.UserSee? || u.UserReachRealm?)
    ensures DoUser(s, u).dev == s.dev && DoUser(s, u).clients == s.clients
    ensures DoUser(s, u).realms.Keys == s.realms.Keys
  {
  }

  lemma StepKeepsClients(s: State, t: State)
    requires Basic(s) && KnowsClients(s) && Next(s, t)
    ensures KnowsClients(t)
  {
    var step :| Enabled(s, step) && t == Do(s, step);
    match step
    case Env(e) => EnvKeepsClients(s, e);
    case OfDev(d) => DevKeepsClients(s, d);
    case OfUser(u) => UserKeepsClients(s, u);
  }

  lemma RunKnowsClients(run: seq<State>, n: nat)
    requires IsRun(run) && n < |run|
    ensures KnowsClients(run[n])
  {
    var inv := (s: State) => KnowsClients(s);
    var along := (s: State) => Basic(s);
    forall k | 0 <= k <= n ensures along(run[k]) {
      RunStaysBasic(run, k);
    }
    forall s, t | inv(s) && Next(s, t) && along(s) && along(t) ensures inv(t) {
      StepKeepsClients(s, t);
    }
    RunKeeps(run, 0, n, inv, along);
  }

  // ------------------------------------------------------ finishing a reconcile

  lemma {:induction false} LongerThanAll(names: set<string>) returns (n: nat)
    ensures forall x | x in names :: |x| < n
    decreases names
  {
    n := 0;
    if x :| x in names {
      n := LongerThanAll(names - {x});
      n := if n <= |x| then |x| + 1 else n;
      forall y | y in names ensures |y| < n {
        assert y == x || y in names - {x};
      }
    }
  }

  /** There is always another name for a realm. */
  lemma FreshName(names: set<string>) returns (id: string)
    ensures id != "" && id !in names
  {
    var n := LongerThanAll(names);
    id := seq(n + 1, _ => 'a');
  }

  /** The marking reconcile has gone on; nothing else has happened. */
  ghost predicate GoesOn(s: State, t: State) {
    && t == s.(realms := t.realms, clients := t.clients, objects := t.objects, past := t.past, dev := t.dev)
    && s.dev.DevBusy? && t.dev.DevBusy?
    && t.dev == s.dev.(made := t.dev.made, clients := t.dev.clients, fetched := t.dev.fetched, have := t.dev.have)
    && s.dev.have <= t.dev.have
    && (s.dev.made.Some? ==> t.dev.made == s.dev.made)
    && t.past == s.past.(created := t.past.created, made := t.past.made)
  }

  ghost predicate Provisioning(s: State) {
    && s.dev.DevBusy? && s.dev.seen.phase == Phase.Accepted && !s.dev.seen.deleting && s.dev.mark != Unmarked
    && KnowsClients(s)
  }

  lemma HasRealm(run: seq<State>) returns (longer: seq<State>)
    requires IsRun(run) && Basic(Last(run)) && Provisioning(Last(run))
    ensures IsRun(longer) && run <= longer
    ensures GoesOn(Last(run), Last(longer)) && Provisioning(Last(longer)) && Last(longer).dev.made.Some?
  {
    longer := run;
    if Last(run).dev.made == None {
      var id := FreshName(Last(run).past.created);
      longer := Works(run, DevCreateRealm(id, {}));
      MakingKeepsClients(Last(run), DevCreateRealm(id, {}));
    }
  }

  lemma HasClient(run: seq<State>, c: string) returns (longer: seq<State>)
    requires IsRun(run) && Provisioning(Last(run)) && Last(run).dev.made.Some? && c in ALL_CLIENTS
    ensures IsRun(longer) && run <= longer && GoesOn(Last(run), Last(longer)) && Provisioning(Last(longer))
    ensures Last(longer).dev.made == Last(run).dev.made
    ensures Last(longer).dev.clients == Last(run).dev.clients + {c}
  {
    longer := run;
    if c in Last(run).dev.clients {
      assert Last(run).dev.clients + {c} == Last(run).dev.clients;
    } else {
      longer := Works(run, DevCreateClient(c, "s"));
    }
  }

  lemma GoesOnOn(s: State, t: State, u: State)
    requires GoesOn(s, t) && GoesOn(t, u)
    ensures GoesOn(s, u)
  {
  }

  lemma HasClients(run: seq<State>) returns (longer: seq<State>)
    requires IsRun(run) && Provisioning(Last(run)) && Last(run).dev.made.Some?
    ensures IsRun(longer) && run <= longer && GoesOn(Last(run), Last(longer)) && Provisioning(Last(longer))
    ensures Last(longer).dev.made.Some? && Last(longer).dev.clients == ALL_CLIENTS
  {
    var one := HasClient(run, BC_CLIENT);
    var two := HasClient(one, KS_CLIENT);
    GoesOnOn(Last(run), Last(one), Last(two));
    longer := HasClient(two, KS_DIRECT_CLIENT);
    GoesOnOn(Last(run), Last(two), Last(longer));
    assert Last(longer).dev.clients == ALL_CLIENTS;
  }

  lemma HasSecret(run: seq<State>, k: Key) returns (longer: seq<State>)
    requires IsRun(run) && Provisioning(Last(run)) && Last(run).dev.made.Some?
    requires Last(run).dev.clients == ALL_CLIENTS && k in Work(Phase.Accepted)
    ensures IsRun(longer) && run <= longer && GoesOn(Last(run), Last(longer)) && Provisioning(Last(longer))
    ensures Last(longer).dev.made.Some? && Last(longer).dev.clients == ALL_CLIENTS && k in Last(longer).dev.have
  {
    longer := Works(run, DevFetchSecret(ClientOf(k)));
    longer := HasObject(longer, k);
  }

  lemma HasObject(run: seq<State>, k: Key) returns (longer: seq<State>)
    requires IsRun(run) && Last(run).dev.DevBusy? && Handles(Last(run).dev, k) && k in Work(Phase.Accepted)
    requires Last(run).dev.seen.phase == Phase.Accepted
    ensures IsRun(longer) && run <= longer
    ensures Last(longer) == Last(run).(
      objects := Last(longer).objects, dev := Last(run).dev.(have := Last(run).dev.have + {k}))
  {
    if k in Last(run).objects {
      longer := FindsObject(run, k);
    } else {
      var w := Last(run).dev;
      longer := CreatesObject(run, k, RealmSecret(w.made.value, ClientOf(k), w.fetched.value.1));
    }
  }

  /** The reconcile, from wherever it is, to the end of its work. */
  lemma DoesAll(run: seq<State>) returns (longer: seq<State>)
    requires IsRun(run) && Basic(Last(run)) && Provisioning(Last(run))
    ensures IsRun(longer) && run <= longer && GoesOn(Last(run), Last(longer))
    ensures Finished(Last(longer).dev) && Result(Last(longer).dev).phase == RealmProvisioned
  {
    var one := HasRealm(run);
    var two := HasClients(one);
    GoesOnOn(Last(run), Last(one), Last(two));
    var three := HasSecret(two, BcRealmSecret);
    GoesOnOn(Last(run), Last(two), Last(three));
    longer := HasSecret(three, KsRealmSecret);
    GoesOnOn(Last(run), Last(three), Last(longer));
    assert Work(Phase.Accepted) <= Last(longer).dev.have;
  }

  ghost predicate GetsPast(run: seq<State>, longer: seq<State>, uid: nat) {
    && IsRun(longer) && run <= longer
    && uid in Last(longer).devs && Last(longer).devs[uid] != []
    && LatestDev(Last(longer), uid).phase != RealmProvisioning
  }

  lemma Finishes(run: seq<State>, uid: nat) returns (longer: seq<State>)
    requires IsRun(run) && uid in Last(run).devs && Last(run).devs[uid] != [] && Marking(Last(run), uid)
    ensures GetsPast(run, longer, uid)
  {
    RunStaysBasic(run, |run| - 1);
    RunKnowsClients(run, |run| - 1);
    longer := DoesAll(run);
    longer := Works(longer, DevUpdate);
  }

  /** In every run, a RhpamDev stored at "realm provisioning" can still get past it,
      in whatever way the run goes on, if and only if the reconcile that marked it
      is at work and knows its latest version. */
  lemma GetsPastIff(run: seq<State>, uid: nat)
    requires IsRun(run) && uid in Last(run).devs && Last(run).devs[uid] != []
    requires LatestDev(Last(run), uid).phase == RealmProvisioning
    ensures (exists longer :: GetsPast(run, longer, uid)) <==> Marking(Last(run), uid)
  {
    if Marking(Last(run), uid) {
      var longer := Finishes(run, uid);
    } else {
      forall longer ensures !GetsPast(run, longer, uid) {
        if IsRun(longer) && run <= longer {
          AbandonedStays(longer, |run| - 1, |longer| - 1, uid);
        }
      }
    }
  }
}
