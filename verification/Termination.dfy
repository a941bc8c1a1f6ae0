/** With no call failing and nobody interfering, turns of the two controllers
    in any fair order bring a RhpamDev to "complete". */
module Termination {
  import opened Convergence
  import opened DevPhaseHandler
  import opened Ownership
  import opened Protocol
  import opened ProtocolSafety
  import opened Provisioning
  import opened UserController

  /** One RhpamDev and one RhpamUser of a namespace. */
  datatype System = System(dev: Dev, user: User)

  /** A whole reconcile of one of the controllers, with all its calls succeeding. */
  datatype Turn = DevTurns(realmId: string, ready: bool) | UserTurns

  function Act(sys: System, turn: Turn): System {
    match turn
    case DevTurns(realmId, ready) => sys.(dev := DevTurn(sys.dev, realmId, true, true, ready))
    case UserTurns =>
      match sys.user.phase
      case NoPhase =>
        sys.(user := sys.user.(phase := Phase.Accepted, finalizers := sys.user.finalizers + {FINALIZER}))
      case Accepted =>
        System(if sys.dev.phase == RealmProvisioned then sys.dev.(phase := Prepare) else sys.dev,
               BoundBy(sys.user, Item(0, 0, sys.dev)))
      case _ => sys
  }

  type Schedule = nat -> Turn

  function After(start: System, schedule: Schedule, n: nat): System {
    if n == 0 then start else Act(After(start, schedule, n - 1), schedule(n - 1))
  }

  ghost predicate TurnFrom(schedule: Schedule, n: nat, ofUser: bool) {
    exists m: nat :: n <= m && schedule(m).UserTurns? == ofUser
  }

  ghost predicate ReadyFrom(schedule: Schedule, r: nat) {
    forall m: nat | r <= m :: schedule(m).DevTurns? ==> schedule(m).ready
  }

  /** Both controllers get a turn again and again, and the database is ready from some point on. */
  ghost predicate Fair(schedule: Schedule) {
    (forall n: nat, ofUser :: TurnFrom(schedule, n, ofUser)) && exists r: nat :: ReadyFrom(schedule, r)
  }

  ghost predicate Starting(start: System) {
    && start.dev.phase == NoPhase && !start.dev.deleting
    && (start.user.phase == NoPhase || start.user.phase == Phase.Accepted) && !start.user.deleting
  }

  predicate Bound(u: User) {
    u.phase == Phase.Reconcile
  }

  /** A user that has not been bound yet and still can be. */
  predicate Unbound(u: User) {
    u.phase == NoPhase || u.phase == Phase.Accepted
  }

  predicate Alive(sys: System) {
    !sys.dev.deleting && !sys.user.deleting
  }

  /** The phases of a RhpamDev that is not being deleted. */
  predicate Installable(p: Phase) {
    Rank(p) <= 9
  }

  /** Nothing stands in the way: the RhpamDev has not been left "realm provisioning",
      and if it waits for a release, the user can still give it. */
  predicate Going(sys: System) {
    && Alive(sys) && Installable(sys.dev.phase) && sys.dev.phase != RealmProvisioning
    && (Rank(sys.dev.phase) <= 3 ==> Unbound(sys.user))
  }

  predicate Stuck(sys: System) {
    && Alive(sys)
    && (sys.dev.phase == RealmProvisioning || (Rank(sys.dev.phase) <= 3 && !Unbound(sys.user)))
  }

  /** What every turn keeps: the user is bound exactly when the RhpamDev has been released. */
  predicate InStep(sys: System) {
    && Going(sys) && (Unbound(sys.user) || Bound(sys.user))
    && (Bound(sys.user) <==> Rank(sys.dev.phase) >= 4)
    && (Bound(sys.user) ==> sys.user.realm == sys.dev.realm)
  }

  /** Turns of the RhpamDev controller that are left, that is, that will change the phase. */
  function DevTurnsLeft(p: Phase): nat {
    match p
    case NoPhase => 7
    case Accepted => 6
    case RealmProvisioned => 5
    case Prepare => 5
    case Prepared => 4
    case DatabaseInstalled => 3
    case BusinessCentralInstalled => 2
    case DatabaseReady => 1
    case _ => 0
  }

  function UserTurnsLeft(p: Phase): nat {
    match p
    case NoPhase => 2
    case Accepted => 1
    case _ => 0
  }

  function Left(sys: System): nat {
    DevTurnsLeft(sys.dev.phase) + UserTurnsLeft(sys.user.phase)
  }

  /** The turn moves a phase on. */
  predicate Effective(sys: System, turn: Turn) {
    Act(sys, turn).dev.phase != sys.dev.phase || Act(sys, turn).user.phase != sys.user.phase
  }

  /** A turn that moves a phase uses up one of the turns left; any other changes nothing. */
  lemma TurnCounts(sys: System, turn: Turn)
    requires Going(sys)
    ensures Going(Act(sys, turn))
    ensures InStep(sys) ==> InStep(Act(sys, turn))
    ensures Left(Act(sys, turn)) == Left(sys) - (if Effective(sys, turn) then 1 else 0)
    ensures !Effective(sys, turn) ==> Act(sys, turn) == sys
  {
  }

  lemma {:induction false} GoingAfter(start: System, schedule: Schedule, n: nat)
    requires Going(start)
    ensures Going(After(start, schedule, n))
    ensures InStep(start) ==> InStep(After(start, schedule, n))
  {
    if n > 0 {
      GoingAfter(start, schedule, n - 1);
      TurnCounts(After(start, schedule, n - 1), schedule(n - 1));
    }
  }

  /** From one turn to a later one either nothing has changed or fewer turns are left. */
  lemma {:induction false} SameUnlessLess(start: System, schedule: Schedule, n: nat, m: nat)
    requires Going(start) && n <= m
    ensures
      || After(start, schedule, m) == After(start, schedule, n)
      || Left(After(start, schedule, m)) < Left(After(start, schedule, n))
    decreases m
  {
    if n < m {
      SameUnlessLess(start, schedule, n, m - 1);
      GoingAfter(start, schedule, m - 1);
      TurnCounts(After(start, schedule, m - 1), schedule(m - 1));
    }
  }

  /** While the RhpamDev is not complete, the turn that moves something on is one
      of its own controller's, except that a release is the other's. */
  lemma RightTurnMoves(sys: System, turn: Turn)
    requires Going(sys) && sys.dev.phase != Complete
    requires turn.UserTurns? == (sys.dev.phase == RealmProvisioned) && (turn.DevTurns? ==> turn.ready)
    ensures Effective(sys, turn)
  {
  }

  /** While the RhpamDev is not complete, some turn is sure to come that moves it on. */
  lemma Progress(start: System, schedule: Schedule, n: nat, r: nat) returns (m: nat)
    requires Going(start) && Fair(schedule) && ReadyFrom(schedule, r) && r <= n
    requires After(start, schedule, n).dev.phase != Complete
    ensures n < m && Left(After(start, schedule, m)) < Left(After(start, schedule, n))
  {
    var sys := After(start, schedule, n);
    var k := NextTurn(schedule, n, sys.dev.phase == RealmProvisioned);
    SameUnlessLess(start, schedule, n, k);
    GoingAfter(start, schedule, k);
    MovedOn(sys, After(start, schedule, k), schedule(k));
    m := k + 1;
  }

  lemma NextTurn(schedule: Schedule, n: nat, ofUser: bool) returns (k: nat)
    requires Fair(schedule)
    ensures n <= k && schedule(k).UserTurns? == ofUser
  {
    assert TurnFrom(schedule, n, ofUser);
    k :| n <= k && schedule(k).UserTurns? == ofUser;
  }

  lemma MovedOn(sys: System, now: System, turn: Turn)
    requires Going(now) && sys.dev.phase != Complete && (now == sys || Left(now) < Left(sys))
    requires turn.UserTurns? == (sys.dev.phase == RealmProvisioned) && (turn.DevTurns? ==> turn.ready)
    ensures Left(Act(now, turn)) < Left(sys)
  {
    TurnCounts(now, turn);
    if now == sys {
      RightTurnMoves(sys, turn);
    }
  }

  lemma {:induction false} ReachesComplete(start: System, schedule: Schedule, n: nat, r: nat) returns (m: nat)
    requires Going(start) && Fair(schedule) && ReadyFrom(schedule, r) && r <= n
    ensures n <= m && After(start, schedule, m).dev.phase == Complete
    decreases Left(After(start, schedule, n))
  {
    if After(start, schedule, n).dev.phase == Complete {
      m := n;
    } else {
      var k := Progress(start, schedule, n, r);
      m := ReachesComplete(start, schedule, k, r);
    }
  }

  // ------------------------------------------------------------ counting turns

  /** The turns of one of the controllers among the first `n` that moved the RhpamDev's phase. */
  function Moves(start: System, schedule: Schedule, n: nat, ofUser: bool): nat {
    if n == 0 then 0
    else
      Moves(start, schedule, n - 1, ofUser) +
      if schedule(n - 1).UserTurns? == ofUser &&
         After(start, schedule, n).dev.phase != After(start, schedule, n - 1).dev.phase then 1 else 0
  }

  lemma {:induction false} MovesCounted(start: System, schedule: Schedule, n: nat)
    requires Starting(start)
    ensures Moves(start, schedule, n, false) == 7 - DevTurnsLeft(After(start, schedule, n).dev.phase)
    ensures Moves(start, schedule, n, true) == if Rank(After(start, schedule, n).dev.phase) >= 4 then 1 else 0
  {
    if n > 0 {
      MovesCounted(start, schedule, n - 1);
      GoingAfter(start, schedule, n - 1);
      TurnCounts(After(start, schedule, n - 1), schedule(n - 1));
    }
  }

  /** Termination: under every fair schedule the RhpamDev becomes complete and
      then stays as it is, after exactly seven turns of its own controller that
      move its phase and one of the other's; and the user is bound to its realm. */
  lemma Terminates(start: System, schedule: Schedule) returns (n: nat)
    requires Starting(start) && Fair(schedule)
    ensures After(start, schedule, n).dev.phase == Complete
    ensures Bound(After(start, schedule, n).user)
    ensures After(start, schedule, n).user.realm == After(start, schedule, n).dev.realm
    ensures Moves(start, schedule, n, false) == 7 && Moves(start, schedule, n, true) == 1
    ensures forall m: nat | n <= m :: After(start, schedule, m) == After(start, schedule, n)
  {
    var r: nat :| ReadyFrom(schedule, r);
    n := ReachesComplete(start, schedule, r, r);
    GoingAfter(start, schedule, n);
    MovesCounted(start, schedule, n);
    forall m: nat | n <= m ensures After(start, schedule, m) == After(start, schedule, n) {
      SameUnlessLess(start, schedule, n, m);
    }
  }

  // ------------------------------------------------------- exactly when it ends

  lemma {:induction false} StuckStays(start: System, schedule: Schedule, n: nat)
    requires Stuck(start)
    ensures Stuck(After(start, schedule, n)) && After(start, schedule, n).dev.phase != Complete
  {
    if n > 0 {
      StuckStays(start, schedule, n - 1);
    }
  }

  /** From whatever state, under a fair schedule the RhpamDev is completed if and
      only if it has not been left "realm provisioning" and, where it still waits
      for a release, its user has not moved on. */
  lemma CompletesIff(start: System, schedule: Schedule)
    requires Alive(start) && Installable(start.dev.phase) && Fair(schedule)
    ensures
      (exists n :: After(start, schedule, n).dev.phase == Complete) <==>
      start.dev.phase != RealmProvisioning && (Rank(start.dev.phase) <= 3 ==> Unbound(start.user))
  {
    if Going(start) {
      var r: nat :| ReadyFrom(schedule, r);
      var n := ReachesComplete(start, schedule, r, r);
    } else {
      forall n ensures After(start, schedule, n).dev.phase != Complete {
        StuckStays(start, schedule, n);
      }
    }
  }

  // -------------------------------------------- turns are what the controllers do

  /** The namespace holds these two objects, latest as in `sys`. */
  predicate Shows(s: State, uid: nat, vid: nat, sys: System) {
    s.devs.Keys == {uid} && AtLatest(s, uid, sys.dev) && UserAt(s, vid, sys.user)
  }

  ghost predicate Reachable(s: State) {
    exists run :: IsRun(run) && Last(run) == s
  }

  /** From `s` to `t` one controller has done a calm reconcile; a realm name it drew
      was not in use. */
  ghost predicate CalmTurn(s: State, t: State, uid: nat, vid: nat, turn: Turn) {
    match turn
    case DevTurns(realmId, ready) =>
      && uid in s.devs && s.devs[uid] != [] && Turned(s, t, uid, realmId)
      && realmId !in s.realms && ready == s.ready
    case UserTurns =>
      && vid in s.users && s.users[vid] != []
      && ServedCalmly(s, s.users[vid][|s.users[vid]| - 1], t, vid)
  }

  ghost predicate ServedCalmly(s: State, was: User, t: State, vid: nat) {
    exists spec, items :: UserServed(s, was, spec, items, t, vid)
  }

  /** A run that comes to `s` goes on to `t`. */
  ghost predicate Continues(s: State, t: State) {
    exists run, longer :: IsRun(run) && Last(run) == s && IsRun(longer) && run <= longer && Last(longer) == t
  }

  ghost predicate TurnAt(states: nat -> State, schedule: Schedule, uid: nat, vid: nat, n: nat) {
    && Continues(states(n), states(n + 1)) && states(n).devs.Keys == {uid} && !states(n).past.tornDown
    && CalmTurn(states(n), states(n + 1), uid, vid, schedule(n))
  }

  /** The stored state before each of the turns of a schedule, all reconciles being calm. */
  ghost predicate Behaviour(states: nat -> State, schedule: Schedule, uid: nat, vid: nat) {
    forall n: nat :: TurnAt(states, schedule, uid, vid, n)
  }

  /** A calm reconcile of the RhpamDev is its turn. */
  lemma DevReconcileIsTurn(s: State, t: State, uid: nat, vid: nat, sys: System, turn: Turn)
    requires Shows(s, uid, vid, sys) && Alive(sys) && Reachable(s) && !s.past.tornDown
    requires turn.DevTurns? && CalmTurn(s, t, uid, vid, turn) && t.devs.Keys == {uid}
    ensures Shows(t, uid, vid, Act(sys, turn))
  {
    if sys.dev.phase == BusinessCentralInstalled {
      DeploymentThere(s, uid);
    }
  }

  /** The database's deployment is there when its readiness is waited for. */
  lemma DeploymentThere(s: State, uid: nat)
    requires Reachable(s) && !s.past.tornDown && uid in s.devs && s.devs[uid] != []
    requires LatestDev(s, uid).phase == BusinessCentralInstalled
    ensures DbDeployment in s.objects
  {
    var run :| IsRun(run) && Last(run) == s;
    PhaseImpliesObjects(run, |run| - 1, uid, |s.devs[uid]| - 1, DbDeployment);
  }

  lemma FirstTwoDiffer(items: seq<Item>)
    requires OneEach(items) && |items| >= 2
    ensures items[0] in items && items[1] in items && items[0].uid != items[1].uid
  {
  }

  lemma OnlyItem(devs: map<nat, seq<Dev>>, items: seq<Item>, uid: nat)
    requires UpToDate(devs, items) && devs.Keys == {uid} && LiveDev(devs, uid)
    ensures |items| == 1 && items[0].uid == uid && items[0].dev == devs[uid][|devs[uid]| - 1]
  {
    var i :| i in items && i.uid == uid;
    forall j | j in items ensures j.uid == uid {
      assert IsLatest(devs, j.uid, j.version);
    }
    if |items| >= 2 {
      FirstTwoDiffer(items);
    }
  }

  lemma ProvisionedHasRealm(run: seq<State>, uid: nat)
    requires IsRun(run) && uid in Last(run).devs && Last(run).devs[uid] != []
    requires LatestDev(Last(run), uid).phase == RealmProvisioned
    ensures LatestDev(Last(run), uid).realm != ""
  {
    RunIsStocked(run, |run| - 1);
    DevShapes(Last(run).devs[uid], |Last(run).devs[uid]| - 1);
  }

  /** The realm to be filled is there. */
  lemma CanBeFilled(s: State, uid: nat)
    requires Reachable(s) && uid in s.devs && s.devs[uid] != []
    requires LatestDev(s, uid).phase == RealmProvisioned && !LatestDev(s, uid).deleting
    ensures LatestDev(s, uid).realm in s.realms
  {
    var run :| IsRun(run) && Last(run) == s;
    ProvisionedHasRealm(run, uid);
    RecordedRealmStands(run, |run| - 1, uid);
  }

  /** A calm reconcile of the RhpamUser is its turn. */
  lemma UserReconcileIsTurn(s: State, t: State, uid: nat, vid: nat, sys: System)
    requires Shows(s, uid, vid, sys) && Alive(sys) && Reachable(s)
    requires CalmTurn(s, t, uid, vid, UserTurns)
    ensures Shows(t, uid, vid, Act(sys, UserTurns))
  {
    var spec, items :| UserServed(s, sys.user, spec, items, t, vid);
    if sys.user.phase == Phase.Accepted {
      if sys.dev.phase == RealmProvisioned {
        CanBeFilled(s, uid);
      }
      OnlyItem(s.devs, items, uid);
      AcceptedIsTurn(s, t, uid, vid, sys, spec, items);
    }
  }

  lemma AcceptedIsTurn(s: State, t: State, uid: nat, vid: nat, sys: System, spec: UserSpec, items: seq<Item>)
    requires Shows(s, uid, vid, sys) && sys.user.phase == Phase.Accepted
    requires UserServed(s, sys.user, spec, items, t, vid)
    requires |items| == 1 && items[0].uid == uid && items[0].dev == sys.dev && CanFill(s, items[0])
    ensures Shows(t, uid, vid, Act(sys, UserTurns))
  {
    assert items[1..] == [];
    assert BoundByAll(sys.user, items) == BoundBy(sys.user, items[0]);
    assert DevsAfterAll(s.devs, items) == DevsAfter(s.devs, items[0]);
    assert AllCanFill(s, items);
  }

  lemma StaysAlive(sys: System, turn: Turn)
    requires Alive(sys)
    ensures Alive(Act(sys, turn))
  {
  }

  /** So what is stored after each turn is what the turns make of the start. */
  lemma {:induction false} StoredAfter(states: nat -> State, schedule: Schedule, uid: nat, vid: nat,
                                       start: System, n: nat)
    requires Behaviour(states, schedule, uid, vid) && Shows(states(0), uid, vid, start) && Alive(start)
    ensures Shows(states(n), uid, vid, After(start, schedule, n)) && Alive(After(start, schedule, n))
  {
    if n > 0 {
      StoredAfter(states, schedule, uid, vid, start, n - 1);
      StoredNext(states, schedule, uid, vid, After(start, schedule, n - 1), n - 1);
    }
  }

  lemma StoredNext(states: nat -> State, schedule: Schedule, uid: nat, vid: nat, sys: System, n: nat)
    requires Behaviour(states, schedule, uid, vid) && Shows(states(n), uid, vid, sys) && Alive(sys)
    ensures Shows(states(n + 1), uid, vid, Act(sys, schedule(n))) && Alive(Act(sys, schedule(n)))
  {
    assert TurnAt(states, schedule, uid, vid, n) && TurnAt(states, schedule, uid, vid, n + 1);
    ReconcileIsTurn(states(n), states(n + 1), uid, vid, sys, schedule(n));
    StaysAlive(sys, schedule(n));
  }

  lemma ReconcileIsTurn(s: State, t: State, uid: nat, vid: nat, sys: System, turn: Turn)
    requires Shows(s, uid, vid, sys) && Alive(sys) && Reachable(s) && !s.past.tornDown
    requires CalmTurn(s, t, uid, vid, turn) && t.devs.Keys == {uid}
    ensures Shows(t, uid, vid, Act(sys, turn))
  {
    if turn.DevTurns? {
      DevReconcileIsTurn(s, t, uid, vid, sys, turn);
    } else {
      UserReconcileIsTurn(s, t, uid, vid, sys);
    }
  }

  /** Termination of the controllers: calm reconciles in any fair order, with the
      database ready at last, bring a new RhpamDev to "complete", where it stays,
      with the user bound to its realm and that realm there. */
  lemma ReconcilesTerminate(states: nat -> State, schedule: Schedule, uid: nat, vid: nat, start: System)
    returns (n: nat)
    requires Behaviour(states, schedule, uid, vid) && Shows(states(0), uid, vid, start)
    requires Starting(start) && Fair(schedule)
    ensures Moves(start, schedule, n, false) == 7 && Moves(start, schedule, n, true) == 1
    ensures forall m: nat | n <= m :: CompleteIn(states(m), uid) && BoundIn(states(m), uid, vid)
  {
    n := Terminates(start, schedule);
    forall m: nat | n <= m ensures CompleteIn(states(m), uid) && BoundIn(states(m), uid, vid) {
      StoredAfter(states, schedule, uid, vid, start, m);
    }
  }

  /** And from any stored state they do so exactly if the RhpamDev has not been left
      "realm provisioning" and its user has not moved on without releasing it. */
  lemma ReconcilesCompleteIff(states: nat -> State, schedule: Schedule, uid: nat, vid: nat, start: System)
    requires Behaviour(states, schedule, uid, vid) && Shows(states(0), uid, vid, start)
    requires Alive(start) && Installable(start.dev.phase) && Fair(schedule)
    ensures
      (exists n: nat :: CompleteIn(states(n), uid)) <==>
      start.dev.phase != RealmProvisioning && (Rank(start.dev.phase) <= 3 ==> Unbound(start.user))
  {
    CompletesIff(start, schedule);
    if Going(start) {
      var n: nat :| After(start, schedule, n).dev.phase == Complete;
      StoredAfter(states, schedule, uid, vid, start, n);
      assert CompleteIn(states(n), uid);
    } else {
      forall n: nat ensures !CompleteIn(states(n), uid) {
        StoredAfter(states, schedule, uid, vid, start, n);
        assert After(start, schedule, n).dev.phase != Complete;
      }
    }
  }

  predicate CompleteIn(s: State, uid: nat) {
    uid in s.devs && s.devs[uid] != [] && LatestDev(s, uid).phase == Complete
  }

  /** The user is bound to the realm the RhpamDev records. */
  predicate BoundIn(s: State, uid: nat, vid: nat) {
    && uid in s.devs && s.devs[uid] != [] && vid in s.users && s.users[vid] != []
    && Bound(s.users[vid][|s.users[vid]| - 1])
    && s.users[vid][|s.users[vid]| - 1].realm == LatestDev(s, uid).realm
  }
}
