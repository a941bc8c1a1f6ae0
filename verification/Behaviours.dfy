/** Whoever's turn it is, there is a calm reconcile to be done: every order of turns
    is that of some behaviour, so what is proved of behaviours is about something. */
module Behaviours {
  import opened Conservation
  import opened Convergence
  import opened Prelude
  import opened Protocol
  import opened ProtocolSafety
  import opened Recovery
  import opened Scenarios
  import opened Termination
  import opened UserController

  /** One RhpamDev and the RhpamUser `vid`, nobody at work, and the database ready. */
  ghost predicate Resting(s: State, uid: nat, vid: nat) {
    && s.dev == DevIdle && s.user == UserIdle && s.ready && !s.past.tornDown
    && s.devs.Keys == {uid} && s.devs[uid] != [] && vid in s.users && s.users[vid] != []
    && !LatestDev(s, uid).deleting && Installable(LatestDev(s, uid).phase) && !LatestUserOf(s, vid).deleting
  }

  function LatestUserOf(s: State, vid: nat): User
    requires vid in s.users && s.users[vid] != []
  {
    s.users[vid][|s.users[vid]| - 1]
  }

  /** From the end of `run` to that of `longer` one controller has had its turn. */
  ghost predicate Takes(run: seq<State>, longer: seq<State>, turn: Turn, uid: nat, vid: nat, ofUser: bool) {
    && IsRun(run) && IsRun(longer) && run <= longer
    && Resting(Last(longer), uid, vid)
    && CalmTurn(Last(run), Last(longer), uid, vid, turn)
    && turn.UserTurns? == ofUser && (turn.DevTurns? ==> turn.ready)
  }

  // --------------------------------------------------------------- the RhpamDev

  /** A RhpamDev reconcile of the latest version is under way, the rest as in `s`. */
  ghost predicate AtIt(s: State, t: State, uid: nat, vid: nat) {
    && Resting(s, uid, vid)
    && t.dev.DevBusy? && t.dev.uid == uid && t.dev.seen == LatestDev(s, uid)
    && t.users == s.users && t.user == s.user && t.ready && !t.past.tornDown
    && t.devs.Keys == {uid} && t.devs[uid] != [] && !LatestDev(t, uid).deleting
    && IsLatest(t.devs, uid, t.dev.base)
  }

  lemma Reads(run: seq<State>, uid: nat, vid: nat) returns (longer: seq<State>)
    requires IsRun(run) && Resting(Last(run), uid, vid)
    ensures IsRun(longer) && run <= longer && AtIt(Last(run), Last(longer), uid, vid)
    ensures Last(longer) == Last(run).(dev := Begun(uid, |Last(run).devs[uid]| - 1, LatestDev(Last(run), uid)))
  {
    longer := Begins(run, uid, |Last(run).devs[uid]| - 1);
  }

  lemma StoresResult(run: seq<State>, s: State, uid: nat, vid: nat) returns (longer: seq<State>)
    requires IsRun(run) && AtIt(s, Last(run), uid, vid)
    requires Finished(Last(run).dev) && Installable(Result(Last(run).dev).phase)
    ensures IsRun(longer) && run <= longer && Resting(Last(longer), uid, vid)
    ensures LatestDev(Last(longer), uid) == Result(Last(run).dev) && Last(longer).users == s.users
  {
    longer := Works(run, DevUpdate);
  }

  lemma AcceptsDev(run: seq<State>, uid: nat, vid: nat, id: string) returns (longer: seq<State>)
    requires IsRun(run) && Resting(Last(run), uid, vid) && LatestDev(Last(run), uid).phase == NoPhase
    requires id !in Last(run).realms
    ensures Takes(run, longer, DevTurns(id, true), uid, vid, false)
  {
    longer := Reads(run, uid, vid);
    longer := StoresResult(longer, Last(run), uid, vid);
  }

  lemma InstallsDev(run: seq<State>, uid: nat, vid: nat, id: string) returns (longer: seq<State>)
    requires IsRun(run) && Resting(Last(run), uid, vid) && InstallPhase(LatestDev(Last(run), uid).phase)
    requires id !in Last(run).realms
    ensures Takes(run, longer, DevTurns(id, true), uid, vid, false)
  {
    var p := LatestDev(Last(run), uid).phase;
    if p == BusinessCentralInstalled {
      DeploymentThere(Last(run), uid);
    }
    var read := Reads(run, uid, vid);
    longer := DoesAndStores(read, Last(run), uid, vid);
  }

  lemma DoesAndStores(run: seq<State>, s: State, uid: nat, vid: nat) returns (longer: seq<State>)
    requires IsRun(run) && AtIt(s, Last(run), uid, vid) && InstallPhase(LatestDev(s, uid).phase)
    requires LatestDev(s, uid).phase == BusinessCentralInstalled ==> DbDeployment in Last(run).objects
    ensures IsRun(longer) && run <= longer && Resting(Last(longer), uid, vid) && Last(longer).users == s.users
    ensures LatestDev(Last(longer), uid) == LatestDev(s, uid).(phase := NextPhase(LatestDev(s, uid).phase))
  {
    var done := DoesPhase(run, LatestDev(s, uid).phase);
    longer := StoresResult(done, s, uid, vid);
  }

  /** The mark lands, and a realm of a new name is made. */
  lemma MarksAndMakes(run: seq<State>, uid: nat, vid: nat, id: string) returns (longer: seq<State>)
    requires IsRun(run) && Resting(Last(run), uid, vid) && LatestDev(Last(run), uid).phase == Phase.Accepted
    requires id != "" && id !in Last(run).past.created
    ensures IsRun(longer) && run <= longer && AtIt(Last(run), Last(longer), uid, vid)
    ensures Last(longer).dev.made == Some(id) && Last(longer).dev.mark == Landed
  {
    var read := Reads(run, uid, vid);
    var marked := Works(read, DevMark(Landed, true));
    longer := Works(marked, DevCreateRealm(id, {}));
  }

  lemma ProvisionsDev(run: seq<State>, uid: nat, vid: nat, id: string) returns (longer: seq<State>)
    requires IsRun(run) && Resting(Last(run), uid, vid) && LatestDev(Last(run), uid).phase == Phase.Accepted
    requires id != "" && id !in Last(run).past.created && id !in Last(run).realms
    ensures Takes(run, longer, DevTurns(id, true), uid, vid, false)
  {
    var made := MarksAndMakes(run, uid, vid, id);
    RunStaysBasic(made, |made| - 1);
    RunKnowsClients(made, |made| - 1);
    var done := DoesAll(made);
    longer := StoresResult(done, Last(run), uid, vid);
  }

  lemma DevTakes(run: seq<State>, uid: nat, vid: nat) returns (longer: seq<State>, turn: Turn)
    requires IsRun(run) && Resting(Last(run), uid, vid)
    ensures Takes(run, longer, turn, uid, vid, false)
  {
    RunStaysBasic(run, |run| - 1);
    var id := FreshName(Last(run).past.created);
    turn := DevTurns(id, true);
    var p := LatestDev(Last(run), uid).phase;
    if p == NoPhase {
      longer := AcceptsDev(run, uid, vid, id);
    } else if p == Phase.Accepted {
      longer := ProvisionsDev(run, uid, vid, id);
    } else if InstallPhase(p) {
      longer := InstallsDev(run, uid, vid, id);
    } else {
      longer := run;
    }
  }

  // -------------------------------------------------------------- the RhpamUser

  lemma StoresUserResult(run: seq<State>, s: State, uid: nat, vid: nat) returns (longer: seq<State>)
    requires IsRun(run) && Resting(s, uid, vid) && Last(run).user.UserBusy?
    requires Last(run).user.uid == vid && Last(run).user.version == |s.users[vid]| - 1
    requires Last(run).user.seen == LatestUserOf(s, vid) && UserFinished(Last(run).user, false)
    requires Last(run).users == s.users && !UserResult(Last(run).user, false).deleting
    requires Resting(Last(run).(user := UserIdle), uid, vid)
    ensures IsRun(longer) && run <= longer && Resting(Last(longer), uid, vid)
    ensures Last(longer).devs == Last(run).devs && Last(longer).realms == Last(run).realms
    ensures UserAt(Last(longer), vid, UserResult(Last(run).user, false))
  {
    longer := Serves(run, UserUpdate(false));
  }

  lemma AcceptsNewUser(run: seq<State>, uid: nat, vid: nat) returns (longer: seq<State>)
    requires IsRun(run) && Resting(Last(run), uid, vid) && LatestUserOf(Last(run), vid).phase == NoPhase
    ensures Takes(run, longer, UserTurns, uid, vid, true)
  {
    var read := UserBegins(run, vid, |Last(run).users[vid]| - 1);
    longer := StoresUserResult(read, Last(run), uid, vid);
    assert UserServed(Last(run), LatestUserOf(Last(run), vid), UserSpec([], []), [], Last(longer), vid);
  }

  /** The one RhpamDev in its latest version. */
  function OnlyItemOf(s: State, uid: nat): Item
    requires uid in s.devs && s.devs[uid] != []
  {
    Item(uid, |s.devs[uid]| - 1, LatestDev(s, uid))
  }

  function LookingAt(s: State, uid: nat, vid: nat): UserWorker
    requires uid in s.devs && s.devs[uid] != [] && vid in s.users && s.users[vid] != []
  {
    var user := LatestUserOf(s, vid);
    UserBusy(vid, |s.users[vid]| - 1, user, user, true, [OnlyItemOf(s, uid)], {}, false)
  }

  lemma ListsOne(run: seq<State>, uid: nat, vid: nat) returns (longer: seq<State>)
    requires IsRun(run) && Resting(Last(run), uid, vid) && LatestUserOf(Last(run), vid).phase == Phase.Accepted
    ensures IsRun(longer) && run <= longer
    ensures Last(longer) == Last(run).(user := LookingAt(Last(run), uid, vid))
  {
    longer := UserBegins(run, vid, |Last(run).users[vid]| - 1);
    longer := Serves(longer, UserList([OnlyItemOf(Last(run), uid)]));
  }

  /** The RhpamDev listed is released, bound to, or passed by. */
  lemma Considers(run: seq<State>, s: State, uid: nat, vid: nat) returns (longer: seq<State>)
    requires IsRun(run) && Resting(s, uid, vid) && Reachable(s) && LatestUserOf(s, vid).phase == Phase.Accepted
    requires Last(run) == s.(user := LookingAt(s, uid, vid))
    ensures IsRun(longer) && run <= longer
    ensures Last(longer) == s.(user := Last(longer).user, realms := RealmsAfter(s.realms, OnlyItemOf(s, uid)),
                               devs := DevsAfter(s.devs, OnlyItemOf(s, uid)))
    ensures Last(longer).user ==
      LookingAt(s, uid, vid).(items := [], copy := BoundBy(LatestUserOf(s, vid), OnlyItemOf(s, uid)))
  {
    var p := LatestDev(s, uid).phase;
    if p == RealmProvisioned {
      CanBeFilled(s, uid);
      var filled := Fills(run);
      FilledIsAfter(Last(run), Last(filled), OnlyItemOf(s, uid));
      longer := Serves(filled, UserRelease(true));
    } else if p == Complete {
      longer := Serves(run, UserBind);
    } else {
      longer := Serves(run, UserPass);
    }
  }

  lemma BindsUser(run: seq<State>, uid: nat, vid: nat) returns (longer: seq<State>)
    requires IsRun(run) && Resting(Last(run), uid, vid) && LatestUserOf(Last(run), vid).phase == Phase.Accepted
    ensures Takes(run, longer, UserTurns, uid, vid, true)
  {
    var s := Last(run);
    var listed := ListsOne(run, uid, vid);
    assert Reachable(s);
    var considered := Considers(listed, s, uid, vid);
    longer := StoresUserResult(considered, s, uid, vid);
    OneConsidered(s, Last(longer), uid, vid);
  }

  lemma OneConsidered(s: State, t: State, uid: nat, vid: nat)
    requires Resting(s, uid, vid) && LatestUserOf(s, vid).phase == Phase.Accepted
    requires t.devs == DevsAfter(s.devs, OnlyItemOf(s, uid)) && t.realms == RealmsAfter(s.realms, OnlyItemOf(s, uid))
    requires UserAt(t, vid, BoundBy(LatestUserOf(s, vid), OnlyItemOf(s, uid)))
    ensures ServedCalmly(s, LatestUserOf(s, vid), t, vid)
  {
    var i := OnlyItemOf(s, uid);
    assert [i][1..] == [];
    assert BoundByAll(LatestUserOf(s, vid), [i]) == BoundBy(LatestUserOf(s, vid), i);
    assert DevsAfterAll(s.devs, [i]) == DevsAfter(s.devs, i);
    assert RealmsAfterAll(s.realms, [i]) == RealmsAfter(s.realms, i);
    assert i in [i];
    assert UserServed(s, LatestUserOf(s, vid), UserSpec([], []), [i], t, vid);
  }

  /** A specification that asks for a role without a name cannot be met, and may
      leave everything as it is. */
  lemma NothingServed(s: State, uid: nat, vid: nat)
    requires Resting(s, uid, vid)
    requires LatestUserOf(s, vid).phase != NoPhase && LatestUserOf(s, vid).phase != Phase.Accepted
    ensures ServedCalmly(s, LatestUserOf(s, vid), s, vid)
  {
    var spec := UserSpec([""], []);
    assert spec.roles[0] in spec.Roles();
    assert UserServed(s, LatestUserOf(s, vid), spec, [], s, vid);
  }

  lemma UserTakes(run: seq<State>, uid: nat, vid: nat) returns (longer: seq<State>)
    requires IsRun(run) && Resting(Last(run), uid, vid)
    ensures Takes(run, longer, UserTurns, uid, vid, true)
  {
    var p := LatestUserOf(Last(run), vid).phase;
    if p == NoPhase {
      longer := AcceptsNewUser(run, uid, vid);
    } else if p == Phase.Accepted {
      longer := BindsUser(run, uid, vid);
    } else {
      NothingServed(Last(run), uid, vid);
      longer := run;
    }
  }

  // ----------------------------------------------------------------- behaviours

  ghost function Taken(run: seq<State>, uid: nat, vid: nat, ofUser: bool): (r: (seq<State>, Turn))
    requires IsRun(run) && Resting(Last(run), uid, vid)
    ensures Takes(run, r.0, r.1, uid, vid, ofUser)
  {
    CanTake(run, uid, vid, ofUser);
    var longer, turn :| Takes(run, longer, turn, uid, vid, ofUser);
    (longer, turn)
  }

  lemma CanTake(run: seq<State>, uid: nat, vid: nat, ofUser: bool)
    requires IsRun(run) && Resting(Last(run), uid, vid)
    ensures exists longer, turn :: Takes(run, longer, turn, uid, vid, ofUser)
  {
    if ofUser {
      var longer := UserTakes(run, uid, vid);
    } else {
      var longer, turn := DevTakes(run, uid, vid);
    }
  }

  /** The run after `n` turns, `who` saying whose turn it is. */
  ghost function RunAfter(start: seq<State>, who: nat -> bool, uid: nat, vid: nat, n: nat): (run: seq<State>)
    requires IsRun(start) && Resting(Last(start), uid, vid)
    ensures IsRun(run) && Resting(Last(run), uid, vid)
  {
    if n == 0 then start else Taken(RunAfter(start, who, uid, vid, n - 1), uid, vid, who(n - 1)).0
  }

  ghost function StateAfter(start: seq<State>, who: nat -> bool, uid: nat, vid: nat, n: nat): State
    requires IsRun(start) && Resting(Last(start), uid, vid)
  {
    Last(RunAfter(start, who, uid, vid, n))
  }

  ghost function TurnAfter(start: seq<State>, who: nat -> bool, uid: nat, vid: nat, n: nat): (turn: Turn)
    requires IsRun(start) && Resting(Last(start), uid, vid)
    ensures turn.UserTurns? == who(n) && (turn.DevTurns? ==> turn.ready)
  {
    Taken(RunAfter(start, who, uid, vid, n), uid, vid, who(n)).1
  }

  /** What a turn in a behaviour has to be. */
  ghost predicate TurnFits(s: State, t: State, turn: Turn, uid: nat, vid: nat) {
    Continues(s, t) && s.devs.Keys == {uid} && !s.past.tornDown && CalmTurn(s, t, uid, vid, turn)
  }

  lemma TakenFits(run: seq<State>, longer: seq<State>, turn: Turn, uid: nat, vid: nat, ofUser: bool)
    requires Takes(run, longer, turn, uid, vid, ofUser) && Resting(Last(run), uid, vid)
    ensures TurnFits(Last(run), Last(longer), turn, uid, vid)
  {
  }

  lemma NextFits(start: seq<State>, who: nat -> bool, uid: nat, vid: nat, n: nat)
    requires IsRun(start) && Resting(Last(start), uid, vid)
    ensures
      TurnFits(StateAfter(start, who, uid, vid, n), StateAfter(start, who, uid, vid, n + 1),
               TurnAfter(start, who, uid, vid, n), uid, vid)
  {
    var run := RunAfter(start, who, uid, vid, n);
    var taken := Taken(run, uid, vid, who(n));
    assert RunAfter(start, who, uid, vid, n + 1) == taken.0;
    TakenFits(run, taken.0, taken.1, uid, vid, who(n));
  }

  lemma FitsThroughout(states: nat -> State, schedule: Schedule, uid: nat, vid: nat)
    requires forall n: nat :: TurnFits(states(n), states(n + 1), schedule(n), uid, vid)
    ensures Behaviour(states, schedule, uid, vid)
  {
    forall n: nat ensures TurnAt(states, schedule, uid, vid, n) {
      assert TurnFits(states(n), states(n + 1), schedule(n), uid, vid);
    }
  }

  /** From every stored state at rest, whoever's turn it is when, there is a
      behaviour with just these turns. */
  lemma EveryOrderHasBehaviour(start: seq<State>, who: nat -> bool, uid: nat, vid: nat)
    returns (states: nat -> State, schedule: Schedule)
    requires IsRun(start) && Resting(Last(start), uid, vid)
    ensures states(0) == Last(start) && Behaviour(states, schedule, uid, vid)
    ensures forall n: nat :: schedule(n).UserTurns? == who(n)
    ensures ReadyFrom(schedule, 0)
  {
    states := (n: nat) => StateAfter(start, who, uid, vid, n);
    schedule := (n: nat) => TurnAfter(start, who, uid, vid, n);
    forall n: nat ensures TurnFits(states(n), states(n + 1), schedule(n), uid, vid) {
      NextFits(start, who, uid, vid, n);
    }
    FitsThroughout(states, schedule, uid, vid);
  }

  /** Two new objects and an alternation of turns: all that termination asks for. */
  lemma TerminationIsMet() returns (states: nat -> State, schedule: Schedule, start: System)
    ensures Behaviour(states, schedule, 0, 0) && Shows(states(0), 0, 0, start)
    ensures Starting(start) && Fair(schedule)
  {
    var run := [NOTHING];
    run := Then(run, Env(CreateDev(0, {})));
    run := Then(run, Env(CreateRhpamUser(0, {})));
    run := Then(run, Env(SetReady(true)));
    start := System(FRESH, NEW_USER);
    var who := (n: nat) => n % 2 == 1;
    states, schedule := EveryOrderHasBehaviour(run, who, 0, 0);
    forall n: nat, ofUser: bool ensures TurnFrom(schedule, n, ofUser) {
      var m := if (n % 2 == 1) == ofUser then n else n + 1;
      assert schedule(m).UserTurns? == ofUser;
    }
  }
}
