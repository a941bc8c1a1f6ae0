/** Why the realm secrets can be relied on only while no "realm provisioning"
    mark is lost: the update's error is not looked at, so a reconcile whose mark
    was lost can leave a secret behind that the next one, with a new realm, keeps. */
module LostMark {
  import opened Prelude
  import opened Protocol
  import opened Scenarios
  import opened Secrets

  /** The first provisioning has lost the mark, made realm "a" and given up half way. */
  const HALF_WAY: State := INITIALIZED.(
    objects := map[BcRealmSecret := RealmSecret("a", BC_CLIENT, "s")],
    realms := map["a" := EMPTY], clients := ClientsOf("a"),
    past := Past({"a"}, [Made(0, "a", false)], true, false, false))

  lemma LosesMark() returns (run: seq<State>)
    ensures IsRun(run)
    ensures Last(run) == INITIALIZED.(
      realms := map["a" := EMPTY], past := HALF_WAY.past,
      dev := Building(1, NotLanded, "a").(clients := {}))
  {
    run := Initialized();
    run := Begins(run, 0, 1);
    run := Works(run, DevMark(NotLanded, false));
    run := Works(run, DevCreateRealm("a", {}));
    assert Last(run).past == HALF_WAY.past;
  }

  /** The first attempt: the mark is lost, and the reconcile gives up after one secret. */
  lemma HalfWay() returns (run: seq<State>)
    ensures IsRun(run) && Last(run) == HALF_WAY
  {
    run := LosesMark();
    run := AddsClients(run, "a");
    assert map[] + ClientsOf("a") == ClientsOf("a");
    run := StoresSecret(run, BcRealmSecret, "a");
    run := Works(run, DevGiveUp);
  }

  /** The second attempt: this time the mark lands, and there is another realm. */
  const REBUILT: State := HALF_WAY.(
    devs := ONLY_MARKED,
    realms := HALF_WAY.realms["b" := EMPTY], clients := ClientsOf("a") + ClientsOf("b"),
    past := HALF_WAY.past.(created := {"a", "b"}, made := [Made(0, "a", false), Made(0, "b", true)]),
    dev := Building(2, Landed, "b"))

  lemma Rebuilds() returns (run: seq<State>)
    ensures IsRun(run)
    ensures Last(run) == REBUILT.(clients := ClientsOf("a"), dev := Building(2, Landed, "b").(clients := {}))
  {
    run := HalfWay();
    run := MakesRealm(run, "b");
    assert Last(run).past == REBUILT.past;
  }

  lemma Rebuilt() returns (run: seq<State>)
    ensures IsRun(run) && Last(run) == REBUILT
  {
    run := Rebuilds();
    run := AddsClients(run, "b");
  }

  const BC_SEEN: State := REBUILT.(
    dev := Building(2, Landed, "b").(fetched := Some((BC_CLIENT, "s")), have := {BcRealmSecret}))

  /** The old secret is found, and so kept. */
  lemma FindsOldSecret() returns (run: seq<State>)
    ensures IsRun(run) && Last(run) == BC_SEEN
  {
    run := Rebuilt();
    run := StoresSecret(run, BcRealmSecret, "b");
    assert {} + {BcRealmSecret} == {BcRealmSecret};
  }

  /** The other one is created. */
  lemma KeepsOldSecret() returns (run: seq<State>)
    ensures IsRun(run)
    ensures Last(run) == REBUILT.(
      objects := HALF_WAY.objects[KsRealmSecret := RealmSecret("b", KS_CLIENT, "s")],
      dev := Building(2, Landed, "b").(fetched := Some((KS_CLIENT, "s")), have := Work(Phase.Accepted)))
  {
    run := FindsOldSecret();
    run := StoresSecret(run, KsRealmSecret, "b");
    assert Last(run).dev.have == Work(Phase.Accepted);
  }

  /** With one mark lost, a namespace with one RhpamDev and no leftovers can end
      up "realm provisioned" with two realms made for it and a secret for the one
      that is not recorded. */
  lemma LostMarkBreaksAgreement() returns (run: seq<State>)
    ensures IsRun(run) && Last(run).devs.Keys == {0} && Last(run).devs[0] != []
    ensures Last(run).past.lostMark && !Last(run).past.tornDown
    ensures Last(run).past.made == [Made(0, "a", false), Made(0, "b", true)]
    ensures LatestDev(Last(run), 0) == Provisioned("b")
    ensures !Agrees(Last(run), LatestDev(Last(run), 0), BcRealmSecret)
  {
    run := KeepsOldSecret();
    assert Result(Last(run).dev) == Provisioned("b");
    run := Works(run, DevUpdate);
    assert LatestDev(Last(run), 0) == Provisioned("b");
  }
}
