# A verified model of the RHPAM dev operator

The operator provisions a Red Hat Process Automation Manager environment with two controllers. The
RhpamDev controller makes a Keycloak realm and installs a database, Business Central and a KieServer,
one phase per reconcile. The RhpamUser controller fills realms with roles and users. The two share
state only through the phases stored in their custom resources and through Keycloak. Beside them, a set
of database triggers keeps an index of the large objects in use.

This project models the three in Dafny and proves what they promise. `dafny verify dfyconfig.toml`
checks all of it.

## The parts

**The RhpamUser reconciler** (`Realms`, `Convergence`, `KeycloakServer`, `UserPhaseHandler`). A realm is a
set of roles and a map from users to their roles. `KeycloakServer.Keycloak` is the admin interface for one
realm: every call may be hit by a network failure, and a write that fails may or may not have landed. It keeps
a list of the requests that a failure has cost their answer, so a contract can say exactly which failures make
a call fail and which go unnoticed. The phase handler is written call by call, with mutable maps of pair
objects, walked in an arbitrary order and with the early returns of the Go code. Its contract is that all writes since the call began are ones that
reconciliation towards the specification may issue. What follows from that for any number of runs, cut off
anywhere, is proved about histories of writes: the target does not move, every write comes closer to it,
and an undisturbed run afterwards ends where one at the beginning would have.
`UserPhaseHandler.PhaseHandler.Serve` makes calls of every kind in any order and keeps the defaults.

**The provisioning protocol** (`Protocol` and the modules that import it). One state machine holds the API
server, Keycloak, the environment and both controllers. Stored objects keep all their versions: a read
may return an old one, an update lands only on the latest (compare-and-swap on the version). Each step is
one call, so every interleaving at the level of API calls is a run. The dropped update errors are steps
that may fail to land. `ProtocolSafety`, `Handshake`, `Provisioning`, `Conservation`, `Secrets`, `Leftovers`,
`Ownership` and `Teardown` prove what every run keeps. `ApiServer`, `DevPhaseHandler` and `UserController` are
the two controllers themselves, call by call; between any two calls the other actors may do any number of
steps. Their contracts say that whatever they do is a run of the machine, so all that is proved about runs
holds for them, and that a reconcile that nothing gets in the way of does the turn of its phase. Calls whose
errors the code does not look at are told apart from the others, so the contracts also say what is answered
when only such a call has failed.
`Termination` chains such reconciles, in any fair order, and `Behaviours` shows that every order can be had.
`Scenarios`, `LostMark`, `Recovery` and `Deletion` build runs: those that end where the code falls short, and
those by which it recovers. `Finalizers` is the list both kinds of objects carry.

`RealmWork` joins the two halves. What the RhpamUser controller does inside a realm are the phase handler's calls,
with all their failures, and `UserController` makes their writes in the protocol, one by one, the others acting
in between. Nobody else writes to a realm's roles and users (`UserController.DevLeavesRealms`), so what the
handler reads is what it has written, or the realm has been deleted and all further calls fail.
`RealmReplay` says the same of histories and runs.

**The large-object triggers** (`LargeObjects`, `LargeObjectIndex`). A class with the 24 row triggers, which are four kinds
on each of six columns, and the three statements that fire them, row by row in any order, BEFORE triggers as each row changes
and AFTER triggers when the statement is through.

## Where the code falls short

These are results about the code as it is, each with the exact condition or a concrete input.

- One error-free reconcile need not reach the target: Keycloak grants a realm's own default roles to every
  new user, and the run that creates a user does not take them away again. It reaches the target if and
  only if no such grant goes beyond the user's list (`Convergence.OutcomeIsTarget`); two runs always do
  (`Convergence.TwoRunsReachTarget`).
- An `UPDATE` that hands an id from one row to another takes the id out of the index, so the large object
  would be vacuumed (`LargeObjectIndex.SwapLosesBoth`). The index is exact if and only if the ids a statement
  stores are in use nowhere (`LargeObjectIndex.ExactIffFresh`), and each stored id is in it if and only if
  none is given up by one cell and still held by another (`LargeObjectIndex.CoversIffNoneDropped`).
- A realm secret that is found is kept, whatever it says. So a reconcile that provisions a realm leaves both
  secrets naming it, with their clients' secrets, if and only if neither was there when it began. That is so
  call by call (`DevPhaseHandler.PhaseHandler.ProvisionRealm`) and in every run, from then on until one of them
  is deleted (`Leftovers.SecretsAgreeExactly`). A secret may be left by another RhpamDev, by an incomplete
  teardown, or by an attempt whose "realm provisioning" mark was lost (`LostMark.LostMarkBreaksAgreement`);
  with one RhpamDev, no mark lost and nothing torn down it cannot happen (`Secrets.SecretAgreement`).
- A RhpamDev that is stored at "realm provisioning" can get past it, however the run goes on, if and only if the
  reconcile that marked it is still at work and knows its latest version (`Recovery.GetsPastIff`). Otherwise no
  retry moves it on, and deleting it does not either, because it records no realm that could be deleted
  (`Deletion.DeletedTooEarly`).
  A mark that lands and one failing call after it are enough (`Scenarios.GivesUpAfterMark`).
- A RhpamDev that is being deleted can still go, however the run goes on, if and only if its realm is there or the
  reconcile that deleted the realm is at work and knows the latest version (`Deletion.EndsIff`): deleting a realm that
  is gone is answered with an error, so a deprovisioning that failed half way (`Deletion.FailsHalfWay`), or one
  before there was a realm (`Deletion.DeletedTooEarly`), is never made good.
- A RhpamUser that is being deleted can still go, however the run goes on, if and only if it is "deprovisioned", its
  realm is there, the RhpamDev reconcile that deleted the realm is at work and can free it, or its own reconcile
  of the latest version has got through to the realm (`Deletion.UserGoesIff`). One deleted after it was accepted and
  before it is bound never goes (`Deletion.DeletedBeforeBound`).
- The error of the update that releases a RhpamDev is dropped too, while the user moves on. With one RhpamDev and
  one RhpamUser, neither being deleted, calm reconciles in a fair order complete the RhpamDev if and only if it
  was not left at "realm provisioning" and, while it still has to be released, the user has not been bound yet
  (`Termination.ReconcilesCompleteIff`). `Scenarios.LosesRelease` is a run to a pair that is never completed.
- A RhpamUser that is not gone carries the operator's finalizer if and only if it came with it or was accepted
  before (`ProtocolSafety.UserShapes`, `Handshake.UserFinalizerInvariant`). One that is deleted before it is first
  looked at has its deprovisioning tried all the same, without the finalizer (`Scenarios.FailsWithoutFinalizer`).
- A step keeps a realm ended if and only if it is no listing that shows the realm's RhpamDev as complete or
  "realm provisioned" (`Teardown.StepKeepsEndedIff`); such a listing, read from a stale cache, binds a user to
  a realm that is gone (`Scenarios.BindsToEndedRealm`).
- The deletes of a deprovisioning name the Business Central service twice and the KieServer service never,
  so the latter is left to garbage collection (`DevPhaseHandler.OnlyKsServiceStays`).

## Assumptions

- The look-up of a user by name is exact, so a user is identified by its name. The client takes the first
  search result without comparing names (pkg/keycloak/keycloakclient.go:114-117).
- Names are compared as they are; Keycloak's own normalisation of user names is not modelled.
- Deleting a role takes it away from all users. A new user starts with the realm's default roles, which are
  those of templates/rhsso/realm.json:35-38 for a realm the operator made.
- A name drawn by `generateToken` (pkg/controller/rhpamdev/phaseHandler.go:574-581) is not that of a realm deleted
  before. It may be in use: the generator is seeded with the second, so a quick retry draws the same name, and
  Keycloak refuses the realm.
- Reads of the two custom resources may be stale. Reads of secrets, config maps and templated resources are not, and
  neither are Keycloak's answers; a list of a realm's users or roles holds all of them, whatever the page size.
- The garbage collection that the owner references ask for (pkg/controller/rhpamdev/phaseHandler.go:490, 527 and 555)
  is no step: objects go only by the deletes of a deprovisioning. This matters once a RhpamDev is gone. Another one
  of the namespace would lose the objects they shared (`Provisioning.PhaseImpliesObjects`), and a secret of the
  first would be found only until it is collected (`Leftovers.SecretsAgreeExactly`).
- Each controller does one reconcile at a time, which is the default of the controller runtime
  (pkg/controller/rhpamdev/rhpamdev_controller.go:100-105).

## Model

| member | source | states |
|---|---|---|
| Realms.DefaultsSurvive | pkg/controller/rhpamuser/phaseHandler.go:114-128 | In any history of writes that delete no default, a default role or user that was in the realm stays in it. |
| UserPhaseHandler.PhaseHandler.Serve | pkg/controller/rhpamuser/phaseHandler.go:54-131 | Default protection: any number of fillings, runs towards any specifications and deprovisionings, in any order and with any failures, leave every default role and user that was there; once a filling has succeeded, all defaults are there from then on. |
| Realms.Apply | pkg/keycloak/keycloakclient.go:439-460 | A write that Keycloak accepts keeps the realm well-formed: no empty names, and nobody holds a role that is not there. |
| Convergence.ListedLastWins | pkg/controller/rhpamuser/phaseHandler.go:172-178 | Of several specification entries for one user the last one decides its roles. |
| Convergence.ListedOnly | pkg/controller/rhpamuser/phaseHandler.go:172-178 | The users asked for are exactly those with an entry. |
| Convergence.WriteKeepsTarget | pkg/controller/rhpamuser/phaseHandler.go:189-238 | No write the reconciler may issue moves the target, or changes whether the specification can be met. |
| Convergence.OutcomeIsTarget | pkg/controller/rhpamuser/phaseHandler.go:133-238 | One error-free run ends at the target (listed and default roles, listed and default users, listed roles per listed user) if and only if it creates no user whom the server hands an unlisted role. |
| Convergence.TwoRunsReachTarget | pkg/controller/rhpamuser/phaseHandler.go:133-238 | Two error-free runs end at the target from any realm. |
| Convergence.RetryConfluence | pkg/controller/rhpamuser/phaseHandler.go:89-372 | After any number of runs cut off at any call, with or without its effect, an error-free run ends with what an uninterrupted one from the original realm would have produced, if no new user is handed an unlisted role by the server; a second run reaches the target of the original realm in any case. |
| Convergence.OneRunMayFallShort | pkg/controller/rhpamuser/phaseHandler.go:271-299 | A concrete realm and specification for which one error-free run misses the target. |
| Convergence.NilErrorCertifies | pkg/controller/rhpamuser/phaseHandler.go:199-229 | What success means even if calls failed: exact roles, every listed user with its roles, and no surplus but default users and users whose deletion failed. |
| Convergence.WriteReducesDistance | pkg/controller/rhpamuser/phaseHandler.go:189-372 | Each write that takes effect lowers the number of roles, users and grants that differ from the target, if the specification can be met and the server hands no new user an unlisted role. |
| Convergence.WriteMovesTowardsTarget | pkg/controller/rhpamuser/phaseHandler.go:189-372 | If the specification can be met, whatever a write changes it changes to what the target has, except exactly the roles that the server hands a listed user on its creation beyond its list. |
| Convergence.WriteReducesAhead | pkg/controller/rhpamuser/phaseHandler.go:189-372 | For every specification that can be met, each write that takes effect takes something from what lies ahead (the differences from the target, and the roles the server will hand out beyond a list) and adds nothing to it. |
| Convergence.WritesBounded | pkg/controller/rhpamuser/phaseHandler.go:189-372 | However often it is cut off and retried, reconciliation towards a specification that can be met has at most as many effective writes as there were differences at its start and roles the server would hand out beyond a list; the latter are none if no new user is handed an unlisted role. |
| Convergence.NothingAllowedAtTarget | pkg/controller/rhpamuser/phaseHandler.go:189-372 | At the target there is no write left that the reconciler could issue with effect. |
| Convergence.DistanceZeroAtTarget | pkg/controller/rhpamuser/phaseHandler.go:189-372 | No differences are left exactly at the target (realm default roles aside). |
| KeycloakServer.Keycloak.Send | pkg/keycloak/keycloakclient.go:60-86 | A write lands completely or not at all; it succeeds exactly if it is accepted and no failure costs its answer, and a failed one may have landed all the same. |
| UserPhaseHandler.PairRoles | pkg/controller/rhpamuser/phaseHandler.go:133-148 | The pairs are the full outer join of the names there and the names wanted, one pair object per name. |
| UserPhaseHandler.PairUsers | pkg/controller/rhpamuser/phaseHandler.go:157-180 | The same for users with their roles. |
| UserPhaseHandler.PhaseHandler.CreateRole | pkg/controller/rhpamuser/phaseHandler.go:253-269 | At most the one creation is written; it succeeds exactly if the name is not empty and no answer was lost, and then the role is there. |
| UserPhaseHandler.PhaseHandler.CreateUser | pkg/controller/rhpamuser/phaseHandler.go:283-299 | The same for a user. |
| UserPhaseHandler.PhaseHandler.DeleteUser | pkg/controller/rhpamuser/phaseHandler.go:301-311 | At most the one deletion is written; it fails exactly if the answer to that is lost: a user who is not found, or not found because the look-up failed, counts as deleted. |
| UserPhaseHandler.PhaseHandler.CreateUserRealmRole | pkg/controller/rhpamuser/phaseHandler.go:313-341 | Grants only what is missing; it succeeds exactly if user and role are there and no answer was lost, and then the user has the role. |
| UserPhaseHandler.PhaseHandler.DeleteUserRealmRole | pkg/controller/rhpamuser/phaseHandler.go:343-372 | Revokes only what is there; it succeeds exactly if the user is there and no answer was lost, and then the user no longer has the role. |
| UserPhaseHandler.PhaseHandler.ReconcileRole | pkg/controller/rhpamuser/phaseHandler.go:189-197 | Touches one role only; on success that role is there exactly if listed or a default that was there; it succeeds exactly if the name is not empty and no answer was lost. |
| UserPhaseHandler.PhaseHandler.ReconcileRoles | pkg/controller/rhpamuser/phaseHandler.go:133-155 | In any order of the pair map, success means the roles are the kept ones and every grant of a dropped role is gone; nothing is sent if they already are. |
| UserPhaseHandler.PhaseHandler.ReconcileUserRealmRole | pkg/controller/rhpamuser/phaseHandler.go:231-238 | Touches one grant only; on success it is there exactly if listed. |
| UserPhaseHandler.PhaseHandler.ReconcileUserRoles | pkg/controller/rhpamuser/phaseHandler.go:212-228 | On success a user both sides know has exactly its listed roles. |
| UserPhaseHandler.PhaseHandler.CreateUserWithRealmRoles | pkg/controller/rhpamuser/phaseHandler.go:271-281 | On success the new user has its listed roles and those the server added. |
| UserPhaseHandler.PhaseHandler.UsersWithRoles | pkg/controller/rhpamuser/phaseHandler.go:157-171 | The snapshot lists every user with exactly its roles. |
| UserPhaseHandler.PhaseHandler.ReconcileUser | pkg/controller/rhpamuser/phaseHandler.go:199-229 | Touches one user only; success means the user is settled, or is an unwanted one whose deletion failed. It succeeds exactly if a listed user can have its roles and nothing failed but the deletion of an unwanted user, which is not reported. |
| UserPhaseHandler.PhaseHandler.ReconcileUsers | pkg/controller/rhpamuser/phaseHandler.go:157-187 | In any order, success certifies the outcome up to unwanted users, no more of them than there were failures; it succeeds exactly if the listed users can have their roles and nothing failed but deletions of unwanted users. |
| UserPhaseHandler.PhaseHandler.Reconcile | pkg/controller/rhpamuser/phaseHandler.go:89-102 | All writes are ones towards the specification; a nil error certifies the outcome up to unwanted users, and is given exactly if the specification can be met and nothing failed but looking up or deleting an unwanted user; without failures the result is exactly the outcome; at the target nothing is sent. |
| UserPhaseHandler.PhaseHandler.ReconcileAgain | pkg/controller/rhpamuser/rhpamuser_controller.go:122-137 | A run after any others, cut off anywhere, succeeds exactly if the specification can be met in the realm at their start and nothing failed but deletions of unwanted users; unless a new user is handed an unlisted role it then has the target of that realm, without failures exactly, else up to such users. |
| UserPhaseHandler.PhaseHandler.ReconcileUntil | pkg/controller/rhpamuser/rhpamuser_controller.go:122-137 | So do any number of runs: if the last one succeeds, the specification could be met in the original realm, and its target is there up to users nobody wants. |
| UserPhaseHandler.PhaseHandler.ProvisionDefaults | pkg/controller/rhpamuser/phaseHandler.go:54-75 | It succeeds exactly if no answer was lost, and then the realm has got the default roles, users and grants and nothing else; whatever fails, it is on the way there and no further. |
| UserPhaseHandler.ProvisionedIs | pkg/controller/rhpamuser/phaseHandler.go:54-75 | What a filled realm is: the roles and the default ones, the users and the default ones, each with what it had, or what the server gives a new user, and the roles listed for it as a default user. |
| UserPhaseHandler.PhaseHandler.Deprovision | pkg/controller/rhpamuser/phaseHandler.go:104-131 | It succeeds exactly if nothing failed but listing the roles, which goes unnoticed; then only default users are left, and only default roles, or all roles if they could not be listed; whatever fails, no default goes and no grant is changed. |
| LargeObjects.Database.BeforeUpdate | resources/postgresql-jbpm-lo-trigger-clob.sql:25-41 | Adds one entry for a changed, non-null new value. |
| LargeObjects.Database.AfterUpdate | resources/postgresql-jbpm-lo-trigger-clob.sql:43-59 | Takes out all entries for a changed, non-null old value. |
| LargeObjects.Database.BeforeInsert | resources/postgresql-jbpm-lo-trigger-clob.sql:7-23 | Adds one entry for a non-null value. |
| LargeObjects.Database.AfterDelete | resources/postgresql-jbpm-lo-trigger-clob.sql:61-77 | Takes out all entries for a non-null old value. |
| LargeObjects.Database.InsertRows | resources/postgresql-jbpm-lo-trigger-clob.sql:7-23 | In any row order the statement has the effect `Executes` describes, or fails as a whole on a key that exists. |
| LargeObjects.Database.UpdateRows | resources/postgresql-jbpm-lo-trigger-clob.sql:25-59 | All BEFORE triggers in any order, then all AFTER triggers in any order: an id given up by any row ends with no entry, any other gains one entry per cell that received it. |
| LargeObjects.Database.DeleteRows | resources/postgresql-jbpm-lo-trigger-clob.sql:61-77 | An id held by any deleted cell ends with no entry; all others keep theirs. |
| LargeObjectIndex.ExactIffFresh | resources/postgresql-jbpm-lo-trigger-clob.sql:1-448 | A statement keeps the index exact (each stored id once, nothing else) if and only if the ids it stores are in use nowhere and stored once. |
| LargeObjectIndex.CoversIffNoneDropped | resources/postgresql-jbpm-lo-trigger-clob.sql:1-448 | Every stored id stays in the index if and only if no id given up by one cell is still held by another afterwards. |
| LargeObjectIndex.SwapLosesBoth | resources/postgresql-jbpm-lo-trigger-clob.sql:25-59 | Swapping two ids in one UPDATE leaves both without an entry. |
| LargeObjectIndex.RunMirrorsIffFresh | resources/postgresql-jbpm-lo-trigger-clob.sql:1-448 | The index is exact throughout a run of statements if and only if every statement stores only ids not in use. |
| LargeObjectIndex.UpdateRowExecutes | resources/postgresql-jbpm-lo-trigger-clob.sql:25-59 | The two triggers of one row, one after the other, are what an UPDATE of that row alone does. |
| LargeObjectIndex.OneByOneAgrees | resources/postgresql-jbpm-lo-trigger-clob.sql:25-59 | If no row receives an id another gives up, a multi-row UPDATE ends like the same rows updated one at a time, in any order. |
| LargeObjectIndex.OneByOneDiffers | resources/postgresql-jbpm-lo-trigger-clob.sql:25-59 | And only then: otherwise some order ends differently. |
| Finalizers.AddFinalizer | pkg/controller/common/utils.go:49-58 | The finalizer is added, none is lost, none is there twice, and they are stored in ascending order; a list in order that has it stays as it is. |
| Finalizers.FirstDifferenceDecides | pkg/controller/common/utils.go:54-56 | The order is that of strings: the first place where two differ decides, and a string comes before those it begins. |
| Finalizers.OneAscendingList | pkg/controller/common/utils.go:54-56 | The stored list is a function of the set of finalizers: there is one list in order. |
| ProtocolSafety.DevOnlyForward | pkg/controller/rhpamdev/rhpamdev_controller.go:164-213 | Between stored versions the phase never goes back, a recorded realm stays, deletion is final. |
| ProtocolSafety.DevShapes | pkg/controller/rhpamdev/phaseHandler.go:40-169 | A stored RhpamDev has a realm exactly from "realm provisioned" on, and past its first phase carries the finalizer until it is gone. |
| ProtocolSafety.UserShapes | pkg/controller/rhpamuser/phaseHandler.go:25-87 | A stored RhpamUser at "reconcile" has a realm and one before that has none; until it is gone after its deprovisioning it carries the operator's finalizer exactly if it came with it or some version up to this one was "accepted", so always past its first phase unless its deprovisioning failed without a realm. |
| ProtocolSafety.StepKeepsBasic | pkg/controller/rhpamdev/rhpamdev_controller.go:132-212 | Every step of every actor keeps the well-formed version logs and what each controller knows of them, with stale reads and compare-and-swap. |
| Handshake.HandshakeSafety | pkg/controller/rhpamuser/phaseHandler.go:48-84 | In every run, with any number of users, a RhpamDev ever stored at "prepare provisioning" or later has all default roles and users in its realm, as long as the realm exists. |
| Handshake.StoredPhaseOnlyForward | pkg/controller/rhpamdev/rhpamdev_controller.go:164-213 | In every run a stored phase only moves forward in rank, one legal move at a time. |
| Handshake.OnlyFinishedStepsMovePhase | pkg/controller/rhpamdev/phaseHandler.go:66-67 | A stored phase moves only by the mark, by the update of a reconcile that did all its phase asks for, or by a release after all defaults were seen to; so a failed reconcile leaves it alone but for the mark. |
| Handshake.DevFinalizerInvariant | pkg/controller/rhpamdev/rhpamdev_controller.go:166-172 | In every run a RhpamDev keeps its finalizers and, past its first phase, the operator's, until the update that follows a deprovisioning, which is its last version. |
| Handshake.UserFinalizerInvariant | pkg/controller/rhpamuser/rhpamuser_controller.go:98-112 | In every run a RhpamUser keeps its finalizers until the update that follows a deprovisioning, which is its last version, and till then has the operator's exactly if it came with it or was accepted. |
| Scenarios.FailsWithoutFinalizer | pkg/controller/rhpamuser/rhpamuser_controller.go:98-112 | A concrete run in which a user deleted before it was first looked at fails its deprovisioning and has no operator's finalizer. |
| Provisioning.PhaseImpliesObjects | pkg/controller/rhpamdev/phaseHandler.go:171-256 | In every run, until a deprovisioning deletes something, a RhpamDev has every object of its phase and of all earlier ones. |
| Provisioning.WorkMeetsNeeds | pkg/controller/rhpamdev/phaseHandler.go:171-256 | Completing a phase adds to what is needed exactly the work of that phase. |
| Provisioning.KieServerWaitsForDatabase | pkg/controller/rhpamdev/phaseHandler.go:231-256 | In every run no KieServer object exists before the database deployment was there and ready. |
| Provisioning.ObjectsWrittenOnce | pkg/controller/rhpamdev/phaseHandler.go:452-557 | In every run an object once stored keeps its first contents through all retries; so do the random database credentials. |
| Conservation.RealmConservation | pkg/controller/rhpamdev/phaseHandler.go:62-169 | In every run the reconciles of one RhpamDev whose mark landed make at most one realm, and it is the recorded one or the phase is still "realm provisioning". |
| Conservation.AbandonedStays | pkg/controller/rhpamdev/rhpamdev_controller.go:174-205 | Once the reconcile that marked it is over without a result, or has missed a later version, a RhpamDev stays "realm provisioning" in every run. |
| Recovery.GetsPastIff | pkg/controller/rhpamdev/phaseHandler.go:62-169 | In every run, a RhpamDev stored at "realm provisioning" gets past it in some continuation if and only if the reconcile that marked it is at work and knows its latest version. |
| Deletion.EndsIff | pkg/controller/rhpamdev/phaseHandler.go:258-268 | In every run, a RhpamDev being deleted is gone in some continuation if and only if its realm is there, or the reconcile that deleted it is at work and knows the latest version. |
| Deletion.FailsHalfWay | pkg/controller/rhpamdev/phaseHandler.go:258-276 | A concrete run in which a deprovisioning deletes the realm and then fails, so that the RhpamDev never goes. |
| Deletion.DeletedTooEarly | pkg/controller/rhpamdev/phaseHandler.go:258-268 | A concrete run in which a RhpamDev is deleted before it has a realm, and so never goes. |
| Deletion.UserGoesIff | pkg/controller/rhpamuser/rhpamuser_controller.go:98-112 | In every run, a RhpamUser being deleted is gone in some continuation if and only if it is "deprovisioned", its realm is there, the RhpamDev reconcile that deleted the realm is at work, or its own reconcile of the latest version has got through to the realm. |
| Deletion.DeletedBeforeBound | pkg/controller/rhpamuser/rhpamuser_controller.go:98-112 | A concrete run in which a user is deleted after it was accepted and before it is bound, and so never goes. |
| Scenarios.GivesUpAfterMark | pkg/controller/rhpamdev/phaseHandler.go:65-74 | A concrete run whose mark lands and whose next call fails, which leaves the RhpamDev so for good. |
| Secrets.SecretAgreement | pkg/controller/rhpamdev/phaseHandler.go:145-166 | With one RhpamDev, no mark lost and nothing torn down, from "realm provisioned" on both realm secrets name the recorded realm and carry the secrets of their clients. |
| Secrets.SecretsNeverChange | pkg/controller/rhpamdev/phaseHandler.go:502-529 | And no later step or retry changes them. |
| Leftovers.SecretsAgreeExactly | pkg/controller/rhpamdev/phaseHandler.go:502-529 | In every run, with any number of RhpamDevs and lost marks: once a reconcile has recorded a realm, and as long as neither secret is deleted, both name that realm and carry their clients' secrets if and only if neither was there when the reconcile began. |
| LostMark.LostMarkBreaksAgreement | pkg/controller/rhpamdev/phaseHandler.go:66-67 | A concrete run with one lost mark that ends with two realms made and a secret for the wrong one. |
| Ownership.RealmsAreNotShared | pkg/controller/rhpamdev/phaseHandler.go:76-86 | In every run no two RhpamDevs ever record the same realm. |
| Ownership.RecordedRealmStands | pkg/controller/rhpamdev/phaseHandler.go:258-268 | In every run the realm that a RhpamDev records is there until the RhpamDev is deleted. |
| Teardown.DeprovisioningEndsRealm | pkg/controller/rhpamdev/phaseHandler.go:258-283 | A deprovisioned RhpamDev whose users are freed has ended its realm: nobody has it, names it or is about to bind to it. |
| Teardown.ReconcileEndsRealm | pkg/controller/rhpamdev/rhpamdev_controller.go:166-172 | A calm reconcile of a RhpamDev being deleted ends its realm. |
| Teardown.TeardownIsolation | pkg/controller/rhpamdev/phaseHandler.go:258-283 | Once ended, a realm stays so, no user being bound to it again, while no listing shows the RhpamDev it belonged to as complete or "realm provisioned". |
| Teardown.StepKeepsEndedIff | pkg/controller/rhpamuser/phaseHandler.go:39-53 | A step keeps a realm ended if and only if it is no such listing. |
| UserController.BindsToLast | pkg/controller/rhpamuser/phaseHandler.go:48-82 | An unbound user whose list of RhpamDevs has been gone through is bound to a realm if and only if the last listed one that is complete or "realm provisioned" records that realm. |
| Scenarios.BindsToEndedRealm | pkg/controller/rhpamuser/phaseHandler.go:39-53 | A concrete run to a complete RhpamDev and through its teardown, after which a user reads an old listing and is bound to the realm that is gone. |
| Teardown.FreedUserJustGoes | pkg/controller/rhpamuser/rhpamuser_controller.go:98-103 | Deleting a "deprovisioned" user takes no Keycloak call; all such a reconcile can do is clear the finalizers. |
| ApiServer.Cluster.UpdateMark | pkg/controller/rhpamdev/phaseHandler.go:65-67 | The mark lands on the latest version only, its error is dropped, and the copy's version moves on only if the answer arrived. |
| ApiServer.Cluster.Update | pkg/controller/rhpamdev/rhpamdev_controller.go:207-212 | A result lands on the latest version only, and success means that it is stored. |
| DevPhaseHandler.PhaseHandler.Initialize | pkg/controller/rhpamdev/phaseHandler.go:40-60 | Accepts the RhpamDev and adds the finalizer. |
| DevPhaseHandler.PhaseHandler.GetClientSecret | pkg/controller/rhpamdev/phaseHandler.go:424-441 | The secret returned is that of the client of the given name; without failures it is found exactly if realm and client are there. |
| DevPhaseHandler.PhaseHandler.CreateSecret | pkg/controller/rhpamdev/phaseHandler.go:502-529 | On success the object is there; one that was there is unchanged and a new one has the given contents. A failed look-up does not make it fail. |
| DevPhaseHandler.PhaseHandler.CreateResource | pkg/controller/rhpamdev/phaseHandler.go:463-500 | The same for a templated resource, where only "not found" leads to creation: after any other answer nothing has been stored. |
| DevPhaseHandler.PhaseHandler.CreateResources | pkg/controller/rhpamdev/phaseHandler.go:452-461 | On success each of them was found or created; without failures it succeeds. |
| DevPhaseHandler.PhaseHandler.CreateRealmSecret | pkg/controller/rhpamdev/phaseHandler.go:145-162 | A secret it creates names the realm and carries the client's own secret. |
| DevPhaseHandler.PhaseHandler.ProvisionRealm | pkg/controller/rhpamdev/phaseHandler.go:62-169 | Success means the realm was made and the copy names it, and then both secrets name it and carry their clients' secrets if and only if neither was there before. If nothing failed but the mark, it succeeds exactly if the name drawn is not in use, and just that realm is new; if the mark landed too, its result can be stored. |
| DevPhaseHandler.PhaseHandler.Prepare | pkg/controller/rhpamdev/phaseHandler.go:171-181 | Success means the service account is there, and no other object is new; an undisturbed call succeeds. |
| DevPhaseHandler.PhaseHandler.InstallDatabase | pkg/controller/rhpamdev/phaseHandler.go:183-216 | Success means each of the five database objects is there, no other is new, and new credentials are the user and password drawn, as such; an undisturbed call succeeds. |
| DevPhaseHandler.PhaseHandler.InstallBusinessCentral | pkg/controller/rhpamdev/phaseHandler.go:218-229 | Success means each of the four Business Central objects is there, and no other is new; an undisturbed call succeeds. |
| DevPhaseHandler.PhaseHandler.WaitForDatabase | pkg/controller/rhpamdev/phaseHandler.go:231-244 | The phase moves on only if the deployment was there and ready; else the copy stays as it was. |
| DevPhaseHandler.PhaseHandler.InstallKieServer | pkg/controller/rhpamdev/phaseHandler.go:246-256 | Success means each of the three KieServer objects is there, and no other is new; an undisturbed call succeeds. |
| DevPhaseHandler.PhaseHandler.ReleaseUsers | pkg/controller/rhpamdev/phaseHandler.go:277-283 | With the updates landing, every listed user of the realm ends "deprovisioned". |
| DevPhaseHandler.PhaseHandler.Deprovision | pkg/controller/rhpamdev/phaseHandler.go:258-408 | Unless a call fails whose error is looked at, it succeeds exactly if the realm is there, and else changes nothing; undisturbed, no user is then bound to the realm and just the listed assets are gone. |
| DevPhaseHandler.OnlyKsServiceStays | pkg/controller/rhpamdev/phaseHandler.go:285-404 | The deletes cover every object but the KieServer service. |
| DevPhaseHandler.ReconcileRhpamDev.Reconcile | pkg/controller/rhpamdev/rhpamdev_controller.go:132-205 | Whatever fails and whoever interferes, a reconcile continues the run of the protocol; an undisturbed one on the latest version stores the turn of its phase, where a realm name in use leaves "realm provisioning" behind, adds just the objects and the realm of that phase, with the credentials drawn, or deletes just realm and assets and leaves no user bound; and it answers exactly as the code does, error or none, run again or not. |
| UserController.ReconcileRhpamUser.CreateDefaults | pkg/controller/rhpamuser/phaseHandler.go:54-75 | Success means each default role and user was seen or created in this very reconcile, and that the realm then holds just what it did and the defaults; if nobody gets in the way it succeeds exactly if the realm is there and no answer was lost. |
| UserController.UserClient.ReconcileRealm | pkg/controller/rhpamuser/phaseHandler.go:89-102 | Whoever interferes, success means the user's realm has come from what it was to what success of a run certifies, and no write was made but ones towards the specification; if nobody does it succeeds exactly if the realm is there, the specification can be met and nothing failed but deletions of unwanted users; no other realm changes. |
| UserController.UserClient.DeprovisionRealm | pkg/controller/rhpamuser/phaseHandler.go:104-131 | Whoever interferes, success means that only defaults are left in the user's realm, or all roles and default users if the roles could not be listed; if nobody does it succeeds exactly if the realm is there and nothing else failed. |
| UserController.TwoReconcilesReachTarget | pkg/controller/rhpamuser/rhpamuser_controller.go:122-124 | Two undisturbed reconciles of a bound user leave its realm at the target of its specification and all other realms as they were. |
| RealmWork.RunTowards | pkg/controller/rhpamuser/phaseHandler.go:89-102 | A run of the phase handler in one realm, with the history of its writes: all of them ones towards the specification, success exactly if that can be met and nothing failed but deletions of unwanted users, and then its certified result. |
| UserController.ReconcileRhpamUser.Consider | pkg/controller/rhpamuser/phaseHandler.go:48-84 | One listed RhpamDev: bound to if complete, filled and released if "realm provisioned", else passed by. If nobody gets in the way it succeeds exactly if a realm to be filled is there and no answer was lost, even if the release fails, and just that realm is filled; whoever does, no realm gets more than its defaults. |
| UserController.ReconcileRhpamUser.Accepted | pkg/controller/rhpamuser/phaseHandler.go:36-87 | On success the user is bound to the last of some stored RhpamDev versions that is complete or was released; undisturbed these are the latest ones, exactly those at "realm provisioned" are released, and exactly their realms are filled. Whatever happens, no realm gets more than its defaults, and only such a realm gets any. |
| UserController.RealmsAfterAllAre | pkg/controller/rhpamuser/phaseHandler.go:48-82 | What the realms are then: each realm that a listed RhpamDev at "realm provisioned" records has its defaults, and every other is as it was. |
| UserController.ReconcileRhpamUser.DispatchDeletion | pkg/controller/rhpamuser/rhpamuser_controller.go:98-112 | A "deprovisioned" user being deleted loses its finalizers without any call; any other is deprovisioned, with only defaults left in its realm, or marked as failed; if nobody gets in the way it fails exactly if its realm is not there or a request failed other than listing the roles. |
| UserController.ReconcileRhpamUser.Reconcile | pkg/controller/rhpamuser/rhpamuser_controller.go:64-130 | Whatever fails and whoever interferes, a reconcile continues the run of the protocol, and no error in a phase with a result means that a next version has been stored; an undisturbed one stores the turn of its phase, with just the realms filled that it released, the outcome of the specification in a bound user's realm, or the realm of a user being deleted stripped to the defaults; and it answers exactly as the code does, error or none, run again or not. |
| RealmReplay.HistoryReplays | pkg/controller/rhpamuser/phaseHandler.go:89-131 | Any protective history of writes to a realm that a user's reconcile works on can be made, write by write, in a run of the protocol, with the same result and nothing else changed. |
| RealmReplay.ReconcileReplays | pkg/controller/rhpamuser/phaseHandler.go:89-102 | So whatever a reconcile towards any specification did to its realm is part of a run. |
| RealmReplay.FillingHistory | pkg/controller/rhpamuser/phaseHandler.go:54-75 | There are protective writes that give any realm just its defaults, so a filling can be replayed. |
| Termination.TurnCounts | pkg/controller/rhpamuser/rhpamuser_controller.go:115-127 | A turn either changes nothing or uses up one of the turns left, and keeps user and RhpamDev in step. |
| Termination.Terminates | pkg/controller/rhpamdev/rhpamdev_controller.go:174-201 | Under every fair schedule of turns with the database ready at last, a new RhpamDev becomes complete and stays so, after exactly seven effective turns of its controller and one releasing turn of the other, with the user bound to its realm. |
| Termination.ReconcilesTerminate | pkg/controller/rhpamdev/rhpamdev_controller.go:174-201 | The same of the stored states: calm reconciles of both controllers in any fair order, each continuing a run of the protocol, complete a new RhpamDev for good and leave the user bound to its realm. |
| Termination.CompletesIff | pkg/controller/rhpamuser/phaseHandler.go:76-82 | Under a fair schedule, from any phase, the RhpamDev is completed if and only if it was not left "realm provisioning" and, if it has not been released, its one user is not bound yet. |
| Termination.ReconcilesCompleteIff | pkg/controller/rhpamdev/rhpamdev_controller.go:174-201 | And likewise for calm reconciles from any stored state of a run. |
| Scenarios.LosesRelease | pkg/controller/rhpamuser/phaseHandler.go:76-82 | A concrete run in which the release is lost, to a "realm provisioned" RhpamDev with a bound user. |
| Termination.DevReconcileIsTurn | pkg/controller/rhpamdev/rhpamdev_controller.go:174-201 | The turns are what an undisturbed reconcile of the RhpamDev stores, in any state of a run with nothing torn down. |
| Termination.UserReconcileIsTurn | pkg/controller/rhpamuser/rhpamuser_controller.go:115-127 | And likewise for the RhpamUser, whose RhpamDev's realm is there to be filled. |
| Behaviours.EveryOrderHasBehaviour | pkg/controller/rhpamdev/rhpamdev_controller.go:174-201 | From every stored state at rest with the database ready, and for every order of turns, there are calm reconciles in just that order, each continuing the run before. |
| Behaviours.TerminationIsMet | pkg/controller/rhpamdev/rhpamdev_controller.go:174-201 | In particular two new objects have such a behaviour under a fair schedule, as `ReconcilesTerminate` asks for. |

## Left out

- Passwords: an existing user's password is never reconciled, so it is no part of the target.
- HTTP, TLS, JSON and token handling of the Keycloak client; a call is one request that succeeds or fails.
- Templates and files: a rendered resource is an opaque payload under its kind and name.
- Environment variables, the watched namespace, logging, leader election and scheme registration.
- `generateToken`: its draws are parameters, of which only the names of realms deleted before are excluded.
- Defaults and validation of a RhpamDev specification, which are empty, and the version recorded in the status.
- Edits of specifications: in the protocol they are touches that make a new version; the reconciler's theorems hold for any one specification.
- Several RhpamUsers with different specifications for one realm: the convergence theorems are for one, the invariants for any number.
- In the protocol's own steps a user's realm work is any protective writes, so its invariants cover more than the controller does; what the controller does there is in the contracts of `UserController`.
- Behaviours.EveryOrderHasBehaviour: the turns of a user that is bound already, which move no phase, are taken with a specification that cannot be met.
- The order of the calls within one reconcile is left freer in the protocol than in the code, so its invariants cover more runs than the code has.
- Other people's writes to the cluster objects and to Keycloak.
- The casts of the text columns to object ids, which are taken to be faithful, and columns without triggers.
- The jBPM and Quartz table definitions and the shell scripts.
