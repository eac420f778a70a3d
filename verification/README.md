# Tenant control plane: a verified model

The control plane of this repository gives each tenant of a pooled SaaS lab its own database role and row policy, AWS
secret and IAM role, and Kubernetes namespace, and keeps a small registry of what each tenant should be and is. This
project models that program in Dafny and proves what its design promises: a deletion that fails closed and can be
retried until it succeeds, a reconciler whose ACTIVE can be believed, a registry whose rows stay coherent, and
tenants that cannot see or influence one another's rows. `dafny verify dfyconfig.toml` checks everything.

## How the model is built

**World and faults.** `Cloud.World` holds, per tenant, the namespace with its workload and whether new pods come up in
time, the IAM role with its inline policies, and the secret (absent, live, or waiting for deletion); and the database
with its roles, grants, login flags, passwords, policies and rows. Every outside call the program makes is one step on this world under a *fault schedule*:
each call can succeed, report failure, raise, or take the control plane down with it, in each case before or after
its effect. All claims quantify over all schedules. Since a schedule may end the process at any call, a claim about the
state after an operation is a claim about every intermediate state of it. An empty schedule is a calm run.

**Form.** What the program does step by step is a method over the `TenantStore` and `CloudApi` objects; the fault
schedule is a field that calls consume. `delete_tenant` is also given as a state machine (`Teardown.Step`, one step per
call or registry write); the imperative `Lifecycle.DeleteTenant` is proved to do exactly what the machine does, under
every schedule, and the theorems about whole histories of attempts are about the machine. Pure parts (the planner, the
contract gate, parsing, SQL semantics) are functions.

**The modules**, from the bottom up:

| module | of the program |
|---|---|
| `Names`, `Retry`, `Observe` | the tenant-id language and derived names, error classes and `with_retry`, what an observation counts as |
| `Registry` | the SQLite registry: partial upsert, versions, inferred defaults, legacy import |
| `Postgres`, `Isolation`, `Sessions` | roles, grants, row-level security and sessions on the shared table; what a session can see, change and learn, and what it is told |
| `Cloud` | the world, the OpenTofu outputs, fault schedules |
| `Teardown`, `TeardownProofs`, `DeleteTheorems`, `Access`, `Revocation`, `Lifecycle` | `delete_tenant` and the drop-role job; what cutting access and retrying the revocation come to |
| `Identity`, `Migration`, `Provision`, `TenantIsolation` | AWS identity, the migrate job, `onboard` and `provision`; isolation for exactly the statements these scripts send |
| `Suspension` | `suspend_tenant`, `resume_tenant` |
| `Invariants`, `Observer`, `Reconcile`, `Sweep` | what every operation keeps; the observer's queries; `reconcile_one`; `reconcile_all` |
| `Operator`, `Adoption`, `Runs` | the HTTP requests and their jobs; `adopt_tenants`; whole runs of operations and restarts |
| `Refusal`, `Orphans` | a deletion that AWS refuses halfway; what reconciliation toward GONE takes away and what it can leave behind |
| `Jobs`, `TfVars` | the in-flight set; the `tenant_ids` list in terraform.tfvars |

## Where the code does not do what one would expect

These are facts of the code, stated and proved as such:

- A deletion can succeed if and only if the revoke job can start, and that job runs in the platform tenant's namespace
  (`DeleteTheorems.DeletableIffJobCanStart`). The platform tenant loses that condition with its own namespace, and from
  then on no attempt to delete it can ever succeed (`DeleteTheorems.HostLosesRetry`).
- The checkpoint access_disabled does not mean that access is cut: scaling down and removing the Ingress are best effort.
  At every moment of every run of deletions access is cut exactly under the condition of `Access.AccessIsCutExactlyIf`;
  `Access.AccessCheckpointCanLie` is the run whose row says access_disabled over an untouched workload.
- One secret that cannot be read, of any tenant OpenTofu or a registry row names (a half-deleted one, say), makes every
  provision of every tenant fail: `Provision.CanProvision` is the exact condition.
- A role that an unfinished deletion has set to NOLOGIN gets its grants, policy and password back from a later
  migration, but not LOGIN: a provision then reports ACTIVE for a tenant whose role cannot log in
  (`Provision.ProvisionServesEveryone`).
- The first migration grants table access before it enables row-level security; until then a session sees the whole
  table. Views are safe exactly when row-level security is on (`Isolation.ViewsSafeIffRowSecurity`).
- A tenant that is wanted SUSPENDED, recorded SUSPENDED, and up is left as it is by every reconciliation. Toward ACTIVE a
  reconciliation that has to provision or repair can end ACTIVE only with the `alb_controller` ingress mode and with pods
  that come up in time: `helm upgrade --install` does not wait for them, so a fault-free repair may end in DRIFT, and the
  next reconciliation records ACTIVE once they are up. `Reconcile.CanConverge` is the exact condition,
  `Reconcile.DriftThenActive` the two calls.
- The reconciler drops the row of a tenant wanted GONE as soon as it does not see its namespace: because a deletion has
  got that far and then failed, or because the one namespace probe failed. It returns having taken the tenant away if and
  only if the namespace was there and seen, or nothing of the tenant was left (`Orphans.ReconcileAway`). So after AWS has
  refused a deletion, the next fault-free reconciliation leaves IAM role and secret standing with no row that owns them
  (`Orphans.PurgeAfterRefusal`), and no later deletion removes them (`Orphans.UnregisteredKeepsIdentity`).
- The observer reads a failed probe as an absent object. It never reads a tenant that is not up as active
  (`Observer.UnderActive`), but it reads one as suspended exactly when the namespace is seen and deployment and Ingress
  each are absent or their probes fail (`Observer.Look`). A row that `reconcile_one` leaves SUSPENDED tells the truth if
  and only if, where nothing was done, the tenant was suspended already, and, where it was scaled down, its Ingress was
  absent or the best-effort removal took effect (`Reconcile.SuspendedTruly`). A tenant that is up, once recorded SUSPENDED by two
  failed probes, stays so (`Reconcile.MisreadStays`).
- If the second look at the cluster raises, after an actuator towards ACTIVE has returned, the row stays ACTIVE as the
  actuator wrote it, without the gate's consent (`Reconcile.RowTurn`, which says what every error leaves in the row).
- Every start of the process reads tenants.json into an empty registry. A deleted tenant that was the last one registered
  and that the file names is registered again, as ACTIVE, and the next reconciliation sets out to provision it
  (`Runs.RevivedTenantIsWanted`). `Runs.RestartRevives` and `Runs.DeleteThenRestart` give the exact condition.
- `POST /tenants` refuses a tenant whose deletion failed. Once `POST /reconcile` has failed on it again it is accepted
  exactly when its row is gone or the error is a permanent one of the control plane's own, such as a refusal by AWS,
  because `reconcile_all` then overwrites DELETE_FAILED with DRIFT (`Sweep.ReconcileListed`, with the run in
  `Sweep.ReopenCreate`). A failed role revocation is none of these: it raises `OnboardError`, which ends the loop.
- A failing `kubectl delete ns` or rollout is always taken for a timeout, and so for retryable, because the command line
  quoted in the message contains the word (`control-plane/lifecycle.py:26-28`; `Teardown.Cause`).
- A provision never clears `delete_step`: after one that returned, the kept step tells the truth if and only if it does not
  claim that the role was revoked (`Runs.KeptStepIsStale`).
- The compare-and-swap guarantee ends with a row's incarnation: after delete and re-create the same expected version
  wins again (`Registry.RecreationResetsVersions`). Over a whole history it wins at most once more than the row is
  created anew (`Registry.WinnersPerIncarnation`).
- Suspending a tenant without a deployment is a permanent error, unless the tenant's id contains "timeout": the command
  line that kubectl's message quotes names the namespace (`Suspension.ScaleRefusal`).
- A job thread that cannot be started leaves its tenant in the in-flight set for good (`Jobs.LeakBlocksForever`, with the
  run from the start in `Jobs.LeakIsReachable`). A tenant can be admitted again if and only if no such job holds it
  (`Jobs.ReadmittedUnlessLeaked`).
- No coherent row ever reaches the reconciler's resume branch (`Reconcile.PlanFits` with `Runs.RunOperations`).
- `control-plane/reconcile.py:91-93`, a "none" plan for a tenant wanted GONE, is dead code: the planner never makes one.

## Assumptions the theorems name

- `Sane` (coherent rows, own names in complete pointers, honest secrets, a tidy world) and `Pointed` (complete pointers)
  are invariants: every operation keeps them (`Runs.RunOperations`), and over a world that is honest and tidy an empty
  registry satisfies them (`Runs.EmptyIsSane`). What they ask of the world at the start is that each tenant's secret holds
  that tenant's role as username, that policies name their own tenants' roles, that tenant roles presuppose the table, and
  that tenants' IAM roles carry no foreign inline policy. `TeardownProofs.Ready`, which the deletion theorems start from,
  follows (`Invariants.TidyIsReady`).
- A legacy file's complete pointers name the tenants' own secrets (`Runs.LegacyNames`); pointers stay complete through a
  restart if the file's are (`Runs.LegacyPointed`).
- `TofuNames`: OpenTofu names its tenants' secrets as the control plane does.
- The OpenTofu outputs do not change during a run, and `/` does not occur in the name prefix.

## Model

| member | source | states |
|---|---|---|
| `Names.IdsAreBuilt` | control-plane/ids.py:9-19 | which strings are ids, built up letter by letter |
| `Names.NamesAreSpelled` | control-plane/aws_identity.py:74-75 | every derived name, letter by letter |
| `Names.NamesAreInjective` | control-plane/pg_admin.py:105-107 | no two tenants share a database role, policy, namespace, secret, IAM role or inline policy name |
| `Names.TeardownFindsCreatedRole` | control-plane/aws_identity.py:217-231 | the role name a teardown cuts out of the stored ARN is the one identity creation used |
| `Retry.Persist` | control-plane/lifecycle.py:139-153 | for any number of attempts: stops at the first success, gives up only once all have failed |
| `Retry.PausedInAll` | control-plane/lifecycle.py:139-153 | the pauses of k tries come to 5*k*(k-1)/2 seconds |
| `Retry.WithRetry` | control-plane/errors.py:67-84 | hands back the first outcome that is not a retryable error, or the last allowed one, after at most n calls; total sleep is base*(2^k - 1) over its k pauses |
| `Registry.TenantStore.Upsert` | control-plane/store.py:154-251 | succeeds exactly for a valid id, a matching version if one is expected and the row exists, and a legal wish; otherwise the table is unchanged and the error class is the right one |
| `Registry.TenantStore.Delete` | control-plane/store.py:253-257 | removes exactly that row and says whether it existed |
| `Registry.TenantStore.ImportLegacyJson` | control-plane/store.py:95-142 | fills an empty registry record by record, skips invalid and repeated ids, leaves a filled one alone |
| `Registry.UpdateIsPartial` | control-plane/store.py:154-207 | an update writes exactly the columns it is passed, counts the version and keeps the creation time |
| `Registry.InsertFillsIn` | control-plane/store.py:209-251 | a new row starts at version 1 with PROVISIONING and the standard tier unless told otherwise, and with the wish its status calls for |
| `Registry.FirstRecordCounts` | control-plane/store.py:95-142 | of a legacy file the first record of each valid id makes the row; its status survives, with the wish that goes with it, and so does every other column but the observation |
| `Registry.VersionCountsUpdates` | control-plane/store.py:154-207 | over any history of calls within one incarnation of a row, its version has grown by the number of successful updates and created_at stands |
| `Registry.AtMostOneWinner` | control-plane/store.py:154-207 | of all updates in a history that carry the same expected version, at most one succeeds, none once the row is past it |
| `Registry.WinnersPerIncarnation` | control-plane/store.py:154-257 | over any history at all, an expected version wins at most once for the row there was and once for every time the row was created anew |
| `Registry.RecreationResetsVersions` | control-plane/store.py:209-257 | the limit of that guarantee: after delete and re-create the same expected version wins a second time |
| `Isolation.GuardSurvives` | helm/test-app/templates/configmap.yaml:385-415 | forced row-level security with own-role policies survives every trace of honest statements and sessions |
| `Sessions.SelectAnswers` | helm/test-app/templates/configmap.yaml:290-325 | behind the guard a select of limit n is told the newest n of the tenant's own rows, the newest first, or all of them, and none without the matching setting and policy; it changes nothing |
| `Sessions.InsertAnswers` | helm/test-app/templates/configmap.yaml:250-283 | an insert is accepted exactly for the tenant's own id, under its setting and with the sequence grant, and then stores exactly that record; else no row changes |
| `Sessions.UpdateAnswers` | helm/test-app/templates/configmap.yaml:399-412 | an update rewrites, in place, exactly the own rows its condition picks and counts them; it is refused if it would move rows to another tenant |
| `Sessions.DeleteAnswers` | helm/test-app/templates/configmap.yaml:399-412 | a delete removes exactly the own rows its condition picks, counts them, and leaves the others in order |
| `Sessions.RowsOfKeeps` | helm/test-app/templates/configmap.yaml:399-412 | a tenant's own rows are the rows that carry its id, each once, in table order |
| `Sessions.ForeignRowsIffNoRowSecurity` | helm/test-app/templates/configmap.yaml:385-415 | a granted tenant is never told a foreign row, whatever the table holds, if and only if row-level security is on |
| `Isolation.SessionConfined` | helm/test-app/templates/configmap.yaml:399-412 | no select, insert, update or delete changes the rows of a tenant outside the session's window |
| `Isolation.OnlyTenantRolesSee` | helm/test-app/templates/configmap.yaml:414-415 | behind the guard even the table's owner sees nothing |
| `Isolation.OwnerSeesAllUnlessForced` | helm/test-app/templates/configmap.yaml:414-415 | with row-level security enabled the table's owner sees every row, whatever the table holds, if and only if it is not forced |
| `Isolation.ViewsSafeIffRowSecurity` | helm/test-app/templates/configmap.yaml:385-415 | tenant views are safe for all contents if and only if row-level security is on |
| `Isolation.OwnSessionAlike` | helm/test-app/templates/configmap.yaml:245-330 | a tenant's session is told the same, and does the same to its own rows, on databases that agree on its rows and on the administrative state |
| `TenantIsolation.ViewsAreSafe` | helm/test-app/templates/configmap.yaml:385-415 | after the first completed migration, at every statement boundary of any interleaving of migrate statements, drop-role statements and sessions, a session of tenant_x sees exactly x's rows, or none without its setting, is told the newest of them as far as it asks, or denied without the table grant, and changes nobody else's |
| `TenantIsolation.MigratedTenantIsServed` | helm/test-app/templates/configmap.yaml:385-412 | whatever a migrated tenant inserts is stored and is the first thing its next select is told |
| `TenantIsolation.TenantsDoNotInterfere` | helm/test-app/templates/configmap.yaml:109-139 | for every such trace, all that tenant y is told equals what it is told when tenant x's statements are purged, up to serial ids and timestamps |
| `TenantIsolation.ScriptsAreHonest` | control-plane/pg_admin.py:36-57 | no statement of either script creates a policy for another tenant's role |
| `TeardownProofs.StepKeepsInv` | control-plane/lifecycle.py:171-222 | reaching any point of a deletion means all steps before it have taken effect, whatever failed on the way |
| `TeardownProofs.StepKeepsErased` | control-plane/lifecycle.py:171-222 | no step of a deletion changes what the finished deletion will look like |
| `TeardownProofs.StepDescends` | control-plane/lifecycle.py:139-153 | every step brings an attempt closer to its end, retries of jobs and pods included |
| `TeardownProofs.EffectOnlyRemoves` | control-plane/lifecycle.py:132-213 | no call of a deletion creates anything or touches a secret's payload |
| `DeleteTheorems.DeletionFailsClosed` | control-plane/lifecycle.py:181-205 | at every moment of every run of attempts: while the role exists, namespace, IAM role and secret are as at the start; while the namespace exists, IAM role and secret are; while the IAM role exists, the secret is |
| `DeleteTheorems.FailedDropsLeaveNothingUsable` | control-plane/pg_admin.py:42-55 | at every moment of every run of attempts the role, while it exists, is as at the start or cannot log in, and once it has lost any grant its old password is void too |
| `DeleteTheorems.DeletionStarts` | control-plane/lifecycle.py:172-180 | what the first write says over whatever row there was: GONE / DELETING, no error, the first step, and the pointers and tier kept |
| `DeleteTheorems.CheckpointsTellTheTruth` | control-plane/lifecycle.py:179-213 | at every moment after the first write the recorded delete_step, from the revocation on, implies that what it names is gone, and an attempt under way has recorded exactly its last completed step; a failure on the way to the handler leaves that record, or, at a checkpoint whose write took effect all the same, records that one |
| `Access.WorkloadFollowsCalls` | control-plane/lifecycle.py:132-168 | at every moment of every run of attempts: the pods are gone exactly if a scale call took effect, the Ingress exactly if a removal did, all of the workload exactly if an uninstall did, the namespace exactly if its removal did; everything else in the cluster is as at the start |
| `Access.AccessIsCutExactlyIf` | control-plane/lifecycle.py:132-136 | the exact condition, at every moment, for no pods and no Ingress |
| `Access.EndedAtAccess` | control-plane/lifecycle.py:182-183 | an attempt that ended with access_disabled in its row has had both commands answered; no pods exactly if the first took effect, no Ingress exactly if the second did |
| `Access.AccessCheckpointCanLie` | control-plane/lifecycle.py:31-34 | the failing input: both commands exit with an error, and DELETE_FAILED with access_disabled stands over an untouched workload |
| `Access.NothingIsLeftOut` | control-plane/lifecycle.py:181-213 | a deletion that returns has made every call: scaled down, cut off, uninstalled, removed the namespace, recorded every step, and, for an identity of the control plane's own, removed policy, role and secret |
| `Revocation.TwoJobsMayFail` | control-plane/lifecycle.py:139-153 | a deletion whose first two revoke jobs fail still returns |
| `Revocation.ThreeJobsMayNotFail` | control-plane/lifecycle.py:139-153 | one whose three jobs all fail raises `OnboardError` |
| `Revocation.OnePodMayFail` | control-plane/pg_admin.py:126-150 | in each job a second pod runs the script anew after the first has failed, a third never; a statement whose answer never comes fails the job at once |
| `Revocation.WaitMayFail` | control-plane/pg_admin.py:165-193 | a job that cannot be waited for counts as failed |
| `Revocation.ConflictSurfaces` | control-plane/aws_identity.py:236-244 | a role that carries a foreign inline policy is not deleted, which is a permanent error |
| `Revocation.FailuresSurface` | control-plane/lifecycle.py:132-222 | outside the revocation: which failures are passed over, and that every other comes out as it is, a failing namespace removal as a timeout |
| `DeleteTheorems.FailedAttemptRecords` | control-plane/lifecycle.py:214-222 | how an attempt that raised ends, from any state: its row is wanted GONE with the attempt's last checkpoint, and DELETE_FAILED if and only if the handler's write took effect; if the very first write failed, nothing else happened |
| `DeleteTheorems.DeleteConfluence` | control-plane/lifecycle.py:139-222 | for every tenant but the revoke job's host: after any finite sequence of attempts broken anywhere, one fault-free attempt leaves exactly the state a single fault-free deletion leaves, the start with the tenant erased |
| `DeleteTheorems.ReturningErases` | control-plane/lifecycle.py:171-213 | whatever went wrong on the way, an attempt that returns has erased exactly the tenant |
| `DeleteTheorems.OthersUntouched` | control-plane/lifecycle.py:171-222 | at every moment every other row, namespace, role, policy, IAM role and secret, and all table contents, are as at the start |
| `DeleteTheorems.ForeignIdentityStands` | control-plane/lifecycle.py:196-207 | an identity the control plane does not own is never touched |
| `DeleteTheorems.OwnIdentityGoes` | control-plane/aws_identity.py:217-274 | a returning deletion removes the secret and role the row points to, or those with the derived names where it points to none |
| `DeleteTheorems.PlayShrinks` | control-plane/lifecycle.py:171-222 | the set of resources still standing never grows, within or between attempts |
| `DeleteTheorems.AttemptsEnd` | control-plane/lifecycle.py:139-153 | every attempt is over within 103 calls |
| `DeleteTheorems.DeletableIffJobCanStart` | control-plane/pg_admin.py:69-103 | some attempt can succeed if and only if the revoke job's host, the platform tenant or else tenant a, is a valid id with a namespace, and migrator role and database secret are among the outputs |
| `DeleteTheorems.HostLosesRetry` | control-plane/pg_admin.py:98-99 | once its own namespace is gone, no attempt to delete the hosting tenant ever succeeds |
| `Lifecycle.DeleteTenant` | control-plane/lifecycle.py:171-222 | the program does exactly what the machine does, for every fault schedule, and raises the exception the machine says; an invalid id changes nothing |
| `Lifecycle.RevokePostgresRole` | control-plane/lifecycle.py:139-153 | the loop of `Retry.Persist` over the drop-role job, with the three attempts its caller uses: stops at the first success, gives up, with `OnboardError`, only after all have failed, and pauses as long in between; each try ends as the machine's does |
| `Lifecycle.DropPostgresRole` | control-plane/pg_admin.py:95-193 | the job runs the script in up to two pods and fails unless one completes |
| `Lifecycle.RunDropScript` | control-plane/pg_admin.py:36-57 | the statement sequence, skipping an absent role, stopping at the first failure |
| `Lifecycle.DeleteKubernetes` | control-plane/lifecycle.py:156-168 | a missing release or namespace is fine, a live namespace must go |
| `Lifecycle.DeleteTenantIrsa` | control-plane/aws_identity.py:217-244 | inline policy, then role; gone is fine, a role with foreign policies is not |
| `Lifecycle.DeleteTenantSecret` | control-plane/aws_identity.py:247-274 | force-deletes or schedules the secret; gone or already scheduled is fine |
| `Identity.EnsureTenantIdentity` | control-plane/aws_identity.py:42-196 | for every schedule of faults, if it returns: one live secret, one role that x alone may assume, an inline policy naming the live secret; a secret live on entry keeps its payload, a missing one was written exactly once. Its attempts are made one after the other from the schedule on, each ending as its last call does; they are retried as the helper does, five at most, with its pauses; up to four throttled attempts are made good by the next one, after five the last one's error comes out |
| `Identity.EnsureSecret` | control-plane/aws_identity.py:89-131 | keeps a live secret, finishes a pending deletion before re-creating, touches nothing else |
| `Identity.EnsureRole` | control-plane/aws_identity.py:164-189 | role, trust and inline policy fit the live secret |
| `Identity.CpIdentities` | control-plane/provisioner.py:17-31 | exactly the rows the control plane owns with both pointers, whatever their status |
| `Identity.MergeIdentityMaps` | control-plane/aws_identity.py:199-214 | OpenTofu's maps overlaid with the control plane's own; the ids are OpenTofu's in their order, then the control plane's others, each once, sorted |
| `Migration.StatementIsConfined` | helm/test-app/templates/configmap.yaml:385-412 | a statement for one tenant leaves every other tenant's role, grants and policy alone |
| `Migration.MigrateTenant` | helm/test-app/templates/configmap.yaml:385-412 | when it completes: role with all four grants, password from the tenant's live secret, policy naming the role; login is not restored |
| `Migration.MigrateJob` | helm/test-app/templates/migrate-job.yaml:20-24 | up to five interrupted runs are made good by the next, a sixth is the last; when complete every listed tenant is migrated with its secret's password and row-level security is forced; roles are never dropped |
| `Migration.MigrationGuards` | helm/test-app/templates/configmap.yaml:414-415 | a completed migration establishes the guard that isolation starts from |
| `Provision.Onboard` | helm/test-app/onboard_tenant.py:145-308 | succeeds only with the tenant in both maps and the outputs it needs; then the release is in its namespace, its pods ready or not, and, for the platform tenant, the migration is complete; touches no other namespace |
| `Provision.ProvisionTenant` | control-plane/provisioner.py:47-167 | returns with the row ACTIVE / ACTIVE, its own pointers and URL, and everything up (release, identity, and every migrated tenant's role, grants, policy, and the password of its live secret), or raises with the row FAILED / ACTIVE, for a failure at any call. A control-plane error surfaces as it is, any other as a permanent one, and the row stores the one inside; if the first call fails, that one. Pointers are the old or the new ones, never a mixture; other rows, identities and namespaces are kept; without faults it succeeds exactly when `CanProvision` holds, and so it does under up to four throttled attempts at the identity, while five surface as the throttling they are |
| `Provision.BringUp` | control-plane/provisioner.py:65-134 | identity, second write, merged maps, platform refresh, onboard, with the same exact success condition |
| `Provision.CanProvisionMeans` | control-plane/provisioner.py:104-128 | what the two onboards need, in terms of the registry and world before the provision |
| `Provision.ProvisionServesEveryone` | control-plane/provisioner.py:104-128 | afterwards the table is guarded, every migrated tenant is complete, every earlier role and policy still exists and tenants outside the maps are untouched; a role can log in exactly if it is new or could before |
| `Suspension.SuspendTenant` | control-plane/lifecycle.py:20-73 | scales down before it writes; an error leaves the registry as it was; a tenant already SUSPENDED is returned untouched, under any faults; otherwise a suspend that returns leaves no pods, and the Ingress exactly if its best-effort removal took no effect; without faults succeeds exactly from SUSPENDED, or from ACTIVE, FAILED or DRIFT with a deployment there, and for a missing one raises a permanent error, or a retryable one for an id that contains "timeout" |
| `Suspension.ResumeTenant` | control-plane/lifecycle.py:76-129 | only from SUSPENDED (ACTIVE is returned as is); the row becomes ACTIVE, with its URL and path, only after onboard and rollout; an error leaves the registry as it was, and a first call that fails surfaces; without faults a SUSPENDED tenant is resumed exactly when `CanResume` holds |
| `Suspension.SuspendThenResume` | control-plane/lifecycle.py:59-129 | suspend then resume ends ACTIVE and released again if and only if the pods come up in time, and SUSPENDED otherwise; identity and all other tenants untouched |
| `Invariants.DeletionIsHarmless` | control-plane/lifecycle.py:171-222 | from any state, under any faults, a deletion keeps the registry coherent and its pointers complete, secrets honest, and absent tenants absent |
| `Invariants.ProvisionIsHarmless` | control-plane/provisioner.py:47-167 | so does a provision, including for tenants whose roles it re-migrates |
| `Invariants.TidyIsReady` | control-plane/lifecycle.py:171-222 | in every reachable state the assumptions of the deletion theorems hold |
| `Invariants.PointedNames` | control-plane/provisioner.py:93-102 | complete pointers are the tenant's own names |
| `Observe.ObservedIn` | control-plane/observe.py:30-46 | an undisturbed observation counts as active exactly if the workload has its pods wanted and ready, Ingress, Service, NetworkPolicy, quota and annotated account, as suspended exactly if no pods are wanted and there is no Ingress, as gone exactly if there is no namespace |
| `Reconcile.GateMeans` | control-plane/contract_check.py:24-61 | the gate passes exactly complete infrastructure with complete pointers, and otherwise gives its reason |
| `Reconcile.GapNamesWhatIsMissing` | control-plane/contract_check.py:34-50 | the reason names exactly the parts that the cluster lacks |
| `Reconcile.PointersNeverBlock` | control-plane/contract_check.py:52-56 | in every reachable registry the gate never holds back a tenant that is fully up |
| `Reconcile.PlanFits` | control-plane/reconcile.py:32-60 | which action follows from wish, observation and status; resume is planned for no coherent row |
| `Reconcile.PassGate` | control-plane/reconcile.py:160-182 | the status becomes ACTIVE or DRIFT by the gate's verdict alone, with its reason |
| `Reconcile.Blame` | control-plane/reconcile.py:150-158 | a control-plane error is noted in the row with the wish: DELETE_FAILED for a tenant wanted GONE, else DRIFT if it is worth another try, else FAILED; others pass by |
| `Observer.Look` | control-plane/observe.py:57-111 | ends exactly if no query raises, and says which part of the schedule it has used; sees the namespace exactly if it is there and its probe succeeds; reads the tenant as suspended exactly under `ReadsSuspended`; any probe that failed reads as an absent object; exact when none failed |
| `Observer.UnderActive` | control-plane/observe.py:30-41 | what is read as fully up is fully up, whichever probes failed |
| `Reconcile.ReconcileOne` | control-plane/reconcile.py:68-184 | under any faults: when it returns for a tenant wanted ACTIVE, the row is ACTIVE exactly if the gate passes the latest reading of the cluster as it now is, DRIFT otherwise, and ACTIVE only if the workload is in fact fully up, part by part; for a tenant wanted GONE it has erased exactly the tenant from registry, cluster, database and AWS if the namespace was there and its probe succeeded, and otherwise dropped the row and touched nothing else; when it fails, the deletion has ended as the machine says; for one wanted SUSPENDED the row says SUSPENDED, and the cluster is so exactly under `SuspendedTruly`; after a control-plane error the row names it, unless a look at the cluster raised it; a tenant keeps its tier; x's wish, all other rows, sanity and absence are kept. Without faults one call reaches the wanted state exactly when `CanConverge` holds, and from there the next call changes only version, timestamp and observation |
| `Reconcile.GoneTurnMeans` | control-plane/reconcile.py:114-149 | a turn toward GONE that returns has erased exactly the tenant, or, with no namespace in sight, dropped its row and nothing else |
| `Reconcile.MisreadStays` | control-plane/observe.py:75-89 | the failing input: the probes for deployment and Ingress of a tenant that is up and wanted SUSPENDED fail; it is recorded SUSPENDED, and the next fault-free call leaves it up and SUSPENDED |
| `Reconcile.DriftThenActive` | control-plane/reconcile.py:160-184 | a fault-free repair whose pods are not up in time ends in DRIFT, and the next call, with the pods up, in ACTIVE |
| `Reconcile.CalmDelete` | control-plane/reconcile.py:139-149 | without faults a deletion returns, or fails and keeps its row, as the revoke job can start or not |
| `Operator.CreateGuard` | control-plane/app.py:133-150 | how a request for a tenant already registered is answered, for every status |
| `Operator.Create` | control-plane/app.py:123-170 | a tenant the guard refuses or already has is untouched; an admitted one ends in the row its provision's outcome calls for, and fully provisioned if that returned, which without faults it does exactly when `CanProvision` holds |
| `Operator.Suspend` | control-plane/app.py:173-180 | from which statuses a suspend succeeds without faults, what it leaves of pods and Ingress, and that a failing one leaves the registry as it was |
| `Operator.Resume` | control-plane/app.py:182-204 | a resume that returns has released the tenant with its pods ready and its row ACTIVE; a control-plane error ends FAILED / ACTIVE with that error, any other leaves the registry as it was; without faults it returns exactly for an ACTIVE tenant or a SUSPENDED one that can be resumed |
| `Operator.Remove` | control-plane/app.py:206-229 | ends as the deletion of the marked tenant does: one that returns has erased exactly the tenant, which without faults it does exactly if the revoke job can start; any failure that leaves a row leaves it DELETE_FAILED / GONE with that error |
| `Sweep.ReconcileListed` | control-plane/reconcile.py:196-207 | the row a tenant's turn leaves, by wish and result, and, as for `ReconcileOne`, what a turn toward GONE or SUSPENDED has done; a failed deletion that fails again opens up to POST /tenants exactly when its row is gone or the error is a permanent control-plane error |
| `Sweep.ReconcileAll` | control-plane/reconcile.py:187-208 | keeps all invariants wherever it is cut off; a control-plane error never ends it; if it gets to the end, every listed tenant has had its turn and its row is as that turn left it |
| `Sweep.ReopenCreate` | control-plane/reconcile.py:200-205 | the run: AWS refuses, for good, to delete the IAM policy of a tenant whose deletion had failed; after that POST /reconcile its row says DRIFT, still wanted GONE, and POST /tenants takes it |
| `Adoption.Discover` | control-plane/adopt.py:37-58 | finds exactly the ids whose secrets are listed |
| `Adoption.AdoptOne` | control-plane/adopt.py:66-122 | stops exactly if a look at secret or role, as far as it gets, fails, the tagging raises, or the registry refuses the wish the row holds; if it goes on, it has adopted the candidate exactly if its id is valid and secret and role exist |
| `Adoption.AdoptTenants` | control-plane/adopt.py:17-123 | adopts exactly the requested or discovered ids that can be adopted, keeping wish, status and tier of a known row and setting owner, both pointers, URL and path; all other rows and the world stay; without faults it succeeds exactly if there is a candidate; never brings back a tenant that has vanished |
| `Runs.RunOperations` | control-plane/app.py:123-240 | over every sequential run of create, provision, suspend, resume, delete, reconcile, reconcile-all, adopt and process starts with a legacy file, each under any faults: rows stay coherent, pointers complete, and a tenant no operation names stays absent unless a start with an empty registry imports it |
| `Runs.RestartRevives` | control-plane/store.py:79-102 | an absent tenant survives a process start if and only if the registry is not empty or the legacy file does not name it |
| `Runs.RevivedTenantIsWanted` | control-plane/store.py:95-142 | the failing input: a file that names the last tenant, once deleted, registers it again as ACTIVE, and the planner then wants it provisioned |
| `Runs.KeptStepIsStale` | control-plane/provisioner.py:136-146 | a provision leaves delete_step alone; after one that returned the kept step is true if and only if it does not claim the role was revoked |
| `Runs.EmptyIsSane` | control-plane/store.py:80-85 | an empty registry over an honest and tidy world satisfies the invariants |
| `Runs.ImportIsCoherent` | control-plane/store.py:107-139 | a legacy import yields coherent rows whatever statuses it carries |
| `Runs.DeleteThenRun` | control-plane/lifecycle.py:171-213 | deleted stays deleted: role, policy, namespace, IAM role and live secret of a deleted tenant remain absent through every later run of operations on others, including provisions that re-run the migration and process starts, unless a start with an empty registry imports it |
| `Runs.DeleteThenRestart` | control-plane/store.py:79-102 | after a returning deletion and a process start the tenant is absent if and only if it was not the last one registered or the legacy file does not name it |
| `Runs.EveryTenantIsDeletable` | control-plane/lifecycle.py:139-222 | confluence in every reachable state, from the invariants alone |
| `Orphans.ReconcileAway` | control-plane/reconcile.py:41-43 | a reconciliation toward GONE that returns has taken namespace, role, policy, IAM role and secret of a tenant of the control plane's own away if and only if its namespace was there and seen, or nothing of it was left before |
| `Orphans.UnseenTurnPurges` | control-plane/reconcile.py:114-116 | with no namespace in sight and no query raising, a turn toward GONE drops the row and changes nothing else |
| `Orphans.PurgeAfterRefusal` | control-plane/reconcile.py:114-116 | the failing input: AWS refuses a deletion, the next fault-free reconciliation drops the row, and IAM role and secret stand with no row that owns them |
| `Orphans.UnregisteredKeepsIdentity` | control-plane/lifecycle.py:171-213 | without the row, a deletion that returns leaves every IAM role and secret |
| `Refusal.RefusedAttemptFails` | control-plane/lifecycle.py:201-222 | under the constructed schedule a deletion ends with a permanent error, the namespace gone, the row DELETE_FAILED / GONE, IAM roles and secrets as they were |
| `Jobs.AtMostOneJob` | control-plane/app.py:86-102 | in every interleaving of request and job threads, from the start: at most one job per tenant, and the set holds exactly the tenants with a job between admission and the end of its finally block |
| `Jobs.AdmissionsBalance` | control-plane/app.py:86-102 | over any trace a tenant's admissions exceed its completions by exactly its place in the set |
| `Jobs.BodyEndsReleases` | control-plane/app.py:93-98 | whether a job's body returns or raises, its tenant, and only its tenant, is free again after the finally block |
| `Jobs.LeakBlocksForever` | control-plane/app.py:91-100 | a thread that fails to start blocks its tenant for good |
| `Jobs.LeakIsReachable` | control-plane/app.py:86-102 | the run: one request from the start, and its thread cannot be started |
| `Jobs.ReadmittedUnlessLeaked` | control-plane/app.py:86-102 | in every reachable state some continuation admits the tenant again if and only if no leaked job holds it |
| `Jobs.InFlight.Admit` | control-plane/app.py:87-91 | the critical section is the machine's admission step |
| `Jobs.InFlight.Finish` | control-plane/app.py:96-98 | the finally block is the machine's release step |
| `TfVars.RoundTrip` | control-plane/infra.py:20-25 | reading the inside of a formatted list gives the list back, for every list of valid ids |
| `TfVars.ParsedIdsAreValid` | control-plane/infra.py:20-21 | whatever the text, only valid ids are read |
| `TfVars.RewritingIsLocal` | control-plane/infra.py:14-17 | rewriting the list changes nothing outside its brackets, and the pattern then finds the new list in its place |
| `TfVars.FindsTheList` | control-plane/infra.py:14-21 | the list found is the one after `tenant_ids = ` on a line of its own, wherever it stands in the file if no list comes before it, and its ids are what is read |
| `TfVars.NothingToFind` | control-plane/infra.py:39-42 | a text without that word has no list |
| `TfVars.VarFile.EnsureTenant` | control-plane/infra.py:36-50 | keeps the ids read before, in order, appends the new one, keeps all other text; a no-op if the id is there, so also the second time; the error when the pattern does not match |

## Left out

- Subprocesses, kubectl, helm, boto3 and psycopg2 themselves; Terraform modules, other Helm templates, Flask routing,
  argument parsing and logging.
- Bind and token safety, the lab's login and the admission policy: short decisions that would add only easy members. `discover_active`, `list_unmanaged_namespaces` and the CLI's polling only report.
- The legacy provision path through `ensure_infra` (OpenTofu apply), beyond its edit of terraform.tfvars.
- Classification of AWS error codes: every injected fault already carries its error class.
- Registry write failures outside `delete_tenant`: SQLite is taken to work there. Timestamps are one reading per
  operation; order within equal timestamps is table order.
- What a timed-out or orphaned job does after the control plane has stopped waiting for it; jobs and config maps left
  over; a namespace that is only partly deleted; eventual consistency of AWS reads.
- Password contents: a password is identified by the secret it came from.
- The SQL `WHERE` clauses of sessions look at row contents, not at the shared serial ids.
- Each kubectl, helm and AWS call takes effect as a whole or not at all; the namespace probe of a deletion is truthful
  (the observer's is not assumed to be: a failed probe reads as an absent namespace).
- An Ingress has a hostname as soon as it is there, unless the call that waits for it fails.
- Cross-process concurrency on the registry beyond atomic calls: runs of operations are sequential.
- Provision.ProvisionTenant: does not model the legacy path through `ensure_infra`, which edits terraform.tfvars
  (`TfVars.VarFile.EnsureTenant`) and applies OpenTofu; that apply is outside this model.
- TfVars.VarFile.EnsureTenant: the text is the decoded one; reading and writing the file normalises its line endings, so a
  file with CRLF line endings does change outside the list when it is rewritten.
- Runs.RunOperations: one set of OpenTofu outputs for the whole run.
