/** The requests of the HTTP interface with the jobs they start, and what each of them keeps. */
module Operator {
  import opened Names
  import opened Observe
  import opened Cloud
  import opened Retry
  import opened Registry
  import opened Identity
  import opened Provision
  import opened Suspension
  import opened Invariants
  import opened Reconcile
  import T = Teardown
  import TP = TeardownProofs
  import DT = DeleteTheorems
  import Lifecycle

  /** What an operation aimed at the given tenants keeps: a sane registry, complete pointers, and the absence of
      every other tenant that OpenTofu does not name. */
  ghost predicate Harmless(e: Outputs, ids: set<TenantId>, rows0: Rows, w0: World, rows: Rows, w: World) {
    && (Sane(e, rows0, w0) ==> Sane(e, rows, w)) && (Pointed(e, rows0) ==> Pointed(e, rows))
    && (forall y | y !in ids && y !in e.tofuSecrets && Absent(e, y, rows0, w0) :: Absent(e, y, rows, w))
  }

  lemma HarmlessComposes(e: Outputs, a: set<TenantId>, b: set<TenantId>, r0: Rows, w0: World, r1: Rows, w1: World,
          r2: Rows, w2: World)
    requires Harmless(e, a, r0, w0, r1, w1) && Harmless(e, b, r1, w1, r2, w2)
    ensures Harmless(e, a + b, r0, w0, r2, w2)
  {
    hide Sane, Pointed, Absent;
  }

  lemma HarmlessKeepsSane(e: Outputs, ids: set<TenantId>, r0: Rows, w0: World, r1: Rows, w1: World)
    requires Harmless(e, ids, r0, w0, r1, w1) && Sane(e, r0, w0)
    ensures Sane(e, r1, w1)
  {
  }

  lemma KeptIsHarmless(e: Outputs, x: TenantId, r0: Rows, w0: World, r1: Rows, w1: World)
    requires Kept(e, x, r0, w0, r1, w1)
    ensures Harmless(e, {x}, r0, w0, r1, w1)
  {
    hide Sane, Pointed, Absent;
  }

  lemma WriteIsHarmless(e: Outputs, rows: Rows, x: TenantId, p: Patch, w: World)
    requires p.owner.Keep? && p.secretName.Keep? && p.irsaRoleArn.Keep?
    requires Coherent(rows) ==> CoherentRow(Written(rows, x, p, e.now))
    ensures Harmless(e, {x}, rows, w, Put(rows, x, p, e.now), w)
  {
    PutIsHarmless(e, rows, x, p);
    hide Coherent, CoherentRow, Pointed, OwnNames, HonestWorld, Tidy, Vanished;
  }

  // ---- requests ----

  /** How POST /tenants treats a tenant that is already in the registry. */
  datatype Guard = Admit | AlreadyThere | Conflict

  function CreateGuard(rows: Rows, x: TenantId): (g: Guard)
    ensures g == Admit <==> x in rows ==> rows[x].status in {FAILED, DRIFT} || rows[x].status.OtherStatus?
    ensures g == AlreadyThere <==> x in rows && rows[x].status in {ACTIVE, PROVISIONING, DELETING}
    ensures g == Conflict <==> x in rows && rows[x].status in {SUSPENDED, DELETE_FAILED}
  {
    if x !in rows then Admit
    else match rows[x].status
      case ACTIVE | PROVISIONING | DELETING => AlreadyThere
      case DELETE_FAILED | SUSPENDED => Conflict
      case _ => Admit
  }

  /** POST /tenants and the job it starts. */
  method Create(store: TenantStore, cloud: CloudApi, e: Outputs, x: TenantId, tier: string, identity: bool)
    returns (g: Guard, r: Result)
    requires OwnNames(e, store.rows) && HonestWorld(e, cloud.world) && TofuNames(e)
    modifies store, cloud
    ensures Harmless(e, {x}, old(store.rows), old(cloud.world), store.rows, cloud.world)
    ensures ValidId(x) ==> g == CreateGuard(old(store.rows), x)
    ensures g != Admit || !ValidId(x) ==> store.rows == old(store.rows) && cloud.world == old(cloud.world)
    ensures g == Admit && ValidId(x) ==>
              x in store.rows && RowAfter(e, old(store.rows), x, tier, identity, r, store.rows[x])
    ensures g == Admit && ValidId(x) && r.Ok? ==>
              Provisioned(e, old(store.rows), x, identity, PodsUp(old(cloud.world), x), cloud.world)
    ensures g == Admit && ValidId(x) ==>
              JobOutcome(old(cloud.faults), CanProvision(e, old(store.rows), x, identity, old(cloud.world)), r)
    ensures g == Admit && ValidId(x) && identity && e.rdsHost && e.oidc ==>
              Persists(old(cloud.faults), CanProvision(e, old(store.rows), x, identity, old(cloud.world)), r)
  {
    ghost var rows0, w0 := store.rows, cloud.world;
    assert Harmless(e, {x}, rows0, w0, rows0, w0);
    g, r := CreateGuard(store.rows, x), Ok;
    if !ValidId(x) {
      return Conflict, Err(ValidationError);
    }
    if g != Admit {
      return;
    }
    WriteIsHarmless(e, rows0, x, Stage(PROVISIONING, tier, None), w0);
    PutIsHarmless(e, rows0, x, Stage(PROVISIONING, tier, None));
    StartChangesNothing(e, rows0, x, identity, Stage(PROVISIONING, tier, None), w0);
    var _ := store.Upsert(x, Stage(PROVISIONING, tier, None), None, e.now);
    ghost var rows1 := store.rows;
    hide Harmless, OwnNames, HonestWorld, Tidy, MigrationKeys, CanProvision, PodsUp, JobOutcome, Persists;
    r := Provide(store, cloud, e, x, tier, identity);
    RowAfterStart(e, rows0, x, tier, identity, r, store.rows[x]);
    hide RowAfter;
    HarmlessComposes(e, {x}, {x}, rows0, w0, rows1, w0, store.rows, cloud.world);
    assert {x} + {x} == {x};
  }

  /** Writing PROVISIONING once more beforehand makes no difference to the row in the end. */
  lemma RowAfterStart(e: Outputs, rows: Rows, x: TenantId, tier: string, create: bool, r: Result, row: Row)
    requires RowAfter(e, Put(rows, x, Stage(PROVISIONING, tier, None), e.now), x, tier, create, r, row)
    ensures RowAfter(e, rows, x, tier, create, r, row)
  {
  }

  /** The job of POST /tenants; on the command line, all there is. */
  method Provide(store: TenantStore, cloud: CloudApi, e: Outputs, x: TenantId, tier: string, identity: bool)
    returns (r: Result)
    requires OwnNames(e, store.rows) && HonestWorld(e, cloud.world) && TofuNames(e)
    modifies store, cloud
    ensures Harmless(e, {x}, old(store.rows), old(cloud.world), store.rows, cloud.world)
    ensures ValidId(x) ==> x in store.rows && RowAfter(e, old(store.rows), x, tier, identity, r, store.rows[x])
    ensures r.Ok? ==> Provisioned(e, old(store.rows), x, identity, PodsUp(old(cloud.world), x), cloud.world)
    ensures ValidId(x) ==>
              JobOutcome(old(cloud.faults), CanProvision(e, old(store.rows), x, identity, old(cloud.world)), r)
    ensures ValidId(x) && identity && e.rdsHost && e.oidc ==>
              Persists(old(cloud.faults), CanProvision(e, old(store.rows), x, identity, old(cloud.world)), r)
  {
    ghost var rows0, w0 := store.rows, cloud.world;
    assert Harmless(e, {x}, rows0, w0, rows0, w0);
    r := ProvisionTenant(store, cloud, e, x, tier, identity);
    if Tidy(e, w0) {
      ProvisionKeepsTidy(e, x, MigrationKeys(e, rows0, x), w0, cloud.world);
    }
    if ValidId(x) {
      ProvisionIsHarmless(e, x, tier, identity, r, rows0, store.rows, w0, cloud.world);
    }
    hide ProvisionOnly, RowAfter, Coherent, Pointed, OwnNames, HonestWorld, Tidy, Absent, Provisioned, PodsUp;
    hide Persists, CanProvision, Surfaces;
  }

  /** POST /tenants/id/suspend, done within the request. */
  method Suspend(store: TenantStore, cloud: CloudApi, e: Outputs, x: TenantId) returns (r: Result)
    modifies store, cloud
    ensures Harmless(e, {x}, old(store.rows), old(cloud.world), store.rows, cloud.world)
    ensures r.Ok? ==>
              && ValidId(x) && x in old(store.rows) && x in store.rows
              && store.rows[x].status == SUSPENDED
              && (old(store.rows)[x].status != SUSPENDED ==>
                    && old(store.rows)[x].status in {ACTIVE, FAILED, DRIFT}
                    && store.rows[x].desired == WantSuspended && store.rows[x].error == None
                    && x in cloud.world.spaces && x in old(cloud.world).spaces
                    && ReplicasOf(cloud.world.spaces[x]) == 0
                    && (cloud.world.spaces[x].ingress <==>
                          old(cloud.world).spaces[x].ingress && !Took(Next(Rest(old(cloud.faults))))))
    ensures !r.Ok? ==> store.rows == old(store.rows)
    ensures old(cloud.faults) == [] && ValidId(x) && x in old(store.rows) ==>
              (r.Ok? <==> || old(store.rows)[x].status == SUSPENDED
                          || (old(store.rows)[x].status in {ACTIVE, FAILED, DRIFT}
                              && x in old(cloud.world).spaces && old(cloud.world).spaces[x].deploy.Some?))
    ensures (&& old(cloud.faults) == [] && ValidId(x) && x in old(store.rows)
             && old(store.rows)[x].status in {ACTIVE, FAILED, DRIFT} && !r.Ok?) ==>
              r == Err(if exists i | 0 <= i <= |x| :: "timeout" <= x[i..] then KubernetesRetryable
                       else PermanentProvisioning)
  {
    ghost var rows0, w0 := store.rows, cloud.world;
    r := SuspendTenant(store, cloud, e, x);
    SpaceKeepsVanished(e, x, w0, cloud.world);
    if store.rows != rows0 {
      PutIsHarmless(e, rows0, x, SUSPEND);
    }
    hide SpaceOnly, Pointed, OwnNames, HonestWorld, Tidy, Vanished;
  }

  /** A tenant that was ACTIVE is left alone; a SUSPENDED one is released, its pods ready, and its row says so. */
  predicate Awake(e: Outputs, x: TenantId, rows0: Rows, rows: Rows, w: World) {
    && x in rows0 && x in rows
    && if rows0[x].status == ACTIVE then rows == rows0
       else rows0[x].status == SUSPENDED && IsResumed(e, x, rows0[x], rows[x])
            && x in w.spaces && w.spaces[x] == Release(e, true)
  }

  ghost predicate CanWake(e: Outputs, x: TenantId, rows: Rows, w: World) {
    x in rows && (rows[x].status == ACTIVE || (rows[x].status == SUSPENDED && CanResume(e, rows, x, w)))
  }

  method TryResume(store: TenantStore, cloud: CloudApi, e: Outputs, x: TenantId) returns (r: Result)
    requires OwnNames(e, store.rows) && HonestWorld(e, cloud.world) && TofuNames(e)
    modifies store, cloud
    ensures Harmless(e, {x}, old(store.rows), old(cloud.world), store.rows, cloud.world)
    ensures !r.Ok? ==> store.rows == old(store.rows)
    ensures r.Ok? ==> Awake(e, x, old(store.rows), store.rows, cloud.world)
    ensures old(cloud.faults) == [] && ValidId(x) && x in old(store.rows) ==>
              (r.Ok? <==> CanWake(e, x, old(store.rows), old(cloud.world)))
  {
    ghost var rows0, w0 := store.rows, cloud.world;
    r := ResumeTenant(store, cloud, e, x);
    OnboardIsHarmless(e, x, rows0, w0, cloud.world);
    hide OnboardOnly, Vanished, KnownKeys, HasMaps, CanResume, Tidy, Pointed, OwnNames, HonestWorld;
    if r.Ok? {
      PutIsHarmless(e, rows0, x, Resumed(e, x, rows0[x]));
    }
  }

  /** POST /tenants/id/resume and its job, which notes a control-plane error in the row. */
  method Resume(store: TenantStore, cloud: CloudApi, e: Outputs, x: TenantId) returns (r: Result)
    requires OwnNames(e, store.rows) && HonestWorld(e, cloud.world) && TofuNames(e)
    modifies store, cloud
    ensures Harmless(e, {x}, old(store.rows), old(cloud.world), store.rows, cloud.world)
    ensures r.Ok? ==> Awake(e, x, old(store.rows), store.rows, cloud.world)
    ensures r.Err? && IsControlPlaneError(r.error) && ValidId(x) && x in old(store.rows) ==>
              && x in store.rows && store.rows[x].status == FAILED && store.rows[x].desired == WantActive
              && store.rows[x].error == Some(Exception(r.error))
    ensures r.Crash? || (r.Err? && !IsControlPlaneError(r.error)) ==> store.rows == old(store.rows)
    ensures old(cloud.faults) == [] && ValidId(x) && x in old(store.rows) ==>
              (r.Ok? <==> CanWake(e, x, old(store.rows), old(cloud.world)))
  {
    ghost var rows0, w0 := store.rows, cloud.world;
    hide Awake, CanWake;
    r := TryResume(store, cloud, e, x);
    if r.Err? && IsControlPlaneError(r.error) && ValidId(x) && x in store.rows {
      WriteIsHarmless(e, store.rows, x, ResumeFailed(r.error), cloud.world);
      ghost var rows1, w1 := store.rows, cloud.world;
      hide Harmless;
      var _ := store.Upsert(x, ResumeFailed(r.error), None, e.now);
      HarmlessComposes(e, {x}, {x}, rows0, w0, rows1, w1, store.rows, w1);
      assert {x} + {x} == {x};
    }
  }

  function ResumeFailed(f: Failure): Patch {
    NO_CHANGE.(desired := Set(WantActive), status := Set(FAILED), error := Set(Some(Exception(f))))
  }

  const DELETING_NOW := NO_CHANGE.(desired := Set(WantGone), status := Set(DELETING), error := Set(None))

  /** The registry once DELETE has marked the tenant. */
  predicate Marked(e: Outputs, x: TenantId, rows0: Rows, rows: Rows) {
    && Without(rows, x) == Without(rows0, x) && T.TargetOf(e, rows, x) == T.TargetOf(e, rows0, x)
    && x in rows && rows[x].desired == WantGone && rows[x].status == DELETING && rows[x].error == None
    && rows[x].deleteStep == if x in rows0 then rows0[x].deleteStep else None
  }

  method MarkDeleting(store: TenantStore, e: Outputs, x: TenantId, ghost w: World)
    requires ValidId(x)
    modifies store
    ensures Harmless(e, {x}, old(store.rows), w, store.rows, w)
    ensures Marked(e, x, old(store.rows), store.rows)
  {
    ghost var rows0 := store.rows;
    WriteIsHarmless(e, rows0, x, DELETING_NOW, w);
    if x !in store.rows {
      var _ := store.Upsert(x, DELETING_NOW, None, e.now);
      WriteIsHarmless(e, store.rows, x, DELETING_NOW, w);
      HarmlessComposes(e, {x}, {x}, rows0, w, store.rows, w, Put(store.rows, x, DELETING_NOW, e.now), w);
      assert {x} + {x} == {x};
    }
    hide Harmless;
    var _ := store.Upsert(x, DELETING_NOW, None, e.now);
  }

  /** DELETE /tenants/id and its job. A tenant that is not registered is registered as DELETING first, to clean up
      what it may have left. It ends as the deletion of the marked tenant does, so without faults it returns exactly if
      the revoke job can start; a failure is noted in whatever row is left. */
  method Remove(store: TenantStore, cloud: CloudApi, e: Outputs, x: TenantId)
    returns (ending: T.Ending, error: Failure, ghost marked: Rows)
    modifies store, cloud
    ensures Harmless(e, {x}, old(store.rows), old(cloud.world), store.rows, cloud.world)
    ensures !ValidId(x) ==> ending == T.Raised && store.rows == old(store.rows) && cloud.world == old(cloud.world)
    ensures ValidId(x) ==>
              && Marked(e, x, old(store.rows), marked)
              && var d := TP.Attempt(e, x, T.State(marked, old(cloud.world)), old(cloud.faults)).0;
                 && ending == d.ending && cloud.world == d.s.world
                 && (ending != T.Raised ==> store.rows == d.s.rows)
                 && (x in store.rows <==> x in d.s.rows)
    ensures ending == T.Raised && ValidId(x) && x in store.rows ==>
              && store.rows[x].status == DELETE_FAILED && store.rows[x].desired == WantGone
              && store.rows[x].error == Some(Exception(error))
    ensures ending == T.Returned && TP.Ready(e, x, T.State(old(store.rows), old(cloud.world))) ==>
              T.State(store.rows, cloud.world)
              == var s := T.State(old(store.rows), old(cloud.world)); TP.Erased(e, x, T.TargetOf(e, s.rows, x), s)
    ensures (&& old(cloud.faults) == [] && ValidId(x)
             && TP.Ready(e, x, T.State(old(store.rows), old(cloud.world)))) ==>
              (ending == T.Returned <==> T.JobCanStart(e, old(cloud.world)))
  {
    ghost var rows0, w0 := store.rows, cloud.world;
    hide TP.Attempt, TP.AttemptError, TP.Erased, TP.Ready, Coherent, Pointed, OwnNames, HonestWorld, Tidy, Absent;
    assert Harmless(e, {x}, rows0, w0, rows0, w0);
    if !ValidId(x) {
      return T.Raised, ValidationError, rows0;
    }
    MarkDeleting(store, e, x, w0);
    ghost var rows1, fs := store.rows, cloud.faults;
    marked := rows1;
    RemovalErases(e, x, rows0, rows1, w0, fs);
    ending, error := Lifecycle.DeleteTenant(store, cloud, e, x);
    DeletionIsHarmless(e, x, T.State(rows1, w0), fs);
    ghost var rows2, w2 := store.rows, cloud.world;
    assert Harmless(e, {x}, rows1, w0, rows2, w2);
    hide Harmless;
    HarmlessComposes(e, {x}, {x}, rows0, w0, rows1, w0, rows2, w2);
    assert {x} + {x} == {x};
    if ending == T.Raised && x in store.rows {
      WriteIsHarmless(e, rows2, x, RemovalFailed(error), w2);
      var _ := store.Upsert(x, RemovalFailed(error), None, e.now);
      HarmlessComposes(e, {x}, {x}, rows0, w0, rows2, w2, store.rows, w2);
    }
  }

  function RemovalFailed(f: Failure): Patch {
    NO_CHANGE.(desired := Set(WantGone), status := Set(DELETE_FAILED), error := Set(Some(Exception(f))))
  }

  /** Marking the row first changes nothing about what a returning deletion has erased. */
  lemma RemovalErases(e: Outputs, x: TenantId, rows0: Rows, rows1: Rows, w: World, fs: seq<Fault>)
    requires T.TargetOf(e, rows1, x) == T.TargetOf(e, rows0, x) && Without(rows1, x) == Without(rows0, x)
    ensures TP.Ready(e, x, T.State(rows0, w)) && TP.Attempt(e, x, T.State(rows1, w), fs).0.ending == T.Returned ==>
              TP.Attempt(e, x, T.State(rows1, w), fs).0.s == TP.Erased(e, x, T.TargetOf(e, rows0, x), T.State(rows0, w))
    ensures TP.Ready(e, x, T.State(rows0, w)) && fs == [] ==>
              (TP.Attempt(e, x, T.State(rows1, w), fs).0.ending == T.Returned <==> T.JobCanStart(e, w))
  {
    if TP.Ready(e, x, T.State(rows0, w)) && fs == [] {
      CalmDelete(e, x, T.State(rows1, w));
    }
    if TP.Ready(e, x, T.State(rows0, w)) && TP.Attempt(e, x, T.State(rows1, w), fs).0.ending == T.Returned {
      DT.AttemptErases(e, x, T.State(rows1, w), fs);
      assert TP.Erased(e, x, T.TargetOf(e, rows0, x), T.State(rows1, w))
          == TP.Erased(e, x, T.TargetOf(e, rows0, x), T.State(rows0, w));
    }
    hide TP.Attempt, T.TargetOf;
  }
}
