/** `suspend_tenant` and `resume_tenant`. */
module Suspension {
  import opened Names
  import opened Observe
  import opened Postgres
  import opened Cloud
  import opened Retry
  import opened Registry
  import opened Identity
  import opened Migration
  import opened Provision
  import Teardown

  /** Statuses a tenant can be suspended from. */
  predicate Suspendable(s: Status) { s == ACTIVE || s == FAILED || s == DRIFT }

  predicate HasDeploy(w: World, x: TenantId) { x in w.spaces && w.spaces[x].deploy.Some? }

  /** Only x's namespace may differ, and it neither appears nor goes away. */
  predicate SpaceOnly(x: TenantId, w0: World, w: World) {
    && w == w0.(spaces := w.spaces) && Without(w.spaces, x) == Without(w0.spaces, x)
    && (x in w.spaces <==> x in w0.spaces)
  }

  predicate Contains(s: string, part: string) { exists i | 0 <= i <= |s| :: part <= s[i..] }

  /** kubectl refuses to scale a deployment that is not there. The class of the error is read off the command line,
      which names the namespace: an id that contains the word makes it a timeout. */
  function ScaleRefusal(x: TenantId): Failure {
    if Contains(x, "timeout") then KubernetesRetryable else PermanentProvisioning
  }

  const SUSPEND := NO_CHANGE.(desired := Set(WantSuspended), status := Set(SUSPENDED), error := Set(None))

  /** No pods; the Ingress goes if its best-effort removal takes effect. */
  function ScaledDown(v: Workload, edgeCut: bool): Workload {
    v.(deploy := Some(Deploy(0, 0)), ingress := v.ingress && !edgeCut)
  }

  /** The row is written only after the workload is scaled down: until then an error leaves the registry as it was.
      A tenant already SUSPENDED is returned as it is, whatever its workload does. */
  method SuspendTenant(store: TenantStore, cloud: CloudApi, e: Outputs, x: TenantId) returns (r: Result)
    modifies store, cloud
    ensures SpaceOnly(x, old(cloud.world), cloud.world)
    ensures r.Ok? ==> ValidId(x) && x in old(store.rows)
    ensures ValidId(x) && x in old(store.rows) && old(store.rows)[x].status == SUSPENDED ==> r.Ok?
    ensures r.Ok? && old(store.rows)[x].status == SUSPENDED ==>
              store.rows == old(store.rows) && cloud.world == old(cloud.world)
    ensures r.Ok? && old(store.rows)[x].status != SUSPENDED ==>
              && Suspendable(old(store.rows)[x].status) && store.rows == Put(old(store.rows), x, SUSPEND, e.now)
              && HasDeploy(old(cloud.world), x) && x in cloud.world.spaces
              && cloud.world.spaces[x] == ScaledDown(old(cloud.world).spaces[x], Took(Next(Rest(old(cloud.faults)))))
    ensures !r.Ok? ==> store.rows == old(store.rows)
    ensures ValidId(x) && x in old(store.rows) && Suspendable(old(store.rows)[x].status) ==>
              && Stopped(Next(old(cloud.faults)), r)
              && (r.Err? ==> || r == Err(ScaleRefusal(x))
                             || r.error == ErrorOf(Next(old(cloud.faults)))
                             || r.error == ErrorOf(Next(Rest(old(cloud.faults)))))
    ensures old(cloud.faults) == [] ==> cloud.faults == []
    ensures old(cloud.faults) == [] && ValidId(x) && x in old(store.rows) ==>
              (r.Ok? <==> || old(store.rows)[x].status == SUSPENDED
                          || (Suspendable(old(store.rows)[x].status) && HasDeploy(old(cloud.world), x)))
    ensures old(cloud.faults) == [] && r.Ok? && old(store.rows)[x].status != SUSPENDED ==>
              Asleep(cloud.world.spaces, x)
    ensures (&& old(cloud.faults) == [] && ValidId(x) && x in old(store.rows) && Suspendable(old(store.rows)[x].status)
             && !HasDeploy(old(cloud.world), x)) ==> r == Err(ScaleRefusal(x)) && cloud.world == old(cloud.world)
  {
    hide ValidId, ScaleRefusal, Contains;
    if !ValidId(x) {
      return Err(ValidationError);
    }
    if x !in store.rows {
      return Err(OnboardError);
    }
    var status := store.rows[x].status;
    if status == SUSPENDED {
      return Ok;
    }
    if !Suspendable(status) {
      return Err(OnboardError);
    }
    var present := HasDeploy(cloud.world, x);
    var f := cloud.Call(Teardown.ScaleToZero(cloud.world, x));
    if !f.Fine? {
      return ResultOf(f);
    }
    if !present {
      return Err(ScaleRefusal(x));
    }
    f := cloud.Call(Teardown.RemoveIngress(cloud.world, x));
    if f.Dies? || f.Raises? {
      return ResultOf(f);
    }
    var _ := store.Upsert(x, SUSPEND, None, e.now);
    r := Ok;
  }

  // ---- resume ----

  function Resumed(e: Outputs, x: TenantId, row: Row): Patch {
    NO_CHANGE.(desired := Set(WantActive), status := Set(ACTIVE), error := Set(None),
               endpoint := Set(if Endpoint(e, x).Some? then Endpoint(e, x) else row.endpoint),
               pathPrefix := Set(Some("/" + NamespaceName(x))))
  }

  /** The row of a tenant that has been resumed: ACTIVE as wanted, under its URL if there is one, all else as before. */
  predicate IsResumed(e: Outputs, x: TenantId, before: Row, row: Row) {
    && row.status == ACTIVE && row.desired == WantActive && row.error == None
    && row.endpoint == (if e.albUrl != "" then Some(e.albUrl + "/tenant-" + x) else before.endpoint)
    && row.pathPrefix == Some("/tenant-" + x) && row.tier == before.tier && PointersOf(row) == PointersOf(before)
    && row.deleteStep == before.deleteStep && row.version == before.version + 1
  }

  /** The tenants that OpenTofu or a complete registry row names. */
  function KnownKeys(e: Outputs, rows: Rows): set<TenantId> { e.tofuSecrets.Keys + OwnIdentities(rows).Keys }

  function ScaledToOne(w: World, x: TenantId): World {
    Teardown.OnSpace(w, x, (v: Workload) =>
      if v.deploy.Some? then v.(deploy := Some(Deploy(1, v.deploy.value.ready))) else v)
  }

  method RegistryMaps(rows: Rows, e: Outputs) returns (m: Maps)
    ensures MapsOf(e, rows, m) && m.secrets.Keys == KnownKeys(e, rows)
  {
    var extra := CpIdentities(rows);
    m := MergeIdentityMaps(e, extra);
    OverlaidMaps(e, rows, m);
    assert forall t :: t in m.secrets.Keys <==> t in KnownKeys(e, rows);
  }

  /** Scale up and wait for the rollout, which takes ready pods. */
  method ScaleUp(cloud: CloudApi, x: TenantId) returns (r: Result)
    requires HasDeploy(cloud.world, x)
    modifies cloud
    ensures SpaceOnly(x, old(cloud.world), cloud.world)
    ensures r.Ok? ==>
              && cloud.world == ScaledToOne(old(cloud.world), x)
              && cloud.world.spaces[x].deploy.value.ready >= 1
    ensures old(cloud.faults) == [] ==> cloud.faults == []
    ensures old(cloud.faults) == [] ==>
              if old(cloud.world).spaces[x].deploy.value.ready >= 1 then r.Ok? else r == Err(KubernetesRetryable)
  {
    var f := cloud.Call(ScaledToOne(cloud.world, x));
    if !f.Fine? {
      return ResultOf(f);
    }
    f := cloud.Call(cloud.world);
    if f.Fails? || (f.Fine? && cloud.world.spaces[x].deploy.value.ready < 1) {
      return Err(KubernetesRetryable);         // any bad exit of a command with a --timeout counts as one
    }
    r := ResultOf(f);
  }

  /** Onboard, scale and wait: the world's part of a resume. */
  method Restart(cloud: CloudApi, e: Outputs, x: TenantId, m: Maps) returns (r: Result)
    requires HonestSecrets(m.secrets, cloud.world) && x in m.secrets
    modifies cloud
    ensures OnboardOnly(x, m.secrets.Keys, old(cloud.world), cloud.world)
    ensures cloud.world == old(cloud.world).(spaces := cloud.world.spaces, db := cloud.world.db)
    ensures r.Ok? ==> x in cloud.world.spaces && cloud.world.spaces[x] == Release(e, true)
    ensures r.Ok? ==> CanRestart(e, x, m, old(cloud.world))
    ensures old(cloud.faults) == [] ==> cloud.faults == []
    ensures (&& old(cloud.faults) == [] && CanOnboard(e, x, m) && !PodsUp(old(cloud.world), x)
             && (x == First(e, Including(m.ids, x)) ==> CanMigrate(e, m, old(cloud.world)))) ==>
              r == Err(KubernetesRetryable)
    ensures old(cloud.faults) == [] && CanRestart(e, x, m, old(cloud.world)) ==> r.Ok?
  {
    SpaceIsOnboard(x, m.secrets.Keys, cloud.world, Release(e, true));
    hide CanOnboard, CanMigrate, MigrationOnly, HonestSecrets, Migrated, PodsUp, PasswordsMatch;
    var f := cloud.Call(cloud.world);          // node_ip
    if !f.Fine? {
      return ResultOf(f);
    }
    r := Onboard(cloud, e, x, m);
    if r != Ok {
      return;
    }
    ghost var mid := cloud.world;
    r := ScaleUp(cloud, x);
    if r == Ok && e.albController {
      f := cloud.Call(cloud.world);            // wait for the Ingress hostname
      r := ResultOf(f);
    }
  }

  predicate CanRestart(e: Outputs, x: TenantId, m: Maps, w: World) {
    CanOnboard(e, x, m) && (x == First(e, Including(m.ids, x)) ==> CanMigrate(e, m, w)) && PodsUp(w, x)
  }

  /** What a resume needs: x's identity in the maps, the outputs, pods that come up, and, for the tenant that runs the
      migrate job, every secret readable. */
  ghost predicate CanResume(e: Outputs, rows: Rows, x: TenantId, w: World) {
    AllButPods(e, rows, x, w) && PodsUp(w, x)
  }

  ghost predicate AllButPods(e: Outputs, rows: Rows, x: TenantId, w: World) {
    && HasMaps(e, rows, x) && e.rdsHost && EdgeReady(e, x)
    && (x == FirstTenant(e, OwnIdentities(rows).Keys, x) ==>
          e.migrator && e.rdsSecret && forall t | t in KnownKeys(e, rows) :: Live(w, SecretOf(e, t)))
  }

  lemma CanResumeMeans(e: Outputs, rows: Rows, x: TenantId, m: Maps, w: World)
    requires MapsOf(e, rows, m) && m.secrets.Keys == KnownKeys(e, rows)
    requires forall t | t in m.secrets :: m.secrets[t] == SecretOf(e, t)
    ensures x in m.secrets && x in m.irsa <==> HasMaps(e, rows, x)
    ensures AllButPods(e, rows, x, w) <==>
              CanOnboard(e, x, m) && (x == First(e, Including(m.ids, x)) ==> CanMigrate(e, m, w))
    ensures CanResume(e, rows, x, w) <==> CanRestart(e, x, m, w)
  {
    FirstIsFirstTenant(e, OwnIdentities(rows).Keys, m.ids, x);
    hide FirstTenant, First, Including, PodsUp, MergedIds;
  }

  /** Outputs, maps, onboard and rollout. */
  method Awaken(cloud: CloudApi, e: Outputs, x: TenantId, rows: Rows) returns (r: Result)
    requires OwnNames(e, rows) && TofuNames(e) && HonestWorld(e, cloud.world)
    modifies cloud
    ensures OnboardOnly(x, KnownKeys(e, rows), old(cloud.world), cloud.world) && HonestWorld(e, cloud.world)
    ensures r.Ok? ==> CanResume(e, rows, x, old(cloud.world))
    ensures r.Ok? ==> x in cloud.world.spaces && cloud.world.spaces[x] == Release(e, true)
    ensures Stopped(Next(old(cloud.faults)), r)
    ensures old(cloud.faults) == [] ==> cloud.faults == []
    ensures old(cloud.faults) == [] && AllButPods(e, rows, x, old(cloud.world)) && !PodsUp(old(cloud.world), x) ==>
              r == Err(KubernetesRetryable)
    ensures old(cloud.faults) == [] && CanResume(e, rows, x, old(cloud.world)) ==> r.Ok?
  {
    assert OnboardOnly(x, KnownKeys(e, rows), cloud.world, cloud.world);
    hide OnboardOnly, HonestWorld, OwnNames, KnownKeys, MapsOf, HasMaps, PodsUp, FirstTenant;
    var f := cloud.Call(cloud.world);          // tofu output
    if !f.Fine? {
      return ResultOf(f);
    }
    var m := RegistryMaps(rows, e);
    MapsAreHonest(e, rows, m, cloud.world);
    CanResumeMeans(e, rows, x, m, cloud.world);
    assert CanResume(e, rows, x, cloud.world) ==> HasMaps(e, rows, x);
    hide HonestSecrets, CanRestart, CanResume;
    if x !in m.irsa || x !in m.secrets {
      return Err(OnboardError);
    }
    ghost var w1 := cloud.world;
    r := Restart(cloud, e, x, m);
    SameSecretsStayHonest(e, w1, cloud.world);
  }

  /** Only a SUSPENDED tenant is resumed; the row becomes ACTIVE only after its rollout is complete. Until then an error
      leaves the registry as it was. Without faults a SUSPENDED tenant is resumed exactly when `CanResume` holds. */
  method ResumeTenant(store: TenantStore, cloud: CloudApi, e: Outputs, x: TenantId) returns (r: Result)
    requires OwnNames(e, store.rows) && TofuNames(e) && HonestWorld(e, cloud.world)
    modifies store, cloud
    ensures OnboardOnly(x, KnownKeys(e, old(store.rows)), old(cloud.world), cloud.world)
    ensures HonestWorld(e, cloud.world)
    ensures r.Ok? ==> ValidId(x) && x in old(store.rows)
    ensures r.Ok? && old(store.rows)[x].status == ACTIVE ==> store.rows == old(store.rows)
    ensures r.Ok? && old(store.rows)[x].status != ACTIVE ==>
              && old(store.rows)[x].status == SUSPENDED && CanResume(e, old(store.rows), x, old(cloud.world))
              && store.rows == Put(old(store.rows), x, Resumed(e, x, old(store.rows)[x]), e.now)
              && x in cloud.world.spaces && cloud.world.spaces[x] == Release(e, true)
              && IsResumed(e, x, old(store.rows)[x], store.rows[x])
    ensures !r.Ok? ==> store.rows == old(store.rows)
    ensures var f := Next(old(cloud.faults));
            ValidId(x) && x in old(store.rows) && old(store.rows)[x].status == SUSPENDED ==> Stopped(f, r)
    ensures (&& old(cloud.faults) == [] && ValidId(x) && x in old(store.rows) && old(store.rows)[x].status == SUSPENDED
             && AllButPods(e, old(store.rows), x, old(cloud.world)) && !PodsUp(old(cloud.world), x)) ==>
              r == Err(KubernetesRetryable)
    ensures old(cloud.faults) == [] ==> cloud.faults == []
    ensures old(cloud.faults) == [] && ValidId(x) && x in old(store.rows) ==>
              (r.Ok? <==> || old(store.rows)[x].status == ACTIVE
                          || (&& old(store.rows)[x].status == SUSPENDED
                              && CanResume(e, old(store.rows), x, old(cloud.world))))
  {
    assert OnboardOnly(x, KnownKeys(e, store.rows), cloud.world, cloud.world);
    hide OnboardOnly, HonestWorld, OwnNames, KnownKeys, CanResume, PodsUp, IsResumed, Resumed, ValidId;
    if !ValidId(x) {
      return Err(ValidationError);
    }
    if x !in store.rows {
      return Err(OnboardError);
    }
    var row := store.rows[x];
    if row.status == ACTIVE {
      return Ok;
    }
    if row.status != SUSPENDED {
      return Err(OnboardError);
    }
    r := Awaken(cloud, e, x, store.rows);
    if r == Ok {
      RowResumed(e, x, store.rows);
      var _ := store.Upsert(x, Resumed(e, x, row), None, e.now);
    }
  }

  lemma SameSecretsStayHonest(e: Outputs, a: World, b: World)
    requires HonestWorld(e, a) && b.secrets == a.secrets
    ensures HonestWorld(e, b)
  {
  }

  /** Suspending and resuming undo each other: with nothing else going on, a tenant that is up and can be resumed
      ends up ACTIVE and released again if and only if its pods come up in time; identity and every other tenant are
      untouched either way, and a tenant whose pods do not come up stays SUSPENDED. */
  method SuspendThenResume(store: TenantStore, cloud: CloudApi, e: Outputs, x: TenantId) returns (r: Result)
    requires OwnNames(e, store.rows) && TofuNames(e) && HonestWorld(e, cloud.world) && cloud.faults == []
    requires ValidId(x) && x in store.rows && store.rows[x].status == ACTIVE
    requires HasDeploy(cloud.world, x) && CanResume(e, store.rows, x, cloud.world)
    modifies store, cloud
    ensures r.Ok? || r == Err(KubernetesRetryable)
    ensures r.Ok? <==> x !in old(cloud.world).slow
    ensures x in store.rows && PointersOf(store.rows[x]) == PointersOf(old(store.rows)[x])
    ensures store.rows[x].status == (if r.Ok? then ACTIVE else SUSPENDED)
    ensures store.rows[x].desired == (if r.Ok? then WantActive else WantSuspended)
    ensures store.rows[x].version == old(store.rows)[x].version + if r.Ok? then 2 else 1
    ensures r.Ok? ==> x in cloud.world.spaces && cloud.world.spaces[x] == Release(e, true)
    ensures Without(cloud.world.spaces, x) == Without(old(cloud.world).spaces, x)
    ensures cloud.world.iam == old(cloud.world).iam && cloud.world.secrets == old(cloud.world).secrets
    ensures Without(store.rows, x) == Without(old(store.rows), x)
  {
    ghost var rows0, w0, cut := store.rows, cloud.world, Took(Next(Rest(cloud.faults)));
    hide CanResume, OwnNames, HonestWorld, SpaceOnly, OnboardOnly, KnownKeys, PodsUp, ScaledDown, ScaleRefusal;
    hide IsResumed, AllButPods, ObservedIn, EdgeReady, Contains, Put;
    RowSuspended(e, x, rows0);
    r := SuspendTenant(store, cloud, e, x);
    ghost var rows1, w1 := store.rows, cloud.world;
    SuspensionKeepsNames(e, rows0, x, cut, w0, w1);
    r := ResumeTenant(store, cloud, e, x);
    RoundTripTouchesOnlyX(x, KnownKeys(e, rows1), w0, w1, cloud.world);
    RowResumed(e, x, rows1);
  }

  lemma RowSuspended(e: Outputs, x: TenantId, rows: Rows)
    requires x in rows
    ensures var after := Put(rows, x, SUSPEND, e.now);
            && x in after && Without(after, x) == Without(rows, x) && PointersOf(after[x]) == PointersOf(rows[x])
            && after[x].status == SUSPENDED && after[x].desired == WantSuspended
            && after[x].version == rows[x].version + 1
  {
  }

  lemma RowResumed(e: Outputs, x: TenantId, rows: Rows)
    requires x in rows
    ensures var after := Put(rows, x, Resumed(e, x, rows[x]), e.now);
            && x in after && Without(after, x) == Without(rows, x) && PointersOf(after[x]) == PointersOf(rows[x])
            && after[x].status == ACTIVE && after[x].desired == WantActive && after[x].version == rows[x].version + 1
            && IsResumed(e, x, rows[x], after[x])
  {
    PathOfTenant(e.albUrl, x);
    hide NamespaceName;
  }

  lemma RoundTripTouchesOnlyX(x: TenantId, keys: set<TenantId>, w0: World, w1: World, w2: World)
    requires SpaceOnly(x, w0, w1) && OnboardOnly(x, keys, w1, w2)
    ensures Without(w2.spaces, x) == Without(w0.spaces, x) && w2.iam == w0.iam && w2.secrets == w0.secrets
  {
  }

  lemma SuspensionKeepsNames(e: Outputs, rows: Rows, x: TenantId, cut: bool, w0: World, w: World)
    requires OwnNames(e, rows) && HonestWorld(e, w0) && SpaceOnly(x, w0, w) && x in rows && x in w0.spaces
    requires x in w.spaces && w.spaces[x] == ScaledDown(w0.spaces[x], cut) && CanResume(e, rows, x, w0)
    ensures OwnNames(e, Put(rows, x, SUSPEND, e.now)) && HonestWorld(e, w)
    ensures AllButPods(e, Put(rows, x, SUSPEND, e.now), x, w) && (PodsUp(w, x) <==> x !in w0.slow)
    ensures CanResume(e, Put(rows, x, SUSPEND, e.now), x, w) <==> x !in w0.slow
  {
    assert OwnIdentities(Put(rows, x, SUSPEND, e.now)) == OwnIdentities(rows);
    hide FirstTenant;
  }
}
