/** Whole runs: every way to drive the control plane, restarts included, and what holds over all sequential runs. */
module Runs {
  import opened Names
  import opened Observe
  import opened Cloud
  import opened Retry
  import opened Registry
  import opened Identity
  import opened Provision
  import opened Invariants
  import opened Observer
  import opened Reconcile
  import opened Operator
  import opened Sweep
  import opened Adoption
  import T = Teardown
  import TP = TeardownProofs
  import DT = DeleteTheorems
  import Lifecycle

  // ---- restarts ----

  /** The tenants a legacy file can bring in. */
  function NamedBy(records: seq<Legacy>): set<TenantId> {
    if records == [] then {}
    else (if ValidId(records[0].id) then {records[0].id} else {}) + NamedBy(records[1..])
  }

  /** Complete pointers in the file name the tenants' own secrets. */
  predicate LegacyNames(e: Outputs, records: seq<Legacy>) {
    forall l | l in records && HasPointers(l.row) :: l.row.secretName == Some(SecretOf(e, l.id))
  }

  /** Every record the control plane owns has both its pointers. */
  predicate LegacyPointed(e: Outputs, records: seq<Legacy>) {
    forall l | l in records :: PointedRow(e, l.id, l.row)
  }

  /** The registry after the process has started anew: the file is read only into an empty table. */
  function Restarted(rows: Rows, records: seq<Legacy>): Rows {
    if rows == map[] then Imported(map[], records) else rows
  }

  function WithRecord(rows: Rows, l: Legacy): Rows {
    if ValidId(l.id) && l.id !in rows then rows[l.id := LegacyRow(l)] else rows
  }

  lemma {:induction false} ImportedMeans(rows: Rows, records: seq<Legacy>)
    ensures forall x :: x in Imported(rows, records) <==> x in rows || x in NamedBy(records)
    decreases |records|
  {
    if records != [] {
      ImportedMeans(WithRecord(rows, records[0]), records[1..]);
    }
  }

  /** A legacy import yields coherent rows, whatever statuses the file carries. */
  lemma {:induction false} ImportIsCoherent(rows: Rows, records: seq<Legacy>)
    requires Coherent(rows)
    ensures Coherent(Imported(rows, records))
    decreases |records|
  {
    if records != [] {
      assert CoherentRow(LegacyRow(records[0]));
      ImportIsCoherent(WithRecord(rows, records[0]), records[1..]);
    }
  }

  lemma {:induction false} ImportKeepsPointers(e: Outputs, rows: Rows, records: seq<Legacy>)
    ensures OwnNames(e, rows) && LegacyNames(e, records) ==> OwnNames(e, Imported(rows, records))
    ensures Pointed(e, rows) && LegacyPointed(e, records) ==> Pointed(e, Imported(rows, records))
    decreases |records|
  {
    if records != [] {
      var rest := WithRecord(rows, records[0]);
      assert records[0] in records;
      assert OwnNames(e, rows) && LegacyNames(e, records) ==> OwnNames(e, rest) && LegacyNames(e, records[1..]);
      assert Pointed(e, rows) && LegacyPointed(e, records) ==> Pointed(e, rest) && LegacyPointed(e, records[1..]);
      ImportKeepsPointers(e, rest, records[1..]);
    }
  }

  /** A tenant that is gone survives a restart if and only if the registry is not empty or the file does not name it. */
  lemma RestartRevives(e: Outputs, x: TenantId, rows: Rows, records: seq<Legacy>, w: World)
    requires Absent(e, x, rows, w)
    ensures Absent(e, x, Restarted(rows, records), w) <==> rows != map[] || x !in NamedBy(records)
  {
    ImportedMeans(map[], records);
  }

  /** The failing input: the file names x, and x was the last registered tenant. The restart registers x again as
      ACTIVE, and the next reconciliation, which names no tenant, sets out to provision it. */
  lemma RevivedTenantIsWanted(e: Outputs, x: TenantId, row: Row, w: World)
    requires ValidId(x) && Absent(e, x, map[], w)
    ensures var rows := Restarted(map[], [Legacy(x, Some(ACTIVE), row)]);
            && x in rows && rows[x].status == ACTIVE
            && PlanAction(rows[x].desired, ObservedIn(w.spaces, x), rows[x].status) == ProvisionIt
  {
    var l := Legacy(x, Some(ACTIVE), row);
    assert [l][1..] == [];
    assert Imported(map[], [l]) == map[x := LegacyRow(l)];
  }

  // ---- operations ----

  datatype Op =
    | DoCreate(id: string, tier: string, identity: bool)      // POST /tenants
    | DoProvision(id: string, tier: string, identity: bool)   // the command line, without the request's guards
    | DoSuspend(id: string) | DoResume(id: string) | DoRemove(id: string)
    | DoReconcile(id: string) | DoReconcileAll
    | DoAdopt(ids: seq<string>)
    | DoRestart(records: seq<Legacy>)                         // the process starts, with this legacy file in place
    | DoPods(id: string, up: bool)                            // not the control plane's doing: pods come up or go down

  /** The tenant an operation names, if it names one. */
  function Target(op: Op): set<TenantId> {
    if op.DoReconcileAll? || op.DoAdopt? || op.DoRestart? || op.DoPods? then {} else {op.id}
  }

  function Targets(ops: seq<Op>): set<TenantId> {
    if ops == [] then {} else Targets(ops[..|ops| - 1]) + Target(ops[|ops| - 1])
  }

  /** The tenants the legacy files of a run name. */
  function Named(ops: seq<Op>): set<TenantId> {
    if ops == [] then {}
    else Named(ops[..|ops| - 1]) + if ops[|ops| - 1].DoRestart? then NamedBy(ops[|ops| - 1].records) else {}
  }

  predicate NamesFit(e: Outputs, op: Op) { op.DoRestart? ==> LegacyNames(e, op.records) }

  predicate PointersFit(e: Outputs, op: Op) { op.DoRestart? ==> LegacyPointed(e, op.records) }

  /** As `Harmless`, but that pointers stay complete is promised only under a condition. */
  ghost predicate Orderly(e: Outputs, fit: bool, ids: set<TenantId>, rows0: Rows, w0: World, rows: Rows, w: World) {
    && (Sane(e, rows0, w0) ==> Sane(e, rows, w)) && (fit && Pointed(e, rows0) ==> Pointed(e, rows))
    && (forall y | y !in ids && y !in e.tofuSecrets && Absent(e, y, rows0, w0) :: Absent(e, y, rows, w))
  }

  lemma HarmlessIsOrderly(e: Outputs, fit: bool, ids: set<TenantId>, r0: Rows, w0: World, r1: Rows, w1: World)
    requires Harmless(e, ids, r0, w0, r1, w1)
    ensures Orderly(e, fit, ids, r0, w0, r1, w1)
  {
    hide Sane, Pointed, Absent;
  }

  lemma OrderlyComposes(e: Outputs, f: bool, g: bool, a: set<TenantId>, b: set<TenantId>,
                        r0: Rows, w0: World, r1: Rows, w1: World, r2: Rows, w2: World)
    requires Orderly(e, f, a, r0, w0, r1, w1) && Orderly(e, g, b, r1, w1, r2, w2)
    ensures Orderly(e, f && g, a + b, r0, w0, r2, w2)
  {
    hide Sane, Pointed, Absent;
  }

  lemma AbsentIsUnlisted(e: Outputs, rows0: Rows, w0: World, rows: Rows, w: World)
    requires Harmless(e, rows0.Keys, rows0, w0, rows, w)
    ensures Harmless(e, {}, rows0, w0, rows, w)
  {
    hide Vanished, Sane, Pointed;
  }

  /** A process start. `imported` are the tenants it brings in. */
  method Restart(store: TenantStore, e: Outputs, records: seq<Legacy>, ghost w: World)
    returns (imported: set<TenantId>)
    requires LegacyNames(e, records)
    modifies store
    ensures store.rows == Restarted(old(store.rows), records)
    ensures imported == if old(store.rows) == map[] then NamedBy(records) else {}
    ensures Orderly(e, LegacyPointed(e, records), imported, old(store.rows), w, store.rows, w)
  {
    ImportedMeans(map[], records);
    ImportIsCoherent(map[], records);
    ImportKeepsPointers(e, map[], records);
    imported := if store.rows == map[] then NamedBy(records) else {};
    hide NamedBy, LegacyNames, LegacyPointed, Coherent, OwnNames, HonestWorld, Tidy, Pointed, Vanished, Imported;
    store.ImportLegacyJson(records);
  }

  /** Pods come up, or go down and stay down for now. */
  method TurnPods(cloud: CloudApi, e: Outputs, x: TenantId, up: bool, ghost rows: Rows)
    modifies cloud
    ensures Harmless(e, {}, rows, old(cloud.world), rows, cloud.world)
  {
    var w := cloud.world;
    w := w.(slow := if up then w.slow - {x} else w.slow + {x});
    if x in w.spaces && w.spaces[x].deploy.Some? {
      var spec := w.spaces[x].deploy.value.spec;
      w := w.(spaces := w.spaces[x := w.spaces[x].(deploy := Some(Deploy(spec, if up then spec else 0)))]);
    }
    cloud.world := w;
    hide Coherent, Pointed;
  }

  method RunOperation(store: TenantStore, cloud: CloudApi, e: Outputs, op: Op) returns (imported: set<TenantId>)
    requires Sane(e, store.rows, cloud.world) && TofuNames(e) && NamesFit(e, op)
    modifies store, cloud
    ensures imported <= Named([op]) && (!op.DoRestart? || old(store.rows) != map[] ==> imported == {})
    ensures Orderly(e, PointersFit(e, op), Target(op) + imported,
                    old(store.rows), old(cloud.world), store.rows, cloud.world)
  {
    ghost var rows0, w0 := store.rows, cloud.world;
    assert OwnNames(e, rows0) && HonestWorld(e, w0);
    hide Harmless, Orderly, Sane, OwnNames, HonestWorld, Tidy, LegacyNames, LegacyPointed, NamedBy, Target;
    imported := {};
    if op.DoRestart? {
      assert [op][..0] == [];
      imported := Restart(store, e, op.records, w0);
      RestartHasNoTarget(op, imported);
    } else {
      Act(store, cloud, e, op);
      HarmlessIsOrderly(e, PointersFit(e, op), Target(op), rows0, w0, store.rows, cloud.world);
      assert Target(op) + imported == Target(op);
    }
  }

  lemma RestartHasNoTarget(op: Op, imported: set<TenantId>)
    requires op.DoRestart?
    ensures Target(op) + imported == imported
  {
  }

  /** Any operation but a restart. */
  method Act(store: TenantStore, cloud: CloudApi, e: Outputs, op: Op)
    requires Sane(e, store.rows, cloud.world) && TofuNames(e) && !op.DoRestart?
    modifies store, cloud
    ensures Harmless(e, Target(op), old(store.rows), old(cloud.world), store.rows, cloud.world)
  {
    ghost var rows0, w0 := store.rows, cloud.world;
    assert OwnNames(e, rows0) && HonestWorld(e, w0);
    hide Harmless, Sane, OwnNames, HonestWorld, Tidy, TP.Ready, Converged, CanConverge, CanProvision, Kept;
    match op
    case DoCreate(id, tier, identity) => var _, _ := Create(store, cloud, e, id, tier, identity);
    case DoProvision(id, tier, identity) => var _ := Provide(store, cloud, e, id, tier, identity);
    case DoSuspend(id) => var _ := Suspend(store, cloud, e, id);
    case DoResume(id) => var _ := Resume(store, cloud, e, id);
    case DoRemove(id) => var _, _, _ := Operator.Remove(store, cloud, e, id);
    case DoReconcile(id) => ActOne(store, cloud, e, id);
    case DoReconcileAll =>
      var _, _ := ReconcileAll(store, cloud, e);
      AbsentIsUnlisted(e, rows0, w0, store.rows, cloud.world);
    case DoAdopt(ids) => var _, _ := AdoptTenants(store, cloud, e, ids);
    case DoPods(id, up) => TurnPods(cloud, e, id, up, rows0);
    case _ =>
  }

  method ActOne(store: TenantStore, cloud: CloudApi, e: Outputs, x: TenantId)
    requires OwnNames(e, store.rows) && HonestWorld(e, cloud.world) && TofuNames(e)
    modifies store, cloud
    ensures Harmless(e, {x}, old(store.rows), old(cloud.world), store.rows, cloud.world)
  {
    ghost var rows0, w0 := store.rows, cloud.world;
    var _, _ := ReconcileOne(store, cloud, e, x);
    KeptIsHarmless(e, x, rows0, w0, store.rows, cloud.world);
    hide Kept, Harmless;
  }

  /** Any sequential run of operations and restarts, each under any faults, with the control plane dying at will and
      pods coming and going: statuses and wishes stay coherent, and a row the control plane owns keeps both its
      pointers. A tenant that is gone, that no operation names and OpenTofu does not know, stays away, unless a
      restart that finds the registry empty reads it from a legacy file; `imported` are the tenants that happens to. */
  method RunOperations(store: TenantStore, cloud: CloudApi, e: Outputs, ops: seq<Op>) returns (imported: set<TenantId>)
    requires Sane(e, store.rows, cloud.world) && TofuNames(e)
    requires forall op | op in ops :: NamesFit(e, op)
    modifies store, cloud
    ensures imported <= Named(ops)
    ensures Sane(e, store.rows, cloud.world)
    ensures Pointed(e, old(store.rows)) && (forall op | op in ops :: PointersFit(e, op)) ==> Pointed(e, store.rows)
    ensures forall y | y !in Targets(ops) + imported && y !in e.tofuSecrets
                       && Absent(e, y, old(store.rows), old(cloud.world)) ::
              Absent(e, y, store.rows, cloud.world)
  {
    ghost var rows0, w0 := store.rows, cloud.world;
    imported := {};
    ghost var fit := true;
    assert Orderly(e, fit, Targets(ops[..0]) + imported, rows0, w0, rows0, w0);
    for i := 0 to |ops|
      invariant imported <= Named(ops[..i])
      invariant Sane(e, store.rows, cloud.world)
      invariant (forall op | op in ops :: PointersFit(e, op)) ==> fit
      invariant Orderly(e, fit, Targets(ops[..i]) + imported, rows0, w0, store.rows, cloud.world)
    {
      ghost var rows1, w1, before := store.rows, cloud.world, imported;
      assert ops[i] in ops;
      var more := RunOperation(store, cloud, e, ops[i]);
      OrderlyKeepsSane(e, PointersFit(e, ops[i]), Target(ops[i]) + more, rows1, w1, store.rows, cloud.world);
      OrderlyComposes(e, fit, PointersFit(e, ops[i]), Targets(ops[..i]) + before, Target(ops[i]) + more,
                      rows0, w0, rows1, w1, store.rows, cloud.world);
      Longer(ops, i, before, more);
      hide Orderly, Sane, Target, Targets, Named, PointersFit;
      imported := imported + more;
      fit := fit && PointersFit(e, ops[i]);
    }
    assert ops[..|ops|] == ops;
  }

  lemma OrderlyKeepsSane(e: Outputs, fit: bool, ids: set<TenantId>, r0: Rows, w0: World, r1: Rows, w1: World)
    requires Orderly(e, fit, ids, r0, w0, r1, w1) && Sane(e, r0, w0)
    ensures Sane(e, r1, w1)
  {
  }

  lemma Longer(ops: seq<Op>, i: nat, before: set<TenantId>, more: set<TenantId>)
    requires i < |ops| && before <= Named(ops[..i]) && more <= Named([ops[i]])
    ensures before + more <= Named(ops[..i + 1])
    ensures (Targets(ops[..i]) + before) + (Target(ops[i]) + more) == Targets(ops[..i + 1]) + (before + more)
  {
    assert ops[..i + 1][..i] == ops[..i] && [ops[i]][..0] == [];
    hide NamedBy, Target;
  }

  /** From an empty registry every reachable registry is coherent, and complete in its pointers. */
  lemma EmptyIsSane(e: Outputs, w: World)
    requires HonestWorld(e, w) && Tidy(e, w)
    ensures Sane(e, map[], w) && Pointed(e, map[])
  {
  }

  lemma ErasedIsAbsent(e: Outputs, x: TenantId, s0: T.State)
    requires ValidId(x) && '/' !in e.prefix
    requires x in s0.rows && s0.rows[x].owner == ControlPlane && PointedRow(e, x, s0.rows[x])
    ensures var s := TP.Erased(e, x, T.TargetOf(e, s0.rows, x), s0); Absent(e, x, s.rows, s.world)
  {
    TeardownFindsCreatedRole(e.prefix, e.account, x);
    OwnPointersAreSet(e, x);
    var arn := RoleArn(e.account, RoleOf(e, x));
    assert "arn:" <= arn;
    assert T.TargetOf(e, s0.rows, x) == T.Ours(RoleOf(e, x), SecretOf(e, x));
  }

  /** Deleted stays deleted: once deleting a tenant of the control plane's own has returned, its namespace, database
      role, policy, IAM role and live secret are gone, and remain so through every later run of operations on other
      tenants, provisions that re-run the migration and restarts included, but for restarts that read it back from a
      legacy file into an empty registry. */
  method DeleteThenRun(store: TenantStore, cloud: CloudApi, e: Outputs, x: TenantId, ops: seq<Op>)
    returns (ending: T.Ending, imported: set<TenantId>)
    requires Sane(e, store.rows, cloud.world) && TofuNames(e) && forall op | op in ops :: NamesFit(e, op)
    requires Pointed(e, store.rows) && ValidId(x) && '/' !in e.prefix
    requires x in store.rows && store.rows[x].owner == ControlPlane
    requires x !in e.tofuSecrets && x !in Targets(ops)
    modifies store, cloud
    ensures imported <= Named(ops)
    ensures ending == T.Returned && x !in imported ==> Absent(e, x, store.rows, cloud.world)
    ensures Sane(e, store.rows, cloud.world)
  {
    ending := DeleteOwn(store, cloud, e, x);
    hide Absent, Sane;
    imported := RunOperations(store, cloud, e, ops);
  }

  /** Deleting a tenant of the control plane's own, in any reachable state. */
  method DeleteOwn(store: TenantStore, cloud: CloudApi, e: Outputs, x: TenantId) returns (ending: T.Ending)
    requires Sane(e, store.rows, cloud.world) && Pointed(e, store.rows) && ValidId(x) && '/' !in e.prefix
    requires x in store.rows && store.rows[x].owner == ControlPlane
    modifies store, cloud
    ensures ending == T.Returned ==>
              Absent(e, x, store.rows, cloud.world) && store.rows == Without(old(store.rows), x)
    ensures Sane(e, store.rows, cloud.world)
  {
    ghost var s0, fs := T.State(store.rows, cloud.world), cloud.faults;
    var error;
    ending, error := Lifecycle.DeleteTenant(store, cloud, e, x);
    DeletionIsHarmless(e, x, s0, fs);
    TidyIsReady(e, x, s0.rows, s0.world);
    assert PointedRow(e, x, s0.rows[x]);
    if ending == T.Returned {
      DT.AttemptErases(e, x, s0, fs);
      ErasedIsAbsent(e, x, s0);
      assert TP.Erased(e, x, T.TargetOf(e, s0.rows, x), s0).rows == Without(s0.rows, x);
    }
    hide TP.Attempt, TP.Erased, Absent, Coherent, OwnNames, HonestWorld, Tidy, Pointed;
  }

  /** The exact condition, known before the deletion: a tenant whose deletion has returned survives the next restart
      absent if and only if it was not the last one registered or the legacy file does not name it. */
  method DeleteThenRestart(store: TenantStore, cloud: CloudApi, e: Outputs, x: TenantId, records: seq<Legacy>)
    returns (ending: T.Ending)
    requires Sane(e, store.rows, cloud.world) && LegacyNames(e, records)
    requires Pointed(e, store.rows) && ValidId(x) && '/' !in e.prefix
    requires x in store.rows && store.rows[x].owner == ControlPlane
    modifies store, cloud
    ensures ending == T.Returned ==>
              (Absent(e, x, store.rows, cloud.world) <==> old(store.rows).Keys != {x} || x !in NamedBy(records))
  {
    ghost var rows0 := store.rows;
    ending := DeleteOwn(store, cloud, e, x);
    if ending == T.Returned {
      RestartRevives(e, x, store.rows, records, cloud.world);
      OnlyOneLess(rows0, x);
    }
    hide Absent, Sane, Orderly, Restarted, NamedBy;
    var _ := Restart(store, e, records, cloud.world);
  }

  lemma OnlyOneLess(rows: Rows, x: TenantId)
    requires x in rows
    ensures Without(rows, x) == map[] <==> rows.Keys == {x}
  {
    if Without(rows, x) == map[] {
      forall t | t in rows ensures t == x {
        assert t != x ==> t in Without(rows, x);
      }
    }
  }

  /** A provision never clears delete_step. After one that returned, the kept step tells the truth if and only if it
      does not claim that the role was revoked. */
  lemma KeptStepIsStale(e: Outputs, x: TenantId, tier: string, create: bool, ready: bool, t: T.Target,
                        rows0: Rows, rows: Rows, w: World)
    requires x in rows && RowAfter(e, rows0, x, tier, create, Ok, rows[x])
    requires Provisioned(e, rows0, x, create, ready, w)
    ensures var kept := if x in rows0 then rows0[x].deleteStep else None;
            TP.CheckpointSound(e, x, t, T.State(rows, w)) <==> kept.None? || !TP.AtLeastRevoked(kept.value)
  {
    assert x in MigrationKeys(e, rows0, x);
  }

  /** In every reachable state, after any failed attempts, one fault-free deletion erases exactly the tenant. */
  lemma EveryTenantIsDeletable(e: Outputs, x: TenantId, s: T.State, fs: seq<Fault>)
    requires Sane(e, s.rows, s.world) && Pointed(e, s.rows) && ValidId(x) && '/' !in e.prefix
    requires x != T.RevokeHost(e) && T.JobCanStart(e, s.world)
    ensures var d := TP.Attempt(e, x, T.Play(e, x, T.Begin(s), fs).s, []).0;
            d.ending == T.Returned && d.s == TP.Erased(e, x, T.TargetOf(e, s.rows, x), s)
  {
    TidyIsReady(e, x, s.rows, s.world);
    DT.DeleteConfluence(e, x, s, fs);
    hide TP.Attempt, T.Play, TP.Erased;
  }
}
