/** `reconcile_one`: plan from desired and observed state, act, observe again, and let the contract gate decide. */
module Reconcile {
  import opened Names
  import opened Observe
  import opened Cloud
  import opened Retry
  import opened Registry
  import opened Identity
  import opened Provision
  import opened Suspension
  import opened Invariants
  import opened Observer
  import T = Teardown
  import TP = TeardownProofs
  import DT = DeleteTheorems
  import Lifecycle

  // ---- the planner ----

  datatype Action = Leave | ProvisionIt | RepairIt | ResumeIt | SuspendIt | DeleteIt | PurgeIt

  /** A missing wish counts as ACTIVE. */
  function Wish(d: Desired): Desired { if d.WantNull? || d == WantOther("") then WantActive else d }

  function PlanAction(desired: Desired, o: Observed, status: Status): Action {
    match desired
    case WantGone => if o.MatchesGone() then PurgeIt else DeleteIt
    case WantSuspended => if o.MatchesSuspended() then Leave else SuspendIt
    case WantActive =>
      if o.MatchesActive() then Leave
      else if !o.namespace then ProvisionIt
      else if status == SUSPENDED then ResumeIt
      else RepairIt
    case _ => Leave
  }

  // ---- the contract gate ----

  datatype Check = Pass | Gap(reason: string)

  function Listed(name: string, there: bool): seq<string> { if there then [] else [name] }

  function Missing(o: Observed): seq<string> {
    Listed("namespace", o.namespace) + Listed("ready_workload", o.deployReady && o.replicas >= 1)
    + Listed("ingress", o.ingress) + Listed("service", o.service) + Listed("network_policy", o.networkPolicy)
    + Listed("resource_quota", o.resourceQuota) + Listed("irsa_serviceaccount", o.irsaSa)
  }

  function Joined(parts: seq<string>): string {
    if parts == [] then "unknown" else if |parts| == 1 then parts[0] else parts[0] + "," + Joined(parts[1..])
  }

  function ValidateActiveContract(o: Observed, row: Row): Check {
    if !o.MatchesActive() then Gap("infra incomplete: " + Joined(Missing(o)))
    else if row.owner == ControlPlane && !Truthy(row.secretName) then Gap("registry missing secret_name")
    else if row.owner == ControlPlane && !Truthy(row.irsaRoleArn) then Gap("registry missing irsa_role_arn")
    else Pass
  }

  /** The gate passes exactly complete infrastructure with complete pointers; it always names a missing part. */
  lemma GateMeans(o: Observed, row: Row)
    ensures ValidateActiveContract(o, row).Pass? <==> o.MatchesActive() && (row.owner == ControlPlane ==>
              HasPointers(row))
    ensures o.MatchesActive() <==> Missing(o) == []
    ensures !o.MatchesActive() ==>
              ValidateActiveContract(o, row) == Gap("infra incomplete: " + Joined(Missing(o)))
    ensures o.MatchesActive() && row.owner == ControlPlane && row.secretName in {None, Some("")} ==>
              ValidateActiveContract(o, row) == Gap("registry missing secret_name")
    ensures (&& o.MatchesActive() && row.owner == ControlPlane && row.secretName !in {None, Some("")}
             && row.irsaRoleArn in {None, Some("")}) ==>
              ValidateActiveContract(o, row) == Gap("registry missing irsa_role_arn")
  {
  }

  /** The gap names exactly what the cluster lacks. */
  lemma GapNamesWhatIsMissing(spaces: map<TenantId, Workload>, x: TenantId)
    ensures var gap := Missing(ObservedIn(spaces, x));
            && ("namespace" in gap <==> x !in spaces)
            && ("ready_workload" in gap <==>
                  !(x in spaces && spaces[x].deploy.Some? && spaces[x].deploy.value.spec >= 1
                    && spaces[x].deploy.value.ready >= 1))
            && ("ingress" in gap <==> !(x in spaces && spaces[x].ingress))
            && ("service" in gap <==> !(x in spaces && spaces[x].service))
            && ("network_policy" in gap <==> !(x in spaces && spaces[x].networkPolicy))
            && ("resource_quota" in gap <==> !(x in spaces && spaces[x].quota))
            && ("irsa_serviceaccount" in gap <==> !(x in spaces && spaces[x].annotatedSa))
  {
    var o := ObservedIn(spaces, x);
    var there := [o.namespace, o.deployReady && o.replicas >= 1, o.ingress, o.service, o.networkPolicy,
                  o.resourceQuota, o.irsaSa];
    PartsDiffer();
    AllListed(PARTS, there, Missing(o));
  }

  const PARTS := ["namespace", "ready_workload", "ingress", "service", "network_policy", "resource_quota",
                  "irsa_serviceaccount"]

  lemma PartsDiffer()
    ensures forall i, j | 0 <= i < j < 7 :: PARTS[i] != PARTS[j]
  {
    assert |"namespace"| == 9 && |"irsa_serviceaccount"| == 19;
    assert |"ready_workload"| == 14 && |"network_policy"| == 14 && |"resource_quota"| == 14;
    assert "ready_workload"[2] == 'a' && "network_policy"[2] == 't' && "resource_quota"[2] == 's';
    assert |"ingress"| == 7 && |"service"| == 7 && "ingress"[0] == 'i' && "service"[0] == 's';
  }

  lemma AllListed(names: seq<string>, there: seq<bool>, gap: seq<string>)
    requires |names| == |there| == 7 && forall i, j | 0 <= i < j < 7 :: names[i] != names[j]
    requires gap == Listed(names[0], there[0]) + Listed(names[1], there[1]) + Listed(names[2], there[2])
                    + Listed(names[3], there[3]) + Listed(names[4], there[4]) + Listed(names[5], there[5])
                    + Listed(names[6], there[6])
    ensures forall i | 0 <= i < 7 :: names[i] in gap <==> !there[i]
  {
    forall i | 0 <= i < 7 ensures names[i] in gap <==> !there[i] {
      forall j | 0 <= j < 7 ensures names[i] in Listed(names[j], there[j]) <==> i == j && !there[j] {
      }
    }
    hide Listed;
  }

  /** The parts are separated by commas, in their order. */
  lemma {:induction false} JoinedAppends(parts: seq<string>, part: string)
    ensures Joined([part]) == part
    ensures parts != [] ==> Joined(parts + [part]) == Joined(parts) + "," + part
  {
    if |parts| == 1 {
      assert (parts + [part])[1..] == [part];
    } else if |parts| > 1 {
      assert (parts + [part])[1..] == parts[1..] + [part];
      JoinedAppends(parts[1..], part);
    }
  }

  /** With complete pointers the gate can never hold back a tenant that is fully up. */
  lemma PointersNeverBlock(e: Outputs, rows: Rows, x: TenantId, o: Observed)
    requires Pointed(e, rows) && x in rows
    ensures ValidateActiveContract(o, rows[x]).Pass? <==> o.MatchesActive()
  {
    PointedNames(e, rows);
  }

  /** Desired ACTIVE and the gate's verdict on an observation, as the registry shows it. */
  predicate Gated(row: Row, o: Observed) {
    && row.observed == Some(o) && row.desired == WantActive
    && match ValidateActiveContract(o, row)
       case Pass => row.status == ACTIVE && row.error == None
       case Gap(reason) => row.status == DRIFT && row.error == Some(ContractGap(reason))
  }

  // ---- what every step of a reconciliation keeps ----

  ghost predicate Sane(e: Outputs, rows: Rows, w: World) {
    Coherent(rows) && OwnNames(e, rows) && HonestWorld(e, w) && Tidy(e, w)
  }

  /** From one state to the next: sanity and complete pointers are kept, x's wish stands, other rows are the same,
      and tenants that are gone stay gone. */
  ghost predicate Kept(e: Outputs, x: TenantId, rows0: Rows, w0: World, rows: Rows, w: World) {
    && (Sane(e, rows0, w0) ==> Sane(e, rows, w)) && (Pointed(e, rows0) ==> Pointed(e, rows))
    && Without(rows, x) == Without(rows0, x)
    && (x in rows && x in rows0 ==> rows[x].desired == rows0[x].desired)
    && (forall y | y != x && y !in e.tofuSecrets && Absent(e, y, rows0, w0) :: Absent(e, y, rows, w))
  }

  lemma KeptComposes(e: Outputs, x: TenantId, r0: Rows, w0: World, r1: Rows, w1: World, r2: Rows, w2: World)
    requires Kept(e, x, r0, w0, r1, w1) && Kept(e, x, r1, w1, r2, w2)
    requires x in r2 && x in r0 ==> x in r1 || r2[x].desired == r0[x].desired
    ensures Kept(e, x, r0, w0, r2, w2)
  {
    hide Sane, Pointed, Absent;
  }

  /** A write that repeats the wish, leaves the pointers alone and sets a fitting status. */
  lemma PutIsKept(e: Outputs, rows: Rows, x: TenantId, p: Patch, w: World)
    requires p.owner.Keep? && p.secretName.Keep? && p.irsaRoleArn.Keep?
    requires Coherent(rows) ==> CoherentRow(Written(rows, x, p, e.now))
    requires x in rows ==> p.desired.Keep? || p.desired == Set(rows[x].desired)
    ensures Kept(e, x, rows, w, Put(rows, x, p, e.now), w)
  {
    PutIsHarmless(e, rows, x, p);
    assert Without(Put(rows, x, p, e.now), x) == Without(rows, x);
    hide Coherent, CoherentRow, Pointed, OwnNames, HonestWorld, Tidy, Absent, Vanished;
  }

  lemma DropIsKept(e: Outputs, rows: Rows, x: TenantId, w: World)
    ensures Kept(e, x, rows, w, Without(rows, x), w)
  {
    assert Without(Without(rows, x), x) == Without(rows, x);
  }

  // ---- the actuators ----

  /** As an actuator leaves the row of a tenant it has brought up, before the gate has its say. */
  predicate FreshlyActive(row: Row) { row.status == ACTIVE && row.error == None }

  method ActProvision(store: TenantStore, cloud: CloudApi, e: Outputs, x: TenantId, tier: string) returns (r: Result)
    requires OwnNames(e, store.rows) && HonestWorld(e, cloud.world) && TofuNames(e) && ValidId(x)
    requires x in store.rows && store.rows[x].desired == WantActive
    modifies store, cloud
    ensures Kept(e, x, old(store.rows), old(cloud.world), store.rows, cloud.world)
    ensures OwnNames(e, store.rows) && HonestWorld(e, cloud.world)
    ensures x in store.rows && (!r.Ok? ==> store.rows[x].status == FAILED || store.rows[x].status == PROVISIONING)
    ensures r.Ok? ==> FreshlyActive(store.rows[x]) && store.rows[x].tier == tier
    ensures r.Ok? ==> PointersOf(store.rows[x]) == OwnPointers(e, x)
                      && x in cloud.world.spaces && cloud.world.spaces[x] == Release(e, PodsUp(old(cloud.world), x))
    ensures r.Err? ==> IsControlPlaneError(r.error)
    ensures old(cloud.faults) == [] ==> cloud.faults == []
    ensures old(cloud.faults) == [] ==>
              (r.Ok? <==> CanProvision(e, old(store.rows), x, true, old(cloud.world)))
  {
    ghost var rows0, w0 := store.rows, cloud.world;
    r := ProvisionTenant(store, cloud, e, x, tier, true);
    ProvisionIsHarmless(e, x, tier, true, r, rows0, store.rows, w0, cloud.world);
    if Tidy(e, w0) {
      ProvisionKeepsTidy(e, x, MigrationKeys(e, rows0, x), w0, cloud.world);
    }
    hide ProvisionOnly, MigrationKeys, CanProvision, Coherent, Pointed, OwnNames, HonestWorld, Tidy, Absent;
    hide OwnPointers, PodsUp;
  }

  /** What is true of a tenant once it counts as suspended. If nothing was done, the cluster is as it was, suspended or
      not; otherwise the pods are gone, and the Ingress stands if its best-effort removal took no effect. */
  predicate SuspendedTruly(x: TenantId, idle: bool, w0: World, fs: seq<Fault>, w: World) {
    && (idle ==> w == w0)
    && (Asleep(w.spaces, x)
        <==> if idle then Asleep(w0.spaces, x)
             else x in w0.spaces && (!w0.spaces[x].ingress || Took(Next(Rest(fs)))))
  }

  predicate SuspendPursued(x: TenantId, idle: bool, w0: World, fs: seq<Fault>, r: Result, w: World) {
    (r.Ok? ==> SuspendedTruly(x, idle, w0, fs, w)) && (idle ==> r.Ok?)
  }

  method ActSuspend(store: TenantStore, cloud: CloudApi, e: Outputs, x: TenantId) returns (r: Result)
    requires ValidId(x) && x in store.rows && store.rows[x].desired == WantSuspended
    modifies store, cloud
    ensures Kept(e, x, old(store.rows), old(cloud.world), store.rows, cloud.world)
    ensures x in store.rows && store.rows[x].observed == old(store.rows)[x].observed
    ensures x in store.rows && (if r.Ok? then store.rows[x].status == SUSPENDED else store.rows == old(store.rows))
    ensures SuspendPursued(x, old(store.rows)[x].status == SUSPENDED, old(cloud.world), old(cloud.faults), r,
                           cloud.world)
    ensures old(cloud.faults) == [] ==> cloud.faults == []
    ensures old(cloud.faults) == [] && CoherentRow(old(store.rows)[x]) ==>
              if old(store.rows)[x].status != SUSPENDED && HasDeploy(old(cloud.world), x)
              then r.Ok? && Asleep(cloud.world.spaces, x)
                   && store.rows[x].status == SUSPENDED && store.rows[x].error == None
              else cloud.world == old(cloud.world)
  {
    ghost var rows0, w0 := store.rows, cloud.world;
    r := SuspendTenant(store, cloud, e, x);
    SpaceKeepsVanished(e, x, w0, cloud.world);
    if store.rows != rows0 {
      PutIsKept(e, rows0, x, SUSPEND, cloud.world);
    }
    hide Coherent, Pointed, OwnNames, HonestWorld, Tidy, Vanished, SpaceOnly;
  }

  method ActResume(store: TenantStore, cloud: CloudApi, e: Outputs, x: TenantId) returns (r: Result)
    requires OwnNames(e, store.rows) && HonestWorld(e, cloud.world) && TofuNames(e) && ValidId(x)
    requires x in store.rows && store.rows[x].desired == WantActive && store.rows[x].status == SUSPENDED
    modifies store, cloud
    ensures Kept(e, x, old(store.rows), old(cloud.world), store.rows, cloud.world)
    ensures OwnNames(e, store.rows) && HonestWorld(e, cloud.world)
    ensures x in store.rows && store.rows[x].tier == old(store.rows)[x].tier
    ensures r.Ok? ==> FreshlyActive(store.rows[x])
  {
    ghost var rows0, w0 := store.rows, cloud.world;
    r := ResumeTenant(store, cloud, e, x);
    OnboardIsHarmless(e, x, rows0, w0, cloud.world);
    hide OnboardOnly, Vanished, KnownKeys, HasMaps, CanResume;
    if store.rows != rows0 {
      PutIsKept(e, rows0, x, Resumed(e, x, rows0[x]), cloud.world);
      PutIsHarmless(e, rows0, x, Resumed(e, x, rows0[x]));
    }
    hide Coherent, Pointed, OwnNames, HonestWorld, Tidy, HasMaps, CanResume;
  }

  lemma {:induction false} ReturnedRunIsGone(e: Outputs, x: TenantId, c: T.Config, fs: seq<Fault>)
    requires TP.WellFormed(c.pc) && c.pc != T.Idle && TP.RunToIdle(e, x, c, fs).0.ending == T.Returned
    ensures x !in TP.RunToIdle(e, x, c, fs).0.s.rows
    decreases T.Rank(c.pc)
  {
    var d := T.Step(e, x, c, Next(fs));
    TP.StepDescends(e, x, c, Next(fs));
    if d.pc == T.Idle {
      DT.OnlyDropRowReturns(e, x, c, Next(fs));
    } else {
      hide T.Step, T.Rank;
      ReturnedRunIsGone(e, x, d, Rest(fs));
    }
  }

  lemma ReturnedIsGone(e: Outputs, x: TenantId, s: T.State, fs: seq<Fault>)
    requires TP.Attempt(e, x, s, fs).0.ending == T.Returned
    ensures x !in TP.Attempt(e, x, s, fs).0.s.rows
  {
    var c := T.Step(e, x, T.Begin(s), Next(fs));
    assert c.pc == T.Idle ==> c.ending != T.Returned;
    hide T.Step;
    if c.pc != T.Idle {
      ReturnedRunIsGone(e, x, c, Rest(fs));
    }
  }

  /** A stuck deletion whose registry works keeps the row. */
  lemma {:induction false} StuckRunKeepsRow(e: Outputs, x: TenantId, c: T.Config)
    requires DT.Stuck(e, c) && TP.WellFormed(c.pc) && c.pc != T.Idle
    ensures x in TP.RunToIdle(e, x, c, []).0.s.rows
    decreases T.Rank(c.pc)
  {
    DT.StuckStays(e, x, c, Fine);
    TP.StepDescends(e, x, c, Fine);
    var d := T.Step(e, x, c, Fine);
    assert d.pc == T.Idle ==> x in d.s.rows;
    hide T.Step, T.Rank, DT.Stuck;
    if d.pc != T.Idle {
      StuckRunKeepsRow(e, x, d);
    }
  }

  /** Without faults a deletion returns, or keeps the row and fails, as the revoke job can start or not. */
  lemma CalmDelete(e: Outputs, x: TenantId, s: T.State)
    requires TP.Ready(e, x, s)
    ensures var d := TP.Attempt(e, x, s, []).0;
            if T.JobCanStart(e, s.world) then d.ending == T.Returned else d.ending != T.Returned && x in d.s.rows
  {
    DT.DeletableIffJobCanStart(e, x, s);
    if T.JobCanStart(e, s.world) {
      DT.BeginIsInv(e, x, s);
      DT.CleanAttemptErases(e, x, T.TargetOf(e, s.rows, x), s);
    } else {
      var c := T.Step(e, x, T.Begin(s), Fine);
      DT.StuckStays(e, x, T.Begin(s), Fine);
      hide TP.Ready;
      StuckRunKeepsRow(e, x, c);
      assert TP.Attempt(e, x, s, []) == TP.RunToIdle(e, x, c, []);
    }
  }

  /** How a `delete_tenant` call looks to its caller. */
  function DeletionResult(e: Outputs, x: TenantId, s: T.State, fs: seq<Fault>): Result {
    match TP.Attempt(e, x, s, fs).0.ending
    case Returned => Ok
    case Died => Crash
    case _ => Err(TP.AttemptError(e, x, s, fs))
  }

  /** The row is as it was, or a deletion's. */
  predicate LeftByDeletion(before: Row, row: Row) {
    row.desired == WantGone && (row.status == before.status || row.status == DELETING || row.status == DELETE_FAILED)
  }

  /** What the error handler adds to the row. */
  function AfterBlame(e: Outputs, rows: Rows, x: TenantId, desired: Desired, r: Result): Rows {
    if r.Err? && IsControlPlaneError(r.error) then Put(rows, x, Blamed(desired, r.error), e.now) else rows
  }

  function AfterDeletion(e: Outputs, x: TenantId, s: T.State, fs: seq<Fault>): T.State {
    var d := TP.Attempt(e, x, s, fs).0.s;
    T.State(AfterBlame(e, d.rows, x, WantGone, DeletionResult(e, x, s, fs)), d.world)
  }

  function Erasure(e: Outputs, x: TenantId, s: T.State): T.State { TP.Erased(e, x, T.TargetOf(e, s.rows, x), s) }

  lemma DeletionErases(e: Outputs, x: TenantId, s: T.State, fs: seq<Fault>)
    requires TP.Ready(e, x, s) && DeletionResult(e, x, s, fs).Ok?
    ensures AfterDeletion(e, x, s, fs) == Erasure(e, x, s)
  {
    hide TP.Attempt, TP.Erased, TP.Ready;
    DT.AttemptErases(e, x, s, fs);
  }

  lemma ErasureIsGone(e: Outputs, x: TenantId, s: T.State)
    ensures x !in Erasure(e, x, s).rows && x !in Erasure(e, x, s).world.spaces
  {
  }

  lemma SightKeepsErasure(e: Outputs, x: TenantId, rows: Rows, o: Observed, w: World)
    requires x in rows
    ensures Erasure(e, x, T.State(Put(rows, x, Saw(o), e.now), w)) == Erasure(e, x, T.State(rows, w))
  {
    assert T.TargetOf(e, Put(rows, x, Saw(o), e.now), x) == T.TargetOf(e, rows, x);
    TP.RowKeepsErased(e, x, T.TargetOf(e, rows, x), T.State(rows, w), Saw(o));
  }

  /** Toward GONE. With a namespace in sight it is a deletion, which erases exactly x when it returns; without, the
      row is dropped and nothing else is touched. */
  ghost predicate GonePursued(e: Outputs, x: TenantId, sight: bool, s: T.State, fs: seq<Fault>,
                              r: Result, rows: Rows, w: World) {
    if sight then
      && r == DeletionResult(e, x, s, fs) && T.State(rows, w) == AfterDeletion(e, x, s, fs)
      && (r.Ok? && TP.Ready(e, x, s) ==> T.State(rows, w) == Erasure(e, x, s))
    else r.Ok? && rows == Without(s.rows, x) && w == s.world
  }

  method ActDelete(store: TenantStore, cloud: CloudApi, e: Outputs, x: TenantId) returns (r: Result)
    requires ValidId(x) && x in store.rows && store.rows[x].desired == WantGone
    modifies store, cloud
    ensures Kept(e, x, old(store.rows), old(cloud.world), store.rows, cloud.world)
    ensures OwnNames(e, old(store.rows)) ==> OwnNames(e, store.rows)
    ensures HonestWorld(e, old(cloud.world)) ==> HonestWorld(e, cloud.world)
    ensures r == DeletionResult(e, x, T.State(old(store.rows), old(cloud.world)), old(cloud.faults))
    ensures T.State(store.rows, cloud.world)
            == TP.Attempt(e, x, T.State(old(store.rows), old(cloud.world)), old(cloud.faults)).0.s
    ensures r.Ok? ==> x !in store.rows
    ensures x in store.rows ==> LeftByDeletion(old(store.rows)[x], store.rows[x])
    ensures old(cloud.faults) == [] && TP.Ready(e, x, T.State(old(store.rows), old(cloud.world))) ==>
              if T.JobCanStart(e, old(cloud.world)) then r.Ok? else x in store.rows && !r.Ok?
  {
    ghost var s0, fs := T.State(store.rows, cloud.world), cloud.faults;
    var ending, error := Lifecycle.DeleteTenant(store, cloud, e, x);
    DeletionIsHarmless(e, x, s0, fs);
    AttemptKeeps(e, x, s0, fs);
    if ending == T.Returned {
      ReturnedIsGone(e, x, s0, fs);
    }
    if fs == [] && TP.Ready(e, x, s0) {
      CalmDelete(e, x, s0);
    }
    AttemptEndsIdle(e, x, s0, fs);
    hide TP.Attempt, TP.AttemptError, Coherent, Pointed, Tidy, Absent;
    r := if ending == T.Returned then Ok else if ending == T.Died then Crash else Err(error);
  }

  /** An attempt ends in one of three ways. */
  lemma {:induction false} RunEndsIdle(e: Outputs, x: TenantId, c: T.Config, fs: seq<Fault>)
    requires TP.WellFormed(c.pc) && (c.pc == T.Idle ==> c.ending != T.Running)
    ensures TP.RunToIdle(e, x, c, fs).0.ending != T.Running
    decreases T.Rank(c.pc)
  {
    if c.pc != T.Idle {
      TP.StepDescends(e, x, c, Next(fs));
      assert T.Step(e, x, c, Next(fs)).pc == T.Idle ==> T.Step(e, x, c, Next(fs)).ending != T.Running by {
        hide T.Effect, T.Possible;
      }
      hide T.Step, T.Rank;
      RunEndsIdle(e, x, T.Step(e, x, c, Next(fs)), Rest(fs));
    }
  }

  lemma AttemptEndsIdle(e: Outputs, x: TenantId, s: T.State, fs: seq<Fault>)
    ensures TP.Attempt(e, x, s, fs).0.ending != T.Running
  {
    var c := T.Step(e, x, T.Begin(s), Next(fs));
    assert c.pc == T.Idle ==> c.ending != T.Running;
    hide T.Step;
    RunEndsIdle(e, x, c, Rest(fs));
  }

  // ---- one reconciliation ----

  function Saw(o: Observed): Patch { NO_CHANGE.(observed := Set(Some(o))) }

  /** `_record_observed`. */
  function Recorded(o: Observed, status: Status, error: Option<Problem>): Patch {
    Saw(o).(status := Set(status), error := Set(error))
  }

  function Verdict(o: Observed, row: Row): Patch {
    match ValidateActiveContract(o, row)
    case Pass => Recorded(o, ACTIVE, None)
    case Gap(reason) => Recorded(o, DRIFT, Some(ContractGap(reason)))
  }

  /** The contract gate decides between ACTIVE and DRIFT. */
  method PassGate(store: TenantStore, e: Outputs, x: TenantId, o: Observed, ghost w: World)
    requires ValidId(x) && x in store.rows && store.rows[x].desired == WantActive
    modifies store
    ensures store.rows == Put(old(store.rows), x, Verdict(o, old(store.rows)[x]), e.now)
    ensures x in store.rows && Gated(store.rows[x], o) && PointersOf(store.rows[x]) == PointersOf(old(store.rows)[x])
    ensures store.rows[x].tier == old(store.rows)[x].tier
    ensures Kept(e, x, old(store.rows), w, store.rows, w)
  {
    PutIsKept(e, store.rows, x, Verdict(o, store.rows[x]), w);
    hide Kept;
    var item := store.rows[x];
    var check := ValidateActiveContract(o, item);
    if check.Pass? {
      var _ := store.Upsert(x, Recorded(o, ACTIVE, None), None, e.now);
    } else {
      var _ := store.Upsert(x, Recorded(o, DRIFT, Some(ContractGap(check.reason))), None, e.now);
    }
  }

  /** What the error handler stores for a control-plane error. */
  function Blamed(desired: Desired, f: Failure): Patch {
    NO_CHANGE.(desired := Set(desired), error := Set(Some(Exception(f))),
               status := Set(if desired == WantGone then DELETE_FAILED else if Retryable(f) then DRIFT else FAILED))
  }

  /** The row names the error, and its status says what kind it is. */
  predicate Noted(row: Row, desired: Desired, f: Failure) {
    && row.desired == desired && row.error == Some(Exception(f))
    && row.status == if desired == WantGone then DELETE_FAILED
                     else if f.AwsRetryable? || f.KubernetesRetryable? then DRIFT else FAILED
  }

  lemma BlamedIsNoted(e: Outputs, rows: Rows, x: TenantId, desired: Desired, f: Failure)
    requires LegalDesired(desired)
    ensures Noted(Put(rows, x, Blamed(desired, f), e.now)[x], desired, f)
    ensures LegalDesired(Written(rows, x, Blamed(desired, f), 0).desired)
  {
  }

  /** A control-plane error is noted in the row; any other passes by. */
  method Blame(store: TenantStore, e: Outputs, x: TenantId, desired: Desired, f: Failure, ghost w: World)
    requires ValidId(x) && LegalDesired(desired) && (x in store.rows ==> store.rows[x].desired == desired)
    modifies store
    ensures store.rows == if IsControlPlaneError(f) then Put(old(store.rows), x, Blamed(desired, f), e.now)
                          else old(store.rows)
    ensures IsControlPlaneError(f) ==> x in store.rows && Noted(store.rows[x], desired, f)
    ensures Kept(e, x, old(store.rows), w, store.rows, w)
    ensures x in store.rows ==> store.rows[x].desired == desired
    ensures OwnNames(e, old(store.rows)) ==> OwnNames(e, store.rows)
  {
    PutIsKept(e, store.rows, x, Blamed(desired, f), w);
    PutIsHarmless(e, store.rows, x, Blamed(desired, f));
    BlamedIsNoted(e, store.rows, x, desired, f);
    NothingIsKept(e, x, store.rows, w);
    hide Kept, OwnNames, Coherent, Pointed, Noted, Written;
    if IsControlPlaneError(f) {
      var _ := store.Upsert(x, Blamed(desired, f), None, e.now);
    }
  }

  /** x is where its wish wants it, and its row says so. */
  predicate Converged(e: Outputs, x: TenantId, desired: Desired, rows: Rows, w: World) {
    var o := ObservedIn(w.spaces, x);
    match desired
    case WantGone => x !in rows && x !in w.spaces
    case WantSuspended => x in rows && Asleep(w.spaces, x) && rows[x].status == SUSPENDED && rows[x].error == None
    case WantActive =>
      && x in rows && FullyUp(w.spaces, x) && ValidateActiveContract(o, rows[x]).Pass?
      && rows[x].status == ACTIVE && rows[x].error == None
    case _ => false
  }

  /** What an actuator needs to bring x there. */
  ghost predicate CanAct(e: Outputs, x: TenantId, rows: Rows, w: World)
    requires x in rows
  {
    match rows[x].desired
    case WantGone => T.JobCanStart(e, w)
    case WantSuspended => rows[x].status != SUSPENDED && HasDeploy(w, x)
    case _ => e.albController && PodsUp(w, x) && CanProvision(e, rows, x, true, w)
  }

  /** Either x is already there but for the registry's view of it, or the actuator can bring it there. */
  ghost predicate CanConverge(e: Outputs, x: TenantId, rows: Rows, w: World)
    requires x in rows
  {
    var o := ObservedIn(w.spaces, x);
    match rows[x].desired
    case WantGone => x !in w.spaces || CanAct(e, x, rows, w)
    case WantSuspended => Asleep(w.spaces, x) || CanAct(e, x, rows, w)
    case _ => if FullyUp(w.spaces, x) then ValidateActiveContract(o, rows[x]).Pass? else CanAct(e, x, rows, w)
  }

  lemma ReleasedIsActive(e: Outputs, x: TenantId, row: Row, ready: bool, w: World)
    requires x in w.spaces && w.spaces[x] == Release(e, ready) && PointersOf(row) == OwnPointers(e, x)
    ensures ValidateActiveContract(ObservedIn(w.spaces, x), row).Pass? <==> e.albController && ready
  {
    OwnPointersAreSet(e, x);
  }

  /** The gate's verdict in the row rests on a reading of the cluster as it is now. */
  predicate GatedBy(row: Row, o: Observed, w: World, x: TenantId) {
    Gated(row, o) && Under(o, ObservedIn(w.spaces, x))
  }

  /** A provision has gone through; whether its pods are ready is another matter. */
  predicate Repaired(e: Outputs, x: TenantId, w0: World, rows: Rows, o: Observed, w: World) {
    && x in rows && PointersOf(rows[x]) == OwnPointers(e, x) && GatedBy(rows[x], o, w, x)
    && x in w.spaces && w.spaces[x] == Release(e, PodsUp(w0, x)) && o == ObservedIn(w.spaces, x)
  }

  /** Provision or repair, then look again and pass the gate. */
  method TowardActive(store: TenantStore, cloud: CloudApi, e: Outputs, x: TenantId, tier: string)
    returns (r: Result, o: Observed)
    requires OwnNames(e, store.rows) && HonestWorld(e, cloud.world) && TofuNames(e) && ValidId(x)
    requires x in store.rows && store.rows[x].desired == WantActive
    modifies store, cloud
    ensures Kept(e, x, old(store.rows), old(cloud.world), store.rows, cloud.world)
    ensures OwnNames(e, store.rows) && HonestWorld(e, cloud.world)
    ensures x in store.rows && store.rows[x].desired == WantActive
    ensures r.Ok? ==> GatedBy(store.rows[x], o, cloud.world, x) && store.rows[x].tier == tier
    ensures r.Err? && IsControlPlaneError(r.error) ==>
              Noted(store.rows[x], WantActive, r.error) || FreshlyActive(store.rows[x])
    ensures old(cloud.faults) == [] ==> cloud.faults == []
    ensures old(cloud.faults) == [] && CanProvision(e, old(store.rows), x, true, old(cloud.world)) ==>
              r.Ok? && Repaired(e, x, old(cloud.world), store.rows, o, cloud.world)
    ensures old(cloud.faults) == [] ==>
              (Converged(e, x, WantActive, store.rows, cloud.world)
               <==> CanAct(e, x, old(store.rows), old(cloud.world)))
              && (CanAct(e, x, old(store.rows), old(cloud.world)) ==> r.Ok?)
  {
    ghost var rows0, w0 := store.rows, cloud.world;
    o := NOTHING;
    r := ActProvision(store, cloud, e, x, tier);
    assert store.rows[x].desired == WantActive;
    ghost var ready := PodsUp(w0, x);
    hide CanProvision, OwnNames, HonestWorld, Tidy, Kept, PodsUp, Under, OwnPointers;
    ghost var rows1 := store.rows;
    if r.Err? {
      Blame(store, e, x, WantActive, r.error, cloud.world);
      KeptComposes(e, x, rows0, w0, rows1, cloud.world, store.rows, cloud.world);
    }
    if r != Ok {
      return;
    }
    ReleasedIsActive(e, x, store.rows[x], ready, cloud.world);
    r, o := Look(cloud, x);
    if r != Ok {
      return;
    }
    PassGate(store, e, x, o, cloud.world);
    SamePointersSameNames(e, x, rows1, store.rows);
    KeptComposes(e, x, rows0, w0, rows1, cloud.world, store.rows, cloud.world);
  }

  lemma SamePointersSameNames(e: Outputs, x: TenantId, rows0: Rows, rows: Rows)
    requires Without(rows, x) == Without(rows0, x)
    requires x in rows0 && x in rows && PointersOf(rows[x]) == PointersOf(rows0[x])
    ensures OwnNames(e, rows0) ==> OwnNames(e, rows)
  {
    SameElsewhere(rows, rows0, x);
  }

  /** Resume, then look again and pass the gate. No coherent row comes here. */
  method TowardResumed(store: TenantStore, cloud: CloudApi, e: Outputs, x: TenantId) returns (r: Result, o: Observed)
    requires OwnNames(e, store.rows) && HonestWorld(e, cloud.world) && TofuNames(e) && ValidId(x)
    requires x in store.rows && store.rows[x].desired == WantActive && store.rows[x].status == SUSPENDED
    modifies store, cloud
    ensures Kept(e, x, old(store.rows), old(cloud.world), store.rows, cloud.world)
    ensures OwnNames(e, store.rows) && HonestWorld(e, cloud.world)
    ensures x in store.rows && store.rows[x].desired == WantActive
    ensures r.Ok? ==> GatedBy(store.rows[x], o, cloud.world, x) && store.rows[x].tier == old(store.rows)[x].tier
    ensures r.Err? && IsControlPlaneError(r.error) ==>
              Noted(store.rows[x], WantActive, r.error) || FreshlyActive(store.rows[x])
  {
    ghost var rows0, w0 := store.rows, cloud.world;
    o := NOTHING;
    r := ActResume(store, cloud, e, x);
    assert store.rows[x].desired == WantActive;
    hide OwnNames, HonestWorld, Tidy, Kept;
    ghost var rows1 := store.rows;
    if r.Err? {
      Blame(store, e, x, WantActive, r.error, cloud.world);
      KeptComposes(e, x, rows0, w0, rows1, cloud.world, store.rows, cloud.world);
    }
    if r != Ok {
      return;
    }
    r, o := Look(cloud, x);
    if r != Ok {
      return;
    }
    PassGate(store, e, x, o, cloud.world);
    SamePointersSameNames(e, x, rows1, store.rows);
    KeptComposes(e, x, rows0, w0, rows1, cloud.world, store.rows, cloud.world);
  }

  method TowardSuspended(store: TenantStore, cloud: CloudApi, e: Outputs, x: TenantId) returns (r: Result)
    requires ValidId(x) && x in store.rows && store.rows[x].desired == WantSuspended
    modifies store, cloud
    ensures Kept(e, x, old(store.rows), old(cloud.world), store.rows, cloud.world)
    ensures r.Ok? ==> x in store.rows && store.rows[x].observed == old(store.rows)[x].observed
    ensures x in store.rows && (r.Ok? ==> store.rows[x].status == SUSPENDED)
    ensures r.Err? && IsControlPlaneError(r.error) ==> Noted(store.rows[x], WantSuspended, r.error)
    ensures SuspendPursued(x, old(store.rows)[x].status == SUSPENDED, old(cloud.world), old(cloud.faults), r,
                           cloud.world)
    ensures old(cloud.faults) == [] ==> cloud.faults == []
    ensures (&& old(cloud.faults) == [] && CoherentRow(old(store.rows)[x])
             && !Asleep(old(cloud.world).spaces, x)) ==>
              (Converged(e, x, WantSuspended, store.rows, cloud.world)
               <==> CanAct(e, x, old(store.rows), old(cloud.world)))
              && (CanAct(e, x, old(store.rows), old(cloud.world)) ==> r.Ok?)
  {
    ghost var rows0, w0 := store.rows, cloud.world;
    r := ActSuspend(store, cloud, e, x);
    if r.Err? {
      ghost var w := cloud.world;
      Blame(store, e, x, WantSuspended, r.error, w);
      assert x in rows0;
      hide Kept;
      KeptComposes(e, x, rows0, w0, rows0, w, store.rows, w);
    }
  }

  method TowardGone(store: TenantStore, cloud: CloudApi, e: Outputs, x: TenantId) returns (r: Result)
    requires ValidId(x) && x in store.rows && store.rows[x].desired == WantGone
    modifies store, cloud
    ensures Kept(e, x, old(store.rows), old(cloud.world), store.rows, cloud.world)
    ensures GonePursued(e, x, true, T.State(old(store.rows), old(cloud.world)), old(cloud.faults),
                        r, store.rows, cloud.world)
    ensures r.Ok? ==> x !in store.rows
    ensures r.Err? && IsControlPlaneError(r.error) ==> x in store.rows && Noted(store.rows[x], WantGone, r.error)
    ensures x in store.rows ==> LeftByDeletion(old(store.rows)[x], store.rows[x])
    ensures old(cloud.faults) == [] && TP.Ready(e, x, T.State(old(store.rows), old(cloud.world))) ==>
              (Converged(e, x, WantGone, store.rows, cloud.world) <==> CanAct(e, x, old(store.rows), old(cloud.world)))
              && (CanAct(e, x, old(store.rows), old(cloud.world)) ==> r.Ok?)
  {
    ghost var rows0, w0, fs := store.rows, cloud.world, cloud.faults;
    hide Kept, DeletionResult, TP.Attempt, TP.Ready, Erasure;
    r := ActDelete(store, cloud, e, x);
    ghost var rows1, w := store.rows, cloud.world;
    if r.Ok? && TP.Ready(e, x, T.State(rows0, w0)) {
      DeletionErases(e, x, T.State(rows0, w0), fs);
      ErasureIsGone(e, x, T.State(rows0, w0));
    }
    if r.Err? {
      Blame(store, e, x, WantGone, r.error, w);
      KeptComposes(e, x, rows0, w0, rows1, w, store.rows, w);
    }
  }

  lemma SightKeepsReady(e: Outputs, x: TenantId, rows: Rows, o: Observed, w: World)
    requires x in rows
    ensures TP.Ready(e, x, T.State(Put(rows, x, Saw(o), e.now), w)) <==> TP.Ready(e, x, T.State(rows, w))
  {
    assert T.TargetOf(e, Put(rows, x, Saw(o), e.now), x) == T.TargetOf(e, rows, x);
    hide T.TargetOf, TP.DbTidy, TP.IamTidy;
  }

  lemma SightChangesNothing(e: Outputs, x: TenantId, rows: Rows, o: Observed, w: World)
    requires x in rows
    ensures CanAct(e, x, Put(rows, x, Saw(o), e.now), w) <==> CanAct(e, x, rows, w)
    ensures OwnNames(e, rows) ==> OwnNames(e, Put(rows, x, Saw(o), e.now))
    ensures CoherentRow(rows[x]) ==> CoherentRow(Put(rows, x, Saw(o), e.now)[x])
  {
    hide CanProvision, OwnNames, T.JobCanStart, MigrationKeys, PodsUp, HasDeploy;
    StartChangesNothing(e, rows, x, true, Saw(o), w);
  }

  /** What a returning reconciliation leaves in the row, by x's wish. */
  predicate Leaves(x: TenantId, desired: Desired, rows: Rows, o: Observed, w: World) {
    match desired
    case WantGone => x !in rows
    case WantSuspended => x in rows && rows[x].status == SUSPENDED
    case WantActive =>
      x in rows && GatedBy(rows[x], o, w, x) && (rows[x].status == ACTIVE ==> FullyUp(w.spaces, x))
    case _ => true
  }

  lemma GatedIsUp(row: Row, o: Observed, w: World, x: TenantId)
    requires GatedBy(row, o, w, x) && row.status == ACTIVE
    ensures FullyUp(w.spaces, x)
  {
    UnderActive(w.spaces, x, o);
  }

  /** The actuator the plan calls for. */
  method Carry(store: TenantStore, cloud: CloudApi, e: Outputs, x: TenantId, action: Action, item: Row, seen: Observed)
    returns (r: Result, o: Observed)
    requires OwnNames(e, store.rows) && HonestWorld(e, cloud.world) && TofuNames(e) && ValidId(x)
    requires x in store.rows && store.rows[x].desired == item.desired && store.rows[x].status == item.status
    requires !action.Leave? && !action.PurgeIt? && (action.ResumeIt? ==> item.status == SUSPENDED)
    requires item.desired == if action.DeleteIt? then WantGone else if action.SuspendIt? then WantSuspended
                             else WantActive
    modifies store, cloud
    ensures Kept(e, x, old(store.rows), old(cloud.world), store.rows, cloud.world)
    ensures r.Ok? ==> Leaves(x, item.desired, store.rows, o, cloud.world)
    ensures r.Err? && IsControlPlaneError(r.error) ==>
              x in store.rows && (Noted(store.rows[x], item.desired, r.error)
                                  || (item.desired == WantActive && FreshlyActive(store.rows[x])))
    ensures r.Ok? && item.desired == WantActive ==>
              x in store.rows && store.rows[x].tier == if action.ResumeIt? then old(store.rows)[x].tier
                                                       else if item.tier == "" then "standard" else item.tier
    ensures action.DeleteIt? ==>
              && GonePursued(e, x, true, T.State(old(store.rows), old(cloud.world)), old(cloud.faults),
                             r, store.rows, cloud.world)
              && (x in store.rows ==> LeftByDeletion(old(store.rows)[x], store.rows[x]))
    ensures action.SuspendIt? ==>
              SuspendPursued(x, item.status == SUSPENDED, old(cloud.world), old(cloud.faults), r, cloud.world)
    ensures r.Ok? && action.SuspendIt? ==> x in store.rows && store.rows[x].observed == old(store.rows)[x].observed
    ensures action.SuspendIt? || action.DeleteIt? ==> o == seen
    ensures (&& old(cloud.faults) == [] && (action.ProvisionIt? || action.RepairIt?)
             && CanProvision(e, old(store.rows), x, true, old(cloud.world))) ==>
              r.Ok? && Repaired(e, x, old(cloud.world), store.rows, o, cloud.world)
    ensures (&& old(cloud.faults) == [] && CoherentRow(old(store.rows)[x]) && !action.ResumeIt?
             && (action.DeleteIt? ==> TP.Ready(e, x, T.State(old(store.rows), old(cloud.world))))
             && (action.SuspendIt? ==> !Asleep(old(cloud.world).spaces, x))) ==>
              (Converged(e, x, item.desired, store.rows, cloud.world)
               <==> CanAct(e, x, old(store.rows), old(cloud.world)))
              && (CanAct(e, x, old(store.rows), old(cloud.world)) ==> r.Ok?)
  {
    hide Kept, OwnNames, HonestWorld, Tidy, Converged, CanAct, GatedBy, CoherentRow, TP.Ready, Repaired;
    hide DeletionResult, CanProvision, LeftByDeletion, GonePursued, SuspendPursued;
    o := seen;
    match action {
      case ProvisionIt | RepairIt =>
        r, o := TowardActive(store, cloud, e, x, if item.tier == "" then "standard" else item.tier);
      case ResumeIt => r, o := TowardResumed(store, cloud, e, x);
      case SuspendIt => r := TowardSuspended(store, cloud, e, x);
      case DeleteIt => r := TowardGone(store, cloud, e, x);
      case _ =>
    }
    if r.Ok? && item.desired == WantActive && store.rows[x].status == ACTIVE {
      GatedIsUp(store.rows[x], o, cloud.world, x);
    }
  }

  /** Everything but the version, the timestamp and the observation. */
  predicate SameBut(a: Row, b: Row) {
    b.(version := a.version, updatedAt := a.updatedAt, observed := a.observed) == a
  }

  /** One fault-free turn. A repair goes through if its provision can; x ends where it is wanted exactly when
      `CanConverge` holds; and where it already is, nothing changes but version, timestamp and observation. */
  ghost predicate CalmTurn(e: Outputs, x: TenantId, s0: T.State, r: Result, o: Observed, rows: Rows, w: World) {
    && x in s0.rows
    && var before := s0.rows[x];
       && ((&& before.desired == WantActive && before.status != SUSPENDED && !FullyUp(s0.world.spaces, x)
            && CanProvision(e, s0.rows, x, true, s0.world)) ==> r.Ok? && Repaired(e, x, s0.world, rows, o, w))
       && (CoherentRow(before) && (before.desired == WantGone ==> TP.Ready(e, x, s0)) ==>
             && (Converged(e, x, before.desired, rows, w) <==> CanConverge(e, x, s0.rows, s0.world))
             && (CanConverge(e, x, s0.rows, s0.world) ==> r.Ok?))
       && (Converged(e, x, before.desired, s0.rows, s0.world) ==>
             r.Ok? && w == s0.world && x in rows && SameBut(before, rows[x]))
  }

  /** Nothing to do in the cluster: the registry catches up with it. */
  method Settle(store: TenantStore, e: Outputs, x: TenantId, o: Observed, ghost w: World)
    requires ValidId(x) && x in store.rows
    requires store.rows[x].desired == WantSuspended || store.rows[x].desired == WantActive
    requires if store.rows[x].desired == WantSuspended then o.MatchesSuspended() else o.MatchesActive()
    requires Under(o, ObservedIn(w.spaces, x))
    modifies store
    ensures Kept(e, x, old(store.rows), w, store.rows, w)
    ensures x in store.rows && store.rows[x].desired == old(store.rows)[x].desired
    ensures store.rows[x].observed == Some(o)
    ensures Leaves(x, store.rows[x].desired, store.rows, o, w) && store.rows[x].tier == old(store.rows)[x].tier
    ensures o == ObservedIn(w.spaces, x) ==> CalmTurn(e, x, T.State(old(store.rows), w), Ok, o, store.rows, w)
  {
    ghost var rows0 := store.rows;
    hide Under;
    if store.rows[x].desired == WantSuspended {
      PutIsKept(e, rows0, x, Recorded(o, SUSPENDED, None), w);
      hide Kept;
      var _ := store.Upsert(x, Recorded(o, SUSPENDED, None), None, e.now);
    } else {
      PassGate(store, e, x, o, w);
      if store.rows[x].status == ACTIVE {
        GatedIsUp(store.rows[x], o, w, x);
      }
    }
  }

  lemma CarriedIsTurn(e: Outputs, x: TenantId, s0: T.State, action: Action, r: Result, o: Observed, rows: Rows,
          w: World)
    requires x in s0.rows && LegalDesired(s0.rows[x].desired) && !action.Leave? && !action.PurgeIt?
    requires action == PlanAction(s0.rows[x].desired, ObservedIn(s0.world.spaces, x), s0.rows[x].status)
    requires (action.ProvisionIt? || action.RepairIt?) && CanProvision(e, s0.rows, x, true, s0.world) ==>
               r.Ok? && Repaired(e, x, s0.world, rows, o, w)
    requires CoherentRow(s0.rows[x]) && !action.ResumeIt? && (action.DeleteIt? ==> TP.Ready(e, x, s0)) ==>
               (Converged(e, x, s0.rows[x].desired, rows, w) <==> CanAct(e, x, s0.rows, s0.world))
               && (CanAct(e, x, s0.rows, s0.world) ==> r.Ok?)
    ensures CalmTurn(e, x, s0, r, o, rows, w)
  {
    PlanFits(s0.rows[x].desired, ObservedIn(s0.world.spaces, x), s0.rows[x]);
    hide CanAct, CanProvision, TP.Ready, Repaired, CoherentRow, ObservedIn, SameBut;
  }

  lemma PurgedIsTurn(e: Outputs, x: TenantId, s0: T.State, o: Observed)
    requires x in s0.rows && s0.rows[x].desired == WantGone && x !in s0.world.spaces
    ensures CalmTurn(e, x, s0, Ok, o, Without(s0.rows, x), s0.world)
  {
    hide CanAct, TP.Ready, CoherentRow;
  }

  lemma PlanFits(desired: Desired, o: Observed, row: Row)
    requires LegalDesired(desired)
    ensures var a := PlanAction(desired, o, row.status);
            && (a.DeleteIt? || a.PurgeIt? <==> desired == WantGone) && (a.SuspendIt? ==> desired == WantSuspended)
            && (a.ProvisionIt? || a.RepairIt? || a.ResumeIt? ==> desired == WantActive)
            && (a.Leave? ==> if desired == WantSuspended then o.MatchesSuspended() else o.MatchesActive())
            && (a.SuspendIt? ==> !o.MatchesSuspended())
            && (a.PurgeIt? <==> desired == WantGone && !o.namespace)
            && (a.ProvisionIt? <==> desired == WantActive && !o.namespace)
            && (a.ResumeIt? <==> desired == WantActive && !o.MatchesActive() && o.namespace && row.status == SUSPENDED)
            && (a.ResumeIt? ==> !(row.desired == desired && CoherentRow(row)))
  {
  }

  /** The row a turn leaves: by x's wish if it returns, with its tier. After a control-plane error it is still there and
      names the error, unless a look at the cluster raised it: then it is as before, or, after an actuator towards
      ACTIVE has returned, as that left it, ACTIVE without the gate's consent. For a tenant wanted GONE it is never
      anything but a deletion's. */
  predicate RowTurn(x: TenantId, before: Row, r: Result, o: Observed, rows: Rows, w: World) {
    && (r.Ok? ==> Leaves(x, before.desired, rows, o, w))
    && (r.Ok? && before.desired == WantSuspended ==> x in rows && rows[x].observed == Some(o))
    && (r.Ok? && before.desired == WantActive && before.tier != "" ==> x in rows && rows[x].tier == before.tier)
    && (r.Err? && IsControlPlaneError(r.error) ==>
          && x in rows
          && (|| Noted(rows[x], before.desired, r.error) || SameBut(before, rows[x])
              || (before.desired == WantActive && FreshlyActive(rows[x]))))
    && (before.desired == WantGone && x in rows ==> LeftByDeletion(before, rows[x]))
  }

  /** From the recorded observation on: settle, purge, or act. */
  method Pursue(store: TenantStore, cloud: CloudApi, e: Outputs, x: TenantId, o: Observed)
    returns (r: Result, latest: Observed)
    requires OwnNames(e, store.rows) && HonestWorld(e, cloud.world) && TofuNames(e) && ValidId(x)
    requires x in store.rows && LegalDesired(store.rows[x].desired)
    requires Under(o, ObservedIn(cloud.world.spaces, x))
    requires store.rows[x].observed == Some(o)
    modifies store, cloud
    ensures Kept(e, x, old(store.rows), old(cloud.world), store.rows, cloud.world)
    ensures RowTurn(x, old(store.rows)[x], r, latest, store.rows, cloud.world)
    ensures old(store.rows)[x].desired == WantGone ==>
              GonePursued(e, x, o.namespace, T.State(old(store.rows), old(cloud.world)), old(cloud.faults),
                          r, store.rows, cloud.world)
    ensures old(store.rows)[x].desired == WantSuspended ==>
              SuspendPursued(x, old(store.rows)[x].status == SUSPENDED || o.MatchesSuspended(),
                             old(cloud.world), old(cloud.faults), r, cloud.world)
    ensures old(store.rows)[x].desired != WantActive ==> latest == o
    ensures old(cloud.faults) == [] && o == ObservedIn(old(cloud.world).spaces, x) ==>
              CalmTurn(e, x, T.State(old(store.rows), old(cloud.world)), r, latest, store.rows, cloud.world)
  {
    var item := store.rows[x];
    var action := PlanAction(Wish(item.desired), o, item.status);
    PlanFits(item.desired, o, item);
    ghost var s0 := T.State(store.rows, cloud.world);
    hide Under, Repaired, DeletionResult, GatedBy, CanProvision, CalmTurn, Converged, ObservedIn;
    r, latest := Ok, o;
    match action
    case Leave => Settle(store, e, x, o, cloud.world);
    case PurgeIt =>
      DropIsKept(e, store.rows, x, cloud.world);
      if o == ObservedIn(cloud.world.spaces, x) {
        PurgedIsTurn(e, x, s0, o);
      }
      hide Kept;
      var _ := store.Delete(x);
    case _ =>
      hide Kept, OwnNames, HonestWorld, Tidy, CanAct, CoherentRow, TP.Ready, LeftByDeletion;
      ghost var calm := cloud.faults == [] && o == ObservedIn(cloud.world.spaces, x);
      r, latest := Carry(store, cloud, e, x, action, item, o);
      if calm {
        CarriedIsTurn(e, x, s0, action, r, latest, store.rows, cloud.world);
      }
  }

  lemma SightKeepsGoal(e: Outputs, x: TenantId, rows: Rows, o: Observed, w: World)
    requires x in rows
    ensures CanConverge(e, x, Put(rows, x, Saw(o), e.now), w) <==> CanConverge(e, x, rows, w)
    ensures Converged(e, x, rows[x].desired, rows, w) ==>
              Converged(e, x, rows[x].desired, Put(rows, x, Saw(o), e.now), w)
  {
    SightChangesNothing(e, x, rows, o, w);
    hide CanAct, OwnNames, CoherentRow;
  }

  // ---- what a turn comes to, by the schedule of faults ----

  /** A look that does not end stops everything; otherwise the reading decides how to pursue. */
  ghost predicate GoneTurn(e: Outputs, x: TenantId, s0: T.State, fs: seq<Fault>, o: Observed,
                           r: Result, rows: Rows, w: World) {
    if LookEnds(s0.world, x, fs) then
      GonePursued(e, x, Sees(s0.world, x, fs), T.State(Put(s0.rows, x, Saw(o), e.now), s0.world),
                  Unread(s0.world, x, fs), r, rows, w)
    else !r.Ok? && rows == s0.rows && w == s0.world
  }

  /** Nothing is done for a row that says SUSPENDED, or a cluster that reads so. */
  predicate SuspendTurn(x: TenantId, before: Row, w0: World, fs: seq<Fault>, r: Result, w: World) {
    if LookEnds(w0, x, fs) then
      SuspendPursued(x, before.status == SUSPENDED || ReadsSuspended(w0, x, fs), w0,
                     Unread(w0, x, fs), r, w)
    else !r.Ok? && w == w0
  }

  ghost predicate Turn(e: Outputs, x: TenantId, s0: T.State, fs: seq<Fault>, o: Observed,
                       r: Result, rows: Rows, w: World) {
    && x in s0.rows
    && match s0.rows[x].desired
       case WantGone => GoneTurn(e, x, s0, fs, o, r, rows, w)
       case WantSuspended => SuspendTurn(x, s0.rows[x], s0.world, fs, r, w)
       case _ => true
  }

  lemma PursuitIsTurn(e: Outputs, x: TenantId, s0: T.State, fs: seq<Fault>, o: Observed,
                      r: Result, rows: Rows, w: World)
    requires x in s0.rows && LookEnds(s0.world, x, fs)
    requires o.namespace <==> Sees(s0.world, x, fs)
    requires o.MatchesSuspended() <==> ReadsSuspended(s0.world, x, fs)
    requires s0.rows[x].desired == WantGone ==>
               GonePursued(e, x, o.namespace, T.State(Put(s0.rows, x, Saw(o), e.now), s0.world),
                           Unread(s0.world, x, fs), r, rows, w)
    requires s0.rows[x].desired == WantSuspended ==>
               SuspendPursued(x, s0.rows[x].status == SUSPENDED || o.MatchesSuspended(), s0.world,
                              Unread(s0.world, x, fs), r, w)
    ensures Turn(e, x, s0, fs, o, r, rows, w)
  {
    hide GonePursued, SuspendPursued, LookEnds, Sees, Unread, ObservedIn, ReadsSuspended;
  }

  lemma StoppedTurn(e: Outputs, x: TenantId, s0: T.State, fs: seq<Fault>, o: Observed, r: Result)
    requires x in s0.rows && !LookEnds(s0.world, x, fs) && !r.Ok?
    ensures Turn(e, x, s0, fs, o, r, s0.rows, s0.world)
  {
    hide LookEnds;
  }

  /** What a returning turn toward GONE has done: erased exactly x if the namespace was seen. If it was not, the row is
      dropped, and whatever else the tenant has stands. */
  ghost predicate GoneTruly(e: Outputs, x: TenantId, s0: T.State, fs: seq<Fault>, rows: Rows, w: World) {
    if Sees(s0.world, x, fs) then TP.Ready(e, x, s0) ==> T.State(rows, w) == Erasure(e, x, s0)
    else rows == Without(s0.rows, x) && w == s0.world
  }

  lemma GoneTurnMeans(e: Outputs, x: TenantId, s0: T.State, fs: seq<Fault>, o: Observed,
                      r: Result, rows: Rows, w: World)
    requires Turn(e, x, s0, fs, o, r, rows, w) && s0.rows[x].desired == WantGone && r.Ok?
    ensures GoneTruly(e, x, s0, fs, rows, w)
  {
    SightKeepsErasure(e, x, s0.rows, o, s0.world);
    SightKeepsReady(e, x, s0.rows, o, s0.world);
    assert Without(Put(s0.rows, x, Saw(o), e.now), x) == Without(s0.rows, x);
    hide TP.Ready, Erasure, LookEnds, Unread, DeletionResult, AfterDeletion;
  }

  lemma SuspendTurnMeans(e: Outputs, x: TenantId, s0: T.State, fs: seq<Fault>, o: Observed,
                         r: Result, rows: Rows, w: World)
    requires Turn(e, x, s0, fs, o, r, rows, w) && s0.rows[x].desired == WantSuspended
    ensures SuspendTurn(x, s0.rows[x], s0.world, fs, r, w)
  {
  }

  lemma FineGoneTurn(e: Outputs, x: TenantId, s0: T.State, fs: seq<Fault>, r: Result, rows: Rows, w: World)
    requires Turn(e, x, s0, fs, ObservedIn(s0.world.spaces, x), r, rows, w) && s0.rows[x].desired == WantGone
    requires x in s0.world.spaces && ProbesFine(fs, PROBES)
    ensures r == DeletionResult(e, x, T.State(Seen(e, x, s0.rows, s0.world), s0.world), Skip(fs, PROBES))
  {
    FineLook(s0.world, x, fs);
    hide TP.Ready, Erasure, LookEnds, Unread, Sees, DeletionResult, AfterDeletion, ObservedIn;
  }

  /** `reconcile_one`. Under any faults it keeps the registry sane and touches no row but x's. When it returns for a
      tenant that is wanted ACTIVE, the row is ACTIVE exactly if the contract gate passes the latest reading of the
      cluster as it now is, and DRIFT otherwise, whatever the actuator wrote; so a row it leaves ACTIVE stands for a
      tenant that is fully up. For a tenant wanted GONE it has erased exactly x if the namespace probe succeeded on a
      namespace that is there, and only dropped the row otherwise. For one wanted SUSPENDED it records SUSPENDED, and
      `SuspendedTruly` says when that is so. Without faults one call brings x where it is wanted exactly when
      `CanConverge` holds, and the next call then changes nothing but version, timestamp and observation. */
  method ReconcileOne(store: TenantStore, cloud: CloudApi, e: Outputs, x: TenantId)
    returns (r: Result, latest: Observed)
    requires OwnNames(e, store.rows) && HonestWorld(e, cloud.world) && TofuNames(e)
    modifies store, cloud
    ensures !ValidId(x) || x !in old(store.rows) ==>
              r == Err(ValidationError) && store.rows == old(store.rows) && cloud.world == old(cloud.world)
    ensures Kept(e, x, old(store.rows), old(cloud.world), store.rows, cloud.world)
    ensures r.Ok? ==> ValidId(x) && x in old(store.rows)
    ensures x in old(store.rows) ==> RowTurn(x, old(store.rows)[x], r, latest, store.rows, cloud.world)
    ensures ValidId(x) && x in old(store.rows) ==>
              Turn(e, x, T.State(old(store.rows), old(cloud.world)), old(cloud.faults), latest, r,
                   store.rows, cloud.world)
    ensures r.Ok? && old(store.rows)[x].desired == WantGone ==>
              GoneTruly(e, x, T.State(old(store.rows), old(cloud.world)), old(cloud.faults), store.rows, cloud.world)
    ensures (&& ValidId(x) && x in old(store.rows) && old(store.rows)[x].desired == WantGone
             && x in old(cloud.world).spaces && ProbesFine(old(cloud.faults), PROBES)) ==>
              latest == ObservedIn(old(cloud.world).spaces, x)
    ensures old(cloud.faults) == [] && ValidId(x) && x in old(store.rows) ==>
              CalmTurn(e, x, T.State(old(store.rows), old(cloud.world)), r, latest, store.rows, cloud.world)
  {
    ghost var rows0, w0, fs := store.rows, cloud.world, cloud.faults;
    NothingIsKept(e, x, rows0, w0);
    hide Turn, RowTurn, GoneTruly, TP.Ready, Erasure, LookEnds, Unread, Sees, ReadsSuspended;
    if !ValidId(x) || x !in store.rows {
      return Err(ValidationError), NOTHING;
    }
    r, latest := Look(cloud, x);
    hide Under, ObservedIn, Repaired, GonePursued, SuspendPursued, GatedBy, ProbesFine, Skip, CanProvision, Inserted;
    if r != Ok {
      StoppedTurn(e, x, T.State(rows0, w0), fs, latest, r);
      return;
    }
    PutIsKept(e, rows0, x, Saw(latest), w0);
    SightKeepsRow(e, x, rows0, latest);
    SightChangesNothing(e, x, rows0, latest, w0);
    hide Put, LegalDesired;
    hide Kept, OwnNames, HonestWorld, Tidy, CanAct, CoherentRow, Converged, CanConverge, CalmTurn;
    var seen := store.Upsert(x, Saw(latest), None, e.now);
    if seen.Rejected? {
      return Err(seen.error), latest;
    }
    ghost var rows1 := store.rows;
    ghost var o := latest;
    r, latest := Pursue(store, cloud, e, x, latest);
    KeptComposes(e, x, rows0, w0, rows1, w0, store.rows, cloud.world);
    if fs == [] {
      NoticedTurn(e, x, rows0, o, w0, r, latest, store.rows, cloud.world);
    }
    PursuitIsTurn(e, x, T.State(rows0, w0), fs, o, r, store.rows, cloud.world);
    TurnByWish(e, x, T.State(rows0, w0), fs, o, latest, r, store.rows, cloud.world);
    if r.Ok? && rows0[x].desired == WantGone {
      GoneTurnMeans(e, x, T.State(rows0, w0), fs, latest, r, store.rows, cloud.world);
    }
  }

  lemma SightKeepsRow(e: Outputs, x: TenantId, rows: Rows, o: Observed)
    requires x in rows
    ensures var before, after := rows[x], Put(rows, x, Saw(o), e.now);
            && x in after && after[x].desired == before.desired && after[x].status == before.status
            && after[x].observed == Some(o)
            && (ValidId(x) && LegalDesired(rows[x].desired) <==> Accepts(rows, x, Saw(o), None))
            && forall r, seen, now, w :: RowTurn(x, after[x], r, seen, now, w) ==> RowTurn(x, before, r, seen, now, w)
  {
  }

  lemma TurnByWish(e: Outputs, x: TenantId, s0: T.State, fs: seq<Fault>, o: Observed, latest: Observed,
                   r: Result, rows: Rows, w: World)
    requires Turn(e, x, s0, fs, o, r, rows, w) && (s0.rows[x].desired == WantActive || latest == o)
    ensures Turn(e, x, s0, fs, latest, r, rows, w)
  {
    hide GoneTurn, SuspendTurn;
  }

  /** The registry once a full reading of the cluster has been recorded. */
  function Seen(e: Outputs, x: TenantId, rows: Rows, w: World): Rows {
    Put(rows, x, Saw(ObservedIn(w.spaces, x)), e.now)
  }

  /** Recording an observation changes nothing that decides what comes next. */
  lemma Noticed(e: Outputs, x: TenantId, rows: Rows, o: Observed, w: World)
    requires x in rows
    ensures var rows1 := Put(rows, x, Saw(o), e.now);
            && Kept(e, x, rows, w, rows1, w)
            && (CanConverge(e, x, rows1, w) <==> CanConverge(e, x, rows, w))
            && (Converged(e, x, rows[x].desired, rows, w) ==> Converged(e, x, rows[x].desired, rows1, w))
            && (CanProvision(e, rows1, x, true, w) <==> CanProvision(e, rows, x, true, w))
            && (TP.Ready(e, x, T.State(rows1, w)) <==> TP.Ready(e, x, T.State(rows, w)))
            && (OwnNames(e, rows) ==> OwnNames(e, rows1)) && (CoherentRow(rows[x]) ==> CoherentRow(rows1[x]))
  {
    SightChangesNothing(e, x, rows, o, w);
    SightKeepsGoal(e, x, rows, o, w);
    SightKeepsReady(e, x, rows, o, w);
    StartChangesNothing(e, rows, x, true, Saw(o), w);
    PutIsKept(e, rows, x, Saw(o), w);
    hide CanConverge, Converged, CanProvision, TP.Ready, OwnNames, CoherentRow, Kept, MigrationKeys;
  }

  lemma NoticedTurn(e: Outputs, x: TenantId, rows0: Rows, seen: Observed, w0: World,
                    r: Result, o: Observed, rows: Rows, w: World)
    requires x in rows0 && CalmTurn(e, x, T.State(Put(rows0, x, Saw(seen), e.now), w0), r, o, rows, w)
    ensures CalmTurn(e, x, T.State(rows0, w0), r, o, rows, w)
  {
    Noticed(e, x, rows0, seen, w0);
    hide CanConverge, Converged, CanProvision, TP.Ready, OwnNames, CoherentRow, Kept, ObservedIn, Repaired;
  }

  // ---- a tenant that is up and counts as suspended ----

  /** Deployment and Ingress cannot be read. */
  const BLIND: seq<Fault> := [Fine, Fails(false, KubernetesRetryable), Fails(false, KubernetesRetryable)]

  lemma BlindLook(w: World, x: TenantId)
    requires x in w.spaces
    ensures LookEnds(w, x, BLIND) && ReadsSuspended(w, x, BLIND)
  {
    assert Rest(BLIND) == [BLIND[1], BLIND[2]] && Rest(Rest(BLIND)) == [BLIND[2]] && Rest(Rest(Rest(BLIND))) == [];
    ThreeProbes(BLIND, PROBES);
    CalmProbes(PROBES - 3);
    hide ProbesEnd, ObservedIn;
  }

  lemma IdleTurn(e: Outputs, x: TenantId, s0: T.State, fs: seq<Fault>, o: Observed, r: Result, rows: Rows, w: World)
    requires Turn(e, x, s0, fs, o, r, rows, w) && RowTurn(x, s0.rows[x], r, o, rows, w) && LookEnds(s0.world, x, fs)
    requires s0.rows[x].desired == WantSuspended
    requires s0.rows[x].status == SUSPENDED || ReadsSuspended(s0.world, x, fs)
    ensures r.Ok? && w == s0.world && x in rows && rows[x].status == SUSPENDED
  {
    hide LookEnds, Unread, ReadsSuspended, ObservedIn, GatedBy;
  }

  /** The failing input: a tenant that is wanted SUSPENDED is fully up, and the probes for its deployment and its
      Ingress fail. It is recorded as SUSPENDED, untouched; and when every probe succeeds again, the next call leaves
      it so. */
  method MisreadStays(store: TenantStore, e: Outputs, x: TenantId, w: World) returns (cloud: CloudApi)
    requires Sane(e, store.rows, w) && TofuNames(e) && ValidId(x)
    requires x in store.rows && store.rows[x].desired == WantSuspended && FullyUp(w.spaces, x)
    modifies store
    ensures cloud.world == w && FullyUp(cloud.world.spaces, x)
    ensures x in store.rows && store.rows[x].status == SUSPENDED
  {
    cloud := new CloudApi(w, BLIND);
    BlindLook(w, x);
    CalmLook(w, x);
    hide Sane, RowTurn, Turn, CalmTurn, LookEnds, ReadsSuspended, GoneTruly, ObservedIn;
    assert OwnNames(e, store.rows) && HonestWorld(e, w);
    ghost var s0 := T.State(store.rows, w);
    var r, o := ReconcileOne(store, cloud, e, x);
    IdleTurn(e, x, s0, BLIND, o, r, store.rows, cloud.world);
    ghost var s1 := T.State(store.rows, w);
    cloud.faults := [];
    r, o := ReconcileOne(store, cloud, e, x);
    IdleTurn(e, x, s1, [], o, r, store.rows, cloud.world);
  }

  // ---- pods that take their time ----

  /** The pods of x have become ready. */
  function PodsReady(w: World, x: TenantId): World
    requires x in w.spaces && w.spaces[x].deploy.Some?
  {
    w.(spaces := w.spaces[x := w.spaces[x].(deploy := Some(Deploy(w.spaces[x].deploy.value.spec, 1)))])
  }

  /** A fault-free repair whose pods are not up in time ends in DRIFT; once they are, the next reconciliation finds
      nothing to do and records ACTIVE. */
  method DriftThenActive(store: TenantStore, cloud: CloudApi, e: Outputs, x: TenantId)
    returns (first: Status, r1: Result, r2: Result)
    requires Sane(e, store.rows, cloud.world) && TofuNames(e) && cloud.faults == [] && ValidId(x)
    requires x in store.rows && store.rows[x].desired == WantActive && e.albController
    requires !PodsUp(cloud.world, x) && CanProvision(e, store.rows, x, true, cloud.world)
    modifies store, cloud
    ensures r1.Ok? && first == DRIFT
    ensures r2.Ok? && x in store.rows && store.rows[x].status == ACTIVE
  {
    ghost var rows0, w0 := store.rows, cloud.world;
    assert CoherentRow(store.rows[x]) && OwnNames(e, rows0) && HonestWorld(e, w0);
    NotUp(x, w0);
    hide Sane, OwnNames, HonestWorld, CanProvision, Converged, CanConverge, TP.Ready, DeletionResult, Leaves, PodsUp;
    hide ObservedIn, Repaired, SameBut;
    var o;
    r1, o := ReconcileOne(store, cloud, e, x);
    Drifted(e, x, w0, rows0, store.rows, o, cloud.world);
    hide Kept, GatedBy;
    first := store.rows[x].status;
    cloud.world := PodsReady(cloud.world, x);
    cloud.faults := [];
    r2, o := ReconcileOne(store, cloud, e, x);
    ConvergedIsActive(e, x, store.rows, cloud.world);
  }

  lemma NotUp(x: TenantId, w: World)
    requires !PodsUp(w, x)
    ensures !FullyUp(w.spaces, x)
  {
  }

  lemma Drifted(e: Outputs, x: TenantId, w0: World, rows0: Rows, rows: Rows, o: Observed, w: World)
    requires Repaired(e, x, w0, rows, o, w) && !PodsUp(w0, x) && e.albController
    requires Kept(e, x, rows0, w0, rows, w) && Sane(e, rows0, w0)
    ensures x in w.spaces && w.spaces[x].deploy.Some? && rows[x].status == DRIFT && rows[x].desired == WantActive
    ensures OwnNames(e, rows) && HonestWorld(e, PodsReady(w, x)) && CoherentRow(rows[x])
    ensures CanConverge(e, x, rows, PodsReady(w, x))
  {
    ReleasedIsActive(e, x, rows[x], false, w);
    ReleasedIsActive(e, x, rows[x], true, PodsReady(w, x));
    hide OwnPointers, Under, CanAct, ValidateActiveContract, OwnNames, Tidy, Pointed, Absent;
  }

  lemma ConvergedIsActive(e: Outputs, x: TenantId, rows: Rows, w: World)
    requires Converged(e, x, WantActive, rows, w)
    ensures x in rows && rows[x].status == ACTIVE
  {
  }

  lemma NothingIsKept(e: Outputs, x: TenantId, rows: Rows, w: World)
    ensures Kept(e, x, rows, w, rows, w)
  {
  }
}
