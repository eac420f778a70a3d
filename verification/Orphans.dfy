/** Reconciliation toward GONE: when it really takes a tenant away, and what a purged row can leave behind. */
module Orphans {
  import opened Names
  import opened Observe
  import opened Cloud
  import opened Retry
  import opened Registry
  import opened Identity
  import opened Provision
  import opened Invariants
  import opened Observer
  import opened Reconcile
  import opened Refusal
  import opened Runs
  import T = Teardown
  import TP = TeardownProofs
  import DT = DeleteTheorems
  import Lifecycle

  lemma GoneIsAbsent(e: Outputs, x: TenantId, s0: T.State, fs: seq<Fault>, rows: Rows, w: World)
    requires Sane(e, s0.rows, s0.world) && Pointed(e, s0.rows) && ValidId(x) && '/' !in e.prefix
    requires x in s0.rows && s0.rows[x].owner == ControlPlane
    requires GoneTruly(e, x, s0, fs, rows, w)
    ensures Absent(e, x, rows, w) <==> Sees(s0.world, x, fs) || Vanished(e, x, s0.world)
  {
    TidyIsReady(e, x, s0.rows, s0.world);
    ErasedIsAbsent(e, x, s0);
    assert PointedRow(e, x, s0.rows[x]);
    hide TP.Erased, TP.Ready, Vanished, Sees, Coherent, OwnNames, HonestWorld, Tidy, Pointed;
  }

  /** A reconciliation toward GONE that returns has taken a tenant of the control plane's own away, workload, database
      role, IAM role and secret, exactly if its namespace was there and seen, or nothing of it was there before. */
  method ReconcileAway(store: TenantStore, cloud: CloudApi, e: Outputs, x: TenantId) returns (r: Result)
    requires Sane(e, store.rows, cloud.world) && Pointed(e, store.rows) && TofuNames(e)
    requires ValidId(x) && '/' !in e.prefix
    requires x in store.rows && store.rows[x].owner == ControlPlane && store.rows[x].desired == WantGone
    modifies store, cloud
    ensures r.Ok? ==> x !in store.rows
    ensures r.Ok? ==>
              (Absent(e, x, store.rows, cloud.world)
               <==> Sees(old(cloud.world), x, old(cloud.faults)) || Vanished(e, x, old(cloud.world)))
    ensures Sane(e, store.rows, cloud.world)
  {
    ghost var s0, fs := T.State(store.rows, cloud.world), cloud.faults;
    assert OwnNames(e, store.rows) && HonestWorld(e, cloud.world);
    hide Sane, Pointed, TP.Ready, Turn, CalmTurn, GoneTruly, Sees, Absent, Vanished;
    var o;
    r, o := ReconcileOne(store, cloud, e, x);
    if r.Ok? {
      GoneIsAbsent(e, x, s0, fs, store.rows, cloud.world);
    }
  }

  /** Without a namespace in sight a turn that can look drops the row and nothing else. */
  lemma UnseenTurnPurges(e: Outputs, x: TenantId, s0: T.State, fs: seq<Fault>, o: Observed,
                         r: Result, rows: Rows, w: World)
    requires Turn(e, x, s0, fs, o, r, rows, w) && s0.rows[x].desired == WantGone
    requires LookEnds(s0.world, x, fs) && !Sees(s0.world, x, fs)
    ensures r.Ok? && rows == Without(s0.rows, x) && w == s0.world
  {
    assert Without(Put(s0.rows, x, Saw(o), e.now), x) == Without(s0.rows, x);
    hide LookEnds, Sees;
  }

  /** Once the row is gone, no deletion that returns removes what AWS still holds. */
  lemma UnregisteredKeepsIdentity(e: Outputs, x: TenantId, s: T.State, fs: seq<Fault>)
    requires TP.Ready(e, x, s) && x !in s.rows && TP.Attempt(e, x, s, fs).0.ending == T.Returned
    ensures var w := TP.Attempt(e, x, s, fs).0.s.world; w.iam == s.world.iam && w.secrets == s.world.secrets
  {
    hide TP.Attempt, TP.Ready;
    DT.AttemptErases(e, x, s, fs);
  }

  /** The failing input: AWS refuses a deletion once the namespace is gone. The next reconciliation, in which nothing
      fails, does not take the deletion up again but drops the row: IAM role and secret stand, and nobody owns them. */
  method PurgeAfterRefusal(store: TenantStore, e: Outputs, x: TenantId, w: World) returns (cloud: CloudApi, r: Result)
    requires Sane(e, store.rows, w) && Pointed(e, store.rows) && TofuNames(e) && ValidId(x) && '/' !in e.prefix
    requires x in store.rows && store.rows[x].owner == ControlPlane && T.JobCanStart(e, w)
    modifies store
    ensures r.Ok? && store.rows == Without(old(store.rows), x)
    ensures cloud.world.iam == w.iam && cloud.world.secrets == w.secrets
    ensures T.TargetOf(e, store.rows, x) == T.NotOurs
  {
    var s := T.State(store.rows, w);
    TidyIsReady(e, x, store.rows, w);
    RefusedAttemptFails(e, x, s);
    DeletionIsHarmless(e, x, s, RefusedAttempt(e, x, s));
    AttemptKeeps(e, x, s, RefusedAttempt(e, x, s));
    hide TP.Ready, TP.Attempt, RefusedAttempt, Pointed, Coherent, OwnNames, HonestWorld, Tidy, TP.OnlyRemoves;
    hide Turn, CalmTurn, GoneTruly, LookEnds, RowTurn;
    cloud := new CloudApi(w, RefusedAttempt(e, x, s));
    var _, _ := Lifecycle.DeleteTenant(store, cloud, e, x);
    ghost var s1 := T.State(store.rows, cloud.world);
    CalmLook(s1.world, x);
    cloud.faults := [];
    var o;
    r, o := ReconcileOne(store, cloud, e, x);
    UnseenTurnPurges(e, x, s1, [], o, r, store.rows, cloud.world);
  }
}
