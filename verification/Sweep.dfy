/** `reconcile_all`: one reconciliation after another, and the status it writes over theirs. */
module Sweep {
  import opened Names
  import opened Observe
  import opened Cloud
  import opened Retry
  import opened Registry
  import opened Identity
  import opened Provision
  import opened Invariants
  import opened Observer
  import opened Reconcile
  import opened Operator
  import opened Refusal
  import T = Teardown
  import TP = TeardownProofs
  import DT = DeleteTheorems

  /** What `reconcile_all` stores over the row `reconcile_one` just wrote: DRIFT, or the status read before. */
  function Overwrite(before: Row, f: Failure): Patch {
    NO_CHANGE.(status := Set(if Retryable(f) then before.status else DRIFT), error := Set(Some(Exception(f))))
  }

  /** The row is there and wants what it wanted when it was listed. */
  predicate WishStands(rows: Rows, x: TenantId, before: Row) { x in rows && rows[x].desired == before.desired }

  predicate Restated(row: Row, before: Row, f: Failure) {
    && row.error == Some(Exception(f)) && row.desired == before.desired
    && row.status == if Retryable(f) then before.status else DRIFT
  }

  lemma OverwriteFits(e: Outputs, rows: Rows, x: TenantId, before: Row, f: Failure)
    requires CoherentRow(before) && WishStands(rows, x, before)
    ensures var row := Written(rows, x, Overwrite(before, f), e.now);
            && CoherentRow(row) && Restated(row, before, f)
            && LegalDesired(Written(rows, x, Overwrite(before, f), 0).desired)
    ensures Without(Put(rows, x, Overwrite(before, f), e.now), x) == Without(rows, x)
  {
  }

  method Restate(store: TenantStore, e: Outputs, x: TenantId, before: Row, f: Failure, ghost w: World)
    requires ValidId(x) && CoherentRow(before) && WishStands(store.rows, x, before)
    modifies store
    ensures Harmless(e, {x}, old(store.rows), w, store.rows, w) && Without(store.rows, x) == Without(old(store.rows), x)
    ensures x in store.rows && Restated(store.rows[x], before, f)
  {
    OverwriteFits(e, store.rows, x, before, f);
    WriteIsHarmless(e, store.rows, x, Overwrite(before, f), w);
    hide Harmless, CoherentRow, WishStands, Written, Restated;
    var _ := store.Upsert(x, Overwrite(before, f), None, e.now);
  }

  // ---- what one tenant's turn comes to ----

  function RowIn(rows: Rows, x: TenantId): Option<Row> { if x in rows then Some(rows[x]) else None }

  /** The row a tenant's turn leaves, by its wish and the result. */
  predicate TurnLeaves(before: Row, one: Result, after: Option<Row>) {
    && (one.Ok? ==>
          match before.desired
          case WantGone => after.None?
          case WantSuspended => after.Some? && after.value.status == SUSPENDED
          case WantActive => after.Some? && after.value.observed.Some? && Gated(after.value, after.value.observed.value)
          case _ => true)
    && (one.Err? && IsControlPlaneError(one.error) ==> after.Some? && Restated(after.value, before, one.error))
  }

  lemma ReturningTurn(before: Row, rows: Rows, x: TenantId, o: Observed, w: World)
    requires Leaves(x, before.desired, rows, o, w)
    ensures TurnLeaves(before, Ok, RowIn(rows, x))
  {
    hide ObservedIn, Under, ValidateActiveContract;
  }

  lemma GuardOfDeletion(before: Row, rows: Rows, x: TenantId)
    requires before.status == DELETE_FAILED && (x in rows ==> LeftByDeletion(before, rows[x]))
    ensures CreateGuard(rows, x) == Admit <==> x !in rows
  {
  }

  lemma GuardOfRestated(before: Row, rows: Rows, x: TenantId, f: Failure)
    requires before.status == DELETE_FAILED && x in rows && Restated(rows[x], before, f)
    ensures CreateGuard(rows, x) == Admit <==> !Retryable(f)
  {
  }

  /** `reconcile_one`, then the last word of `reconcile_all` on a control-plane error. A tenant whose deletion had
      failed and fails again opens up to POST /tenants exactly when its row is gone, or the error is a permanent one
      of the control plane's own. */
  method ReconcileListed(store: TenantStore, cloud: CloudApi, e: Outputs, x: TenantId, before: Row)
    returns (r: Result)
    requires Sane(e, store.rows, cloud.world) && TofuNames(e)
    requires x in store.rows && store.rows[x] == before
    modifies store, cloud
    ensures Harmless(e, {x}, old(store.rows), old(cloud.world), store.rows, cloud.world)
    ensures Without(store.rows, x) == Without(old(store.rows), x)
    ensures ValidId(x) ==> TurnLeaves(before, r, RowIn(store.rows, x))
    ensures ValidId(x) && before.status == DELETE_FAILED && r.Err? ==>
              (CreateGuard(store.rows, x) == Admit
               <==> x !in store.rows || (IsControlPlaneError(r.error) && !Retryable(r.error)))
    ensures r.Ok? && before.desired == WantGone ==>
              GoneTruly(e, x, T.State(old(store.rows), old(cloud.world)), old(cloud.faults), store.rows, cloud.world)
    ensures ValidId(x) && before.desired == WantSuspended ==>
              SuspendTurn(x, before, old(cloud.world), old(cloud.faults), r, cloud.world)
    ensures (&& ValidId(x) && before.desired == WantGone && x in old(cloud.world).spaces
             && ProbesFine(old(cloud.faults), PROBES)) ==>
              r == DeletionResult(e, x, T.State(Seen(e, x, old(store.rows), old(cloud.world)), old(cloud.world)),
                                  Skip(old(cloud.faults), PROBES))
  {
    ghost var rows0, w0, s0, fs := store.rows, cloud.world, T.State(store.rows, cloud.world), cloud.faults;
    assert CoherentRow(before) && OwnNames(e, rows0) && HonestWorld(e, w0);
    assert before.status == DELETE_FAILED ==> before.desired == WantGone;
    hide Sane, OwnNames, HonestWorld, Absent, Pointed, Turn, CalmTurn, GoneTruly, SuspendTurn;
    hide DeletionResult, Repaired, ProbesFine, Skip, Leaves, LeftByDeletion, CoherentRow;
    var o;
    r, o := ReconcileOne(store, cloud, e, x);
    KeptIsHarmless(e, x, rows0, w0, store.rows, cloud.world);
    ghost var rows1, w1 := store.rows, cloud.world;
    assert (x in rows1 ==> WishStands(rows1, x, before)) && Without(rows1, x) == Without(rows0, x);
    hide Harmless, Kept, WishStands;
    if ValidId(x) {
      ListedTurn(e, x, s0, fs, o, r, rows1, w1);
    }
    if r.Ok? {
      ReturningTurn(before, rows1, x, o, w1);
    } else if before.status == DELETE_FAILED {
      GuardOfDeletion(before, rows1, x);
    }
    hide CreateGuard, Restated;
    if r.Err? && IsControlPlaneError(r.error) && ValidId(x) {
      Restate(store, e, x, before, r.error, w1);
      HarmlessComposes(e, {x}, {x}, rows0, w0, rows1, w1, store.rows, w1);
      assert {x} + {x} == {x};
      if before.status == DELETE_FAILED {
        GuardOfRestated(before, store.rows, x, r.error);
      }
    }
  }

  lemma ListedTurn(e: Outputs, x: TenantId, s0: T.State, fs: seq<Fault>, o: Observed, r: Result, rows: Rows, w: World)
    requires Turn(e, x, s0, fs, o, r, rows, w)
    requires s0.rows[x].desired == WantGone && x in s0.world.spaces && ProbesFine(fs, PROBES) ==>
               o == ObservedIn(s0.world.spaces, x)
    ensures s0.rows[x].desired == WantSuspended ==> SuspendTurn(x, s0.rows[x], s0.world, fs, r, w)
    ensures s0.rows[x].desired == WantGone && x in s0.world.spaces && ProbesFine(fs, PROBES) ==>
              r == DeletionResult(e, x, T.State(Seen(e, x, s0.rows, s0.world), s0.world), Skip(fs, PROBES))
  {
    if s0.rows[x].desired == WantSuspended {
      SuspendTurnMeans(e, x, s0, fs, o, r, rows, w);
    }
    if s0.rows[x].desired == WantGone && x in s0.world.spaces && ProbesFine(fs, PROBES) {
      FineGoneTurn(e, x, s0, fs, r, rows, w);
    }
    hide Turn, SuspendTurn, ObservedIn, DeletionResult, ProbesFine, Skip;
  }

  // ---- everybody ----

  /** The rows of the tenants still to come are as they were listed. */
  predicate Untouched(rows: Rows, listed: Rows, items: seq<TenantId>, i: nat) {
    forall k | i <= k < |items| :: items[k] in listed && items[k] in rows && rows[items[k]] == listed[items[k]]
  }

  /** Every tenant that has had its turn is as its turn left it. */
  predicate TurnsTaken(results: map<TenantId, Result>, rows: Rows, listed: Rows, items: seq<TenantId>, i: nat) {
    forall k | 0 <= k < i && k < |items| ::
      && items[k] in listed && items[k] in results
      && (ValidId(items[k]) ==> TurnLeaves(listed[items[k]], results[items[k]], RowIn(rows, items[k])))
  }

  lemma NextTurn(results: map<TenantId, Result>, one: Result, rows0: Rows, rows: Rows, listed: Rows,
                 items: seq<TenantId>, i: nat)
    requires i < |items| && forall k, l | 0 <= k < l < |items| :: items[k] != items[l]
    requires Untouched(rows0, listed, items, i) && TurnsTaken(results, rows0, listed, items, i)
    requires Without(rows, items[i]) == Without(rows0, items[i])
    requires ValidId(items[i]) ==> TurnLeaves(listed[items[i]], one, RowIn(rows, items[i]))
    ensures Untouched(rows, listed, items, i + 1)
    ensures TurnsTaken(results[items[i] := one], rows, listed, items, i + 1)
  {
    SameElsewhere(rows, rows0, items[i]);
    hide TurnLeaves, ValidId;
  }

  /** POST /reconcile. A control-plane error stops one tenant, any other exception stops the loop. If the loop gets
      to its end, every listed tenant has had its turn, and its row is as that turn left it. */
  method ReconcileAll(store: TenantStore, cloud: CloudApi, e: Outputs)
    returns (r: Result, results: map<TenantId, Result>)
    requires Sane(e, store.rows, cloud.world) && TofuNames(e)
    modifies store, cloud
    ensures Harmless(e, old(store.rows).Keys, old(store.rows), old(cloud.world), store.rows, cloud.world)
    ensures r.Err? ==> !IsControlPlaneError(r.error)
    ensures r.Ok? ==>
              forall x | x in old(store.rows) && ValidId(x) ::
                x in results && TurnLeaves(old(store.rows)[x], results[x], RowIn(store.rows, x))
  {
    ghost var rows0, w0 := store.rows, cloud.world;
    assert Harmless(e, rows0.Keys, rows0, w0, rows0, w0);
    var listed := store.rows;
    var items := Enumerate(listed.Keys);
    results := map[];
    assert Untouched(store.rows, listed, items, 0) && TurnsTaken(results, store.rows, listed, items, 0);
    hide Harmless, Sane, TurnLeaves;
    for i := 0 to |items|
      invariant Harmless(e, rows0.Keys, rows0, w0, store.rows, cloud.world) && Sane(e, store.rows, cloud.world)
      invariant Untouched(store.rows, listed, items, i) && TurnsTaken(results, store.rows, listed, items, i)
    {
      var x := items[i];
      ghost var rows1, w1, results1 := store.rows, cloud.world, results;
      r := ReconcileListed(store, cloud, e, x, listed[x]);
      HarmlessKeepsSane(e, {x}, rows1, w1, store.rows, cloud.world);
      HarmlessComposes(e, rows0.Keys, {x}, rows0, w0, rows1, w1, store.rows, cloud.world);
      assert rows0.Keys + {x} == rows0.Keys;
      NextTurn(results1, r, rows1, store.rows, listed, items, i);
      hide Untouched, TurnsTaken, RowIn, ValidId, CreateGuard;
      results := results[x := r];
      if r.Crash? || (r.Err? && !IsControlPlaneError(r.error)) {
        return;
      }
    }
    r := Ok;
    EverybodysTurn(results, store.rows, listed, items);
  }

  lemma EverybodysTurn(results: map<TenantId, Result>, rows: Rows, listed: Rows, items: seq<TenantId>)
    requires TurnsTaken(results, rows, listed, items, |items|) && forall x :: x in items <==> x in listed
    ensures forall x | x in listed && ValidId(x) :: x in results && TurnLeaves(listed[x], results[x], RowIn(rows, x))
  {
    forall x | x in listed && ValidId(x) ensures x in results && TurnLeaves(listed[x], results[x], RowIn(rows, x)) {
      var k :| 0 <= k < |items| && items[k] == x;
    }
    hide TurnLeaves, ValidId;
  }

  // ---- a failed deletion that POST /tenants takes for a new tenant ----

  function Fines(n: nat): seq<Fault> { if n == 0 then [] else [Fine] + Fines(n - 1) }

  lemma {:induction false} FinesArePassed(n: nat, rest: seq<Fault>)
    ensures ProbesFine(Fines(n) + rest, n) && Skip(Fines(n) + rest, n) == rest
  {
    if n == 0 {
      assert [] + rest == rest;
    } else {
      assert (Fines(n) + rest)[1..] == Fines(n - 1) + rest;
      FinesArePassed(n - 1, rest);
    }
  }

  lemma RefusedTurn(before: Row, rows: Rows, x: TenantId)
    requires TurnLeaves(before, Err(PermanentProvisioning), RowIn(rows, x))
    ensures x in rows && rows[x].desired == before.desired
  {
  }

  /** The failing input: POST /tenants refuses a tenant whose deletion has failed. One POST /reconcile in which AWS
      refuses the deletion once more, and POST /tenants takes it, although it is still wanted GONE. */
  method ReopenCreate(store: TenantStore, e: Outputs, x: TenantId, w: World) returns (r: Result)
    requires Sane(e, store.rows, w) && Pointed(e, store.rows) && TofuNames(e) && ValidId(x) && '/' !in e.prefix
    requires x in store.rows && store.rows[x].status == DELETE_FAILED && store.rows[x].owner == ControlPlane
    requires x in w.spaces && T.JobCanStart(e, w)
    modifies store
    ensures CreateGuard(old(store.rows), x) == Conflict
    ensures r == Err(PermanentProvisioning) && CreateGuard(store.rows, x) == Admit
    ensures x in store.rows && store.rows[x].desired == WantGone
  {
    var before := store.rows[x];
    var s := T.State(Seen(e, x, store.rows, w), w);
    var fs := RefusedAttempt(e, x, s);
    FinesArePassed(PROBES, fs);
    assert CoherentRow(before);
    TidyIsReady(e, x, store.rows, w);
    SightKeepsReady(e, x, store.rows, ObservedIn(w.spaces, x), w);
    RefusedAttemptFails(e, x, s);
    hide DeletionResult, RefusedAttempt, Sane, Pointed, TP.Ready, ProbesFine, Skip, Harmless, TurnLeaves;
    var cloud := new CloudApi(w, Fines(PROBES) + fs);
    r := ReconcileListed(store, cloud, e, x, before);
    RefusedTurn(before, store.rows, x);
  }
}
