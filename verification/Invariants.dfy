/** What every operation keeps: coherent rows, complete identity pointers, honest secrets, and the absence of
    tenants it is not about. */
module Invariants {
  import opened Names
  import opened Postgres
  import opened Cloud
  import opened Registry
  import opened Identity
  import opened Migration
  import opened Provision
  import opened Suspension
  import T = Teardown
  import opened TeardownProofs

  /** Which statuses go with which wish. DRIFT goes with every one. */
  predicate CoherentRow(row: Row) {
    && LegalDesired(row.desired)
    && match row.status
       case PROVISIONING | ACTIVE | OtherStatus(_) => row.desired == WantActive
       case SUSPENDED => row.desired == WantSuspended
       case DELETING | DELETE_FAILED => row.desired == WantGone
       case FAILED => row.desired != WantGone
       case DRIFT => true
  }

  predicate Coherent(rows: Rows) { forall t | t in rows :: CoherentRow(rows[t]) }

  /** A row the control plane owns carries both pointers, and they are the tenant's own. */
  predicate PointedRow(e: Outputs, x: TenantId, row: Row) {
    row.owner == ControlPlane ==> PointersOf(row) == OwnPointers(e, x)
  }

  predicate Pointed(e: Outputs, rows: Rows) { forall t | t in rows :: PointedRow(e, t, rows[t]) }

  lemma PointedNames(e: Outputs, rows: Rows)
    requires Pointed(e, rows)
    ensures OwnNames(e, rows)
    ensures forall t | t in rows && rows[t].owner == ControlPlane :: HasPointers(rows[t])
  {
    forall t | t in rows && rows[t].owner == ControlPlane ensures HasPointers(rows[t]) {
      OwnPointersAreSet(e, t);
      assert PointedRow(e, t, rows[t]);
    }
    forall t | t in rows && HasPointers(rows[t]) ensures rows[t].secretName == Some(SecretOf(e, t)) {
      assert PointedRow(e, t, rows[t]);
    }
  }

  /** Nothing of tenant y is left in the world: no namespace, database role, policy or IAM role, and no secret but
      one that waits for its deletion. */
  predicate Vanished(e: Outputs, y: TenantId, w: World) {
    && y !in w.spaces && TenantRole(y) !in w.db.roles && y !in w.db.policies
    && RoleOf(e, y) !in w.iam && !Live(w, SecretOf(e, y))
  }

  predicate Absent(e: Outputs, y: TenantId, rows: Rows, w: World) { y !in rows && Vanished(e, y, w) }

  /** A tenant role presupposes the table, policies name their own tenants' roles, and a tenant's IAM role carries no
      inline policy but the control plane's. */
  ghost predicate Tidy(e: Outputs, w: World) {
    && (forall t :: TenantRole(t) in w.db.roles ==> w.db.table)
    && OwnPolicies(w.db)
    && (forall t :: RoleOf(e, t) in w.iam ==> w.iam[RoleOf(e, t)].inline.Keys <= {InlinePolicyName(e.prefix, t)})
  }

  /** A deletion may start in every such state. */
  lemma TidyIsReady(e: Outputs, x: TenantId, rows: Rows, w: World)
    requires Tidy(e, w) && Pointed(e, rows) && ValidId(x) && '/' !in e.prefix
    ensures Ready(e, x, T.State(rows, w))
  {
    if x in rows && rows[x].owner == ControlPlane {
      assert PointedRow(e, x, rows[x]);
      OwnPointersAreSet(e, x);
      TeardownFindsCreatedRole(e.prefix, e.account, x);
      assert T.TargetOf(e, rows, x).role == RoleOf(e, x);
    }
  }

  // ---- deletion ----

  /** What a deletion of x may have made of x's row: nothing yet, or a row that is wanted gone,
      with the pointers it had, or, once it was dropped and written again, none. */
  predicate RowKept(rows0: Rows, x: TenantId, rows: Rows) {
    && Without(rows, x) == Without(rows0, x)
    && (x in rows ==>
          || (x in rows0 && rows[x] == rows0[x])
          || (&& rows[x].desired == WantGone && (rows[x].status == DELETING || rows[x].status == DELETE_FAILED)
              && (rows[x].owner == Unowned || (x in rows0 && PointersOf(rows[x]) == PointersOf(rows0[x])))))
  }

  lemma PutKeepsRow(rows0: Rows, x: TenantId, rows: Rows, p: Patch, now: nat)
    requires RowKept(rows0, x, rows)
    requires p.owner.Keep? && p.secretName.Keep? && p.irsaRoleArn.Keep?
    requires p.desired == Set(WantGone) || (p.desired.Keep? && x in rows && rows[x].desired == WantGone)
    requires p.status == Set(DELETING) || p.status == Set(DELETE_FAILED)
    ensures RowKept(rows0, x, Put(rows, x, p, now))
  {
    assert Without(Put(rows, x, p, now), x) == Without(rows, x);
  }

  lemma EffectKeepsRowKept(e: Outputs, x: TenantId, rows0: Rows, c: T.Config)
    requires RowKept(rows0, x, c.s.rows) && RowInAttempt(x, c) && Underway(c.pc) && T.Possible(e, x, c)
    ensures RowKept(rows0, x, T.Effect(e, x, c).rows)
  {
    if IsMark(c.pc) {
      var step := T.Effect(e, x, c).rows[x].deleteStep;
      PutKeepsRow(rows0, x, c.s.rows, T.Checkpoint(step.value), e.now);
    } else if c.pc.DropRow? {
      assert Without(Without(c.s.rows, x), x) == Without(c.s.rows, x);
    }
  }

  lemma StepKeepsRowKept(e: Outputs, x: TenantId, rows0: Rows, c: T.Config, f: Fault)
    requires RowKept(rows0, x, c.s.rows) && WellFormed(c.pc) && RowInAttempt(x, c)
    ensures RowKept(rows0, x, T.Step(e, x, c, f).s.rows)
    ensures RowInAttempt(x, T.Step(e, x, c, f))
  {
    if Underway(c.pc) {
      StepKeepsRow(e, x, c, f);
      StepShape(e, x, c, f);
      if T.Possible(e, x, c) {
        EffectKeepsRowKept(e, x, rows0, c);
      }
      hide T.Effect, T.Possible, T.Onward, T.Fallback, T.Step, RowKept;
    } else {
      PutKeepsRow(rows0, x, c.s.rows, T.STARTED, e.now);
      PutKeepsRow(rows0, x, c.s.rows, T.Failed(), e.now);
      hide RowKept;
    }
  }

  lemma StepOnlyRemoves(e: Outputs, x: TenantId, w0: World, c: T.Config, f: Fault)
    requires OnlyRemoves(w0, c.s.world) && WellFormed(c.pc)
    ensures OnlyRemoves(w0, T.Step(e, x, c, f).s.world)
  {
    if Underway(c.pc) {
      StepShape(e, x, c, f);
      if T.Possible(e, x, c) {
        EffectOnlyRemoves(e, x, c);
      }
      hide T.Effect, T.Possible, T.Onward, T.Fallback, T.Step;
    }
  }

  lemma {:induction false} RunKeeps(e: Outputs, x: TenantId, s0: T.State, c: T.Config, fs: seq<Fault>)
    requires WellFormed(c.pc) && RowInAttempt(x, c) && RowKept(s0.rows, x, c.s.rows) && OnlyRemoves(s0.world, c.s.world)
    ensures var s := RunToIdle(e, x, c, fs).0.s; RowKept(s0.rows, x, s.rows) && OnlyRemoves(s0.world, s.world)
    decreases T.Rank(c.pc)
  {
    if c.pc != T.Idle {
      StepKeepsRowKept(e, x, s0.rows, c, Next(fs));
      StepOnlyRemoves(e, x, s0.world, c, Next(fs));
      StepDescends(e, x, c, Next(fs));
      hide T.Step, RowKept, OnlyRemoves, RowInAttempt, T.Rank, WellFormed;
      RunKeeps(e, x, s0, T.Step(e, x, c, Next(fs)), Rest(fs));
    }
  }

  /** A whole attempt, without any assumption about the state it starts in. */
  lemma AttemptKeeps(e: Outputs, x: TenantId, s: T.State, fs: seq<Fault>)
    ensures var d := Attempt(e, x, s, fs).0; RowKept(s.rows, x, d.s.rows) && OnlyRemoves(s.world, d.s.world)
  {
    var c := T.Begin(s);
    StepKeepsRowKept(e, x, s.rows, c, Next(fs));
    StepOnlyRemoves(e, x, s.world, c, Next(fs));
    hide RowKept, OnlyRemoves, RowInAttempt;
    RunKeeps(e, x, s, T.Step(e, x, c, Next(fs)), Rest(fs));
  }

  lemma RowKeptIsHarmless(e: Outputs, x: TenantId, rows0: Rows, rows: Rows)
    requires RowKept(rows0, x, rows)
    ensures Coherent(rows0) ==> Coherent(rows)
    ensures Pointed(e, rows0) ==> Pointed(e, rows)
    ensures OwnNames(e, rows0) ==> OwnNames(e, rows)
    ensures forall y | y != x && y !in rows0 :: y !in rows
  {
    SameElsewhere(rows, rows0, x);
  }

  lemma RemovalIsHarmless(e: Outputs, w0: World, w: World)
    requires OnlyRemoves(w0, w)
    ensures HonestWorld(e, w0) ==> HonestWorld(e, w)
    ensures Tidy(e, w0) ==> Tidy(e, w)
    ensures forall y | Vanished(e, y, w0) :: Vanished(e, y, w)
  {
  }

  /** Deleting x keeps the registry coherent and complete, secrets honest, and absent tenants absent. */
  lemma DeletionIsHarmless(e: Outputs, x: TenantId, s: T.State, fs: seq<Fault>)
    ensures var d := Attempt(e, x, s, fs).0.s;
            && (Coherent(s.rows) ==> Coherent(d.rows)) && (Pointed(e, s.rows) ==> Pointed(e, d.rows))
            && (OwnNames(e, s.rows) ==> OwnNames(e, d.rows)) && (HonestWorld(e, s.world) ==> HonestWorld(e, d.world))
            && (Tidy(e, s.world) ==> Tidy(e, d.world))
            && forall y | y != x && Absent(e, y, s.rows, s.world) :: Absent(e, y, d.rows, d.world)
  {
    var d := Attempt(e, x, s, fs).0.s;
    AttemptKeeps(e, x, s, fs);
    RowKeptIsHarmless(e, x, s.rows, d.rows);
    RemovalIsHarmless(e, s.world, d.world);
    hide Attempt, RowKept, OnlyRemoves, Coherent, Pointed, OwnNames, HonestWorld, Tidy, Vanished;
  }

  // ---- provisioning, suspending, resuming ----

  lemma ProvisionKeepsVanished(e: Outputs, x: TenantId, keys: set<TenantId>, w0: World, w: World, y: TenantId)
    requires ProvisionOnly(e, x, keys, w0, w) && x in keys && y !in keys && Vanished(e, y, w0)
    ensures Vanished(e, y, w)
  {
    if SecretOf(e, y) == SecretOf(e, x) || RoleOf(e, y) == RoleOf(e, x) {
      NamesAreInjective(e.prefix, x, y);
    }
    SameElsewhere(w.secrets, w0.secrets, SecretOf(e, x));
    SameElsewhere(w.iam, w0.iam, RoleOf(e, x));
  }

  lemma IdentityKeepsTidyRoles(e: Outputs, x: TenantId, w0: World, w: World, t: TenantId)
    requires AwsOnly(e, x, w0, w) && RoleOf(e, t) in w.iam
    requires RoleOf(e, t) in w0.iam ==> w0.iam[RoleOf(e, t)].inline.Keys <= {InlinePolicyName(e.prefix, t)}
    ensures w.iam[RoleOf(e, t)].inline.Keys <= {InlinePolicyName(e.prefix, t)}
  {
    if RoleOf(e, t) == RoleOf(e, x) {
      NamesAreInjective(e.prefix, t, x);
    } else {
      SameElsewhere(w.iam, w0.iam, RoleOf(e, x));
    }
  }

  lemma MigrationKeepsTidy(keys: set<TenantId>, a: Db, b: Db)
    requires MigrationOnly(keys, a, b) && OwnPolicies(a) && (forall t :: TenantRole(t) in a.roles ==> a.table)
    ensures OwnPolicies(b) && (forall t :: TenantRole(t) in b.roles ==> b.table)
  {
  }

  lemma ProvisionKeepsTidy(e: Outputs, x: TenantId, keys: set<TenantId>, w0: World, w: World)
    requires ProvisionOnly(e, x, keys, w0, w) && Tidy(e, w0)
    ensures Tidy(e, w)
  {
    MigrationKeepsTidy(keys, w0.db, w.db);
    hide MigrationOnly;
    forall t | RoleOf(e, t) in w.iam ensures w.iam[RoleOf(e, t)].inline.Keys <= {InlinePolicyName(e.prefix, t)} {
      IdentityKeepsTidyRoles(e, x, w0, w, t);
    }
  }

  lemma OnboardKeepsTidy(e: Outputs, x: TenantId, keys: set<TenantId>, w0: World, w: World)
    requires OnboardOnly(x, keys, w0, w) && Tidy(e, w0)
    ensures Tidy(e, w)
  {
    MigrationKeepsTidy(keys, w0.db, w.db);
  }

  lemma ProvisionIsHarmless(e: Outputs, x: TenantId, tier: string, create: bool, r: Result,
                        rows0: Rows, rows: Rows, w0: World, w: World)
    requires x in rows && RowAfter(e, rows0, x, tier, create, r, rows[x]) && Without(rows, x) == Without(rows0, x)
    requires ProvisionOnly(e, x, MigrationKeys(e, rows0, x), w0, w)
    ensures Coherent(rows0) ==> Coherent(rows)
    ensures Pointed(e, rows0) ==> Pointed(e, rows)
    ensures forall y | y != x && y !in e.tofuSecrets && Absent(e, y, rows0, w0) :: Absent(e, y, rows, w)
  {
    SameElsewhere(rows, rows0, x);
    hide ProvisionOnly, Vanished;
    forall y | y != x && y !in e.tofuSecrets && Absent(e, y, rows0, w0) ensures Absent(e, y, rows, w) {
      assert y !in OwnIdentities(rows0);
      ProvisionKeepsVanished(e, x, MigrationKeys(e, rows0, x), w0, w, y);
    }
  }

  /** A write to a row that keeps its pointers and leaves it coherent. */
  lemma PutIsHarmless(e: Outputs, rows: Rows, x: TenantId, p: Patch)
    requires p.owner.Keep? && p.secretName.Keep? && p.irsaRoleArn.Keep?
    ensures Coherent(rows) && CoherentRow(Written(rows, x, p, e.now)) ==> Coherent(Put(rows, x, p, e.now))
    ensures Pointed(e, rows) ==> Pointed(e, Put(rows, x, p, e.now))
    ensures OwnNames(e, rows) ==> OwnNames(e, Put(rows, x, p, e.now))
    ensures forall y, w | y != x && Absent(e, y, rows, w) :: Absent(e, y, Put(rows, x, p, e.now), w)
  {
  }

  lemma OnboardKeepsVanished(e: Outputs, x: TenantId, keys: set<TenantId>, w0: World, w: World, y: TenantId)
    requires OnboardOnly(x, keys, w0, w) && y != x && y !in keys && Vanished(e, y, w0)
    ensures Vanished(e, y, w)
  {
    SameElsewhere(w.spaces, w0.spaces, x);
  }

  /** What resuming x does to the world. */
  lemma OnboardIsHarmless(e: Outputs, x: TenantId, rows0: Rows, w0: World, w: World)
    requires OnboardOnly(x, KnownKeys(e, rows0), w0, w)
    ensures Tidy(e, w0) ==> Tidy(e, w)
    ensures forall y | y != x && y !in e.tofuSecrets && Absent(e, y, rows0, w0) :: Vanished(e, y, w)
  {
    if Tidy(e, w0) {
      OnboardKeepsTidy(e, x, KnownKeys(e, rows0), w0, w);
    }
    hide OnboardOnly, Tidy;
    forall y | y != x && y !in e.tofuSecrets && Absent(e, y, rows0, w0) ensures Vanished(e, y, w) {
      assert y !in KnownKeys(e, rows0);
      OnboardKeepsVanished(e, x, KnownKeys(e, rows0), w0, w, y);
    }
  }

  lemma SpaceKeepsVanished(e: Outputs, x: TenantId, w0: World, w: World)
    requires SpaceOnly(x, w0, w)
    ensures HonestWorld(e, w0) ==> HonestWorld(e, w)
    ensures Tidy(e, w0) ==> Tidy(e, w)
    ensures forall y | y != x && Vanished(e, y, w0) :: Vanished(e, y, w)
  {
    SameElsewhere(w.spaces, w0.spaces, x);
  }
}
