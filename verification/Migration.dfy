/** The migrate script: one role, its grants and its policy per tenant, then row-level security for all. */
module Migration {
  import opened Names
  import opened Postgres
  import opened Cloud
  import opened Retry

  /** How a script in a pod ends: complete, failed at some statement, or cut off with the control plane. */
  datatype ScriptEnd = Completed | Aborted | Cut

  /** What a migration for the given tenants may have changed: their roles and policies. Roles are never dropped,
      a role keeps its LOGIN flag (ALTER ROLE ... PASSWORD does not restore it), new ones can log in. */
  ghost predicate MigrationOnly(keys: set<TenantId>, a: Db, b: Db) {
    && a.records == b.records && a.nextId == b.nextId
    && (a.table ==> b.table) && (a.rls ==> b.rls) && (a.forced ==> b.forced)
    && (forall r | r in a.roles :: r in b.roles)
    && (forall r | r in b.roles && r !in a.roles :: b.table)
    && (forall r | r in b.roles :: b.roles[r].login == if r in a.roles then a.roles[r].login else true)
    && (forall r | r in b.roles && !(r.TenantRole? && r.id in keys) :: r in a.roles && b.roles[r] == a.roles[r])
    && (forall t | t !in keys ::
          (t in a.policies <==> t in b.policies) && (t in a.policies ==> a.policies[t] == b.policies[t]))
    && (forall t | t in b.policies && t in keys ::
          b.policies[t] == TenantRole(t) || (t in a.policies && b.policies[t] == a.policies[t]))
  }

  /** The tenant's role exists with all its grants, and its policy names it. */
  predicate TenantMigrated(t: TenantId, db: Db) {
    && TenantRole(t) in db.roles
    && db.roles[TenantRole(t)].connect && db.roles[TenantRole(t)].usage
    && db.roles[TenantRole(t)].table && db.roles[TenantRole(t)].sequence
    && t in db.policies && db.policies[t] == TenantRole(t)
  }

  /** The role's password is the one in the secret. */
  predicate HasPassword(t: TenantId, password: nat, db: Db) {
    TenantRole(t) in db.roles && db.roles[TenantRole(t)].password == password
  }

  predicate PasswordsMatch(secrets: map<TenantId, string>, w: World, db: Db) {
    forall t | t in secrets :: Live(w, secrets[t]) && HasPassword(t, PasswordOf(w.secrets[secrets[t]]), db)
  }

  predicate Migrated(keys: set<TenantId>, db: Db) {
    db.table && db.rls && db.forced && forall t | t in keys :: TenantMigrated(t, db)
  }

  lemma MigrationComposes(keys: set<TenantId>, a: Db, b: Db, c: Db)
    requires MigrationOnly(keys, a, b) && MigrationOnly(keys, b, c)
    ensures MigrationOnly(keys, a, c) && (a.table ==> b.table && c.table)
  {
  }

  lemma MigrationWidens(keys: set<TenantId>, more: set<TenantId>, a: Db, b: Db)
    requires MigrationOnly(keys, a, b) && keys <= more
    ensures MigrationOnly(more, a, b)
  {
  }

  /** A statement of the loop body for tenant t. */
  predicate ForTenant(t: TenantId, sql: Sql) {
    || (sql.CreateRole? && sql.role == TenantRole(t)) || (sql.AlterPassword? && sql.role == TenantRole(t))
    || (sql.GrantConnect? && sql.role == TenantRole(t)) || (sql.GrantUsage? && sql.role == TenantRole(t))
    || (sql.GrantTable? && sql.role == TenantRole(t)) || (sql.GrantSequence? && sql.role == TenantRole(t))
    || sql == DropPolicy(t) || sql == CreatePolicy(t, TenantRole(t))
  }

  lemma StatementIsConfined(t: TenantId, sql: Sql, db: Db)
    requires ForTenant(t, sql) && Runs(db, sql) && db.table
    ensures MigrationOnly({t}, db, Apply(db, sql))
    ensures forall u | u != t && TenantMigrated(u, db) :: TenantMigrated(u, Apply(db, sql))
  {
  }

  /** One autocommit statement. */
  method RunSql(cloud: CloudApi, sql: Sql) returns (end: ScriptEnd)
    modifies cloud
    ensures cloud.faults == Rest(old(cloud.faults))
    ensures cloud.world == old(cloud.world).(db := cloud.world.db)
    ensures cloud.world.db == old(cloud.world).db
            || (Runs(old(cloud.world).db, sql) && cloud.world.db == Apply(old(cloud.world).db, sql))
    ensures end.Completed? ==> Runs(old(cloud.world).db, sql) && cloud.world.db == Apply(old(cloud.world).db, sql)
    ensures Breaks(Next(old(cloud.faults))) ==> end.Aborted?
    ensures end.Cut? ==> Next(old(cloud.faults)).Dies?
    ensures old(cloud.faults) == [] && Runs(old(cloud.world).db, sql) ==> end.Completed?
  {
    var succeeds := Runs(cloud.world.db, sql);
    var f := cloud.Call(if succeeds then cloud.world.(db := Apply(cloud.world.db, sql)) else cloud.world);
    hide Runs, Apply;
    end := if f.Dies? then Cut else if f.Fine? && succeeds then Completed else Aborted;
  }

  /** A statement for tenant t: other tenants stay as they are. */
  method RunFor(cloud: CloudApi, t: TenantId, sql: Sql) returns (end: ScriptEnd)
    requires ForTenant(t, sql) && cloud.world.db.table
    modifies cloud
    ensures cloud.faults == Rest(old(cloud.faults))
    ensures cloud.world == old(cloud.world).(db := cloud.world.db)
    ensures MigrationOnly({t}, old(cloud.world).db, cloud.world.db)
    ensures forall u | u != t && TenantMigrated(u, old(cloud.world).db) :: TenantMigrated(u, cloud.world.db)
    ensures end.Completed? ==> Runs(old(cloud.world).db, sql) && cloud.world.db == Apply(old(cloud.world).db, sql)
    ensures end.Cut? ==> Next(old(cloud.faults)).Dies?
    ensures old(cloud.faults) == [] && Runs(old(cloud.world).db, sql) ==> end.Completed?
  {
    if Runs(cloud.world.db, sql) {
      StatementIsConfined(t, sql, cloud.world.db);
    }
    hide Runs, Apply, TenantMigrated;
    end := RunSql(cloud, sql);
  }

  /** Secrets are honest: the one a tenant's map entry names holds that tenant's own role as username. */
  predicate HonestSecrets(secrets: map<TenantId, string>, w: World) {
    forall t | t in secrets && secrets[t] in w.secrets :: w.secrets[secrets[t]].user == TenantRole(t)
  }

  predicate SecretsReadable(secrets: map<TenantId, string>, w: World) {
    forall t | t in secrets :: Live(w, secrets[t])
  }

  method MigrateRole(cloud: CloudApi, t: TenantId, password: nat) returns (end: ScriptEnd)
    requires cloud.world.db.table
    modifies cloud
    ensures cloud.world == old(cloud.world).(db := cloud.world.db)
    ensures MigrationOnly({t}, old(cloud.world).db, cloud.world.db)
    ensures forall u | u != t && TenantMigrated(u, old(cloud.world).db) :: TenantMigrated(u, cloud.world.db)
    ensures end.Completed? ==> HasPassword(t, password, cloud.world.db)
    ensures old(cloud.faults) == [] ==> cloud.faults == [] && end.Completed?
  {
    var f := cloud.Call(cloud.world);          // SELECT 1 FROM pg_roles
    if !f.Fine? {
      return if f.Dies? then Cut else Aborted;
    }
    if TenantRole(t) in cloud.world.db.roles {
      end := RunFor(cloud, t, AlterPassword(TenantRole(t), password));
    } else {
      end := RunFor(cloud, t, CreateRole(TenantRole(t), password));
    }
  }

  method GrantAccess(cloud: CloudApi, t: TenantId) returns (end: ScriptEnd)
    requires TenantRole(t) in cloud.world.db.roles && cloud.world.db.table
    modifies cloud
    ensures cloud.world == old(cloud.world).(db := cloud.world.db)
    ensures MigrationOnly({t}, old(cloud.world).db, cloud.world.db)
    ensures forall u | u != t && TenantMigrated(u, old(cloud.world).db) :: TenantMigrated(u, cloud.world.db)
    ensures end.Completed? ==>
              && TenantRole(t) in cloud.world.db.roles
              && var r := cloud.world.db.roles[TenantRole(t)]; r.connect && r.usage
    ensures end.Completed? ==> HasPassword(t, old(cloud.world).db.roles[TenantRole(t)].password, cloud.world.db)
    ensures old(cloud.faults) == [] ==> cloud.faults == [] && end.Completed?
  {
    hide MigrationOnly, TenantMigrated;
    ghost var d0 := cloud.world.db;
    end := RunFor(cloud, t, GrantConnect(TenantRole(t)));
    if end != Completed {
      return;
    }
    ghost var d1 := cloud.world.db;
    end := RunFor(cloud, t, GrantUsage(TenantRole(t)));
    MigrationComposes({t}, d0, d1, cloud.world.db);
  }

  method GrantObjects(cloud: CloudApi, t: TenantId) returns (end: ScriptEnd)
    requires TenantRole(t) in cloud.world.db.roles && cloud.world.db.table
    requires var r := cloud.world.db.roles[TenantRole(t)]; r.connect && r.usage
    modifies cloud
    ensures cloud.world == old(cloud.world).(db := cloud.world.db)
    ensures MigrationOnly({t}, old(cloud.world).db, cloud.world.db)
    ensures forall u | u != t && TenantMigrated(u, old(cloud.world).db) :: TenantMigrated(u, cloud.world.db)
    ensures end.Completed? ==>
              && TenantRole(t) in cloud.world.db.roles
              && var r := cloud.world.db.roles[TenantRole(t)]; r.connect && r.usage && r.table && r.sequence
    ensures end.Completed? ==> HasPassword(t, old(cloud.world).db.roles[TenantRole(t)].password, cloud.world.db)
    ensures old(cloud.faults) == [] ==> cloud.faults == [] && end.Completed?
  {
    hide MigrationOnly, TenantMigrated;
    ghost var d0 := cloud.world.db;
    end := RunFor(cloud, t, GrantTable(TenantRole(t)));
    if end != Completed {
      return;
    }
    ghost var d1 := cloud.world.db;
    end := RunFor(cloud, t, GrantSequence(TenantRole(t)));
    MigrationComposes({t}, d0, d1, cloud.world.db);
  }

  method MigrateGrants(cloud: CloudApi, t: TenantId) returns (end: ScriptEnd)
    requires TenantRole(t) in cloud.world.db.roles && cloud.world.db.table
    modifies cloud
    ensures cloud.world == old(cloud.world).(db := cloud.world.db)
    ensures MigrationOnly({t}, old(cloud.world).db, cloud.world.db)
    ensures forall u | u != t && TenantMigrated(u, old(cloud.world).db) :: TenantMigrated(u, cloud.world.db)
    ensures end.Completed? ==>
              && TenantRole(t) in cloud.world.db.roles
              && var r := cloud.world.db.roles[TenantRole(t)]; r.connect && r.usage && r.table && r.sequence
    ensures end.Completed? ==> HasPassword(t, old(cloud.world).db.roles[TenantRole(t)].password, cloud.world.db)
    ensures old(cloud.faults) == [] ==> cloud.faults == [] && end.Completed?
  {
    ghost var d0 := cloud.world.db;
    end := GrantAccess(cloud, t);
    if end != Completed {
      return;
    }
    ghost var d1 := cloud.world.db;
    assert d1.table;
    end := GrantObjects(cloud, t);
    MigrationComposes({t}, d0, d1, cloud.world.db);
    hide MigrationOnly, TenantMigrated;
  }

  method MigratePolicy(cloud: CloudApi, t: TenantId) returns (end: ScriptEnd)
    requires TenantRole(t) in cloud.world.db.roles && cloud.world.db.table
    modifies cloud
    ensures cloud.world == old(cloud.world).(db := cloud.world.db)
    ensures MigrationOnly({t}, old(cloud.world).db, cloud.world.db)
    ensures forall u | u != t && TenantMigrated(u, old(cloud.world).db) :: TenantMigrated(u, cloud.world.db)
    ensures end.Completed? ==>
              && cloud.world.db.roles == old(cloud.world).db.roles
              && t in cloud.world.db.policies && cloud.world.db.policies[t] == TenantRole(t)
    ensures end.Completed? ==> HasPassword(t, old(cloud.world).db.roles[TenantRole(t)].password, cloud.world.db)
    ensures old(cloud.faults) == [] ==> cloud.faults == [] && end.Completed?
  {
    hide MigrationOnly, TenantMigrated;
    ghost var d0 := cloud.world.db;
    end := RunFor(cloud, t, DropPolicy(t));
    if end != Completed {
      return;
    }
    ghost var d1 := cloud.world.db;
    end := RunFor(cloud, t, CreatePolicy(t, TenantRole(t)));
    MigrationComposes({t}, d0, d1, cloud.world.db);
  }

  /** The loop body: load the tenant's secret, then role, grants and policy. */
  method MigrateTenant(cloud: CloudApi, t: TenantId, secret: string) returns (end: ScriptEnd)
    requires cloud.world.db.table
    requires secret in cloud.world.secrets ==> cloud.world.secrets[secret].user == TenantRole(t)
    modifies cloud
    ensures cloud.world == old(cloud.world).(db := cloud.world.db)
    ensures MigrationOnly({t}, old(cloud.world).db, cloud.world.db)
    ensures forall u | u != t && TenantMigrated(u, old(cloud.world).db) :: TenantMigrated(u, cloud.world.db)
    ensures end.Completed? ==> TenantMigrated(t, cloud.world.db) && Live(old(cloud.world), secret)
    ensures end.Completed? ==> HasPassword(t, PasswordOf(old(cloud.world).secrets[secret]), cloud.world.db)
    ensures old(cloud.faults) == [] ==> cloud.faults == [] && !end.Cut?
    ensures old(cloud.faults) == [] && Live(cloud.world, secret)
            ==> end.Completed?
  {
    var f := cloud.Call(cloud.world);          // get_secret_value
    if f.Dies? {
      return Cut;
    }
    if !f.Fine? || !Live(cloud.world, secret) {
      return Aborted;
    }
    ghost var d0 := cloud.world.db;
    end := MigrateRole(cloud, t, PasswordOf(cloud.world.secrets[secret]));
    if end != Completed {
      return;
    }
    ghost var d1 := cloud.world.db;
    assert d1.table;
    end := MigrateGrants(cloud, t);
    MigrationComposes({t}, d0, d1, cloud.world.db);
    if end != Completed {
      return;
    }
    ghost var d2 := cloud.world.db;
    assert d2.table;
    end := MigratePolicy(cloud, t);
    MigrationComposes({t}, d0, d2, cloud.world.db);
    hide MigrationOnly;
  }

  /** The first k tenants of the list are done. */
  ghost predicate DoneUpTo(secrets: map<TenantId, string>, items: seq<TenantId>, k: nat, w0: World, w: World)
    requires k <= |items| && forall t | t in items :: t in secrets
  {
    && w == w0.(db := w.db) && w.db.table && MigrationOnly(secrets.Keys, w0.db, w.db)
    && forall i | 0 <= i < k ::
         && TenantMigrated(items[i], w.db) && Live(w0, secrets[items[i]])
         && HasPassword(items[i], PasswordOf(w0.secrets[secrets[items[i]]]), w.db)
  }

  method MigrateItem(cloud: CloudApi, secrets: map<TenantId, string>, items: seq<TenantId>, i: nat, ghost w0: World)
    returns (end: ScriptEnd)
    requires i < |items| && (forall t | t in items :: t in secrets)
    requires DoneUpTo(secrets, items, i, w0, cloud.world) && HonestSecrets(secrets, w0)
    modifies cloud
    ensures cloud.world == w0.(db := cloud.world.db) && MigrationOnly(secrets.Keys, w0.db, cloud.world.db)
    ensures end.Completed? ==> DoneUpTo(secrets, items, i + 1, w0, cloud.world)
    ensures old(cloud.faults) == [] ==> cloud.faults == [] && !end.Cut?
    ensures old(cloud.faults) == [] && SecretsReadable(secrets, w0) ==> end.Completed?
  {
    var t := items[i];
    ghost var before := cloud.world.db;
    end := MigrateTenant(cloud, t, secrets[t]);
    MigrationWidens({t}, secrets.Keys, before, cloud.world.db);
    MigrationComposes(secrets.Keys, w0.db, before, cloud.world.db);
    hide MigrationOnly, TenantMigrated;
  }

  method MigrateTenants(cloud: CloudApi, secrets: map<TenantId, string>) returns (end: ScriptEnd)
    requires cloud.world.db.table && HonestSecrets(secrets, cloud.world)
    modifies cloud
    ensures cloud.world == old(cloud.world).(db := cloud.world.db)
    ensures MigrationOnly(secrets.Keys, old(cloud.world).db, cloud.world.db)
    ensures end.Completed? ==> forall t | t in secrets :: TenantMigrated(t, cloud.world.db)
    ensures end.Completed? ==> PasswordsMatch(secrets, old(cloud.world), cloud.world.db)
    ensures old(cloud.faults) == [] ==> cloud.faults == [] && !end.Cut?
    ensures old(cloud.faults) == [] && SecretsReadable(secrets, old(cloud.world)) ==> end.Completed?
  {
    var items := Enumerate(secrets.Keys);
    assert DoneUpTo(secrets, items, 0, cloud.world, cloud.world);
    hide MigrationOnly, TenantMigrated, HonestSecrets;
    end := Completed;
    for i := 0 to |items|
      invariant end.Completed? && DoneUpTo(secrets, items, i, old(cloud.world), cloud.world)
      invariant old(cloud.faults) == [] ==> cloud.faults == []
    {
      end := MigrateItem(cloud, secrets, items, i, old(cloud.world));
      if end != Completed {
        return;
      }
    }
  }

  /** One run of the script. */
  method MigrateScript(cloud: CloudApi, secrets: map<TenantId, string>) returns (end: ScriptEnd)
    requires HonestSecrets(secrets, cloud.world)
    modifies cloud
    ensures cloud.world == old(cloud.world).(db := cloud.world.db)
    ensures MigrationOnly(secrets.Keys, old(cloud.world).db, cloud.world.db)
    ensures end.Completed? ==>
              Migrated(secrets.Keys, cloud.world.db) && PasswordsMatch(secrets, old(cloud.world), cloud.world.db)
    ensures Breaks(Next(old(cloud.faults))) ==> end.Aborted? && cloud.faults == Rest(old(cloud.faults))
    ensures old(cloud.faults) == [] ==> cloud.faults == [] && !end.Cut?
    ensures old(cloud.faults) == [] && SecretsReadable(secrets, old(cloud.world)) ==> end.Completed?
  {
    ghost var d0 := cloud.world.db;
    end := RunSql(cloud, CreateTable);
    if end != Completed {
      return;
    }
    ghost var d1 := cloud.world.db;
    assert MigrationOnly(secrets.Keys, d0, d1);
    end := MigrateTenants(cloud, secrets);
    MigrationComposes(secrets.Keys, d0, d1, cloud.world.db);
    if end != Completed {
      return;
    }
    ghost var d2 := cloud.world.db;
    end := EnforceRowSecurity(cloud);
    RlsIsMigration(secrets.Keys, d2, cloud.world.db);
    MigrationComposes(secrets.Keys, d0, d2, cloud.world.db);
    hide MigrationOnly;
  }

  lemma RlsIsMigration(keys: set<TenantId>, a: Db, b: Db)
    requires b == a.(rls := b.rls, forced := b.forced) && (a.rls ==> b.rls) && (a.forced ==> b.forced)
    ensures MigrationOnly(keys, a, b)
    ensures forall t | TenantMigrated(t, a) :: TenantMigrated(t, b)
    ensures forall t, pw | HasPassword(t, pw, a) :: HasPassword(t, pw, b)
  {
  }

  method EnforceRowSecurity(cloud: CloudApi) returns (end: ScriptEnd)
    requires cloud.world.db.table
    modifies cloud
    ensures cloud.world == old(cloud.world).(db := cloud.world.db)
    ensures var a, b := old(cloud.world).db, cloud.world.db;
            b == a.(rls := b.rls, forced := b.forced) && (a.rls ==> b.rls) && (a.forced ==> b.forced)
    ensures end.Completed? ==> cloud.world.db.rls && cloud.world.db.forced
    ensures old(cloud.faults) == [] ==> cloud.faults == [] && end.Completed?
  {
    end := RunSql(cloud, EnableRls);
    if end == Completed {
      end := RunSql(cloud, ForceRls);
    }
  }

  const MIGRATE_RUNS: nat := 6      // backoffLimit 5

  /** The first call of each of the next k runs of the script fails. */
  predicate Interrupted(fs: seq<Fault>, k: nat) { k == 0 || (Breaks(Next(fs)) && Interrupted(Rest(fs), k - 1)) }

  lemma {:induction false} InterruptedAt(fs: seq<Fault>, k: nat, i: nat)
    requires Interrupted(fs, k) && i < k
    ensures Breaks(Next(Skip(fs, i))) && Rest(Skip(fs, i)) == Skip(fs, i + 1)
  {
    SkipOne(fs, i);
    if i > 0 {
      InterruptedAt(Rest(fs), k - 1, i - 1);
    }
  }

  /** If nothing else goes wrong, as many runs are made as were interrupted, and one more. */
  ghost predicate Restarted(fs: seq<Fault>, runs: nat, end: ScriptEnd, left: seq<Fault>) {
    forall k: nat | Interrupted(fs, k) && Skip(fs, k) == [] ::
      if runs <= k then end.Aborted? && left == Skip(fs, runs) else end.Completed?
  }

  /** The migrate Job: its container is restarted until the script completes or the limit is reached. Up to five
      interrupted runs are made good by the next one; after six there is none. */
  method MigrateJob(cloud: CloudApi, secrets: map<TenantId, string>) returns (end: ScriptEnd)
    requires HonestSecrets(secrets, cloud.world)
    modifies cloud
    ensures cloud.world == old(cloud.world).(db := cloud.world.db)
    ensures MigrationOnly(secrets.Keys, old(cloud.world).db, cloud.world.db)
    ensures end.Completed? ==>
              Migrated(secrets.Keys, cloud.world.db) && PasswordsMatch(secrets, old(cloud.world), cloud.world.db)
    ensures SecretsReadable(secrets, old(cloud.world)) ==>
              forall k: nat | Interrupted(old(cloud.faults), k) && Skip(old(cloud.faults), k) == [] ::
                if k <= 5 then end.Completed? else end.Aborted?
    ensures old(cloud.faults) == [] ==> cloud.faults == [] && !end.Cut?
    ensures old(cloud.faults) == [] && SecretsReadable(secrets, old(cloud.world)) ==> end.Completed?
  {
    ghost var fs, w0 := cloud.faults, cloud.world;
    assert MigrationOnly(secrets.Keys, w0.db, w0.db) && Skip(fs, 0) == fs;
    var runs: nat := 0;
    end := Aborted;
    while runs < MIGRATE_RUNS && end.Aborted?
      invariant runs <= MIGRATE_RUNS
      invariant cloud.world == w0.(db := cloud.world.db) && MigrationOnly(secrets.Keys, w0.db, cloud.world.db)
      invariant end.Completed? ==>
                Migrated(secrets.Keys, cloud.world.db) && PasswordsMatch(secrets, w0, cloud.world.db)
      invariant fs == [] ==> cloud.faults == [] && !end.Cut?
      invariant SecretsReadable(secrets, w0) ==> Restarted(fs, runs, end, cloud.faults)
    {
      runs, end := RunAgain(cloud, secrets, runs, w0, fs);
    }
    if fs == [] {
      assert Interrupted(fs, 0) && Skip(fs, 0) == [];
    }
    hide MigrationOnly, Migrated, PasswordsMatch;
  }

  method RunAgain(cloud: CloudApi, secrets: map<TenantId, string>, runs: nat, ghost w0: World, ghost fs: seq<Fault>)
    returns (n: nat, end: ScriptEnd)
    requires HonestSecrets(secrets, w0) && cloud.world == w0.(db := cloud.world.db)
    requires MigrationOnly(secrets.Keys, w0.db, cloud.world.db)
    requires SecretsReadable(secrets, w0) ==> Restarted(fs, runs, Aborted, cloud.faults)
    modifies cloud
    ensures n == runs + 1 && cloud.world == w0.(db := cloud.world.db)
    ensures MigrationOnly(secrets.Keys, w0.db, cloud.world.db)
    ensures end.Completed? ==>
              Migrated(secrets.Keys, cloud.world.db) && PasswordsMatch(secrets, w0, cloud.world.db)
    ensures old(cloud.faults) == [] ==> cloud.faults == [] && !end.Cut?
    ensures SecretsReadable(secrets, w0) ==> Restarted(fs, n, end, cloud.faults)
  {
    ghost var before, left := cloud.world.db, cloud.faults;
    end := MigrateScript(cloud, secrets);
    MigrationComposes(secrets.Keys, w0.db, before, cloud.world.db);
    n := runs + 1;
    if SecretsReadable(secrets, w0) {
      RunCounts(fs, runs, end, left, cloud.faults);
    }
    hide MigrationOnly, Migrated, PasswordsMatch, Restarted;
  }

  lemma RunCounts(fs: seq<Fault>, runs: nat, end: ScriptEnd, before: seq<Fault>, left: seq<Fault>)
    requires Restarted(fs, runs, Aborted, before)
    requires Breaks(Next(before)) ==> end.Aborted? && left == Rest(before)
    requires before == [] ==> end.Completed?
    ensures Restarted(fs, runs + 1, end, left)
  {
    forall k: nat | Interrupted(fs, k) && Skip(fs, k) == []
      ensures if runs + 1 <= k then end.Aborted? && left == Skip(fs, runs + 1) else end.Completed?
    {
      if runs < k {
        InterruptedAt(fs, k, runs);
      }
    }
  }

  /** After a completed migration the guard of module Isolation stands. */
  lemma MigrationGuards(keys: set<TenantId>, a: Db, b: Db)
    requires OwnPolicies(a) && MigrationOnly(keys, a, b) && Migrated(keys, b)
    ensures Guarded(b)
  {
  }
}
