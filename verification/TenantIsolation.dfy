/** Row isolation for what the control plane itself sends to the database: the statements of its migrate and
    drop-role scripts, in any interleaving with tenant sessions, at every statement boundary. */
module TenantIsolation {
  import opened Names
  import opened Postgres
  import opened Isolation
  import opened Sessions
  import opened Migration
  import T = Teardown

  /** A statement of one of the two scripts, for any tenant, or a tenant's session. */
  ghost predicate OfTheSystem(ev: Event) {
    ev.Admin? ==>
      || ev.sql == CreateTable || ev.sql == EnableRls || ev.sql == ForceRls
      || (exists t :: ForTenant(t, ev.sql))
      || (exists t, line: nat :: ev.sql == T.ScriptLine(t, line))
  }

  lemma ScriptsAreHonest(ev: Event)
    requires OfTheSystem(ev)
    ensures Honest(ev)
  {
    if ev.Admin? && ev.sql.CreatePolicy? {
      if t :| ForTenant(t, ev.sql) {
        assert ev.sql == CreatePolicy(t, TenantRole(t));
      }
    }
  }

  lemma AllHonest(evs: seq<Event>)
    requires forall ev | ev in evs :: OfTheSystem(ev)
    ensures forall ev | ev in evs :: Honest(ev)
  {
    forall ev | ev in evs ensures Honest(ev) {
      ScriptsAreHonest(ev);
    }
  }

  /** Once a first migration has completed (from a database `a` whose policies name their own tenants' roles, an empty
      one included, to `b`), a session of tenant x sees all its own rows and nothing else, or nothing at all without
      the right setting, and is told the newest of them as far as it asks; and it changes no other tenant's rows,
      whatever the scripts and the other sessions did since. */
  lemma ViewsAreSafe(keys: set<TenantId>, a: Db, b: Db, evs: seq<Event>, s: Session, x: TenantId)
    requires OwnPolicies(a) && MigrationOnly(keys, a, b) && Migrated(keys, b)
    requires (forall ev | ev in evs :: OfTheSystem(ev)) && s.role == TenantRole(x)
    ensures var now := ExecAll(b, evs);
            && Visible(now, s.role, s.setting, now.records)
               == (if s.setting == Some(x) && x in now.policies then RowsOf(now.records, x) else [])
            && (s.dml.Select? ==>
                  if MaySpeak(now, s, x) then ToldNewest(InSight(now, s, x), s.dml.limit, RunSession(now, s).1)
                  else RunSession(now, s).1 == Denied)
            && (forall y | y != x || s.setting != Some(x) ::
                  RowsOf(RunSession(now, s).0.records, y) == RowsOf(now.records, y))
  {
    MigrationGuards(keys, a, b);
    AllHonest(evs);
    ViewSafety(b, evs, s, x);
    GuardSurvives(b, evs);
    if s.dml.Select? {
      if MaySpeak(ExecAll(b, evs), s, x) {
        SelectAnswers(ExecAll(b, evs), s, x);
      } else {
        UngrantedIsDenied(ExecAll(b, evs), s, x);
      }
    }
    hide ExecAll, RunSession, Visible, RowsOf, ToldNewest;
  }

  /** And what tenant y is told is what it would be told had tenant x never spoken. */
  lemma TenantsDoNotInterfere(keys: set<TenantId>, a: Db, b: Db, evs: seq<Event>, x: TenantId, y: TenantId)
    requires OwnPolicies(a) && MigrationOnly(keys, a, b) && Migrated(keys, b)
    requires x != y && forall ev | ev in evs :: OfTheSystem(ev)
    ensures Readings(y, b, evs) == Readings(y, b, Purge(x, evs))
  {
    MigrationGuards(keys, a, b);
    AllHonest(evs);
    NonInterference(x, y, b, evs);
  }

  /** A migration serves: whatever a migrated tenant inserts under its setting is stored, and is the first thing its
      next select is told. */
  lemma MigratedTenantIsServed(keys: set<TenantId>, a: Db, b: Db, x: TenantId, payload: string, limit: int)
    requires OwnPolicies(a) && MigrationOnly(keys, a, b) && Migrated(keys, b) && x in keys && limit > 0
    ensures var (after, answer) := RunSession(b, Session(TenantRole(x), Some(x), Insert(payload, x)));
            var told := RunSession(after, Session(TenantRole(x), Some(x), Select(limit))).1;
            && answer == InsertedAs(b.nextId) && told.Rows? && told.records != []
            && told.records[0] == Record(b.nextId, payload, x)
  {
    MigrationGuards(keys, a, b);
    assert TenantMigrated(x, b);
    var s := Session(TenantRole(x), Some(x), Insert(payload, x));
    InsertAnswers(b, s, x);
    var after := RunSession(b, s).0;
    SelectAnswers(after, Session(TenantRole(x), Some(x), Select(limit)), x);
    hide RunSession, RowsOf, MigrationOnly, Migrated;
  }
}
