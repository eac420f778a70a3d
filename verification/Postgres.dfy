/** The shared table `sample_requests`: roles, grants, row-level security and sessions.
    Administrative statements run in autocommit, so every statement is a boundary at which
    tenant sessions may interleave. */
module Postgres {
  import opened Names

  /** A database role: `tenant_<id>`, the table's owner, or any other name. */
  datatype RoleName = TenantRole(id: TenantId) | Master | NamedRole(name: string)

  datatype Role = Role(login: bool, password: nat, connect: bool, usage: bool, table: bool, sequence: bool)

  /** `payload` stands for remote_ip, hostname, user_agent and message; list order is timestamp order. */
  datatype Record = Record(id: nat, payload: string, tenant: TenantId)

  /** `policies[t]` is the role that policy `tenant_<t>_isolation` applies to; the policy admits
      rows with tenant_id = t while app.tenant_id = t. */
  datatype Db = Db(
    table: bool, rls: bool, forced: bool, roles: map<RoleName, Role>, policies: map<TenantId, RoleName>,
    records: seq<Record>, nextId: nat)

  // ---- administrative statements (migrate and drop-role scripts) ----

  datatype Sql =
    | CreateTable | EnableRls | ForceRls
    | CreateRole(role: RoleName, password: nat) | AlterPassword(role: RoleName, password: nat) | NoLogin(role: RoleName)
    | GrantConnect(role: RoleName) | GrantUsage(role: RoleName)
    | GrantTable(role: RoleName) | GrantSequence(role: RoleName)
    | RevokeTable(role: RoleName) | RevokeSequence(role: RoleName)
    | RevokeSchema(role: RoleName) | RevokeDatabase(role: RoleName)
    | DropRole(role: RoleName) | DropPolicy(tenant: TenantId) | CreatePolicy(tenant: TenantId, role: RoleName)

  predicate Granted(r: Role) { r.connect || r.usage || r.table || r.sequence }

  /** The statement succeeds. A role that still holds grants or is named by a policy cannot be dropped. */
  predicate Runs(db: Db, sql: Sql) {
    match sql
    case CreateTable => true
    case DropPolicy(_) => true
    case EnableRls => db.table
    case ForceRls => db.table
    case CreateRole(r, _) => r !in db.roles
    case GrantTable(r) => db.table && r in db.roles
    case GrantSequence(r) => db.table && r in db.roles
    case RevokeTable(r) => db.table && r in db.roles
    case RevokeSequence(r) => db.table && r in db.roles
    case DropRole(r) => r in db.roles && !Granted(db.roles[r]) && forall t | t in db.policies :: db.policies[t] != r
    case CreatePolicy(t, r) => db.table && t !in db.policies && r in db.roles
    case other => other.role in db.roles
  }

  /** A role can be dropped exactly when it holds no grant and no policy names it. */
  lemma DropNeedsRevokes(db: Db, r: RoleName)
    requires r in db.roles
    ensures Runs(db, DropRole(r)) <==>
              && !db.roles[r].connect && !db.roles[r].usage && !db.roles[r].table && !db.roles[r].sequence
              && forall t | t in db.policies :: db.policies[t] != r
  {
  }

  function SetRole(db: Db, r: RoleName, v: Role): Db { db.(roles := db.roles[r := v]) }

  function Apply(db: Db, sql: Sql): Db
    requires Runs(db, sql)
  {
    match sql
    case CreateTable => db.(table := true)
    case EnableRls => db.(rls := true)
    case ForceRls => db.(forced := true)
    case CreateRole(r, pw) => SetRole(db, r, Role(true, pw, false, false, false, false))
    case AlterPassword(r, pw) => SetRole(db, r, db.roles[r].(password := pw))
    case NoLogin(r) => SetRole(db, r, db.roles[r].(login := false))
    case GrantConnect(r) => SetRole(db, r, db.roles[r].(connect := true))
    case GrantUsage(r) => SetRole(db, r, db.roles[r].(usage := true))
    case GrantTable(r) => SetRole(db, r, db.roles[r].(table := true))
    case GrantSequence(r) => SetRole(db, r, db.roles[r].(sequence := true))
    case RevokeTable(r) => SetRole(db, r, db.roles[r].(table := false))
    case RevokeSequence(r) => SetRole(db, r, db.roles[r].(sequence := false))
    case RevokeSchema(r) => SetRole(db, r, db.roles[r].(usage := false))
    case RevokeDatabase(r) => SetRole(db, r, db.roles[r].(connect := false))
    case DropRole(r) => db.(roles := db.roles - {r})
    case DropPolicy(t) => db.(policies := db.policies - {t})
    case CreatePolicy(t, r) => db.(policies := db.policies[t := r])
  }

  // ---- tenant sessions ----

  /** WHERE clauses look at content only; ids come from one sequence shared by all tenants. */
  datatype Dml =
    | Select(limit: int)
    | Insert(payload: string, tenant: TenantId)
    | Update(where: string -> bool, payload: string, tenant: TenantId)
    | Delete(where: string -> bool)

  /** One transaction of a role, with the transaction-local setting app.tenant_id (None: unset). */
  datatype Session = Session(role: RoleName, setting: Option<TenantId>, dml: Dml)

  datatype Answer = Denied | Rows(records: seq<Record>) | InsertedAs(id: nat) | Touched(count: nat)

  /** Row security does not apply: not enabled, or not forced on the table's owner. */
  predicate Bypasses(db: Db, role: RoleName) { !db.rls || (role.Master? && !db.forced) }

  /** USING and WITH CHECK are the same expression: some policy of this role admits the tenant id. */
  predicate Admits(db: Db, role: RoleName, setting: Option<TenantId>, tenant: TenantId) {
    || Bypasses(db, role)
    || (tenant in db.policies && db.policies[tenant] == role && setting == Some(tenant))
  }

  predicate MayUseTable(db: Db, role: RoleName) {
    db.table && (role.Master? || (role in db.roles && db.roles[role].table))
  }

  predicate MayDrawId(db: Db, role: RoleName) { role.Master? || (role in db.roles && db.roles[role].sequence) }

  function Visible(db: Db, role: RoleName, setting: Option<TenantId>, rs: seq<Record>): seq<Record> {
    if rs == [] then []
    else
      var init, last := Visible(db, role, setting, rs[..|rs| - 1]), rs[|rs| - 1];
      if Admits(db, role, setting, last.tenant) then init + [last] else init
  }

  /** ORDER BY timestamp DESC LIMIT n. */
  function Newest<T>(rs: seq<T>, n: nat): seq<T> {
    if rs == [] || n == 0 then [] else [rs[|rs| - 1]] + Newest(rs[..|rs| - 1], n - 1)
  }

  predicate Hits(db: Db, s: Session, r: Record)
    requires s.dml.Update? || s.dml.Delete?
  {
    Admits(db, s.role, s.setting, r.tenant) && s.dml.where(r.payload)
  }

  function HitCount(db: Db, s: Session, rs: seq<Record>): nat
    requires s.dml.Update? || s.dml.Delete?
  {
    if rs == [] then 0
    else HitCount(db, s, rs[..|rs| - 1]) + if Hits(db, s, rs[|rs| - 1]) then 1 else 0
  }

  function Rewritten(db: Db, s: Session, rs: seq<Record>): seq<Record>
    requires s.dml.Update?
  {
    if rs == [] then []
    else
      var last := rs[|rs| - 1];
      Rewritten(db, s, rs[..|rs| - 1])
      + [if Hits(db, s, last) then last.(payload := s.dml.payload, tenant := s.dml.tenant) else last]
  }

  function Pruned(db: Db, s: Session, rs: seq<Record>): seq<Record>
    requires s.dml.Delete?
  {
    if rs == [] then []
    else
      var init, last := Pruned(db, s, rs[..|rs| - 1]), rs[|rs| - 1];
      if Hits(db, s, last) then init else init + [last]
  }

  function RunSession(db: Db, s: Session): (Db, Answer) {
    if !MayUseTable(db, s.role) then (db, Denied)
    else match s.dml
      case Select(limit) =>
        if limit < 0 then (db, Denied)
        else (db, Rows(Newest(Visible(db, s.role, s.setting, db.records), limit)))
      case Insert(payload, tenant) =>
        if !MayDrawId(db, s.role) then (db, Denied)
        else if Admits(db, s.role, s.setting, tenant) then
          (db.(records := db.records + [Record(db.nextId, payload, tenant)], nextId := db.nextId + 1),
           InsertedAs(db.nextId))
        else (db.(nextId := db.nextId + 1), Denied)   // the sequence moves even when the row is refused
      case Update(_, _, tenant) =>
        if HitCount(db, s, db.records) > 0 && !Admits(db, s.role, s.setting, tenant) then (db, Denied)
        else (db.(records := Rewritten(db, s, db.records)), Touched(HitCount(db, s, db.records)))
      case Delete(_) =>
        (db.(records := Pruned(db, s, db.records)), Touched(HitCount(db, s, db.records)))
  }

  /** A role just created can log in, and neither use the table nor draw ids. */
  lemma FreshRoleMayNothing(db: Db, r: RoleName, password: nat)
    requires Runs(db, CreateRole(r, password)) && !r.Master?
    ensures var after := Apply(db, CreateRole(r, password));
            after.roles[r].login && !Granted(after.roles[r]) && !MayUseTable(after, r) && !MayDrawId(after, r)
  {
  }

  // ---- traces ----

  datatype Event = Admin(sql: Sql) | Client(session: Session)

  function Exec(db: Db, e: Event): Db {
    match e
    case Admin(sql) => if Runs(db, sql) then Apply(db, sql) else db
    case Client(s) => RunSession(db, s).0
  }

  function ExecAll(db: Db, es: seq<Event>): Db
    decreases |es|
  {
    if es == [] then db else ExecAll(Exec(db, es[0]), es[1..])
  }

  /** Every secret's username is `tenant_<id>`, so each policy is created for its own tenant's role. */
  predicate Honest(e: Event) {
    e.Admin? && e.sql.CreatePolicy? ==> e.sql.role == TenantRole(e.sql.tenant)
  }

  predicate OwnPolicies(db: Db) { forall t | t in db.policies :: db.policies[t] == TenantRole(t) }

  /** What the first completed migration establishes. */
  predicate Guarded(db: Db) { db.table && db.rls && db.forced && OwnPolicies(db) }
}
