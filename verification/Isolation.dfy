/** Row isolation on the shared table: what a role can see and change, and what it cannot influence. */
module Isolation {
  import opened Names
  import opened Postgres

  // ---- the guard survives every statement ----

  lemma {:induction false} GuardSurvives(db: Db, es: seq<Event>)
    requires Guarded(db) && forall e | e in es :: Honest(e)
    ensures Guarded(ExecAll(db, es))
    decreases |es|
  {
    if es != [] {
      assert es[0] in es;
      GuardSurvives(Exec(db, es[0]), es[1..]);
    }
  }

  /** Behind the guard a session admits exactly its own tenant's rows, with the matching setting. */
  predicate Window(db: Db, role: RoleName, setting: Option<TenantId>, t: TenantId) {
    role == TenantRole(t) && setting == Some(t) && t in db.policies
  }

  /** The rows of one tenant, in table order. */
  function RowsOf(rs: seq<Record>, t: TenantId): seq<Record> {
    if rs == [] then []
    else
      var init, last := RowsOf(rs[..|rs| - 1], t), rs[|rs| - 1];
      if last.tenant == t then init + [last] else init
  }

  lemma RowsOfAppend(rs: seq<Record>, r: Record, t: TenantId)
    ensures RowsOf(rs + [r], t) == RowsOf(rs, t) + if r.tenant == t then [r] else []
  {
    assert (rs + [r])[..|rs|] == rs;
  }

  /** Completeness and soundness of reads: the whole of one's own rows through one's window, else nothing. */
  lemma {:induction false} VisibleIsOwn(db: Db, role: RoleName, setting: Option<TenantId>, rs: seq<Record>)
    requires Guarded(db)
    ensures Visible(db, role, setting, rs)
         == if role.TenantRole? && Window(db, role, setting, role.id) then RowsOf(rs, role.id) else []
  {
    if rs != [] {
      VisibleIsOwn(db, role, setting, rs[..|rs| - 1]);
    }
  }

  /** Writes are confined: rows of every tenant but the session's own are untouched. */
  lemma {:induction false} RewriteConfined(db: Db, s: Session, rs: seq<Record>, y: TenantId)
    requires Guarded(db) && s.dml.Update?
    requires !Window(db, s.role, s.setting, y)
    requires HitCount(db, s, rs) > 0 ==> Admits(db, s.role, s.setting, s.dml.tenant)
    ensures RowsOf(Rewritten(db, s, rs), y) == RowsOf(rs, y)
  {
    if rs != [] {
      var init, last := rs[..|rs| - 1], rs[|rs| - 1];
      RewriteConfined(db, s, init, y);
      var changed := if Hits(db, s, last) then last.(payload := s.dml.payload, tenant := s.dml.tenant) else last;
      RowsOfAppend(Rewritten(db, s, init), changed, y);
    }
  }

  lemma {:induction false} PruneConfined(db: Db, s: Session, rs: seq<Record>, y: TenantId)
    requires Guarded(db) && s.dml.Delete? && !Window(db, s.role, s.setting, y)
    ensures RowsOf(Pruned(db, s, rs), y) == RowsOf(rs, y)
  {
    if rs != [] {
      var init, last := rs[..|rs| - 1], rs[|rs| - 1];
      PruneConfined(db, s, init, y);
      RowsOfAppend(Pruned(db, s, init), last, y);
    }
  }

  lemma SessionConfined(db: Db, s: Session, y: TenantId)
    requires Guarded(db) && !Window(db, s.role, s.setting, y)
    ensures RowsOf(RunSession(db, s).0.records, y) == RowsOf(db.records, y)
  {
    match s.dml
    case Select(_) =>
    case Insert(payload, tenant) => RowsOfAppend(db.records, Record(db.nextId, payload, tenant), y);
    case Update(_, _, _) =>
      if HitCount(db, s, db.records) == 0 || Admits(db, s.role, s.setting, s.dml.tenant) {
        RewriteConfined(db, s, db.records, y);
      }
    case Delete(_) => PruneConfined(db, s, db.records, y);
  }

  /** View safety at every statement boundary: after the first completed migration, whatever migrate
      statements, drop-role statements and sessions ran in between, a session of role tenant_x reads
      exactly x's rows when app.tenant_id = x (and the policy stands), nothing otherwise, and leaves
      every other tenant's rows as they were. */
  lemma ViewSafety(db: Db, es: seq<Event>, s: Session, x: TenantId)
    requires Guarded(db) && forall e | e in es :: Honest(e)
    requires s.role == TenantRole(x)
    ensures var now := ExecAll(db, es);
            && Visible(now, s.role, s.setting, now.records)
               == (if s.setting == Some(x) && x in now.policies then RowsOf(now.records, x) else [])
            && (forall y | y != x || s.setting != Some(x) ::
                  RowsOf(RunSession(now, s).0.records, y) == RowsOf(now.records, y))
  {
    GuardSurvives(db, es);
    var now := ExecAll(db, es);
    VisibleIsOwn(now, s.role, s.setting, now.records);
    forall y | y != x || s.setting != Some(x)
      ensures RowsOf(RunSession(now, s).0.records, y) == RowsOf(now.records, y)
    {
      SessionConfined(now, s, y);
    }
  }

  /** Roles that are not tenant roles, the table's owner included, see nothing behind the guard. */
  lemma OnlyTenantRolesSee(db: Db, es: seq<Event>, role: RoleName, setting: Option<TenantId>)
    requires Guarded(db) && !role.TenantRole? && forall e | e in es :: Honest(e)
    ensures Visible(ExecAll(db, es), role, setting, ExecAll(db, es).records) == []
  {
    GuardSurvives(db, es);
    VisibleIsOwn(ExecAll(db, es), role, setting, ExecAll(db, es).records);
  }

  /** The guard is needed: with row security still off (the first migration grants before it enables),
      a session sees the whole table. Views are safe for all contents exactly when row security applies. */
  lemma {:induction false} BypassSeesAll(db: Db, role: RoleName, setting: Option<TenantId>, rs: seq<Record>)
    requires Bypasses(db, role)
    ensures Visible(db, role, setting, rs) == rs
  {
    if rs != [] {
      BypassSeesAll(db, role, setting, rs[..|rs| - 1]);
    }
  }

  /** Enabling row-level security is not enough against the table's owner: it sees every row until it is forced. */
  lemma OwnerSeesAllUnlessForced(db: Db, setting: Option<TenantId>)
    requires OwnPolicies(db) && db.rls
    ensures (forall rs :: Visible(db, Master, setting, rs) == rs) <==> !db.forced
  {
    if db.forced {
      var one := [Record(0, "", "a")];
      assert one[..0] == [];
      assert Visible(db, Master, setting, one) != one;
    } else {
      forall rs ensures Visible(db, Master, setting, rs) == rs {
        BypassSeesAll(db, Master, setting, rs);
      }
    }
  }

  lemma ViewsSafeIffRowSecurity(db: Db, x: TenantId)
    requires OwnPolicies(db)
    ensures db.rls <==> forall rs, setting :: forall r | r in Visible(db, TenantRole(x), setting, rs) :: r.tenant == x
  {
    if !db.rls {
      var stranger := [Record(0, "", x + "0")];
      BypassSeesAll(db, TenantRole(x), None, stranger);
      assert stranger[0] in Visible(db, TenantRole(x), None, stranger);
      assert |x + "0"| != |x|;
    } else {
      forall rs, setting, r | r in Visible(db, TenantRole(x), setting, rs) ensures r.tenant == x {
        VisibleIsOwn(db.(table := true, forced := true), TenantRole(x), setting, rs);
        SameAdmission(db, db.(table := true, forced := true), TenantRole(x), setting, rs);
        RowsOfSound(rs, x);
      }
    }
  }

  lemma {:induction false} SameAdmission(a: Db, b: Db, role: RoleName, setting: Option<TenantId>, rs: seq<Record>)
    requires a.rls == b.rls && a.policies == b.policies && role.TenantRole?
    ensures Visible(a, role, setting, rs) == Visible(b, role, setting, rs)
  {
    if rs != [] {
      SameAdmission(a, b, role, setting, rs[..|rs| - 1]);
    }
  }

  lemma {:induction false} RowsOfSound(rs: seq<Record>, t: TenantId)
    ensures forall r | r in RowsOf(rs, t) :: r in rs && r.tenant == t
  {
    if rs != [] {
      RowsOfSound(rs[..|rs| - 1], t);
    }
  }

  // ---- non-interference ----

  /** What a tenant owns, up to the shared serial ids and timestamps. */
  function Own(rs: seq<Record>, t: TenantId): seq<string> {
    Payloads(RowsOf(rs, t))
  }

  function Payloads(rs: seq<Record>): seq<string> {
    if rs == [] then [] else Payloads(rs[..|rs| - 1]) + [rs[|rs| - 1].payload]
  }

  lemma PayloadsAppend(rs: seq<Record>, r: Record)
    ensures Payloads(rs + [r]) == Payloads(rs) + [r.payload]
  {
    assert (rs + [r])[..|rs|] == rs;
  }

  lemma OwnAppend(rs: seq<Record>, r: Record, t: TenantId)
    ensures Own(rs + [r], t) == Own(rs, t) + if r.tenant == t then [r.payload] else []
  {
    RowsOfAppend(rs, r, t);
    PayloadsAppend(RowsOf(rs, t), r);
  }

  lemma {:induction false} NewestPayloads(rs: seq<Record>, n: nat)
    ensures Payloads(Newest(rs, n)) == Newest(Payloads(rs), n)
  {
    if rs != [] && n > 0 {
      var init, last := rs[..|rs| - 1], rs[|rs| - 1];
      NewestPayloads(init, n - 1);
      PayloadsPrepend(last, Newest(init, n - 1));
      assert Payloads(rs)[..|Payloads(rs)| - 1] == Payloads(init);
    }
  }

  lemma {:induction false} PayloadsPrepend(r: Record, rs: seq<Record>)
    ensures Payloads([r] + rs) == [r.payload] + Payloads(rs)
  {
    if rs == [] {
      assert [r] + rs == [] + [r];
      PayloadsAppend([], r);
    } else {
      var init, last := rs[..|rs| - 1], rs[|rs| - 1];
      PayloadsPrepend(r, init);
      assert [r] + rs == ([r] + init) + [last];
      PayloadsAppend([r] + init, last);
    }
  }

  /** An answer without the ids and timestamps it carries. */
  datatype Reading = Refused | Read(payloads: seq<string>) | Accepted | Changed(count: nat)

  function ReadingOf(a: Answer): Reading {
    match a
    case Denied => Refused
    case Rows(rs) => Read(Payloads(rs))
    case InsertedAs(_) => Accepted
    case Touched(n) => Changed(n)
  }

  /** All a tenant can learn from a database: its own contents and the administrative state. */
  predicate Alike(y: TenantId, a: Db, b: Db) {
    && a.table == b.table && a.rls == b.rls && a.forced == b.forced
    && a.roles == b.roles && a.policies == b.policies && Own(a.records, y) == Own(b.records, y)
  }

  /** Content-level effect of an UPDATE or DELETE on the rows in the session's window. */
  function Overwrite(ps: seq<string>, where: string -> bool, payload: string): seq<string> {
    if ps == [] then []
    else
      var last := ps[|ps| - 1];
      Overwrite(ps[..|ps| - 1], where, payload) + [if where(last) then payload else last]
  }

  function Discard(ps: seq<string>, where: string -> bool): seq<string> {
    if ps == [] then []
    else
      var init, last := Discard(ps[..|ps| - 1], where), ps[|ps| - 1];
      if where(last) then init else init + [last]
  }

  function Matches(ps: seq<string>, where: string -> bool): nat {
    if ps == [] then 0 else Matches(ps[..|ps| - 1], where) + if where(ps[|ps| - 1]) then 1 else 0
  }

  lemma ContentAppend(ps: seq<string>, p: string, where: string -> bool, payload: string)
    ensures Matches(ps + [p], where) == Matches(ps, where) + if where(p) then 1 else 0
    ensures Overwrite(ps + [p], where, payload) == Overwrite(ps, where, payload) + [if where(p) then payload else p]
    ensures Discard(ps + [p], where) == Discard(ps, where) + if where(p) then [] else [p]
  {
    assert (ps + [p])[..|ps|] == ps;
  }

  /** What y owns, one row at a time. */
  lemma OwnLast(rs: seq<Record>, y: TenantId)
    requires rs != []
    ensures Own(rs, y) == Own(rs[..|rs| - 1], y) + if rs[|rs| - 1].tenant == y then [rs[|rs| - 1].payload] else []
  {
    assert rs == rs[..|rs| - 1] + [rs[|rs| - 1]];
    OwnAppend(rs[..|rs| - 1], rs[|rs| - 1], y);
  }

  lemma HitsThroughWindow(db: Db, s: Session, r: Record, y: TenantId)
    requires Guarded(db) && (s.dml.Update? || s.dml.Delete?) && s.role == TenantRole(y)
    ensures Hits(db, s, r) <==> Window(db, s.role, s.setting, y) && r.tenant == y && s.dml.where(r.payload)
  {
  }

  lemma {:induction false} CountThroughWindow(db: Db, s: Session, rs: seq<Record>, y: TenantId)
    requires Guarded(db) && (s.dml.Update? || s.dml.Delete?) && s.role == TenantRole(y)
    ensures HitCount(db, s, rs) == if Window(db, s.role, s.setting, y) then Matches(Own(rs, y), s.dml.where) else 0
  {
    if rs != [] {
      var init, last := rs[..|rs| - 1], rs[|rs| - 1];
      hide Own, Matches, Guarded, Window, Hits;
      CountThroughWindow(db, s, init, y);
      HitsThroughWindow(db, s, last, y);
      OwnLast(rs, y);
      ContentAppend(Own(init, y), last.payload, s.dml.where, "");
    }
  }

  lemma {:induction false} RewriteThroughWindow(db: Db, s: Session, rs: seq<Record>, y: TenantId)
    requires Guarded(db) && s.dml.Update? && Window(db, s.role, s.setting, y)
    requires HitCount(db, s, rs) > 0 ==> s.dml.tenant == y
    ensures Own(Rewritten(db, s, rs), y) == Overwrite(Own(rs, y), s.dml.where, s.dml.payload)
  {
    if rs != [] {
      var init, last := rs[..|rs| - 1], rs[|rs| - 1];
      RewriteThroughWindow(db, s, init, y);
      OwnLast(rs, y);
      ContentAppend(Own(init, y), last.payload, s.dml.where, s.dml.payload);
      var changed := if Hits(db, s, last) then last.(payload := s.dml.payload, tenant := s.dml.tenant) else last;
      OwnAppend(Rewritten(db, s, init), changed, y);
      hide Own, Overwrite;
    }
  }

  lemma {:induction false} PruneThroughWindow(db: Db, s: Session, rs: seq<Record>, y: TenantId)
    requires Guarded(db) && s.dml.Delete? && Window(db, s.role, s.setting, y)
    ensures Own(Pruned(db, s, rs), y) == Discard(Own(rs, y), s.dml.where)
  {
    if rs != [] {
      var init, last := rs[..|rs| - 1], rs[|rs| - 1];
      PruneThroughWindow(db, s, init, y);
      OwnLast(rs, y);
      ContentAppend(Own(init, y), last.payload, s.dml.where, "");
      OwnAppend(Pruned(db, s, init), last, y);
      hide Own, Discard;
    }
  }

  lemma SelectAlike(y: TenantId, a: Db, b: Db, s: Session)
    requires Guarded(a) && Guarded(b) && Alike(y, a, b) && s.role == TenantRole(y) && s.dml.Select?
    ensures ReadingOf(RunSession(a, s).1) == ReadingOf(RunSession(b, s).1)
  {
    if s.dml.limit >= 0 {
      VisibleIsOwn(a, s.role, s.setting, a.records);
      VisibleIsOwn(b, s.role, s.setting, b.records);
      NewestPayloads(Visible(a, s.role, s.setting, a.records), s.dml.limit);
      NewestPayloads(Visible(b, s.role, s.setting, b.records), s.dml.limit);
    }
  }

  lemma InsertAlike(y: TenantId, a: Db, b: Db, s: Session)
    requires Guarded(a) && Guarded(b) && Alike(y, a, b) && s.role == TenantRole(y) && s.dml.Insert?
    ensures Alike(y, RunSession(a, s).0, RunSession(b, s).0)
    ensures ReadingOf(RunSession(a, s).1) == ReadingOf(RunSession(b, s).1)
  {
    var r := Record(a.nextId, s.dml.payload, s.dml.tenant);
    if !MayUseTable(a, s.role) || !MayDrawId(a, s.role) {
      assert RunSession(a, s) == (a, Denied) && RunSession(b, s) == (b, Denied);
    } else if Admits(a, s.role, s.setting, s.dml.tenant) {
      AlikeAfterInsert(y, a, b, r, b.nextId);
      assert RunSession(a, s).0.records == a.records + [r];
      assert RunSession(b, s).0.records == b.records + [r.(id := b.nextId)];
    } else {
      assert RunSession(a, s).0.records == a.records && RunSession(b, s).0.records == b.records;
    }
  }

  lemma AlikeAfterInsert(y: TenantId, a: Db, b: Db, r: Record, id: nat)
    requires Alike(y, a, b)
    ensures Own(a.records + [r], y) == Own(b.records + [r.(id := id)], y)
  {
    OwnAppend(a.records, r, y);
    OwnAppend(b.records, r.(id := id), y);
  }

  /** What an UPDATE or DELETE of y does to y's contents depends on those contents alone. */
  lemma ChangeThroughWindow(y: TenantId, db: Db, s: Session)
    requires Guarded(db) && s.role == TenantRole(y) && (s.dml.Update? || s.dml.Delete?)
    requires s.dml.Update? && HitCount(db, s, db.records) > 0 ==> Admits(db, s.role, s.setting, s.dml.tenant)
    ensures Own(if s.dml.Update? then Rewritten(db, s, db.records) else Pruned(db, s, db.records), y)
         == if !Window(db, s.role, s.setting, y) then Own(db.records, y)
            else if s.dml.Update? then Overwrite(Own(db.records, y), s.dml.where, s.dml.payload)
            else Discard(Own(db.records, y), s.dml.where)
  {
    if s.dml.Update? {
      if Window(db, s.role, s.setting, y) {
        RewriteThroughWindow(db, s, db.records, y);
      } else {
        RewriteConfined(db, s, db.records, y);
      }
    } else if Window(db, s.role, s.setting, y) {
      PruneThroughWindow(db, s, db.records, y);
    } else {
      PruneConfined(db, s, db.records, y);
    }
  }

  lemma ChangeAlike(y: TenantId, a: Db, b: Db, s: Session)
    requires Guarded(a) && Guarded(b) && Alike(y, a, b) && s.role == TenantRole(y) && (s.dml.Update? || s.dml.Delete?)
    ensures Alike(y, RunSession(a, s).0, RunSession(b, s).0)
    ensures ReadingOf(RunSession(a, s).1) == ReadingOf(RunSession(b, s).1)
  {
    CountThroughWindow(a, s, a.records, y);
    CountThroughWindow(b, s, b.records, y);
    if s.dml.Update? && HitCount(a, s, a.records) > 0 && !Admits(a, s.role, s.setting, s.dml.tenant) {
      // refused on both sides
    } else {
      ChangeThroughWindow(y, a, s);
      ChangeThroughWindow(y, b, s);
    }
  }

  /** A session of y behaves the same, contents and answer, on databases y cannot tell apart. */
  lemma OwnSessionAlike(y: TenantId, a: Db, b: Db, s: Session)
    requires Guarded(a) && Guarded(b) && Alike(y, a, b) && s.role == TenantRole(y)
    ensures Alike(y, RunSession(a, s).0, RunSession(b, s).0)
    ensures ReadingOf(RunSession(a, s).1) == ReadingOf(RunSession(b, s).1)
  {
    match s.dml
    case Select(_) => SelectAlike(y, a, b, s);
    case Insert(_, _) => InsertAlike(y, a, b, s);
    case Update(_, _, _) => ChangeAlike(y, a, b, s);
    case Delete(_) => ChangeAlike(y, a, b, s);
  }

  lemma ForeignSessionAlike(y: TenantId, db: Db, s: Session)
    requires Guarded(db) && s.role != TenantRole(y)
    ensures Alike(y, RunSession(db, s).0, db)
  {
    SessionConfined(db, s, y);
  }

  /** What others do leaves y's view where it was. */
  lemma ForeignEventAlike(y: TenantId, a: Db, b: Db, s: Session)
    requires Guarded(a) && Alike(y, a, b) && s.role != TenantRole(y)
    ensures Alike(y, Exec(a, Client(s)), b)
  {
    ForeignSessionAlike(y, a, s);
    hide RunSession, Own;
  }

  lemma AdminAlike(y: TenantId, a: Db, b: Db, sql: Sql)
    requires Alike(y, a, b)
    ensures Alike(y, Exec(a, Admin(sql)), Exec(b, Admin(sql)))
  {
    assert Runs(a, sql) == Runs(b, sql);
    hide Own;
  }

  lemma EventAlike(y: TenantId, a: Db, b: Db, e: Event)
    requires Guarded(a) && Guarded(b) && Alike(y, a, b) && Honest(e)
    ensures Alike(y, Exec(a, e), Exec(b, e))
  {
    match e
    case Admin(sql) => AdminAlike(y, a, b, sql);
    case Client(s) =>
      if s.role == TenantRole(y) {
        OwnSessionAlike(y, a, b, s);
      } else {
        ForeignSessionAlike(y, a, s);
        ForeignSessionAlike(y, b, s);
      }
  }

  /** Everything the sessions of tenant y are told along a trace. */
  function Readings(y: TenantId, db: Db, es: seq<Event>): seq<Reading>
    decreases |es|
  {
    if es == [] then []
    else
      (if es[0].Client? && es[0].session.role == TenantRole(y)
       then [ReadingOf(RunSession(db, es[0].session).1)] else [])
      + Readings(y, Exec(db, es[0]), es[1..])
  }

  /** The trace without any statement of tenant x's role. */
  function Purge(x: TenantId, es: seq<Event>): seq<Event>
    decreases |es|
  {
    if es == [] then []
    else (if es[0].Client? && es[0].session.role == TenantRole(x) then [] else [es[0]]) + Purge(x, es[1..])
  }

  lemma GuardHolds(db: Db, e: Event)
    requires Guarded(db) && Honest(e)
    ensures Guarded(Exec(db, e))
  {
    GuardSurvives(db, [e]);
  }

  lemma {:induction false} PurgedReadings(x: TenantId, y: TenantId, a: Db, b: Db, es: seq<Event>)
    requires x != y && Guarded(a) && Guarded(b) && Alike(y, a, b) && forall e | e in es :: Honest(e)
    ensures Readings(y, a, es) == Readings(y, b, Purge(x, es))
    decreases |es|
  {
    hide Alike, RunSession, ReadingOf, Guarded, Honest;
    if es != [] {
      var e, rest := es[0], es[1..];
      assert e in es;
      GuardHolds(a, e);
      GuardHolds(b, e);
      if e.Client? && e.session.role == TenantRole(x) {
        ForeignEventAlike(y, a, b, e.session);
        PurgedReadings(x, y, Exec(a, e), b, rest);
        assert Purge(x, es) == Purge(x, rest);
      } else {
        EventAlike(y, a, b, e);
        PurgedReadings(x, y, Exec(a, e), Exec(b, e), rest);
        assert Purge(x, es)[0] == e && Purge(x, es)[1..] == Purge(x, rest);
        if e.Client? && e.session.role == TenantRole(y) {
          OwnSessionAlike(y, a, b, e.session);
        }
      }
    }
  }

  /** Tenant non-interference: for every trace of sessions, migrate and drop-role statements after the
      first completed migration, what y is told is what it would be told had tenant x never spoken. */
  lemma NonInterference(x: TenantId, y: TenantId, db: Db, es: seq<Event>)
    requires x != y && Guarded(db) && forall e | e in es :: Honest(e)
    ensures Readings(y, db, es) == Readings(y, db, Purge(x, es))
  {
    PurgedReadings(x, y, db, db, es);
  }
}
