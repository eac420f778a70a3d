/** What a tenant's session is told and what it does to the tenant's own rows, row by row. */
module Sessions {
  import opened Names
  import opened Postgres
  import opened Isolation

  /** `out` is what `keep` leaves of `rs`, in order; `at` are the places it came from. */
  ghost predicate Keeps(rs: seq<Record>, keep: Record -> bool, at: seq<nat>, out: seq<Record>) {
    && |at| == |out|
    && (forall i | 0 <= i < |at| :: at[i] < |rs| && out[i] == rs[at[i]])
    && (forall i, j | 0 <= i < j < |at| :: at[i] < at[j])
    && (forall k | 0 <= k < |rs| :: keep(rs[k]) <==> k in at)
  }

  lemma KeepsLast(rs: seq<Record>, keep: Record -> bool, at: seq<nat>, out: seq<Record>)
    requires rs != [] && Keeps(rs[..|rs| - 1], keep, at, out)
    ensures var last := rs[|rs| - 1];
            if keep(last) then Keeps(rs, keep, at + [|rs| - 1], out + [last]) else Keeps(rs, keep, at, out)
  {
    var init, n := rs[..|rs| - 1], |rs| - 1;
    forall k | 0 <= k < n ensures rs[k] == init[k] {
    }
    forall i | 0 <= i < |at| ensures rs[at[i]] == out[i] && at[i] in at {
      assert init[at[i]] == out[i];
    }
  }

  /** A tenant's rows are the rows that carry its id, each once, in table order. */
  lemma {:induction false} RowsOfKeeps(rs: seq<Record>, t: TenantId) returns (at: seq<nat>)
    ensures Keeps(rs, (r: Record) => r.tenant == t, at, RowsOf(rs, t))
  {
    at := [];
    if rs != [] {
      at := RowsOfKeeps(rs[..|rs| - 1], t);
      KeepsLast(rs, (r: Record) => r.tenant == t, at, RowsOf(rs[..|rs| - 1], t));
      if rs[|rs| - 1].tenant == t {
        at := at + [|rs| - 1];
      }
    }
  }

  /** x's role holds the table grant. */
  predicate MaySpeak(db: Db, s: Session, x: TenantId) {
    s.role == TenantRole(x) && s.role in db.roles && db.roles[s.role].table
  }

  /** The setting matches and x's policy stands. */
  predicate Looks(db: Db, s: Session, x: TenantId) { s.setting == Some(x) && x in db.policies }

  lemma {:induction false} NewestAt<T>(rs: seq<T>, n: nat)
    ensures |Newest(rs, n)| == if n < |rs| then n else |rs|
    ensures forall i | 0 <= i < |Newest(rs, n)| :: Newest(rs, n)[i] == rs[|rs| - 1 - i]
  {
    if rs != [] && n > 0 {
      NewestAt(rs[..|rs| - 1], n - 1);
    }
  }

  /** The newest `limit` of the rows, the newest first, or all of them. */
  predicate ToldNewest(own: seq<Record>, limit: int, answer: Answer) {
    if limit < 0 then answer == Denied
    else
      && answer.Rows? && |answer.records| == (if limit < |own| then limit else |own|)
      && forall i | 0 <= i < |answer.records| :: answer.records[i] == own[|own| - 1 - i]
  }

  /** The rows a session of x has in sight. */
  function InSight(db: Db, s: Session, x: TenantId): seq<Record> {
    if Looks(db, s, x) then RowsOf(db.records, x) else []
  }

  /** A select of limit n is told the newest n of the tenant's own rows, the newest first, or all of them; without
      matching setting and policy it is told of none. */
  lemma SelectAnswers(db: Db, s: Session, x: TenantId)
    requires Guarded(db) && MaySpeak(db, s, x) && s.dml.Select?
    ensures RunSession(db, s).0 == db && ToldNewest(InSight(db, s, x), s.dml.limit, RunSession(db, s).1)
  {
    VisibleIsOwn(db, s.role, s.setting, db.records);
    if s.dml.limit >= 0 {
      NewestAt(InSight(db, s, x), s.dml.limit);
    }
  }

  /** An insert is accepted exactly for the tenant's own id, under the matching setting and with the sequence grant.
      Then the table and the tenant's own rows are longer by exactly that record; else no row changes. */
  lemma InsertAnswers(db: Db, s: Session, x: TenantId)
    requires Guarded(db) && MaySpeak(db, s, x) && s.dml.Insert?
    ensures var (after, answer) := RunSession(db, s);
            var record := Record(db.nextId, s.dml.payload, x);
            && after == db.(records := after.records, nextId := after.nextId)
            && if Looks(db, s, x) && s.dml.tenant == x && db.roles[s.role].sequence then
                 && answer == InsertedAs(db.nextId) && after.nextId == db.nextId + 1
                 && after.records == db.records + [record]
                 && RowsOf(after.records, x) == RowsOf(db.records, x) + [record]
               else answer == Denied && after.records == db.records
  {
    RowsOfAppend(db.records, Record(db.nextId, s.dml.payload, x), x);
  }

  /** The places of the rows a statement's WHERE clause picks. */
  function Picked(rs: seq<Record>, where: string -> bool): set<int> {
    set i | 0 <= i < |rs| && where(rs[i].payload)
  }

  lemma PickedLast(rs: seq<Record>, where: string -> bool)
    requires rs != []
    ensures |Picked(rs, where)| == |Picked(rs[..|rs| - 1], where)| + if where(rs[|rs| - 1].payload) then 1 else 0
  {
    var init, n := rs[..|rs| - 1], |rs| - 1;
    forall i | 0 <= i < n ensures rs[i] == init[i] {
    }
    assert Picked(rs, where) == Picked(init, where) + if where(rs[n].payload) then {n} else {};
  }

  lemma {:induction false} HitsArePicked(db: Db, s: Session, rs: seq<Record>, x: TenantId)
    requires Guarded(db) && s.role == TenantRole(x) && (s.dml.Update? || s.dml.Delete?)
    ensures HitCount(db, s, rs) == if Looks(db, s, x) then |Picked(RowsOf(rs, x), s.dml.where)| else 0
  {
    if rs != [] {
      var init, last := rs[..|rs| - 1], rs[|rs| - 1];
      HitsArePicked(db, s, init, x);
      HitsThroughWindow(db, s, last, x);
      if last.tenant == x {
        PickedLast(RowsOf(rs, x), s.dml.where);
        assert RowsOf(rs, x)[..|RowsOf(rs, x)| - 1] == RowsOf(init, x);
      }
    }
  }

  /** The row is the tenant's own, in sight, and picked by the WHERE clause. */
  predicate Meant(db: Db, s: Session, x: TenantId, r: Record)
    requires s.dml.Update? || s.dml.Delete?
  {
    Looks(db, s, x) && r.tenant == x && s.dml.where(r.payload)
  }

  /** The rewritten table, place by place. */
  lemma {:induction false} RewrittenAt(db: Db, s: Session, rs: seq<Record>, x: TenantId)
    requires Guarded(db) && s.role == TenantRole(x) && s.dml.Update?
    ensures var out := Rewritten(db, s, rs);
            && |out| == |rs|
            && forall i | 0 <= i < |rs| ::
                 out[i] == if Meant(db, s, x, rs[i])
                           then Record(rs[i].id, s.dml.payload, s.dml.tenant) else rs[i]
  {
    if rs != [] {
      RewrittenAt(db, s, rs[..|rs| - 1], x);
      HitsThroughWindow(db, s, rs[|rs| - 1], x);
    }
  }

  /** An update that would move rows to another tenant is refused. Any other rewrites, in place, exactly the own rows
      that its WHERE clause picks, counts them, and leaves everything else as it was. */
  lemma UpdateAnswers(db: Db, s: Session, x: TenantId)
    requires Guarded(db) && MaySpeak(db, s, x) && s.dml.Update?
    ensures var own := InSight(db, s, x);
            var (after, answer) := RunSession(db, s);
            && after == db.(records := after.records)
            && if s.dml.tenant != x && Picked(own, s.dml.where) != {} then answer == Denied && after == db
               else && answer == Touched(|Picked(own, s.dml.where)|) && |after.records| == |db.records|
                    && forall i | 0 <= i < |db.records| ::
                         after.records[i] == if Meant(db, s, x, db.records[i])
                                             then Record(db.records[i].id, s.dml.payload, x) else db.records[i]
  {
    var own := InSight(db, s, x);
    HitsArePicked(db, s, db.records, x);
    assert |Picked(own, s.dml.where)| == HitCount(db, s, db.records);
    RewrittenAt(db, s, db.records, x);
    if s.dml.tenant != x && Picked(own, s.dml.where) == {} {
      NothingMeant(db, s, db.records, x);
    }
  }

  lemma {:induction false} NothingMeant(db: Db, s: Session, rs: seq<Record>, x: TenantId)
    requires (s.dml.Update? || s.dml.Delete?)
    requires Picked(if Looks(db, s, x) then RowsOf(rs, x) else [], s.dml.where) == {}
    ensures forall i | 0 <= i < |rs| :: !Meant(db, s, x, rs[i])
  {
    if rs != [] && Looks(db, s, x) {
      var init, own := rs[..|rs| - 1], RowsOf(rs, x);
      if rs[|rs| - 1].tenant == x {
        assert own[..|own| - 1] == RowsOf(init, x);
        PickedLast(own, s.dml.where);
      }
      NothingMeant(db, s, init, x);
    }
  }

  /** The pruned table is the rest of the old one, in order. */
  lemma {:induction false} PrunedKeeps(db: Db, s: Session, rs: seq<Record>, x: TenantId) returns (at: seq<nat>)
    requires Guarded(db) && s.role == TenantRole(x) && s.dml.Delete?
    ensures Keeps(rs, (r: Record) => !Meant(db, s, x, r), at,
                  Pruned(db, s, rs))
  {
    at := [];
    if rs != [] {
      var init, last := rs[..|rs| - 1], rs[|rs| - 1];
      at := PrunedKeeps(db, s, init, x);
      KeepsLast(rs, (r: Record) => !Meant(db, s, x, r), at,
                Pruned(db, s, init));
      HitsThroughWindow(db, s, last, x);
      if !Hits(db, s, last) {
        at := at + [|rs| - 1];
      }
    }
  }

  /** A delete removes exactly the own rows that its WHERE clause picks, counts them, and leaves the others in order. */
  lemma DeleteAnswers(db: Db, s: Session, x: TenantId) returns (at: seq<nat>)
    requires Guarded(db) && MaySpeak(db, s, x) && s.dml.Delete?
    ensures var own := InSight(db, s, x);
            var (after, answer) := RunSession(db, s);
            && after == db.(records := after.records) && answer == Touched(|Picked(own, s.dml.where)|)
            && Keeps(db.records, (r: Record) => !Meant(db, s, x, r), at, after.records)
  {
    HitsArePicked(db, s, db.records, x);
    at := PrunedKeeps(db, s, db.records, x);
  }

  /** Without the table grant nothing is told and nothing changes. */
  lemma UngrantedIsDenied(db: Db, s: Session, x: TenantId)
    requires s.role == TenantRole(x) && !MaySpeak(db, s, x)
    ensures RunSession(db, s) == (db, Denied)
  {
  }

  /** Row security is what confines a granted tenant: with it, no select is ever told a foreign row, whatever the table
      holds; without it, some select is. */
  lemma ForeignRowsIffNoRowSecurity(db: Db, x: TenantId)
    requires OwnPolicies(db) && db.table && TenantRole(x) in db.roles && db.roles[TenantRole(x)].table
    ensures db.rls <==>
              forall rs, setting, limit ::
                var answer := RunSession(db.(records := rs), Session(TenantRole(x), setting, Select(limit))).1;
                answer.Rows? ==> forall r | r in answer.records :: r.tenant == x
  {
    if db.rls {
      forall rs, setting, limit
        ensures var answer := RunSession(db.(records := rs), Session(TenantRole(x), setting, Select(limit))).1;
                answer.Rows? ==> forall r | r in answer.records :: r.tenant == x
      {
        if limit >= 0 {
          NewestAt(Visible(db.(records := rs), TenantRole(x), setting, rs), limit);
          SameAdmission(db.(records := rs), db, TenantRole(x), setting, rs);
          ViewsSafeIffRowSecurity(db, x);
        }
      }
    } else {
      var stranger := [Record(0, "", x + "0")];
      var now := db.(records := stranger);
      BypassSeesAll(now, TenantRole(x), None, stranger);
      NewestAt(stranger, 1);
      var answer := RunSession(now, Session(TenantRole(x), None, Select(1))).1;
      assert answer.records[0] == stranger[0] && |x + "0"| != |x|;
    }
  }
}
