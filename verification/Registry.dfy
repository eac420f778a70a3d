/** The SQLite tenant registry: partial updates, versions, inferred defaults. */
module Registry {
  import opened Names
  import opened Observe
  import opened Retry

  datatype Status =
    | PROVISIONING | ACTIVE | SUSPENDED | DELETING | DELETE_FAILED | FAILED | DRIFT
    | OtherStatus(text: string)   // legacy rows are imported with whatever status they carry

  /** The column stores any text; only the first three values are legal. */
  datatype Desired = WantActive | WantSuspended | WantGone | WantNull | WantOther(text: string)

  predicate LegalDesired(d: Desired) { d.WantActive? || d.WantSuspended? || d.WantGone? }

  datatype Owner = Unowned | ControlPlane | OpenTofu | OtherOwner(name: string)

  datatype DeleteStep =
    | Started | AccessDisabled | DbRevoked | K8sDeleted | IamDeleted | SecretDeleted
    | OtherStep(text: string)

  /** The error column: an exception's text or a failed contract check's reason. */
  datatype Problem = Exception(failure: Failure) | ContractGap(reason: string) | OtherProblem(text: string)

  datatype Row = Row(
    desired: Desired, status: Status, tier: string, endpoint: Option<string>, pathPrefix: Option<string>,
    owner: Owner, secretName: Option<string>, irsaRoleArn: Option<string>,
    error: Option<Problem>, deleteStep: Option<DeleteStep>, observed: Option<Observed>,
    version: nat, createdAt: nat, updatedAt: nat)

  type Rows = map<TenantId, Row>

  /** A keyword argument that was passed, or not. */
  datatype Field<+T> = Keep | Set(value: T)
  {
    function Or(prior: T): T { if Set? then value else prior }
  }

  datatype Patch = Patch(
    desired: Field<Desired>, status: Field<Status>, tier: Field<string>,
    endpoint: Field<Option<string>>, pathPrefix: Field<Option<string>>,
    owner: Field<Owner>, secretName: Field<Option<string>>, irsaRoleArn: Field<Option<string>>,
    error: Field<Option<Problem>>, deleteStep: Field<Option<DeleteStep>>, observed: Field<Option<Observed>>)

  const NO_CHANGE := Patch(Keep, Keep, Keep, Keep, Keep, Keep, Keep, Keep, Keep, Keep, Keep)

  function Updated(row: Row, p: Patch, now: nat): Row {
    Row(p.desired.Or(row.desired), p.status.Or(row.status), p.tier.Or(row.tier),
        p.endpoint.Or(row.endpoint), p.pathPrefix.Or(row.pathPrefix),
        p.owner.Or(row.owner), p.secretName.Or(row.secretName), p.irsaRoleArn.Or(row.irsaRoleArn),
        p.error.Or(row.error), p.deleteStep.Or(row.deleteStep), p.observed.Or(row.observed),
        row.version + 1, row.createdAt, now)
  }

  function InsertedStatus(p: Patch): Status {
    if p.status.Keep? || p.status.value == OtherStatus("") then PROVISIONING else p.status.value
  }

  function DesiredFor(s: Status): Desired {
    match s
    case SUSPENDED => WantSuspended
    case DELETING => WantGone
    case DELETE_FAILED => WantGone
    case _ => WantActive
  }

  /** Inferred only when omitted: a bad value is never silently rewritten. */
  function InsertedDesired(p: Patch): Desired {
    if p.desired.Keep? || p.desired.value.WantNull? then DesiredFor(InsertedStatus(p)) else p.desired.value
  }

  function Inserted(p: Patch, now: nat): Row {
    Row(InsertedDesired(p), InsertedStatus(p),
        if p.tier.Keep? || p.tier.value == "" then "standard" else p.tier.value,
        p.endpoint.Or(None), p.pathPrefix.Or(None), p.owner.Or(Unowned), p.secretName.Or(None),
        p.irsaRoleArn.Or(None), p.error.Or(None), p.deleteStep.Or(None), p.observed.Or(None), 1, now, now)
  }

  function Written(rows: Rows, id: TenantId, p: Patch, now: nat): Row {
    if id in rows then Updated(rows[id], p, now) else Inserted(p, now)
  }

  /** The write goes through; `expected` only guards rows that exist. */
  predicate Accepts(rows: Rows, id: TenantId, p: Patch, expected: Option<int>) {
    && ValidId(id)
    && (id in rows && expected.Some? ==> rows[id].version == expected.value)
    && LegalDesired(Written(rows, id, p, 0).desired)
  }

  function Put(rows: Rows, id: TenantId, p: Patch, now: nat): Rows {
    rows[id := Written(rows, id, p, now)]
  }

  function Without<K, V>(m: map<K, V>, k: K): map<K, V> { m - {k} }

  lemma SameElsewhere<K, V>(a: map<K, V>, b: map<K, V>, k: K)
    requires Without(a, k) == Without(b, k)
    ensures forall j | j != k :: (j in a <==> j in b) && (j in a ==> a[j] == b[j])
  {
    forall j | j != k ensures (j in a <==> j in b) && (j in a ==> a[j] == b[j]) {
      assert j in Without(a, k) <==> j in Without(b, k);
      assert j in a ==> Without(a, k)[j] == Without(b, k)[j];
    }
  }

  /** An update is partial: what is passed is written, and what is not stays; the version counts it. */
  lemma UpdateIsPartial(row: Row, p: Patch, now: nat)
    ensures var after := Updated(row, p, now);
            && after.desired == (match p.desired case Keep => row.desired case Set(v) => v)
            && after.status == (match p.status case Keep => row.status case Set(v) => v)
            && after.tier == (match p.tier case Keep => row.tier case Set(v) => v)
            && after.endpoint == (match p.endpoint case Keep => row.endpoint case Set(v) => v)
            && after.pathPrefix == (match p.pathPrefix case Keep => row.pathPrefix case Set(v) => v)
            && after.owner == (match p.owner case Keep => row.owner case Set(v) => v)
            && after.secretName == (match p.secretName case Keep => row.secretName case Set(v) => v)
            && after.irsaRoleArn == (match p.irsaRoleArn case Keep => row.irsaRoleArn case Set(v) => v)
            && after.error == (match p.error case Keep => row.error case Set(v) => v)
            && after.deleteStep == (match p.deleteStep case Keep => row.deleteStep case Set(v) => v)
            && after.observed == (match p.observed case Keep => row.observed case Set(v) => v)
            && after.version == row.version + 1 && after.createdAt == row.createdAt && after.updatedAt == now
  {
  }

  /** A row that is not there yet starts at version 1, as PROVISIONING and "standard" unless told otherwise, and its
      wish follows from its status unless told otherwise. */
  lemma InsertFillsIn(rows: Rows, id: TenantId, p: Patch, now: nat)
    requires id !in rows && Accepts(rows, id, p, None)
    ensures var row := Put(rows, id, p, now)[id];
            && row.version == 1 && row.createdAt == now && row.updatedAt == now
            && row.status == (if p.status.Keep? || p.status == Set(OtherStatus("")) then PROVISIONING
                              else p.status.value)
            && row.tier == (if p.tier.Keep? || p.tier == Set("") then "standard" else p.tier.value)
            && (p.desired.Set? && LegalDesired(p.desired.value) ==> row.desired == p.desired.value)
            && (!(p.desired.Set? && LegalDesired(p.desired.value)) ==>
                  && (row.desired == WantSuspended <==> row.status == SUSPENDED)
                  && (row.desired == WantGone <==> row.status == DELETING || row.status == DELETE_FAILED)
                  && LegalDesired(row.desired))
            && row.endpoint == (if p.endpoint.Set? then p.endpoint.value else None)
            && row.pathPrefix == (if p.pathPrefix.Set? then p.pathPrefix.value else None)
            && row.owner == (if p.owner.Set? then p.owner.value else Unowned)
            && row.secretName == (if p.secretName.Set? then p.secretName.value else None)
            && row.irsaRoleArn == (if p.irsaRoleArn.Set? then p.irsaRoleArn.value else None)
            && row.error == (if p.error.Set? then p.error.value else None)
            && row.deleteStep == (if p.deleteStep.Set? then p.deleteStep.value else None)
            && row.observed == (if p.observed.Set? then p.observed.value else None)
  {
  }

  // ---- whole histories of calls ----

  datatype Call =
    | Write(id: TenantId, patch: Patch, expected: Option<int>, now: nat)
    | Remove(id: TenantId)

  function After(rows: Rows, c: Call): Rows {
    match c
    case Write(id, p, e, now) => if Accepts(rows, id, p, e) then Put(rows, id, p, now) else rows
    case Remove(id) => Without(rows, id)
  }

  function Replay(rows: Rows, calls: seq<Call>): Rows
    decreases |calls|
  {
    if calls == [] then rows else Replay(After(rows, calls[0]), calls[1..])
  }

  predicate Updates(rows: Rows, c: Call, id: TenantId) {
    c.Write? && c.id == id && id in rows && Accepts(rows, id, c.patch, c.expected)
  }

  /** How many calls successfully updated the row `id`. */
  function UpdateCount(rows: Rows, calls: seq<Call>, id: TenantId): nat
    decreases |calls|
  {
    if calls == [] then 0
    else (if Updates(rows, calls[0], id) then 1 else 0) + UpdateCount(After(rows, calls[0]), calls[1..], id)
  }

  /** How many updates of `id` carrying `expected_version=v` succeeded. */
  function Winners(rows: Rows, calls: seq<Call>, id: TenantId, v: int): nat
    decreases |calls|
  {
    if calls == [] then 0
    else (if Updates(rows, calls[0], id) && calls[0].expected == Some(v) then 1 else 0)
         + Winners(After(rows, calls[0]), calls[1..], id, v)
  }

  /** No call removes the row, so all calls see one incarnation of it. */
  predicate SameIncarnation(calls: seq<Call>, id: TenantId) {
    Remove(id) !in calls
  }

  /** Within one incarnation the version counts the successful updates and created_at stands still. */
  lemma {:induction false} VersionCountsUpdates(rows: Rows, calls: seq<Call>, id: TenantId)
    requires id in rows && SameIncarnation(calls, id)
    ensures id in Replay(rows, calls)
    ensures Replay(rows, calls)[id].version == rows[id].version + UpdateCount(rows, calls, id)
    ensures Replay(rows, calls)[id].createdAt == rows[id].createdAt
    decreases |calls|
  {
    if calls != [] {
      assert calls[0] in calls;
      VersionCountsUpdates(After(rows, calls[0]), calls[1..], id);
    }
  }

  /** Of all updates that carry the same expected version, at most one succeeds;
      none does once the row has moved past that version. */
  lemma {:induction false} AtMostOneWinner(rows: Rows, calls: seq<Call>, id: TenantId, v: int)
    requires id in rows && SameIncarnation(calls, id)
    ensures Winners(rows, calls, id, v) <= 1
    ensures rows[id].version > v ==> Winners(rows, calls, id, v) == 0
    decreases |calls|
  {
    if calls != [] {
      assert calls[0] in calls;
      AtMostOneWinner(After(rows, calls[0]), calls[1..], id, v);
    }
  }

  /** How many calls created the row `id` anew. */
  function Recreations(rows: Rows, calls: seq<Call>, id: TenantId): nat
    decreases |calls|
  {
    if calls == [] then 0
    else (if id !in rows && id in After(rows, calls[0]) then 1 else 0)
         + Recreations(After(rows, calls[0]), calls[1..], id)
  }

  /** Over any history at all: at most one winner for the row there was, and one for every time it was created anew. */
  lemma {:induction false} WinnersPerIncarnation(rows: Rows, calls: seq<Call>, id: TenantId, v: int)
    ensures Winners(rows, calls, id, v)
         <= (if id in rows && rows[id].version <= v then 1 else 0) + Recreations(rows, calls, id)
    decreases |calls|
  {
    if calls != [] {
      WinnersPerIncarnation(After(rows, calls[0]), calls[1..], id, v);
    }
  }

  /** The guarantee ends with the incarnation, and the bound is met: after a delete and a re-create,
      the same expected version wins a second time. */
  lemma RecreationResetsVersions(rows: Rows, id: TenantId, p: Patch, now: nat)
    requires id in rows && rows[id].version == 1 && Accepts(rows, id, p, Some(1))
    requires Accepts(Without(rows, id), id, p, None) && LegalDesired(Updated(Inserted(p, now), p, now).desired)
    ensures var w := Write(id, p, Some(1), now);
            Winners(rows, [w, Remove(id), Write(id, p, None, now), w], id, 1) == 2
  {
    var w := Write(id, p, Some(1), now);
    var ins := Write(id, p, None, now);
    var r1 := After(rows, w);
    var r2 := After(r1, Remove(id));
    var r3 := After(r2, ins);
    assert r2 == Without(rows, id);
    var all := [w, Remove(id), ins, w];
    assert all[1..] == [Remove(id), ins, w];
    assert all[1..][1..] == [ins, w];
    assert all[1..][1..][1..] == [w];
    assert [w][1..] == [];
    assert Winners(r3, [w], id, 1) == 1;
    assert Winners(r2, [ins, w], id, 1) == 1;
    assert Winners(r1, [Remove(id), ins, w], id, 1) == 1;
  }

  // ---- the table itself ----

  datatype Stored = Stored(row: Row) | Rejected(error: Failure)

  /** A legacy JSON record, already read from disk. */
  datatype Legacy = Legacy(id: string, status: Option<Status>, row: Row)

  function LegacyRow(l: Legacy): Row {
    var status := if l.status.None? || l.status.value == OtherStatus("") then ACTIVE else l.status.value;
    l.row.(status := status, desired := DesiredFor(status), observed := None, version := 1,
           tier := if l.row.tier == "" then "standard" else l.row.tier)
  }

  /** INSERT OR IGNORE, record by record, skipping ids that do not validate. */
  function Imported(rows: Rows, records: seq<Legacy>): Rows
    decreases |records|
  {
    if records == [] then rows
    else
      var l := records[0];
      Imported(if ValidId(l.id) && l.id !in rows then rows[l.id := LegacyRow(l)] else rows, records[1..])
  }

  /** The first record of a valid id makes its row, the later ones nothing. Its status survives, if it has one, with the
      wish that goes with it; all its other columns survive too, but for the observation. */
  lemma {:induction false} FirstRecordCounts(rows: Rows, records: seq<Legacy>, i: nat)
    requires i < |records| && ValidId(records[i].id) && records[i].id !in rows
    requires forall k | 0 <= k < i :: records[k].id != records[i].id
    ensures var l := records[i];
            && l.id in Imported(rows, records)
            && var row := Imported(rows, records)[l.id];
               && row.status == (if l.status.None? || l.status == Some(OtherStatus("")) then ACTIVE
                                 else l.status.value)
               && (row.desired == WantSuspended <==> row.status == SUSPENDED)
               && (row.desired == WantGone <==> row.status == DELETING || row.status == DELETE_FAILED)
               && LegalDesired(row.desired)
               && row.tier == (if l.row.tier == "" then "standard" else l.row.tier)
               && row == l.row.(status := row.status, desired := row.desired, tier := row.tier, observed := None,
                                version := 1)
    decreases |records|
  {
    var rest := if ValidId(records[0].id) && records[0].id !in rows then rows[records[0].id := LegacyRow(records[0])]
                else rows;
    if i > 0 {
      assert records[0].id != records[i].id && records[1..][i - 1] == records[i];
      forall k | 0 <= k < i - 1 ensures records[1..][k].id != records[i].id {
        assert records[1..][k] == records[k + 1];
      }
      FirstRecordCounts(rest, records[1..], i - 1);
    } else {
      ImportKeepsRows(rest, records[1..], records[0].id);
    }
  }

  lemma {:induction false} ImportKeepsRows(rows: Rows, records: seq<Legacy>, id: TenantId)
    requires id in rows
    ensures id in Imported(rows, records) && Imported(rows, records)[id] == rows[id]
    decreases |records|
  {
    if records != [] {
      var l := records[0];
      ImportKeepsRows(if ValidId(l.id) && l.id !in rows then rows[l.id := LegacyRow(l)] else rows, records[1..], id);
    }
  }

  class TenantStore {
    var rows: Rows

    constructor ()
      ensures rows == map[]
    {
      rows := map[];
    }

    method Upsert(id: TenantId, p: Patch, expected: Option<int>, now: nat) returns (r: Stored)
      modifies this
      ensures r.Stored? <==> Accepts(old(rows), id, p, expected)
      ensures r.Stored? ==> rows == Put(old(rows), id, p, now) && r.row == rows[id]
      ensures r.Rejected? ==> rows == old(rows)
      ensures r.Rejected? ==>
                r.error == if ValidId(id) && id in rows && expected.Some? && rows[id].version != expected.value
                           then ConflictError else ValidationError
    {
      if !ValidId(id) {
        return Rejected(ValidationError);
      }
      if id in rows {
        var current := rows[id];
        if expected.Some? && current.version != expected.value {
          return Rejected(ConflictError);
        }
        current := Updated(current, p, now);
        if !LegalDesired(current.desired) {
          return Rejected(ValidationError);
        }
        rows := rows[id := current];
        return Stored(current);
      }
      var status := if p.status.Keep? || p.status.value == OtherStatus("") then PROVISIONING else p.status.value;
      var desired: Desired;
      if p.desired.Keep? || p.desired.value == WantNull {
        if status == SUSPENDED {
          desired := WantSuspended;
        } else if status == DELETING || status == DELETE_FAILED {
          desired := WantGone;
        } else {
          desired := WantActive;
        }
      } else if !LegalDesired(p.desired.value) {
        return Rejected(ValidationError);
      } else {
        desired := p.desired.value;
      }
      var item := Inserted(p, now).(desired := desired, status := status);
      rows := rows[id := item];
      return Stored(item);
    }

    method Delete(id: TenantId) returns (existed: bool)
      modifies this
      ensures existed <==> id in old(rows)
      ensures rows == Without(old(rows), id)
    {
      existed := id in rows;
      rows := rows - {id};
    }

    /** Runs once at start-up and leaves a registry that already has rows alone. */
    method ImportLegacyJson(records: seq<Legacy>)
      modifies this
      ensures rows == if old(rows) == map[] then Imported(map[], records) else old(rows)
    {
      if rows != map[] {
        return;
      }
      var i := 0;
      while i < |records|
        invariant 0 <= i <= |records|
        invariant Imported(rows, records[i..]) == Imported(map[], records)
      {
        var l := records[i];
        if ValidId(l.id) && l.id !in rows {
          rows := rows[l.id := LegacyRow(l)];
        }
        i := i + 1;
      }
    }
  }
}
