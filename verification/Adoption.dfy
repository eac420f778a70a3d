/** `adopt_tenants`: existing AWS identities taken into the control plane's ownership. */
module Adoption {
  import opened Names
  import opened Observe
  import opened Cloud
  import opened Retry
  import opened Registry
  import opened Identity
  import opened Provision
  import opened Invariants
  import opened Reconcile
  import opened Operator

  function Adopted(e: Outputs, x: TenantId, rows: Rows): Patch {
    var known := x in rows;
    Patch(Set(if known then Wish(rows[x].desired) else WantActive),
          Set(if known && rows[x].status != OtherStatus("") then rows[x].status else ACTIVE),
          Set(if known && rows[x].tier != "" then rows[x].tier else "standard"),
          Set(if e.albUrl != "" then Endpoint(e, x) else if known then rows[x].endpoint else None),
          Set(Some("/" + NamespaceName(x))),
          Set(ControlPlane), Set(Some(SecretOf(e, x))), Set(Some(RoleArn(e.account, RoleOf(e, x)))),
          Set(None), Keep, Keep)
  }

  /** Only a tenant with an IAM role is adopted, so one that has vanished stays away. */
  lemma AdoptionIsHarmless(e: Outputs, x: TenantId, rows: Rows, w: World)
    requires RoleOf(e, x) in w.iam
    ensures Harmless(e, {}, rows, w, Put(rows, x, Adopted(e, x, rows), e.now), w)
  {
    OwnPointersAreSet(e, x);
  }

  /** A valid id whose secret and role exist; the secret may wait for its deletion. */
  predicate CanAdopt(e: Outputs, x: string, w: World) {
    ValidId(x) && SecretOf(e, x) in w.secrets && RoleOf(e, x) in w.iam
  }

  /** A look at the identity fails before it has come to an answer, tagging raises, or the registry refuses the row
      because of the wish it already holds. */
  predicate Stops(e: Outputs, x: string, rows: Rows, w: World, fs: seq<Fault>) {
    ValidId(x)
    && (|| !Next(fs).Fine?
        || (SecretOf(e, x) in w.secrets && !Next(Rest(fs)).Fine?)
        || (CanAdopt(e, x, w)
            && (Next(Rest(Rest(fs))).Raises? || Next(Rest(Rest(fs))).Dies?
                || (x in rows && !LegalDesired(Wish(rows[x].desired))))))
  }

  /** One candidate of `adopt_tenants`; no `stop` means go on. */
  method AdoptOne(store: TenantStore, cloud: CloudApi, e: Outputs, x: string)
    returns (stop: Option<Result>, adopted: bool)
    modifies store, cloud
    ensures cloud.world == old(cloud.world)
    ensures Harmless(e, {}, old(store.rows), old(cloud.world), store.rows, cloud.world)
    ensures if adopted then ValidId(x) && store.rows == Put(old(store.rows), x, Adopted(e, x, old(store.rows)), e.now)
            else store.rows == old(store.rows)
    ensures stop.Some? <==> Stops(e, x, old(store.rows), cloud.world, old(cloud.faults))
    ensures stop.Some? ==> !stop.value.Ok?
    ensures adopted <==> stop.None? && CanAdopt(e, x, cloud.world)
    ensures old(cloud.faults) == [] && Coherent(old(store.rows)) ==> stop.None? && cloud.faults == []
  {
    assert Harmless(e, {}, store.rows, cloud.world, store.rows, cloud.world);
    hide Harmless;
    stop, adopted := None, false;
    if !ValidId(x) {
      return;
    }
    var f := cloud.Call(cloud.world);          // describe_secret
    if !f.Fine? {
      return Some(ResultOf(f)), false;
    }
    if SecretOf(e, x) !in cloud.world.secrets {
      return;
    }
    f := cloud.Call(cloud.world);              // get_role
    if !f.Fine? {
      return Some(ResultOf(f)), false;
    }
    if RoleOf(e, x) !in cloud.world.iam {
      return;
    }
    f := cloud.Call(cloud.world);              // tagging is best effort
    if f.Dies? || f.Raises? {
      return Some(ResultOf(f)), false;
    }
    AdoptionIsHarmless(e, x, store.rows, cloud.world);
    var stored := store.Upsert(x, Adopted(e, x, store.rows), None, e.now);
    if stored.Rejected? {
      return Some(Err(stored.error)), false;
    }
    adopted := true;
  }

  /** The ids behind the listed names that start with the tenants' marker; secrets that wait for their deletion
      are not listed. */
  method Discover(e: Outputs, w: World) returns (ids: seq<string>)
    ensures forall x :: x in ids <==> x != "" && Live(w, SecretOf(e, x))
  {
    var names := Enumerate(set n | n in w.secrets && !w.secrets[n].pendingDelete);
    var marker := e.prefix + "/rds/tenant-";
    ids := [];
    for i := 0 to |names|
      invariant forall x :: x in ids <==> x != "" && marker + x in names[..i]
    {
      var name := names[i];
      assert names[..i + 1] == names[..i] + [name];
      if marker <= name {
        var id := name[|marker|..];
        assert marker + id == name;
        forall x | marker + x == name ensures x == id {
          SamePrefix(marker, x, id);
        }
        if id != "" && id !in ids {
          ids := ids + [id];
        }
      }
    }
    assert names[..|names|] == names;
    forall x ensures x in ids <==> x != "" && Live(w, SecretOf(e, x)) {
      assert SecretOf(e, x) == marker + x;
    }
  }

  /** A row the control plane has taken over: wish and status as they were, or ACTIVE, owner and pointers its own. */
  predicate TakenOver(e: Outputs, x: TenantId, before: Rows, rows: Rows) {
    && x in rows && PointersOf(rows[x]) == OwnPointers(e, x) && rows[x].error == None
    && (x in before ==>
          rows[x].desired == if before[x].desired in {WantNull, WantOther("")} then WantActive else before[x].desired)
    && (x in before && before[x].status != OtherStatus("") ==> rows[x].status == before[x].status)
    && (x !in before ==> rows[x].desired == WantActive && rows[x].status == ACTIVE)
    && rows[x].tier == (if x in before && before[x].tier != "" then before[x].tier else "standard")
    && rows[x].endpoint == (if e.albUrl != "" then Some(e.albUrl + "/tenant-" + x)
                            else if x in before then before[x].endpoint else None)
    && rows[x].pathPrefix == Some("/tenant-" + x)
    && rows[x].deleteStep == (if x in before then before[x].deleteStep else None)
  }

  /** What the loop has done so far: the adopted rows are taken over, all others as before. */
  predicate AdoptedSoFar(e: Outputs, adopted: seq<TenantId>, before: Rows, rows: Rows) {
    && (forall x | x in adopted :: TakenOver(e, x, before, rows))
    && (forall x | x !in adopted && x in before :: x in rows && rows[x] == before[x])
    && (forall x | x !in adopted && x in rows :: x in before)
  }

  lemma TakesOver(e: Outputs, x: TenantId, before: Rows, rows: Rows)
    requires || TakenOver(e, x, before, rows)
             || ((x in rows <==> x in before) && (x in rows ==> rows[x] == before[x]))
    ensures TakenOver(e, x, before, Put(rows, x, Adopted(e, x, rows), e.now))
  {
    PathOfTenant(e.albUrl, x);
    hide NamespaceName;
  }

  lemma AdoptNext(e: Outputs, adopted: seq<TenantId>, before: Rows, rows: Rows, x: TenantId)
    requires AdoptedSoFar(e, adopted, before, rows)
    ensures AdoptedSoFar(e, adopted + [x], before, Put(rows, x, Adopted(e, x, rows), e.now))
  {
    var rows1 := Put(rows, x, Adopted(e, x, rows), e.now);
    assert x in adopted ==> TakenOver(e, x, before, rows);
    TakesOver(e, x, before, rows);
    forall y | y in adopted && y != x ensures TakenOver(e, y, before, rows1) {
      assert TakenOver(e, y, before, rows);
    }
  }

  /** The ids an adoption looks at: those it is given, or all whose secrets are listed. */
  predicate Candidate(e: Outputs, requested: seq<string>, x: string, w: World) {
    if requested != [] then x in requested else x != "" && Live(w, SecretOf(e, x))
  }

  /** The loop over the ids. */
  method AdoptEach(store: TenantStore, cloud: CloudApi, e: Outputs, ids: seq<string>)
    returns (r: Result, adopted: seq<TenantId>)
    modifies store, cloud
    ensures cloud.world == old(cloud.world)
    ensures Harmless(e, {}, old(store.rows), old(cloud.world), store.rows, cloud.world)
    ensures AdoptedSoFar(e, adopted, old(store.rows), store.rows)
    ensures forall x | x in adopted :: x in ids && CanAdopt(e, x, cloud.world)
    ensures r.Ok? ==> forall x | x in ids && CanAdopt(e, x, cloud.world) :: x in adopted
    ensures old(cloud.faults) == [] && Coherent(old(store.rows)) ==> r.Ok?
  {
    ghost var rows0, w0 := store.rows, cloud.world;
    ghost var nobody: set<TenantId> := {};
    assert Harmless(e, nobody, rows0, w0, rows0, w0);
    assert AdoptedSoFar(e, [], rows0, rows0);
    hide Harmless, AdoptedSoFar, Coherent, CanAdopt;
    adopted := [];
    for i := 0 to |ids|
      invariant cloud.world == w0 && Harmless(e, nobody, rows0, w0, store.rows, w0)
      invariant AdoptedSoFar(e, adopted, rows0, store.rows)
      invariant forall x | x in adopted :: x in ids && CanAdopt(e, x, w0)
      invariant forall k | 0 <= k < i && CanAdopt(e, ids[k], w0) :: ids[k] in adopted
      invariant old(cloud.faults) == [] && Coherent(rows0) ==> cloud.faults == [] && Coherent(store.rows)
    {
      ghost var rows1 := store.rows;
      var stop, taken := AdoptOne(store, cloud, e, ids[i]);
      HarmlessComposes(e, nobody, nobody, rows0, w0, rows1, w0, store.rows, w0);
      assert nobody + nobody == nobody;
      if stop.Some? {
        return stop.value, adopted;
      }
      AdoptionStaysCoherent(e, ids[i], rows1);
      if taken {
        AdoptNext(e, adopted, rows0, rows1, ids[i]);
        adopted := adopted + [ids[i]];
      }
    }
    r := Ok;
  }

  /** Adopts exactly the candidates that can be adopted. Whatever goes wrong on the way, rows not adopted are as they
      were; without faults it gets to the end if there is any candidate. */
  method AdoptTenants(store: TenantStore, cloud: CloudApi, e: Outputs, requested: seq<string>)
    returns (r: Result, adopted: seq<TenantId>)
    modifies store, cloud
    ensures cloud.world == old(cloud.world)
    ensures Harmless(e, {}, old(store.rows), old(cloud.world), store.rows, cloud.world)
    ensures AdoptedSoFar(e, adopted, old(store.rows), store.rows)
    ensures forall x | x in adopted :: Candidate(e, requested, x, cloud.world) && CanAdopt(e, x, cloud.world)
    ensures r.Ok? ==>
              forall x | Candidate(e, requested, x, cloud.world) && CanAdopt(e, x, cloud.world) :: x in adopted
    ensures old(cloud.faults) == [] && Coherent(old(store.rows)) ==>
              (r.Ok? <==> exists x :: Candidate(e, requested, x, cloud.world))
  {
    assert Harmless(e, {}, store.rows, cloud.world, store.rows, cloud.world);
    assert AdoptedSoFar(e, [], store.rows, store.rows);
    hide Harmless, AdoptedSoFar, Coherent, CanAdopt, Live;
    var f := cloud.Call(cloud.world);          // tofu output
    if !f.Fine? {
      return ResultOf(f), [];
    }
    var ids := requested;
    if ids == [] {
      f := cloud.Call(cloud.world);            // list_secrets
      if !f.Fine? {
        return ResultOf(f), [];
      }
      ids := Discover(e, cloud.world);
    }
    if ids == [] {
      return Err(OnboardError), [];
    }
    assert ids[0] in ids && Candidate(e, requested, ids[0], cloud.world);
    r, adopted := AdoptEach(store, cloud, e, ids);
  }

  lemma AdoptionStaysCoherent(e: Outputs, x: TenantId, rows: Rows)
    ensures Coherent(rows) ==> Coherent(Put(rows, x, Adopted(e, x, rows), e.now))
  {
  }
}
