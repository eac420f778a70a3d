/** `onboard` and `provision`: identity, migrate refresh, namespace and the status protocol around them. */
module Provision {
  import opened Names
  import opened Observe
  import opened Postgres
  import opened Cloud
  import opened Retry
  import opened Registry
  import opened Identity
  import opened Migration

  /** The tenant whose namespace runs the migrate job. */
  function First(e: Outputs, ids: seq<TenantId>): TenantId {
    if e.platform.Some? && e.platform.value != "" then e.platform.value else if ids != [] then ids[0] else "a"
  }

  function Including(ids: seq<TenantId>, t: TenantId): seq<TenantId> { if t in ids then ids else ids + [t] }

  /** What a Helm release of the chart puts into a namespace. Helm does not wait: the pods may be ready or not. */
  function Release(e: Outputs, ready: bool): Workload {
    Workload(Some(Deploy(1, if ready then 1 else 0)), e.albController, true, true, true, true)
  }

  /** The pods of t's next release will be ready: they are now, or nothing slows them down. */
  predicate PodsUp(w: World, t: TenantId) {
    t !in w.slow || (t in w.spaces && w.spaces[t].deploy.Some? && w.spaces[t].deploy.value.ready >= 1)
  }

  const EMPTY_SPACE := Workload(None, false, false, false, false, false)

  function WithSpace(w: World, t: TenantId, v: Workload): World { w.(spaces := w.spaces[t := v]) }

  /** The outputs and maps an onboard of t insists on. */
  predicate CanOnboard(e: Outputs, t: TenantId, maps: Maps) {
    && t in maps.irsa && t in maps.secrets && e.rdsHost
    && (if e.albController then e.publicCidrs else t in e.nodePorts)
  }

  predicate CanMigrate(e: Outputs, maps: Maps, w: World) {
    e.migrator && e.rdsSecret && SecretsReadable(maps.secrets, w)
  }

  /** Onboarding t touches t's namespace and, when t is the platform tenant, the roles and policies of the map. */
  ghost predicate OnboardOnly(t: TenantId, keys: set<TenantId>, w0: World, w: World) {
    && w == w0.(spaces := w.spaces, db := w.db)
    && MigrationOnly(keys, w0.db, w.db)
    && Without(w.spaces, t) == Without(w0.spaces, t)
    && (t in w0.spaces ==> t in w.spaces)
    && (t !in keys ==> w.spaces == w0.spaces)
  }

  lemma SpaceIsOnboard(t: TenantId, keys: set<TenantId>, w: World, v: Workload)
    requires t in keys
    ensures OnboardOnly(t, keys, w, WithSpace(w, t, v))
    ensures OnboardOnly(t, keys, w, w)
  {
    assert Without(w.spaces[t := v], t) == Without(w.spaces, t);
  }

  /** Namespace and release. */
  method InstallRelease(cloud: CloudApi, e: Outputs, t: TenantId) returns (r: Result)
    modifies cloud
    ensures cloud.world == old(cloud.world).(spaces := cloud.world.spaces)
    ensures Without(cloud.world.spaces, t) == Without(old(cloud.world).spaces, t)
    ensures t in old(cloud.world).spaces ==> t in cloud.world.spaces
    ensures r.Ok? ==> t in cloud.world.spaces && cloud.world.spaces[t] == Release(e, PodsUp(old(cloud.world), t))
    ensures !r.Ok? && t in cloud.world.spaces ==>
              || (t in old(cloud.world).spaces && cloud.world.spaces[t] == old(cloud.world).spaces[t])
              || (t !in old(cloud.world).spaces
                  && cloud.world.spaces[t] == Workload(None, false, false, false, false, false))
              || cloud.world.spaces[t] == Release(e, PodsUp(old(cloud.world), t))
    ensures Stopped(Next(old(cloud.faults)), r)
    ensures old(cloud.faults) == [] ==> cloud.faults == [] && r.Ok?
  {
    var f := cloud.Call(if t in cloud.world.spaces then cloud.world else WithSpace(cloud.world, t, EMPTY_SPACE));
    if !f.Fine? {
      return ResultOf(f);
    }
    f := cloud.Call(cloud.world);              // label the namespace
    if !f.Fine? {
      return ResultOf(f);
    }
    f := cloud.Call(WithSpace(cloud.world, t, Release(e, PodsUp(cloud.world, t))));
    r := ResultOf(f);
  }

  /** Done, or stopped by an exception that is not the control plane's own. */
  predicate Untroubled(r: Result) { r.Ok? || r == Err(OnboardError) || r == Err(OtherException) }

  method Onboard(cloud: CloudApi, e: Outputs, t: TenantId, maps: Maps) returns (r: Result)
    requires HonestSecrets(maps.secrets, cloud.world)
    modifies cloud
    ensures OnboardOnly(t, maps.secrets.Keys, old(cloud.world), cloud.world)
    ensures cloud.world == old(cloud.world).(spaces := cloud.world.spaces, db := cloud.world.db)
    ensures Without(cloud.world.spaces, t) == Without(old(cloud.world).spaces, t)
    ensures r.Ok? ==>
              && CanOnboard(e, t, maps)
              && t in cloud.world.spaces && cloud.world.spaces[t] == Release(e, PodsUp(old(cloud.world), t))
    ensures r.Ok? && t == First(e, Including(maps.ids, t)) ==>
              && Migrated(maps.secrets.Keys, cloud.world.db) && CanMigrate(e, maps, old(cloud.world))
              && PasswordsMatch(maps.secrets, cloud.world, cloud.world.db)
    ensures t != First(e, Including(maps.ids, t)) ==> cloud.world.db == old(cloud.world).db
    ensures old(cloud.faults) == [] ==> cloud.faults == [] && Untroubled(r)
    ensures (&& old(cloud.faults) == [] && CanOnboard(e, t, maps)
             && (t == First(e, Including(maps.ids, t)) ==> CanMigrate(e, maps, old(cloud.world)))) ==> r.Ok?
  {
    if t !in maps.irsa || t !in maps.secrets {
      return Err(OnboardError);
    }
    var first := First(e, Including(maps.ids, t));
    SpaceIsOnboard(t, maps.secrets.Keys, cloud.world, EMPTY_SPACE);
    hide MigrationOnly, Migrated;
    if !e.rdsHost {
      return Err(OnboardError);
    }
    if e.albController {
      var f := cloud.Call(cloud.world);        // platform guardrails
      if !f.Fine? {
        return ResultOf(f);
      }
      if !e.publicCidrs {
        return Err(OnboardError);
      }
    } else if t !in e.nodePorts {
      return Err(OnboardError);
    }
    if t == first && (!e.migrator || !e.rdsSecret) {
      var f := cloud.Call(if t in cloud.world.spaces then cloud.world else WithSpace(cloud.world, t, EMPTY_SPACE));
      return if f.Fine? then Err(OnboardError) else ResultOf(f);
    }
    r := InstallRelease(cloud, e, t);
    if r != Ok || t != first {
      return;
    }
    var end := MigrateJob(cloud, maps.secrets);
    r := if end.Completed? then Ok else if end.Cut? then Crash else Err(OtherException);
  }

  // ---- names and honesty ----

  /** Pointers the control plane wrote name the tenant's own secret. */
  predicate OwnNames(e: Outputs, rows: Rows) {
    forall t | t in rows && HasPointers(rows[t]) :: rows[t].secretName == Some(SecretOf(e, t))
  }

  predicate TofuNames(e: Outputs) {
    forall t | t in e.tofuSecrets :: e.tofuSecrets[t] == SecretOf(e, t)
  }

  /** Each tenant's secret holds that tenant's role as username. */
  ghost predicate HonestWorld(e: Outputs, w: World) {
    forall t :: SecretOf(e, t) in w.secrets ==> w.secrets[SecretOf(e, t)].user == TenantRole(t)
  }

  /** Identity creation changes secrets, roles and nothing else; seen through the rest of the world. */
  ghost predicate AwsOnly(e: Outputs, x: TenantId, w0: World, w: World) {
    IdentityOnly(e, x, w0, w.(spaces := w0.spaces, db := w0.db))
  }

  lemma IdentityStaysHonest(e: Outputs, x: TenantId, w0: World, w: World)
    requires AwsOnly(e, x, w0, w) && HonestWorld(e, w0)
    ensures HonestWorld(e, w)
  {
    forall t | SecretOf(e, t) in w.secrets ensures w.secrets[SecretOf(e, t)].user == TenantRole(t) {
      if SecretOf(e, t) == SecretOf(e, x) {
        NamesAreInjective(e.prefix, t, x);
      } else {
        assert SecretOf(e, t) in Without(w.secrets, SecretOf(e, x));
      }
    }
  }

  /** The tenants whose roles a provision of x migrates: OpenTofu's, those with a row that has both pointers, and x. */
  function MigrationKeys(e: Outputs, rows: Rows, x: TenantId): set<TenantId> {
    e.tofuSecrets.Keys + OwnIdentities(rows).Keys + {x}
  }

  /** Everything a provision of x may change in the world, whatever goes wrong. */
  ghost predicate ProvisionOnly(e: Outputs, x: TenantId, keys: set<TenantId>, w0: World, w: World) {
    && AwsOnly(e, x, w0, w)
    && MigrationOnly(keys, w0.db, w.db)
    && (forall t | t in w0.spaces :: t in w.spaces)
    && (forall t | t !in keys && t in w.spaces :: t in w0.spaces && w.spaces[t] == w0.spaces[t])
  }

  lemma OnboardIsProvision(e: Outputs, x: TenantId, t: TenantId, keys: set<TenantId>, w0: World, a: World, b: World)
    requires ProvisionOnly(e, x, keys, w0, a) && OnboardOnly(t, keys, a, b)
    ensures ProvisionOnly(e, x, keys, w0, b)
  {
    MigrationComposes(keys, w0.db, a.db, b.db);
    forall u | u !in keys && u in b.spaces ensures u in w0.spaces && b.spaces[u] == w0.spaces[u] {
      if u != t {
        assert u in Without(b.spaces, t);
      }
    }
    forall u | u in w0.spaces ensures u in b.spaces {
      if u != t {
        assert u in Without(a.spaces, t);
      }
    }
  }

  lemma IdentityIsProvision(e: Outputs, x: TenantId, keys: set<TenantId>, w0: World, w: World)
    requires IdentityOnly(e, x, w0, w)
    ensures ProvisionOnly(e, x, keys, w0, w)
  {
  }

  lemma FirstIsStable(e: Outputs, ids: seq<TenantId>, t: TenantId)
    requires t == First(e, ids)
    ensures t == First(e, Including(ids, t))
  {
  }

  // ---- the operation ----

  function Stage(status: Status, tier: string, error: Option<Problem>): Patch {
    NO_CHANGE.(desired := Set(WantActive), status := Set(status), tier := Set(tier), error := Set(error))
  }

  function WithIdentity(p: Patch, id: Pointers): Patch {
    p.(owner := Set(id.owner), secretName := Set(id.secretName), irsaRoleArn := Set(id.irsaRoleArn))
  }

  predicate CanIdentify(e: Outputs, x: TenantId, create: bool) {
    if create then e.rdsHost && e.oidc else x in e.tofuSecrets && x in e.tofuIrsa
  }

  /** The identity a successful provision records. */
  function PointersFor(e: Outputs, x: TenantId, create: bool): Pointers {
    if create then OwnPointers(e, x)
    else Pointers(if x in e.tofuSecrets then Some(e.tofuSecrets[x]) else None,
                  if x in e.tofuIrsa then Some(e.tofuIrsa[x]) else None, OpenTofu)
  }

  /** Creates the identity, or looks it up in OpenTofu's maps. */
  method ResolveIdentity(cloud: CloudApi, e: Outputs, x: TenantId, create: bool) returns (r: IdentityOutcome)
    modifies cloud
    ensures IdentityOnly(e, x, old(cloud.world), cloud.world)
    ensures r.Got? ==> CanIdentify(e, x, create) && r.pointers == PointersFor(e, x, create)
    ensures r.Got? && create ==> HasIdentity(e, x, cloud.world)
    ensures !create ==> cloud.world == old(cloud.world)
    ensures var f := Next(old(cloud.faults)); !f.Fine? ==> r == if f.Dies? then Died else Refused(f.error)
    ensures create && e.rdsHost && e.oidc ==>
              forall k: nat | Throttles(old(cloud.faults), k) ::
                if k <= 4 then r.Got? && cloud.faults == [] else r == Refused(FifthError(old(cloud.faults)))
    ensures old(cloud.faults) == [] ==> cloud.faults == [] && (r.Got? || r == Refused(OnboardError))
    ensures old(cloud.faults) == [] && CanIdentify(e, x, create) ==> r.Got?
  {
    var f := cloud.Call(cloud.world);          // tofu output
    if !f.Fine? {
      return if f.Dies? then Died else Refused(f.error);
    }
    if create {
      var calls, slept;
      ghost var results, starts;
      r, calls, slept, results, starts := EnsureTenantIdentity(cloud, e, x);
    } else if x !in e.tofuSecrets || x !in e.tofuIrsa {
      r := Refused(OnboardError);
    } else {
      r := Got(Pointers(Some(e.tofuSecrets[x]), Some(e.tofuIrsa[x]), OpenTofu));
    }
  }

  lemma PasswordsCarry(secrets: map<TenantId, string>, a: World, b: World)
    requires a.secrets == b.secrets && a.db == b.db
    ensures PasswordsMatch(secrets, a, a.db) <==> PasswordsMatch(secrets, b, b.db)
  {
  }

  predicate CanOnboardBoth(e: Outputs, x: TenantId, maps: Maps, w: World) {
    CanOnboard(e, x, maps) && CanOnboard(e, First(e, maps.ids), maps) && CanMigrate(e, maps, w)
  }

  /** Refreshes the platform tenant's migrate job, then onboards x itself. */
  method OnboardBoth(cloud: CloudApi, e: Outputs, x: TenantId, maps: Maps, ghost w0: World) returns (r: Result)
    requires HonestSecrets(maps.secrets, cloud.world)
    requires ProvisionOnly(e, x, maps.secrets.Keys, w0, cloud.world)
    modifies cloud
    ensures ProvisionOnly(e, x, maps.secrets.Keys, w0, cloud.world)
    ensures cloud.world == old(cloud.world).(spaces := cloud.world.spaces, db := cloud.world.db)
    ensures r.Ok? ==>
              Migrated(maps.secrets.Keys, cloud.world.db) && PasswordsMatch(maps.secrets, cloud.world, cloud.world.db)
    ensures r.Ok? ==> x in cloud.world.spaces && cloud.world.spaces[x] == Release(e, PodsUp(old(cloud.world), x))
    ensures r.Ok? ==> CanOnboardBoth(e, x, maps, old(cloud.world))
    ensures old(cloud.faults) == [] ==> cloud.faults == [] && Untroubled(r)
    ensures old(cloud.faults) == [] && CanOnboardBoth(e, x, maps, old(cloud.world)) ==> r.Ok?
  {
    hide ProvisionOnly, OnboardOnly, Migrated, CanOnboard, PasswordsMatch;
    var f := cloud.Call(cloud.world);          // node_ip
    if !f.Fine? {
      return ResultOf(f);
    }
    var first := First(e, maps.ids);
    FirstIsStable(e, maps.ids, first);
    if x != first {
      ghost var before := cloud.world;
      r := Onboard(cloud, e, first, maps);
      OnboardIsProvision(e, x, first, maps.secrets.Keys, w0, before, cloud.world);
      if r != Ok {
        return;
      }
      SameElsewhere(cloud.world.spaces, before.spaces, first);
    }
    ghost var mid := cloud.world;
    assert PodsUp(mid, x) == PodsUp(old(cloud.world), x);
    hide First, Including, PodsUp;
    r := Onboard(cloud, e, x, maps);
    OnboardIsProvision(e, x, x, maps.secrets.Keys, w0, mid, cloud.world);
    if cloud.world.db == mid.db {
      PasswordsCarry(maps.secrets, mid, cloud.world);
    }
    if r == Ok && e.albController {
      f := cloud.Call(cloud.world);            // wait for the Ingress hostname
      r := ResultOf(f);
    }
  }

  // ---- the identity maps of a provision ----

  function PointersOf(row: Row): Pointers { Pointers(row.secretName, row.irsaRoleArn, row.owner) }

  /** OpenTofu's maps, overlaid with the pointers of the rows the control plane owns. */
  ghost predicate MapsOf(e: Outputs, rows: Rows, m: Maps) {
    var own := OwnIdentities(rows);
    && (forall t :: t in m.secrets <==> t in e.tofuSecrets || t in own)
    && (forall t :: t in m.irsa <==> t in e.tofuIrsa || t in own)
    && (forall t | t in m.secrets :: m.secrets[t] == if t in own then own[t].secret else e.tofuSecrets[t])
    && MergedIds(e.tofuIds, own.Keys, m.ids)
  }

  lemma OverlaidMaps(e: Outputs, rows: Rows, m: Maps)
    requires Overlays(m.secrets, e.tofuSecrets, SecretsIn(OwnIdentities(rows)), OwnIdentities(rows).Keys)
    requires Overlays(m.irsa, e.tofuIrsa, RolesIn(OwnIdentities(rows)), OwnIdentities(rows).Keys)
    requires MergedIds(e.tofuIds, OwnIdentities(rows).Keys, m.ids)
    ensures MapsOf(e, rows, m)
  {
  }

  method MapsFor(rows: Rows, e: Outputs, x: TenantId, id: Pointers) returns (m: Maps)
    requires x in rows && PointersOf(rows[x]) == id && (id.owner == ControlPlane ==> HasPointers(rows[x]))
    ensures MapsOf(e, rows, m)
  {
    var extra := CpIdentities(rows);
    if id.owner == ControlPlane {
      extra := extra[x := Extra(id.secretName.value, id.irsaRoleArn.value)];
    }
    assert extra == OwnIdentities(rows);
    m := MergeIdentityMaps(e, extra);
    OverlaidMaps(e, rows, m);
  }

  lemma MapsAreHonest(e: Outputs, rows: Rows, m: Maps, w: World)
    requires MapsOf(e, rows, m) && OwnNames(e, rows) && TofuNames(e) && HonestWorld(e, w)
    ensures forall t | t in m.secrets :: m.secrets[t] == SecretOf(e, t)
    ensures HonestSecrets(m.secrets, w)
  {
    forall t | t in m.secrets ensures m.secrets[t] == SecretOf(e, t) {
      if t in OwnIdentities(rows) {
        assert HasPointers(rows[t]);
      }
    }
  }

  function Identified(e: Outputs, rows: Rows, x: TenantId, tier: string, create: bool): Rows {
    Put(rows, x, WithIdentity(Stage(PROVISIONING, tier, None), PointersFor(e, x, create)), e.now)
  }

  lemma IdentifiedKeys(e: Outputs, rows: Rows, x: TenantId, tier: string, create: bool, m: Maps)
    requires MapsOf(e, Identified(e, rows, x, tier, create), m)
    requires Truthy(PointersFor(e, x, true).secretName) && Truthy(PointersFor(e, x, true).irsaRoleArn)
    requires CanIdentify(e, x, create)
    ensures m.secrets.Keys == MigrationKeys(e, rows, x)
  {
    var own, own0 := OwnIdentities(Identified(e, rows, x, tier, create)), OwnIdentities(rows);
    assert create ==> x in own;
    forall t ensures t in m.secrets.Keys <==> t in MigrationKeys(e, rows, x) {
      if t != x {
        assert t in own <==> t in own0;
      }
    }
  }

  // ---- when a provision can succeed ----

  /** The tenant whose namespace runs the migrate job, when `own` are the control plane's own tenants. */
  ghost function FirstTenant(e: Outputs, own: set<TenantId>, otherwise: TenantId): TenantId {
    if e.platform.Some? && e.platform.value != "" then e.platform.value
    else if e.tofuIds != [] then e.tofuIds[0]
    else if own != {} then Least(own)
    else otherwise
  }

  lemma FirstIsFirstTenant(e: Outputs, own: set<TenantId>, ids: seq<TenantId>, x: TenantId)
    requires MergedIds(e.tofuIds, own, ids)
    ensures First(e, ids) == FirstTenant(e, own, "a")
    ensures First(e, Including(ids, x)) == FirstTenant(e, own, x)
  {
    FirstOfMerged(e.tofuIds, own, ids);
  }

  /** The control plane's own tenants once x has been given its identity. */
  function OwnWith(rows: Rows, x: TenantId, create: bool): set<TenantId> {
    OwnIdentities(rows).Keys - {x} + if create then {x} else {}
  }

  predicate HasMaps(e: Outputs, rows: Rows, t: TenantId) {
    t in OwnIdentities(rows) || (t in e.tofuSecrets && t in e.tofuIrsa)
  }

  predicate EdgeReady(e: Outputs, t: TenantId) { if e.albController then e.publicCidrs else t in e.nodePorts }

  /** What the environment must offer. The last condition is about everybody: one secret that cannot be read,
      of any tenant named by OpenTofu or by a registry row, stops every provision. */
  ghost predicate CanProvision(e: Outputs, rows: Rows, x: TenantId, create: bool, w: World) {
    var first := FirstTenant(e, OwnWith(rows, x, create), "a");
    && e.rdsHost && e.migrator && e.rdsSecret && EdgeReady(e, x) && EdgeReady(e, first)
    && CanIdentify(e, x, create)
    && (first != x ==> HasMaps(e, rows, first))
    && (forall t | t in MigrationKeys(e, rows, x) :: (t == x && create) || Live(w, SecretOf(e, t)))
  }

  lemma IdentifiedFirst(e: Outputs, rows: Rows, x: TenantId, tier: string, create: bool, m: Maps)
    requires MapsOf(e, Identified(e, rows, x, tier, create), m)
    requires create ==> HasPointers(Identified(e, rows, x, tier, create)[x])
    ensures First(e, m.ids) == FirstTenant(e, OwnWith(rows, x, create), "a")
  {
    var own := OwnIdentities(Identified(e, rows, x, tier, create));
    assert own.Keys == OwnWith(rows, x, create);
    FirstIsFirstTenant(e, own.Keys, m.ids, x);
  }

  lemma CanProvisionMeans(e: Outputs, rows: Rows, x: TenantId, tier: string, create: bool, m: Maps, w0: World, w: World)
    requires MapsOf(e, Identified(e, rows, x, tier, create), m)
    requires m.secrets.Keys == MigrationKeys(e, rows, x)
    requires forall t | t in m.secrets :: m.secrets[t] == SecretOf(e, t)
    requires IdentityOnly(e, x, w0, w)
    requires CanIdentify(e, x, create) && if create then Live(w, SecretOf(e, x)) else w == w0
    requires create ==> HasPointers(Identified(e, rows, x, tier, create)[x])
    ensures CanOnboardBoth(e, x, m, w) <==> CanProvision(e, rows, x, create, w0)
  {
    IdentifiedFirst(e, rows, x, tier, create, m);
    MapsCover(e, rows, x, tier, create, m, First(e, m.ids));
    MapsCover(e, rows, x, tier, create, m, x);
    forall t | t in m.secrets
      ensures Live(w, SecretOf(e, t)) <==> (t == x && create) || Live(w0, SecretOf(e, t))
    {
      if t != x {
        if SecretOf(e, t) == SecretOf(e, x) {
          NamesAreInjective(e.prefix, t, x);
        }
        assert SecretOf(e, t) in Without(w.secrets, SecretOf(e, x))
               <==> SecretOf(e, t) in Without(w0.secrets, SecretOf(e, x));
      }
    }
    hide IdentityOnly, MapsOf, First, FirstTenant, OwnIdentities, OwnWith;
  }

  lemma MapsCover(e: Outputs, rows: Rows, x: TenantId, tier: string, create: bool, m: Maps, t: TenantId)
    requires MapsOf(e, Identified(e, rows, x, tier, create), m)
    requires CanIdentify(e, x, create) && (create ==> HasPointers(Identified(e, rows, x, tier, create)[x]))
    ensures t in m.secrets && t in m.irsa <==> t == x || HasMaps(e, rows, t)
  {
    var own, own0 := OwnIdentities(Identified(e, rows, x, tier, create)), OwnIdentities(rows);
    if t != x {
      assert t in own <==> t in own0;
    }
  }

  // ---- the whole operation ----

  lemma OwnPointersAreSet(e: Outputs, x: TenantId)
    ensures Truthy(OwnPointers(e, x).secretName) && Truthy(OwnPointers(e, x).irsaRoleArn)
  {
    assert SecretOf(e, x)[|e.prefix|] == '/';
    assert RoleArn(e.account, RoleOf(e, x))[0] == 'a';
  }

  lemma IdentifiedStaysHonest(e: Outputs, rows: Rows, x: TenantId, tier: string, create: bool)
    requires OwnNames(e, rows)
    ensures OwnNames(e, Identified(e, rows, x, tier, create))
  {
  }

  /** Identity, then the second write, then the maps. */
  method PrepareMaps(store: TenantStore, cloud: CloudApi, e: Outputs, x: TenantId, tier: string, create: bool)
    returns (r: Result, m: Maps)
    requires ValidId(x) && OwnNames(e, store.rows) && TofuNames(e) && HonestWorld(e, cloud.world)
    modifies store, cloud
    ensures IdentityOnly(e, x, old(cloud.world), cloud.world)
    ensures store.rows == if r.Ok? then Identified(e, old(store.rows), x, tier, create) else old(store.rows)
    ensures r.Ok? ==>
              && MapsOf(e, store.rows, m) && HonestSecrets(m.secrets, cloud.world)
              && (forall t | t in m.secrets :: m.secrets[t] == SecretOf(e, t))
              && m.secrets.Keys == MigrationKeys(e, old(store.rows), x)
    ensures r.Ok? ==> CanIdentify(e, x, create) && (create ==> HasIdentity(e, x, cloud.world))
    ensures !create ==> cloud.world == old(cloud.world)
    ensures Stopped(Next(old(cloud.faults)), r)
    ensures create && e.rdsHost && e.oidc ==>
              forall k: nat | Throttles(old(cloud.faults), k) ::
                if k <= 4 then r.Ok? && cloud.faults == [] else r == Err(FifthError(old(cloud.faults)))
    ensures old(cloud.faults) == [] ==> cloud.faults == [] && Untroubled(r)
    ensures old(cloud.faults) == [] && CanIdentify(e, x, create) ==> r.Ok?
  {
    var id := ResolveIdentity(cloud, e, x, create);
    if !id.Got? {
      return if id.Died? then Crash else Err(id.error), Maps([], map[], map[]);
    }
    OwnPointersAreSet(e, x);
    IdentifiedStaysHonest(e, store.rows, x, tier, create);
    IdentityStaysHonest(e, x, old(cloud.world), cloud.world);
    hide IdentityOnly, OwnNames, HonestWorld;
    var _ := store.Upsert(x, WithIdentity(Stage(PROVISIONING, tier, None), id.pointers), None, e.now);
    assert store.rows == Identified(e, old(store.rows), x, tier, create);
    m := MapsFor(store.rows, e, x, id.pointers);
    MapsAreHonest(e, store.rows, m, cloud.world);
    IdentifiedKeys(e, old(store.rows), x, tier, create, m);
    hide MapsOf, Identified, MigrationKeys, HonestSecrets;
    r := Ok;
  }

  /** The tenant's live secret holds the password its database role has. */
  predicate OwnPassword(e: Outputs, t: TenantId, w: World) {
    Live(w, SecretOf(e, t)) && HasPassword(t, PasswordOf(w.secrets[SecretOf(e, t)]), w.db)
  }

  /** Everything a successful provision leaves in the world. */
  ghost predicate Provisioned(e: Outputs, rows: Rows, x: TenantId, create: bool, ready: bool, w: World) {
    && Migrated(MigrationKeys(e, rows, x), w.db)
    && (forall t | t in MigrationKeys(e, rows, x) :: OwnPassword(e, t, w))
    && x in w.spaces && w.spaces[x] == Release(e, ready)
    && (create ==> HasIdentity(e, x, w))
  }

  lemma IdentityOutlivesOnboard(e: Outputs, x: TenantId, a: World, b: World)
    requires HasIdentity(e, x, a) && b == a.(spaces := b.spaces, db := b.db)
    ensures HasIdentity(e, x, b)
  {
  }

  lemma ProvisionedWorldIsHonest(e: Outputs, x: TenantId, keys: set<TenantId>, w0: World, w: World)
    requires ProvisionOnly(e, x, keys, w0, w) && HonestWorld(e, w0)
    ensures HonestWorld(e, w)
  {
    IdentityStaysHonest(e, x, w0, w);
  }

  lemma HasIdentityIsLive(e: Outputs, x: TenantId, w: World)
    requires HasIdentity(e, x, w)
    ensures Live(w, SecretOf(e, x))
  {
  }

  lemma IdentifiedHasPointers(e: Outputs, rows: Rows, x: TenantId, tier: string)
    ensures HasPointers(Identified(e, rows, x, tier, true)[x])
  {
    OwnPointersAreSet(e, x);
  }

  /** The body gets through only if it can, and does so if no call fails; if the first call fails, that is its error,
      and without faults no error is the control plane's own. */
  predicate BodyOutcome(fs: seq<Fault>, can: bool, r: Result) {
    && (r.Ok? ==> can) && (fs == [] ==> (can ==> r.Ok?) && Untroubled(r)) && Stopped(Next(fs), r)
  }

  /** If AWS throttles and nothing else goes wrong, up to four throttled attempts change nothing, and after five the
      last one's error comes out. */
  ghost predicate Persists(fs: seq<Fault>, can: bool, r: Result) {
    forall k: nat | Throttles(fs, k) :: if k <= 4 then can ==> r.Ok? else r == Err(FifthError(fs))
  }

  /** The body of the try block up to the last write. */
  method BringUp(store: TenantStore, cloud: CloudApi, e: Outputs, x: TenantId, tier: string, create: bool)
    returns (r: Result)
    requires ValidId(x) && OwnNames(e, store.rows) && TofuNames(e) && HonestWorld(e, cloud.world)
    modifies store, cloud
    ensures store.rows == old(store.rows) || store.rows == Identified(e, old(store.rows), x, tier, create)
    ensures r.Ok? ==> CanIdentify(e, x, create) && store.rows == Identified(e, old(store.rows), x, tier, create)
    ensures ProvisionOnly(e, x, MigrationKeys(e, old(store.rows), x), old(cloud.world), cloud.world)
    ensures HonestWorld(e, cloud.world)
    ensures r.Ok? ==> Provisioned(e, old(store.rows), x, create, PodsUp(old(cloud.world), x), cloud.world)
    ensures BodyOutcome(old(cloud.faults), CanProvision(e, old(store.rows), x, create, old(cloud.world)), r)
    ensures create && e.rdsHost && e.oidc ==>
              Persists(old(cloud.faults), CanProvision(e, old(store.rows), x, create, old(cloud.world)), r)
    ensures old(cloud.faults) == [] ==> cloud.faults == []
  {
    ghost var w0, rows0, keys := cloud.world, store.rows, MigrationKeys(e, store.rows, x);
    hide MigrationKeys, MapsOf, Identified, HonestSecrets, OwnNames, HonestWorld;
    var m;
    r, m := PrepareMaps(store, cloud, e, x, tier, create);
    ghost var w1 := cloud.world;
    assert PodsUp(w1, x) == PodsUp(w0, x);
    hide PodsUp;
    IdentityIsProvision(e, x, keys, w0, w1);
    hide ProvisionOnly, IdentityOnly, HasIdentity, Migrated, Release, Live, HasPassword;
    if r == Ok {
      if create {
        IdentifiedHasPointers(e, rows0, x, tier);
        HasIdentityIsLive(e, x, w1);
      }
      CanProvisionMeans(e, rows0, x, tier, create, m, w0, w1);
      hide CanProvision, CanOnboardBoth, HasPointers;
      r := OnboardBoth(cloud, e, x, m, w0);
      if create {
        IdentityOutlivesOnboard(e, x, w1, cloud.world);
      }
    }
    ProvisionedWorldIsHonest(e, x, keys, w0, cloud.world);
  }

  function Endpoint(e: Outputs, x: TenantId): Option<string> {
    if e.albUrl != "" then Some(e.albUrl + "/" + NamespaceName(x)) else None
  }

  function Finished(e: Outputs, x: TenantId, tier: string, create: bool): Patch {
    WithIdentity(Stage(ACTIVE, tier, None), PointersFor(e, x, create))
      .(endpoint := Set(Endpoint(e, x)), pathPrefix := Set(Some("/" + NamespaceName(x))))
  }

  /** How an exception inside the operation surfaces: a control-plane error as it is, any other as a permanent error. */
  predicate Surfaces(inner: Failure, outer: Failure) {
    if inner.OnboardError? || inner.OtherException? then outer == PermanentProvisioning else outer == inner
  }

  /** An exception that is not a control-plane error is wrapped in one. */
  function Wrapped(f: Failure): Failure { if IsControlPlaneError(f) then f else PermanentProvisioning }

  /** The row each outcome leaves: ACTIVE with the identity and the URL, FAILED with the error, or, when the process
      dies, PROVISIONING; always wanted active, and with old or new pointers, never a mixture. */
  predicate RowAfter(e: Outputs, rows0: Rows, x: TenantId, tier: string, create: bool, r: Result, row: Row) {
    && row.desired == WantActive && (r.Crash? || row.tier == tier)
    && row.deleteStep == (if x in rows0 then rows0[x].deleteStep else None)
    && (PointersOf(row) == PointersFor(e, x, create)
        || PointersOf(row) == if x in rows0 then PointersOf(rows0[x]) else Pointers(None, None, Unowned))
    && match r
       case Ok =>
         && row.status == ACTIVE && row.error == None && PointersOf(row) == PointersFor(e, x, create)
         && (create ==>
               && row.owner == ControlPlane && row.secretName == Some(e.prefix + "/rds/tenant-" + x)
               && row.irsaRoleArn == Some("arn:aws:iam::" + e.account + ":role/" + e.prefix + "-tenant-" + x))
         && (!create ==>
               && row.owner == OpenTofu && (x in e.tofuSecrets ==> row.secretName == Some(e.tofuSecrets[x]))
               && (x in e.tofuIrsa ==> row.irsaRoleArn == Some(e.tofuIrsa[x])))
         && row.endpoint == (if e.albUrl != "" then Some(e.albUrl + "/tenant-" + x) else None)
         && row.pathPrefix == Some("/tenant-" + x)
       case Err(f) =>
         && row.status == FAILED && row.error.Some? && row.error.value.Exception?
         && Surfaces(row.error.value.failure, f)
       case Crash => row.status == PROVISIONING && row.error == None
  }

  lemma StartChangesNothing(e: Outputs, rows: Rows, x: TenantId, create: bool, p: Patch, w: World)
    requires p.owner.Keep? && p.secretName.Keep? && p.irsaRoleArn.Keep?
    ensures MigrationKeys(e, Put(rows, x, p, e.now), x) == MigrationKeys(e, rows, x)
    ensures OwnNames(e, rows) ==> OwnNames(e, Put(rows, x, p, e.now))
    ensures CanProvision(e, Put(rows, x, p, e.now), x, create, w) <==> CanProvision(e, rows, x, create, w)
  {
    hide FirstTenant, EdgeReady, CanIdentify, Live;
    var own, own0 := OwnIdentities(Put(rows, x, p, e.now)), OwnIdentities(rows);
    assert forall t | t != x :: t in own <==> t in own0;
    assert MigrationKeys(e, Put(rows, x, p, e.now), x) == MigrationKeys(e, rows, x);
    assert OwnWith(Put(rows, x, p, e.now), x, create) == OwnWith(rows, x, create);
    hide OwnWith, MigrationKeys, OwnIdentities;
  }

  /** A provision returns only if it can, and does so if no call fails; if the first call fails, that surfaces. */
  predicate JobOutcome(fs: seq<Fault>, can: bool, r: Result) {
    && (r.Ok? ==> can) && (fs == [] ==> if can then r.Ok? else r == Err(PermanentProvisioning))
    && (!Next(fs).Fine? ==> if Next(fs).Dies? then r.Crash? else r.Err? && Surfaces(Next(fs).error, r.error))
  }

  lemma OutcomeOutside(fs: seq<Fault>, can: bool, body: Result, r: Result)
    requires BodyOutcome(fs, can, body)
    requires if body.Err? then r.Err? && Surfaces(body.error, r.error) else r == body
    ensures JobOutcome(fs, can, r)
  {
  }

  lemma PersistsOutside(fs: seq<Fault>, can: bool, body: Result, r: Result)
    requires Persists(fs, can, body) && if body.Err? then r.Err? && Surfaces(body.error, r.error) else r == body
    ensures Persists(fs, can, r)
  {
    forall k: nat | Throttles(fs, k) && k > 4 ensures r == Err(FifthError(fs)) {
      ThrottledAt(Rest(fs), k, 4);
    }
  }

  lemma OutcomeRow(e: Outputs, rows0: Rows, x: TenantId, tier: string, create: bool, rows1: Rows)
    requires || rows1 == Put(rows0, x, Stage(PROVISIONING, tier, None), e.now)
             || rows1 == Identified(e, Put(rows0, x, Stage(PROVISIONING, tier, None), e.now), x, tier, create)
    ensures x in rows1 && Without(rows1, x) == Without(rows0, x)
    ensures RowAfter(e, rows0, x, tier, create, Crash, rows1[x])
    ensures forall inner, outer | Surfaces(inner, outer) ::
              RowAfter(e, rows0, x, tier, create, Err(outer),
                       Updated(rows1[x], Stage(FAILED, tier, Some(Exception(inner))), e.now))
    ensures rows1 == Identified(e, Put(rows0, x, Stage(PROVISIONING, tier, None), e.now), x, tier, create) ==>
              RowAfter(e, rows0, x, tier, create, Ok, Updated(rows1[x], Finished(e, x, tier, create), e.now))
  {
    PathOfTenant(e.albUrl, x);
    NamesAreSpelled(e.prefix, e.account, x);
    hide NamespaceName, SecretName, IamRoleName, RoleArn;
  }

  lemma WrappedSurfaces(f: Failure)
    ensures Surfaces(f, Wrapped(f)) && IsControlPlaneError(Wrapped(f))
  {
  }

  /** The last write: what became of the try block. */
  method RecordOutcome(store: TenantStore, e: Outputs, x: TenantId, tier: string, create: bool, body: Result,
          ghost rows0: Rows)
    returns (r: Result)
    requires ValidId(x) && OwnNames(e, store.rows)
    requires || store.rows == Put(rows0, x, Stage(PROVISIONING, tier, None), e.now)
             || store.rows == Identified(e, Put(rows0, x, Stage(PROVISIONING, tier, None), e.now), x, tier, create)
    requires body.Ok? ==>
              store.rows == Identified(e, Put(rows0, x, Stage(PROVISIONING, tier, None), e.now), x, tier, create)
    modifies store
    ensures x in store.rows && RowAfter(e, rows0, x, tier, create, r, store.rows[x])
    ensures Without(store.rows, x) == Without(rows0, x) && OwnNames(e, store.rows)
    ensures if body.Err?
            then r.Err? && Surfaces(body.error, r.error) && store.rows[x].error == Some(Exception(body.error))
            else r == body
    ensures r.Err? ==> IsControlPlaneError(r.error)
  {
    ghost var rows1 := store.rows;
    OutcomeRow(e, rows0, x, tier, create, rows1);
    hide OwnNames, PointersFor, RowAfter, Surfaces, Wrapped, IsControlPlaneError;
    r := body;
    match body
    case Ok =>
      var _ := store.Upsert(x, Finished(e, x, tier, create), None, e.now);
      NamesSurvive(e, rows1, x, Finished(e, x, tier, create), PointersFor(e, x, create));
    case Err(error) =>
      WrappedSurfaces(error);
      r := Err(Wrapped(error));
      var _ := store.Upsert(x, Stage(FAILED, tier, Some(Exception(error))), None, e.now);
      NamesSurvive(e, rows1, x, Stage(FAILED, tier, Some(Exception(error))), PointersOf(rows1[x]));
    case Crash =>
  }

  /** `provision`. It returns with x's row ACTIVE and everything up, or raises a control-plane error with the row
      FAILED, for a failure at any call, before or after its effect. Nothing outside x's identity, the migrated
      tenants' database roles and their namespaces is ever touched. Without faults it succeeds exactly when
      `CanProvision` holds. */
  method ProvisionTenant(store: TenantStore, cloud: CloudApi, e: Outputs, x: TenantId, tier: string, create: bool)
    returns (r: Result)
    requires OwnNames(e, store.rows) && TofuNames(e) && HonestWorld(e, cloud.world)
    modifies store, cloud
    ensures !ValidId(x) ==>
              r == Err(ValidationError) && store.rows == old(store.rows) && cloud.world == old(cloud.world)
    ensures ValidId(x) ==>
              && x in store.rows && RowAfter(e, old(store.rows), x, tier, create, r, store.rows[x])
              && Without(store.rows, x) == Without(old(store.rows), x)
    ensures r.Err? ==> IsControlPlaneError(r.error)
    ensures ProvisionOnly(e, x, MigrationKeys(e, old(store.rows), x), old(cloud.world), cloud.world)
    ensures HonestWorld(e, cloud.world) && OwnNames(e, store.rows)
    ensures r.Ok? ==> Provisioned(e, old(store.rows), x, create, PodsUp(old(cloud.world), x), cloud.world)
    ensures ValidId(x) ==>
              JobOutcome(old(cloud.faults), CanProvision(e, old(store.rows), x, create, old(cloud.world)), r)
    ensures old(cloud.faults) == [] ==> cloud.faults == []
    ensures ValidId(x) && create && e.rdsHost && e.oidc ==>
              Persists(old(cloud.faults), CanProvision(e, old(store.rows), x, create, old(cloud.world)), r)
  {
    ghost var rows0, w0, fs := store.rows, cloud.world, cloud.faults;
    hide ProvisionOnly, CanProvision, Provisioned, HonestWorld, MigrationKeys, OwnNames, PointersFor, CanIdentify;
    hide PodsUp, RowAfter, Identified, Persists, Throttles, Wrapped, BodyOutcome, JobOutcome, Surfaces;
    if !ValidId(x) {
      IdentityIsProvision(e, x, MigrationKeys(e, rows0, x), w0, w0);
      return Err(ValidationError);
    }
    var _ := store.Upsert(x, Stage(PROVISIONING, tier, None), None, e.now);
    StartChangesNothing(e, rows0, x, create, Stage(PROVISIONING, tier, None), w0);
    IdentifiedStaysHonest(e, store.rows, x, tier, create);
    hide Put, IsControlPlaneError;
    var body := BringUp(store, cloud, e, x, tier, create);
    r := RecordOutcome(store, e, x, tier, create, body, rows0);
    OutcomeOutside(fs, CanProvision(e, rows0, x, create, w0), body, r);
    if create && e.rdsHost && e.oidc {
      PersistsOutside(fs, CanProvision(e, rows0, x, create, w0), body, r);
    }
  }

  /** A write that leaves the pointers alone, or repeats them, names no new secrets. */
  lemma NamesSurvive(e: Outputs, rows: Rows, x: TenantId, p: Patch, id: Pointers)
    requires OwnNames(e, rows) && x in rows && PointersOf(rows[x]) == id
    requires PointersOf(Updated(rows[x], p, e.now)) == id
    ensures OwnNames(e, Put(rows, x, p, e.now))
  {
  }

  /** After a provision returns, row-level security guards the table, every migrated tenant is complete, every role and
      policy that existed still does, and those of all other tenants are untouched. A role that could not log in
      before still cannot: re-running the migration restores grants and password of a role that an unfinished
      deletion had disabled, but not LOGIN. */
  lemma ProvisionServesEveryone(e: Outputs, rows: Rows, x: TenantId, create: bool, ready: bool, w0: World, w: World)
    requires ProvisionOnly(e, x, MigrationKeys(e, rows, x), w0, w) && Provisioned(e, rows, x, create, ready, w)
    requires OwnPolicies(w0.db)
    ensures Guarded(w.db)
    ensures forall t | t in MigrationKeys(e, rows, x) :: TenantMigrated(t, w.db)
    ensures forall r | r in w0.db.roles :: r in w.db.roles && w.db.roles[r].login == w0.db.roles[r].login
    ensures forall t | t in w0.db.policies :: t in w.db.policies
    ensures forall t | t !in MigrationKeys(e, rows, x) ::
              && (TenantRole(t) in w.db.roles <==> TenantRole(t) in w0.db.roles)
              && (TenantRole(t) in w.db.roles ==> w.db.roles[TenantRole(t)] == w0.db.roles[TenantRole(t)])
    ensures w.db.roles[TenantRole(x)].login <==>
              TenantRole(x) !in w0.db.roles || w0.db.roles[TenantRole(x)].login
  {
    MigrationGuards(MigrationKeys(e, rows, x), w0.db, w.db);
    hide MigrationKeys, AwsOnly;
  }
}
