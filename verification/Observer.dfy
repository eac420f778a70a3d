/** `KubectlObserver.observe`: seven queries, any of which may fail. */
module Observer {
  import opened Names
  import opened Observe
  import opened Cloud
  import opened Retry

  /** A reading of the cluster in which any probe may have failed: a failed probe reads as an absent object, and a
      failed namespace probe as an absent namespace. */
  predicate Under(o: Observed, t: Observed) {
    || o == NOTHING
    || (&& o.namespace && t.namespace
        && ((o.deployReady == t.deployReady && o.replicas == t.replicas) || (!o.deployReady && o.replicas == 0))
        && (o.ingress ==> t.ingress) && (o.service ==> t.service) && (o.networkPolicy ==> t.networkPolicy)
        && (o.resourceQuota ==> t.resourceQuota) && (o.irsaSa ==> t.irsaSa))
  }

  /** What is read as fully up is fully up. */
  lemma UnderActive(spaces: map<TenantId, Workload>, x: TenantId, o: Observed)
    requires Under(o, ObservedIn(spaces, x)) && o.MatchesActive()
    ensures FullyUp(spaces, x)
  {
  }

  // ---- fault schedules as the probes see them ----

  const PROBES: nat := 7

  /** The next n calls succeed. */
  predicate ProbesFine(fs: seq<Fault>, n: nat) { n == 0 || (Next(fs).Fine? && ProbesFine(Rest(fs), n - 1)) }

  /** A query that fails is an answer; only one that raises is not. */
  predicate Answers(f: Fault) { f.Fine? || f.Fails? }

  /** The next n calls are answered. */
  predicate ProbesEnd(fs: seq<Fault>, n: nat) { n == 0 || (Answers(Next(fs)) && ProbesEnd(Rest(fs), n - 1)) }

  lemma FirstProbe(fs: seq<Fault>, n: nat)
    requires n > 0
    ensures ProbesFine(fs, n) <==> Next(fs).Fine? && ProbesFine(Rest(fs), n - 1)
    ensures ProbesEnd(fs, n) <==> Answers(Next(fs)) && ProbesEnd(Rest(fs), n - 1)
    ensures Skip(fs, n) == Skip(Rest(fs), n - 1)
  {
  }

  lemma ThreeProbes(fs: seq<Fault>, n: nat)
    requires n >= 3
    ensures ProbesFine(fs, n) <==>
              && Next(fs).Fine? && Next(Rest(fs)).Fine? && Next(Rest(Rest(fs))).Fine?
              && ProbesFine(Rest(Rest(Rest(fs))), n - 3)
    ensures ProbesEnd(fs, n) <==>
              && Answers(Next(fs)) && Answers(Next(Rest(fs))) && Answers(Next(Rest(Rest(fs))))
              && ProbesEnd(Rest(Rest(Rest(fs))), n - 3)
    ensures Skip(fs, n) == Skip(Rest(Rest(Rest(fs))), n - 3)
  {
    FirstProbe(fs, n);
    FirstProbe(Rest(fs), n - 1);
    FirstProbe(Rest(Rest(fs)), n - 2);
    hide ProbesFine, ProbesEnd, Answers, Skip, Next, Rest;
  }

  lemma OneProbe(fs: seq<Fault>)
    ensures ProbesEnd(fs, 1) <==> Answers(Next(fs))
    ensures Skip(fs, 1) == Rest(fs)
  {
    assert Skip(Rest(fs), 0) == Rest(fs);
  }

  lemma NoProbe(fs: seq<Fault>)
    ensures ProbesFine(fs, 0) && ProbesEnd(fs, 0) && Skip(fs, 0) == fs
  {
  }

  lemma {:induction false} FineProbesEnd(fs: seq<Fault>, n: nat)
    ensures ProbesFine(fs, n) ==> ProbesEnd(fs, n)
  {
    if n > 0 {
      FineProbesEnd(Rest(fs), n - 1);
    }
  }

  lemma CalmProbes(n: nat)
    ensures ProbesFine([], n) && ProbesEnd([], n) && Skip([], n) == []
  {
  }

  // ---- what a look comes to ----

  /** The namespace is there and its probe succeeds. */
  predicate Sees(w: World, x: TenantId, fs: seq<Fault>) { x in w.spaces && Next(fs).Fine? }

  /** Without a namespace nothing else is asked for. */
  function Probed(w: World, x: TenantId, fs: seq<Fault>): nat { if Sees(w, x, fs) then PROBES else 1 }

  /** No query raises. */
  predicate LookEnds(w: World, x: TenantId, fs: seq<Fault>) { ProbesEnd(fs, Probed(w, x, fs)) }

  /** The schedule after a look that ends. */
  function Unread(w: World, x: TenantId, fs: seq<Fault>): seq<Fault> { Skip(fs, Probed(w, x, fs)) }

  /** When x is read as suspended: the namespace is seen, pods and Ingress are absent or their probes fail. */
  predicate ReadsSuspended(w: World, x: TenantId, fs: seq<Fault>) {
    && x in w.spaces && Next(fs).Fine?
    && (ReplicasOf(w.spaces[x]) == 0 || !Next(Rest(fs)).Fine?)
    && (!w.spaces[x].ingress || !Next(Rest(Rest(fs))).Fine?)
  }

  /** Without faults every reading is exact. */
  lemma CalmLook(w: World, x: TenantId)
    ensures LookEnds(w, x, []) && Unread(w, x, []) == []
    ensures Sees(w, x, []) <==> x in w.spaces
    ensures ReadsSuspended(w, x, []) <==> Asleep(w.spaces, x)
  {
    CalmProbes(Probed(w, x, []));
  }

  lemma FineLook(w: World, x: TenantId, fs: seq<Fault>)
    requires x in w.spaces && ProbesFine(fs, PROBES)
    ensures LookEnds(w, x, fs) && Sees(w, x, fs) && Unread(w, x, fs) == Skip(fs, PROBES)
  {
    FirstProbe(fs, PROBES);
    FineProbesEnd(fs, PROBES);
  }

  /** One kubectl query. A bad exit status reads as an absent object; a timeout is raised. */
  method Probe(cloud: CloudApi, there: bool) returns (r: Result, seen: bool)
    modifies cloud
    ensures cloud.world == old(cloud.world) && cloud.faults == Rest(old(cloud.faults))
    ensures seen <==> there && Next(old(cloud.faults)).Fine?
    ensures r.Ok? <==> Answers(Next(old(cloud.faults)))
  {
    var f := cloud.Call(cloud.world);
    r := if f.Dies? || f.Raises? then ResultOf(f) else Ok;
    seen := f.Fine? && there;
  }

  /** The observer's look at the cluster, probe by probe. It ends exactly if no query raises, and what it makes of the
      namespace, the pods and the Ingress is decided by the cluster and by which probes succeed. */
  method Look(cloud: CloudApi, x: TenantId) returns (r: Result, o: Observed)
    modifies cloud
    ensures cloud.world == old(cloud.world)
    ensures Under(o, ObservedIn(cloud.world.spaces, x))
    ensures r.Ok? <==> LookEnds(cloud.world, x, old(cloud.faults))
    ensures r.Ok? ==> cloud.faults == Unread(cloud.world, x, old(cloud.faults))
    ensures r.Ok? ==> (o.namespace <==> Sees(cloud.world, x, old(cloud.faults)))
    ensures r.Ok? ==> (o.MatchesSuspended() <==> ReadsSuspended(cloud.world, x, old(cloud.faults)))
    ensures x !in cloud.world.spaces || ProbesFine(old(cloud.faults), PROBES) ==>
              o == ObservedIn(cloud.world.spaces, x)
    ensures old(cloud.faults) == [] ==> cloud.faults == [] && r.Ok? && o == ObservedIn(cloud.world.spaces, x)
  {
    FirstProbe(cloud.faults, PROBES);
    OneProbe(cloud.faults);
    CalmProbes(PROBES);
    hide ProbesFine, ProbesEnd, Skip;
    var seen;
    r, seen := Probe(cloud, x in cloud.world.spaces);
    o := NOTHING;
    if r == Ok && seen {
      r, o := LookInside(cloud, x);
    }
  }

  method LookInside(cloud: CloudApi, x: TenantId) returns (r: Result, o: Observed)
    requires x in cloud.world.spaces
    modifies cloud
    ensures cloud.world == old(cloud.world)
    ensures o.namespace && Under(o, ObservedIn(cloud.world.spaces, x))
    ensures r.Ok? <==> ProbesEnd(old(cloud.faults), 6)
    ensures r.Ok? ==> cloud.faults == Skip(old(cloud.faults), 6)
    ensures r.Ok? ==>
              var t := ObservedIn(cloud.world.spaces, x);
              && o.replicas == (if Next(old(cloud.faults)).Fine? then t.replicas else 0)
              && o.ingress == (t.ingress && Next(Rest(old(cloud.faults))).Fine?)
    ensures ProbesFine(old(cloud.faults), 6) ==> o == ObservedIn(cloud.world.spaces, x)
  {
    ThreeProbes(cloud.faults, 6);
    hide ProbesFine, ProbesEnd, Skip, Next, Rest, Answers;
    var w := cloud.world.spaces[x];
    o := Observed(true, false, 0, false, false, false, false, false);
    var seen;
    r, seen := Probe(cloud, w.deploy.Some?);
    if r != Ok {
      return;
    }
    if seen {
      o := o.(deployReady := w.deploy.value.spec >= 1 && w.deploy.value.ready >= 1, replicas := w.deploy.value.spec);
    }
    r, seen := Probe(cloud, w.ingress);
    if r != Ok {
      return;
    }
    o := o.(ingress := seen);
    r, seen := Probe(cloud, w.service);
    if r != Ok {
      return;
    }
    o := o.(service := seen);
    r, o := LookFurther(cloud, x, o);
  }

  method LookFurther(cloud: CloudApi, x: TenantId, half: Observed) returns (r: Result, o: Observed)
    requires x in cloud.world.spaces && half.namespace && Under(half, ObservedIn(cloud.world.spaces, x))
    requires !half.networkPolicy && !half.resourceQuota && !half.irsaSa
    modifies cloud
    ensures cloud.world == old(cloud.world)
    ensures Under(o, ObservedIn(cloud.world.spaces, x))
    ensures o.namespace && o.replicas == half.replicas && o.ingress == half.ingress
    ensures r.Ok? <==> ProbesEnd(old(cloud.faults), 3)
    ensures r.Ok? ==> cloud.faults == Skip(old(cloud.faults), 3)
    ensures ProbesFine(old(cloud.faults), 3) ==>
              o == var t := ObservedIn(cloud.world.spaces, x);
                   half.(networkPolicy := t.networkPolicy, resourceQuota := t.resourceQuota, irsaSa := t.irsaSa)
  {
    ThreeProbes(cloud.faults, 3);
    NoProbe(Rest(Rest(Rest(cloud.faults))));
    FineProbesEnd(cloud.faults, 3);
    hide ProbesFine, ProbesEnd, Skip, Next, Rest, Answers;
    var w := cloud.world.spaces[x];
    o := half;
    var seen;
    r, seen := Probe(cloud, w.networkPolicy);
    if r != Ok {
      return;
    }
    o := o.(networkPolicy := seen);
    r, seen := Probe(cloud, w.quota);
    if r != Ok {
      return;
    }
    o := o.(resourceQuota := seen);
    r, seen := Probe(cloud, w.annotatedSa);
    if r != Ok {
      return;
    }
    o := o.(irsaSa := seen);
  }
}
