/** What the observer reports about a tenant's namespace, and what it counts as. */
module Observe {
  import opened Names

  datatype Observed = Observed(
    namespace: bool, deployReady: bool, replicas: nat, ingress: bool,
    service: bool, networkPolicy: bool, resourceQuota: bool, irsaSa: bool)
  {
    /** The observed workload edge is complete. */
    predicate MatchesActive() {
      namespace && deployReady && replicas >= 1 && ingress && service && networkPolicy && resourceQuota && irsaSa
    }

    predicate MatchesSuspended() { namespace && replicas == 0 && !ingress }

    predicate MatchesGone() { !namespace }
  }

  const NOTHING := Observed(false, false, 0, false, false, false, false, false)

  /** `deploy/test-app`: desired and ready replicas. */
  datatype Deploy = Deploy(spec: nat, ready: nat)

  /** The objects of a tenant namespace that the control plane creates or looks up. */
  datatype Workload = Workload(
    deploy: Option<Deploy>, ingress: bool, service: bool, networkPolicy: bool, quota: bool, annotatedSa: bool)

  function ReplicasOf(w: Workload): nat { if w.deploy.Some? then w.deploy.value.spec else 0 }

  /** Everything a live tenant needs is there, and a pod is ready. */
  predicate FullyUp(spaces: map<TenantId, Workload>, id: TenantId) {
    && id in spaces
    && var w := spaces[id];
       && w.deploy.Some? && w.deploy.value.spec >= 1 && w.deploy.value.ready >= 1
       && w.ingress && w.service && w.networkPolicy && w.quota && w.annotatedSa
  }

  /** The namespace is there, but no pods are wanted in it and nothing leads into it. */
  predicate Asleep(spaces: map<TenantId, Workload>, id: TenantId) {
    id in spaces && (spaces[id].deploy.Some? ==> spaces[id].deploy.value.spec == 0) && !spaces[id].ingress
  }

  /** `KubectlObserver.observe`: an absent namespace reports nothing at all. What an undisturbed observation counts as
      is what the cluster is. */
  function ObservedIn(spaces: map<TenantId, Workload>, id: TenantId): (o: Observed)
    ensures o.MatchesActive() <==> FullyUp(spaces, id)
    ensures o.MatchesSuspended() <==> Asleep(spaces, id)
    ensures o.MatchesGone() <==> id !in spaces
    ensures id !in spaces ==> o == Observed(false, false, 0, false, false, false, false, false)
  {
    if id !in spaces then NOTHING
    else
      var w := spaces[id];
      Observed(true, w.deploy.Some? && w.deploy.value.spec >= 1 && w.deploy.value.ready >= 1, ReplicasOf(w),
               w.ingress, w.service, w.networkPolicy, w.quota, w.annotatedSa)
  }
}
