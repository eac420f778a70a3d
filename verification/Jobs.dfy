/** The in-flight set of `app.py`: at most one lifecycle job per tenant. */
module Jobs {
  import opened Names

  /** A job thread between its admission and the end of its finally block. `Leaked` is a job whose thread could not be
      started: nothing will ever take its tenant out of the set again. */
  datatype Phase = Admitted | Working | Finishing | Leaked

  datatype Job = Job(tenant: TenantId, phase: Phase)

  /** Job threads by number; the set is the program's, the jobs say whom it should hold. */
  datatype State = State(inflight: set<TenantId>, jobs: map<nat, Job>, next: nat)

  /** Atomic steps of request threads (under the lock) and job threads. */
  datatype Event =
    | Request(tenant: TenantId)
    | ThreadStarts(job: nat) | ThreadFailsToStart(job: nat)
    | BodyEnds(job: nat, raised: bool)      // normally or with an exception: the finally block is next
    | Release(job: nat)

  const INITIAL := State({}, map[], 0)

  predicate Enabled(s: State, ev: Event) {
    match ev
    case Request(_) => true
    case ThreadStarts(j) => j in s.jobs && s.jobs[j].phase == Admitted
    case ThreadFailsToStart(j) => j in s.jobs && s.jobs[j].phase == Admitted
    case BodyEnds(j, _) => j in s.jobs && s.jobs[j].phase == Working
    case Release(j) => j in s.jobs && s.jobs[j].phase == Finishing
  }

  predicate Admits(s: State, ev: Event) { ev.Request? && ev.tenant !in s.inflight }

  predicate Releases(s: State, ev: Event) { ev.Release? && Enabled(s, ev) }

  function Enter(s: State, j: nat, phase: Phase): State
    requires j in s.jobs
  {
    s.(jobs := s.jobs[j := s.jobs[j].(phase := phase)])
  }

  function Next(s: State, ev: Event): State {
    if !Enabled(s, ev) then s
    else match ev
      case Request(t) =>
        if t in s.inflight then s else State(s.inflight + {t}, s.jobs[s.next := Job(t, Admitted)], s.next + 1)
      case ThreadStarts(j) => Enter(s, j, Working)
      case ThreadFailsToStart(j) => Enter(s, j, Leaked)
      case BodyEnds(j, _) => Enter(s, j, Finishing)
      case Release(j) => s.(inflight := s.inflight - {s.jobs[j].tenant}, jobs := s.jobs - {j})
  }

  function Run(s: State, evs: seq<Event>): State
    decreases |evs|
  {
    if evs == [] then s else Run(Next(s, evs[0]), evs[1..])
  }

  /** The set holds exactly the tenants of the jobs under way, and no two of those have the same tenant. */
  ghost predicate Exclusive(s: State) {
    && (forall j | j in s.jobs :: j < s.next && s.jobs[j].tenant in s.inflight)
    && (forall t | t in s.inflight :: exists j :: j in s.jobs && s.jobs[j].tenant == t)
    && (forall i, j | i in s.jobs && j in s.jobs && s.jobs[i].tenant == s.jobs[j].tenant :: i == j)
  }

  lemma EnterKeepsExclusive(s: State, j: nat, phase: Phase)
    requires Exclusive(s) && j in s.jobs
    ensures Exclusive(Enter(s, j, phase))
  {
    var s' := Enter(s, j, phase);
    forall t | t in s'.inflight ensures exists i :: i in s'.jobs && s'.jobs[i].tenant == t {
      var i :| i in s.jobs && s.jobs[i].tenant == t;
      assert i in s'.jobs && s'.jobs[i].tenant == t;
    }
  }

  lemma RequestKeepsExclusive(s: State, t: TenantId)
    requires Exclusive(s) && t !in s.inflight
    ensures Exclusive(Next(s, Request(t)))
  {
    var s' := Next(s, Request(t));
    forall u | u in s'.inflight ensures exists i :: i in s'.jobs && s'.jobs[i].tenant == u {
      if u == t {
        assert s'.jobs[s.next].tenant == u;
      } else {
        var i :| i in s.jobs && s.jobs[i].tenant == u;
        assert i in s'.jobs && s'.jobs[i].tenant == u;
      }
    }
  }

  lemma ReleaseKeepsExclusive(s: State, j: nat)
    requires Exclusive(s) && Enabled(s, Release(j))
    ensures Exclusive(Next(s, Release(j)))
  {
    var s' := Next(s, Release(j));
    forall t | t in s'.inflight ensures exists i :: i in s'.jobs && s'.jobs[i].tenant == t {
      var i :| i in s.jobs && s.jobs[i].tenant == t;
      assert i in s'.jobs && s'.jobs[i].tenant == t;
    }
  }

  lemma StepKeepsExclusive(s: State, ev: Event)
    requires Exclusive(s)
    ensures Exclusive(Next(s, ev))
  {
    if Enabled(s, ev) {
      match ev
      case Request(t) => if t !in s.inflight { RequestKeepsExclusive(s, t); }
      case ThreadStarts(j) => EnterKeepsExclusive(s, j, Working);
      case ThreadFailsToStart(j) => EnterKeepsExclusive(s, j, Leaked);
      case BodyEnds(j, _) => EnterKeepsExclusive(s, j, Finishing);
      case Release(j) => ReleaseKeepsExclusive(s, j);
    }
    hide Exclusive;
  }

  lemma {:induction false} RunKeepsExclusive(s: State, evs: seq<Event>)
    requires Exclusive(s)
    ensures Exclusive(Run(s, evs))
    decreases |evs|
  {
    if evs != [] {
      StepKeepsExclusive(s, evs[0]);
      RunKeepsExclusive(Next(s, evs[0]), evs[1..]);
    }
  }

  /** In every interleaving from the start: no two jobs have the same tenant, and a tenant is in the set exactly from
      its job's admission to the end of that job's finally block, whether the job's body returned or raised. */
  lemma AtMostOneJob(evs: seq<Event>)
    ensures var s := Run(INITIAL, evs);
            && (forall i, j | i in s.jobs && j in s.jobs && s.jobs[i].tenant == s.jobs[j].tenant :: i == j)
            && (forall t :: t in s.inflight <==> exists j :: j in s.jobs && s.jobs[j].tenant == t)
  {
    RunKeepsExclusive(INITIAL, evs);
  }

  function Admissions(s: State, evs: seq<Event>, t: TenantId): nat
    decreases |evs|
  {
    if evs == [] then 0
    else (if Admits(s, evs[0]) && evs[0].tenant == t then 1 else 0) + Admissions(Next(s, evs[0]), evs[1..], t)
  }

  function Completions(s: State, evs: seq<Event>, t: TenantId): nat
    decreases |evs|
  {
    if evs == [] then 0
    else (if Releases(s, evs[0]) && s.jobs[evs[0].job].tenant == t then 1 else 0)
         + Completions(Next(s, evs[0]), evs[1..], t)
  }

  function Held(s: State, t: TenantId): nat { if t in s.inflight then 1 else 0 }

  /** Conservation: over any trace, admissions of a tenant exceed completions by exactly its place in the set, so jobs
      of one tenant never overlap. */
  lemma {:induction false} AdmissionsBalance(s: State, evs: seq<Event>, t: TenantId)
    requires Exclusive(s)
    ensures Held(s, t) + Admissions(s, evs, t) == Completions(s, evs, t) + Held(Run(s, evs), t)
    decreases |evs|
  {
    if evs != [] {
      StepKeepsExclusive(s, evs[0]);
      AdmissionsBalance(Next(s, evs[0]), evs[1..], t);
    }
  }

  /** A thread that cannot be started blocks its tenant for good: no later request for it is ever admitted. */
  lemma {:induction false} LeakBlocksForever(s: State, evs: seq<Event>, j: nat)
    requires Exclusive(s) && j in s.jobs && s.jobs[j].phase == Leaked
    ensures j in Run(s, evs).jobs && Run(s, evs).jobs[j] == s.jobs[j]
    ensures s.jobs[j].tenant in Run(s, evs).inflight && Admissions(s, evs, s.jobs[j].tenant) == 0
    decreases |evs|
  {
    if evs != [] {
      StepKeepsExclusive(s, evs[0]);
      LeakBlocksForever(Next(s, evs[0]), evs[1..], j);
    }
  }

  /** The failing input: one request whose thread cannot be started. */
  lemma LeakIsReachable(t: TenantId)
    ensures var s := Run(INITIAL, [Request(t), ThreadFailsToStart(0)]);
            0 in s.jobs && s.jobs[0] == Job(t, Leaked)
  {
    var evs := [Request(t), ThreadFailsToStart(0)];
    assert evs[1..] == [ThreadFailsToStart(0)] && evs[1..][1..] == [];
    var s1 := Next(INITIAL, evs[0]);
    assert 0 in s1.jobs && s1.jobs[0] == Job(t, Admitted);
    var s2 := Next(s1, ThreadFailsToStart(0));
    assert Run(s2, []) == s2;
    assert Run(s1, [ThreadFailsToStart(0)]) == Run(s2, []) by { assert [ThreadFailsToStart(0)][1..] == []; }
  }

  lemma AdmissionsStep(s: State, ev: Event, rest: seq<Event>, t: TenantId)
    requires Admissions(Next(s, ev), rest, t) > 0
    ensures Admissions(s, [ev] + rest, t) > 0
  {
    assert ([ev] + rest)[1..] == rest;
  }

  lemma Readmits(s: State, t: TenantId) returns (evs: seq<Event>)
    requires t !in s.inflight
    ensures Admissions(s, evs, t) > 0
  {
    evs := [Request(t)];
    assert evs[1..] == [];
  }

  /** A job that has not leaked can finish, and then its tenant can be admitted again. */
  lemma Drains(s: State, j: nat) returns (evs: seq<Event>)
    requires Exclusive(s) && j in s.jobs && !s.jobs[j].phase.Leaked?
    ensures Admissions(s, evs, s.jobs[j].tenant) > 0
    decreases match s.jobs[j].phase case Admitted => 2 case Working => 1 case _ => 0
  {
    var t := s.jobs[j].tenant;
    if s.jobs[j].phase.Finishing? {
      var rest := Readmits(Next(s, Release(j)), t);
      AdmissionsStep(s, Release(j), rest, t);
      evs := [Release(j)] + rest;
    } else {
      var ev := if s.jobs[j].phase.Admitted? then ThreadStarts(j) else BodyEnds(j, false);
      StepKeepsExclusive(s, ev);
      var rest := Drains(Next(s, ev), j);
      AdmissionsStep(s, ev, rest, t);
      evs := [ev] + rest;
    }
  }

  /** A tenant can be admitted again, on some continuation, if and only if no leaked job holds it. */
  lemma ReadmittedUnlessLeaked(s: State, t: TenantId)
    requires Exclusive(s)
    ensures (exists evs :: Admissions(s, evs, t) > 0) <==> !(exists j :: j in s.jobs && s.jobs[j] == Job(t, Leaked))
  {
    if j :| j in s.jobs && s.jobs[j] == Job(t, Leaked) {
      forall evs ensures Admissions(s, evs, t) == 0 {
        LeakBlocksForever(s, evs, j);
      }
    } else if t in s.inflight {
      var j :| j in s.jobs && s.jobs[j].tenant == t;
      assert s.jobs[j] == Job(t, s.jobs[j].phase);
      var evs := Drains(s, j);
    } else {
      var evs := Readmits(s, t);
    }
  }

  /** Whether a job's body returns or raises, its tenant is free again after the finally block, and nobody else's place
      is touched. */
  lemma BodyEndsReleases(s: State, j: nat, raised: bool)
    requires Exclusive(s) && j in s.jobs && s.jobs[j].phase == Working
    ensures var t, after := s.jobs[j].tenant, Run(s, [BodyEnds(j, raised), Release(j)]);
            && after.inflight == s.inflight - {t} && after.jobs == s.jobs - {j}
            && Admits(after, Request(t))
  {
    var mid := Next(s, BodyEnds(j, raised));
    assert [BodyEnds(j, raised), Release(j)][1..] == [Release(j)] && [Release(j)][1..] == [];
    assert Run(Next(mid, Release(j)), []) == Next(mid, Release(j));
    assert Next(mid, Release(j)).jobs == s.jobs - {j};
  }

  // ---- the set itself ----

  class InFlight {
    var inflight: set<TenantId>

    constructor ()
      ensures inflight == {}
    {
      inflight := {};
    }

    /** The critical section of `_start_job`. */
    method Admit(x: TenantId) returns (admitted: bool)
      modifies this
      ensures admitted <==> x !in old(inflight)
      ensures forall jobs, next :: inflight == Next(State(old(inflight), jobs, next), Request(x)).inflight
    {
      if x in inflight {
        return false;
      }
      inflight := inflight + {x};
      admitted := true;
    }

    /** The finally block of the job's thread. */
    method Finish(x: TenantId)
      modifies this
      ensures forall jobs: map<nat, Job>, j, next | j in jobs && jobs[j] == Job(x, Finishing) ::
                inflight == Next(State(old(inflight), jobs, next), Release(j)).inflight
    {
      inflight := inflight - {x};
    }
  }
}
