/** `lifecycle.delete_tenant` and `pg_admin.drop_postgres_role` as the program runs them. Each method follows the
    deletion machine of module Teardown step for step; `d` is the machine's configuration where the method stands. */
module Lifecycle {
  import opened Names
  import opened Postgres
  import opened Cloud
  import opened Registry
  import opened Teardown
  import opened TeardownProofs
  import Retry

  /** Stands where no exception is under way. */
  const NOTHING_YET: Retry.Failure := Retry.OtherException

  function Why(flow: Result): Retry.Failure { if flow.Err? then flow.error else NOTHING_YET }

  /** Inside the revocation an exception matters only once the last try has failed. */
  function RevokeWhy(d: Config): Retry.Failure { if d.pc == Handler then Retry.OnboardError else NOTHING_YET }

  /** How a run ends from here: configuration, faults left over, and the exception it raises, if it raises one. */
  function Ends(e: Outputs, x: TenantId, c: Config, fs: seq<Fault>, why: Retry.Failure)
    : (Config, seq<Fault>, Retry.Failure)
    requires WellFormed(c.pc)
  {
    (RunToIdle(e, x, c, fs).0, RunToIdle(e, x, c, fs).1, RunError(e, x, c, fs, why))
  }

  /** Inside the job's pod a failing statement is neither: the pod fails. */
  datatype PodFlow = ScriptDone | NextLine | PodFails | GiveUp | PodDead

  /** The machine stands where the program stands. */
  predicate At(d: Config, rows: Rows, w: World) { d.s == State(rows, w) && WellFormed(d.pc) }

  /** A registry write that the fault schedule may break. */
  method SaveRow(store: TenantStore, cloud: CloudApi, e: Outputs, x: TenantId, p: Patch) returns (f: Fault)
    requires Accepts(store.rows, x, p, None)
    modifies store, cloud`faults
    ensures f == Next(old(cloud.faults)) && cloud.faults == Rest(old(cloud.faults))
    ensures store.rows == if Took(f) then Put(old(store.rows), x, p, e.now) else old(store.rows)
  {
    f := Next(cloud.faults);
    cloud.faults := Rest(cloud.faults);
    if Took(f) {
      var _ := store.Upsert(x, p, None, e.now);
    }
  }

  /** One step of the machine, unrolled from a run. */
  lemma OneStep(e: Outputs, x: TenantId, c: Config, fs: seq<Fault>)
    requires WellFormed(c.pc) && Underway(c.pc)
    ensures var f, d := Next(fs), Step(e, x, c, Next(fs));
            && WellFormed(d.pc) && d.target == c.target && (d.ending == Died <==> f.Dies?)
            && Ends(e, x, d, Rest(fs), if d.pc == Handler then Cause(c, f) else NOTHING_YET)
               == Ends(e, x, c, fs, NOTHING_YET)
            && d.s == (if Took(f) && Possible(e, x, c) then Effect(e, x, c) else c.s)
            && d.pc == (if f.Dies? then Idle
                        else if f.Fine? && Possible(e, x, c) then Onward(x, c) else Fallback(x, c, f))
  {
    StepDescends(e, x, c, Next(fs));
    hide Effect, Possible, Onward, Fallback, Rank, WellFormed, Cause;
  }

  method WriteCheckpoint(store: TenantStore, cloud: CloudApi, e: Outputs, x: TenantId, step: DeleteStep,
          ghost c: Config)
    returns (flow: Result, ghost d: Config)
    requires ValidId(x) && At(c, store.rows, cloud.world) && IsMark(c.pc) && RowInAttempt(x, c)
    requires Effect(e, x, c) == WriteRow(e, c.s, x, Checkpoint(step))
    modifies store, cloud`faults
    ensures At(d, store.rows, cloud.world) && d.target == c.target && RowInAttempt(x, d)
    ensures Ends(e, x, d, cloud.faults, Why(flow)) == Ends(e, x, c, old(cloud.faults), NOTHING_YET)
    ensures d.pc == match flow case Ok => Onward(x, c) case Err(_) => Handler case Crash => Idle
    ensures flow.Crash? ==> d.ending == Died
  {
    StepKeepsRow(e, x, c, Next(cloud.faults));
    OneStep(e, x, c, cloud.faults);
    hide Step, Ends, Effect, Onward;
    var f := SaveRow(store, cloud, e, x, Checkpoint(step));
    d := Step(e, x, c, f);
    flow := if f.Fine? then Ok else if f.Dies? then Crash else Err(f.error);
  }

  method DisableApplicationAccess(store: TenantStore, cloud: CloudApi, e: Outputs, x: TenantId, ghost c: Config)
    returns (flow: Result, ghost d: Config)
    requires At(c, store.rows, cloud.world) && c.pc == ScaleDown && RowInAttempt(x, c)
    modifies cloud
    ensures At(d, store.rows, cloud.world) && d.target == c.target && RowInAttempt(x, d)
    ensures Ends(e, x, d, cloud.faults, Why(flow)) == Ends(e, x, c, old(cloud.faults), NOTHING_YET)
    ensures d.pc == match flow case Ok => MarkAccess case Err(_) => Handler case Crash => Idle
    ensures flow.Crash? ==> d.ending == Died
  {
    OneStep(e, x, c, cloud.faults);
    StepKeepsRow(e, x, c, Next(cloud.faults));
    d := Step(e, x, c, Next(cloud.faults));
    hide Ends, Step;
    var f := cloud.Call(ScaleToZero(cloud.world, x));
    if f.Dies? {
      return Crash, d;
    }
    if f.Raises? {
      return Err(f.error), d;
    }
    OneStep(e, x, d, cloud.faults);
    StepKeepsRow(e, x, d, Next(cloud.faults));
    d := Step(e, x, d, Next(cloud.faults));
    f := cloud.Call(RemoveIngress(cloud.world, x));
    flow := if f.Dies? then Crash else if f.Raises? then Err(f.error) else Ok;
  }

  /** One SQL statement of the script, on an autocommit connection inside the job's pod. */
  method Statement(store: TenantStore, cloud: CloudApi, e: Outputs, x: TenantId, sql: Sql, ghost c: Config)
    returns (flow: PodFlow, ghost d: Config)
    requires At(c, store.rows, cloud.world) && c.pc.Line? && c.pc.line != 1 && sql == ScriptLine(x, c.pc.line)
    requires RowInAttempt(x, c)
    modifies cloud
    ensures At(d, store.rows, cloud.world) && d.target == c.target && RowInAttempt(x, d)
    ensures Ends(e, x, d, cloud.faults, RevokeWhy(d)) == Ends(e, x, c, old(cloud.faults), NOTHING_YET)
    ensures flow != ScriptDone && (flow.PodDead? ==> d.ending == Died)
    ensures d.pc == match flow
                    case NextLine => Onward(x, c)
                    case PodFails => PodFailed(c.pc.attempt, c.pc.pod)
                    case GiveUp => NextTry(c.pc.attempt)
                    case _ => Idle
  {
    OneStep(e, x, c, cloud.faults);
    StepKeepsRow(e, x, c, Next(cloud.faults));
    d := Step(e, x, c, Next(cloud.faults));
    hide Ends, Step;
    var succeeds := Runs(cloud.world.db, sql);
    var f := cloud.Call(if succeeds then cloud.world.(db := Apply(cloud.world.db, sql)) else cloud.world);
    hide Runs, Apply, Onward;
    flow := if f.Dies? then PodDead else if f.Raises? then GiveUp
            else if f.Fine? && succeeds then NextLine else PodFails;
  }

  /** The drop-role script: policy first, then login and password, then grants, then the role itself. */
  method RunDropScript(store: TenantStore, cloud: CloudApi, e: Outputs, x: TenantId, ghost c: Config)
    returns (flow: PodFlow, ghost d: Config)
    requires At(c, store.rows, cloud.world) && c.pc.Line? && c.pc.line == 0 && RowInAttempt(x, c)
    modifies cloud
    ensures At(d, store.rows, cloud.world) && d.target == c.target && RowInAttempt(x, d)
    ensures Ends(e, x, d, cloud.faults, RevokeWhy(d)) == Ends(e, x, c, old(cloud.faults), NOTHING_YET)
    ensures flow != NextLine && (flow.PodDead? ==> d.ending == Died)
    ensures d.pc == match flow
                    case ScriptDone => AwaitJob(c.pc.attempt)
                    case PodFails => PodFailed(c.pc.attempt, c.pc.pod)
                    case GiveUp => NextTry(c.pc.attempt)
                    case _ => Idle
  {
    hide Ends, Step, Effect, Possible, RowInAttempt, Fallback;
    flow, d := Statement(store, cloud, e, x, DropPolicy(x), c);
    if flow != NextLine {
      return;
    }
    var present: bool;
    flow, present, d := LookUpRole(store, cloud, e, x, d);
    if flow != NextLine || !present {
      return;
    }
    flow, d := RevokeAndDrop(store, cloud, e, x, d);
  }

  method LookUpRole(store: TenantStore, cloud: CloudApi, e: Outputs, x: TenantId, ghost c: Config)
    returns (flow: PodFlow, present: bool, ghost d: Config)
    requires At(c, store.rows, cloud.world) && c.pc.Line? && c.pc.line == 1 && RowInAttempt(x, c)
    modifies cloud
    ensures At(d, store.rows, cloud.world) && d.target == c.target && RowInAttempt(x, d)
    ensures Ends(e, x, d, cloud.faults, RevokeWhy(d)) == Ends(e, x, c, old(cloud.faults), NOTHING_YET)
    ensures flow.PodDead? ==> d.ending == Died
    ensures flow.NextLine? ==> present
    ensures d.pc == match flow
                    case ScriptDone => AwaitJob(c.pc.attempt)
                    case NextLine => Line(c.pc.attempt, c.pc.pod, 2)
                    case PodFails => PodFailed(c.pc.attempt, c.pc.pod)
                    case GiveUp => NextTry(c.pc.attempt)
                    case _ => Idle
  {
    OneStep(e, x, c, cloud.faults);
    StepKeepsRow(e, x, c, Next(cloud.faults));
    d := Step(e, x, c, Next(cloud.faults));
    hide Ends, Step;
    var f := cloud.Call(cloud.world);
    present := TenantRole(x) in cloud.world.db.roles;
    flow := if f.Dies? then PodDead else if f.Raises? then GiveUp else if f.Fails? then PodFails
            else if present then NextLine else ScriptDone;
  }

  /** Login off and password rotated first, so that a failing drop still leaves an unusable role. */
  method RevokeAndDrop(store: TenantStore, cloud: CloudApi, e: Outputs, x: TenantId, ghost c: Config)
    returns (flow: PodFlow, ghost d: Config)
    requires At(c, store.rows, cloud.world) && c.pc.Line? && c.pc.line == 2 && RowInAttempt(x, c)
    modifies cloud
    ensures At(d, store.rows, cloud.world) && d.target == c.target && RowInAttempt(x, d)
    ensures Ends(e, x, d, cloud.faults, RevokeWhy(d)) == Ends(e, x, c, old(cloud.faults), NOTHING_YET)
    ensures flow != NextLine && (flow.PodDead? ==> d.ending == Died)
    ensures d.pc == match flow
                    case ScriptDone => AwaitJob(c.pc.attempt)
                    case PodFails => PodFailed(c.pc.attempt, c.pc.pod)
                    case GiveUp => NextTry(c.pc.attempt)
                    case _ => Idle
  {
    hide Ends, Step, Effect, Possible, RowInAttempt, Fallback;
    flow, d := Statement(store, cloud, e, x, NoLogin(TenantRole(x)), c);
    if flow != NextLine {
      return;
    }
    flow, d := Statement(store, cloud, e, x, AlterPassword(TenantRole(x), ROTATED), d);
    if flow != NextLine {
      return;
    }
    flow, d := StripAndDrop(store, cloud, e, x, d);
  }

  method StripAndDrop(store: TenantStore, cloud: CloudApi, e: Outputs, x: TenantId, ghost c: Config)
    returns (flow: PodFlow, ghost d: Config)
    requires At(c, store.rows, cloud.world) && c.pc.Line? && c.pc.line == 4 && RowInAttempt(x, c)
    modifies cloud
    ensures At(d, store.rows, cloud.world) && d.target == c.target && RowInAttempt(x, d)
    ensures Ends(e, x, d, cloud.faults, RevokeWhy(d)) == Ends(e, x, c, old(cloud.faults), NOTHING_YET)
    ensures flow != NextLine && (flow.PodDead? ==> d.ending == Died)
    ensures d.pc == match flow
                    case ScriptDone => AwaitJob(c.pc.attempt)
                    case PodFails => PodFailed(c.pc.attempt, c.pc.pod)
                    case GiveUp => NextTry(c.pc.attempt)
                    case _ => Idle
  {
    hide Ends, Step, Effect, Possible, RowInAttempt, Fallback;
    flow, d := Statement(store, cloud, e, x, RevokeTable(TenantRole(x)), c);
    if flow != NextLine {
      return;
    }
    flow, d := Statement(store, cloud, e, x, RevokeSequence(TenantRole(x)), d);
    if flow != NextLine {
      return;
    }
    flow, d := Statement(store, cloud, e, x, RevokeSchema(TenantRole(x)), d);
    if flow != NextLine {
      return;
    }
    flow, d := Statement(store, cloud, e, x, RevokeDatabase(TenantRole(x)), d);
    if flow != NextLine {
      return;
    }
    flow, d := Statement(store, cloud, e, x, DropRole(TenantRole(x)), d);
    if flow == NextLine {
      flow := ScriptDone;
    }
  }

  lemma StartingJob(e: Outputs, x: TenantId, c: Config, f: Fault)
    requires c.pc.StartJob?
    ensures var d := Step(e, x, c, f);
            && d.target == c.target && d.s == c.s && (f.Dies? ==> d.ending == Died)
            && d.pc == if f.Dies? then Idle
                       else if f.Fine? && JobCanStart(e, c.s.world) then Line(c.pc.attempt, 0, 0)
                       else NextTry(c.pc.attempt)
  {
  }

  /** The job's pods: another one runs the script only after one has failed. */
  method RunPods(store: TenantStore, cloud: CloudApi, e: Outputs, x: TenantId, ghost c: Config)
    returns (outcome: PodFlow, ghost d: Config)
    requires At(c, store.rows, cloud.world) && c.pc.Line? && c.pc.pod == 0 && c.pc.line == 0 && RowInAttempt(x, c)
    modifies cloud
    ensures At(d, store.rows, cloud.world) && d.target == c.target && RowInAttempt(x, d)
    ensures Ends(e, x, d, cloud.faults, RevokeWhy(d)) == Ends(e, x, c, old(cloud.faults), NOTHING_YET)
    ensures outcome != NextLine && (outcome.PodDead? ==> d.ending == Died)
    ensures d.pc == match outcome
                    case ScriptDone => AwaitJob(c.pc.attempt)
                    case PodDead => Idle
                    case _ => NextTry(c.pc.attempt)
  {
    ghost var attempt := c.pc.attempt;
    hide Ends, Step, RowInAttempt, NextTry;
    var pod := 0;
    outcome, d := PodFails, c;
    while pod < JOB_PODS && outcome == PodFails
      invariant 0 <= pod <= JOB_PODS
      invariant outcome != NextLine
      invariant At(d, store.rows, cloud.world) && d.target == c.target && RowInAttempt(x, d)
      invariant Ends(e, x, d, cloud.faults, RevokeWhy(d)) == Ends(e, x, c, old(cloud.faults), NOTHING_YET)
      invariant outcome.PodDead? ==> d.ending == Died
      invariant d.pc == match outcome
                        case ScriptDone => AwaitJob(attempt)
                        case PodFails => if pod < JOB_PODS then Line(attempt, pod, 0) else NextTry(attempt)
                        case GiveUp => NextTry(attempt)
                        case _ => Idle
    {
      outcome, d := RunDropScript(store, cloud, e, x, d);
      pod := pod + 1;
    }
  }

  /** Starts the job in the host's namespace, lets its pods run the script, and waits for it to complete. */
  method DropPostgresRole(store: TenantStore, cloud: CloudApi, e: Outputs, x: TenantId, ghost c: Config)
    returns (flow: Result, ghost d: Config)
    requires At(c, store.rows, cloud.world) && c.pc.StartJob? && RowInAttempt(x, c)
    modifies cloud
    ensures At(d, store.rows, cloud.world) && d.target == c.target && RowInAttempt(x, d)
    ensures Ends(e, x, d, cloud.faults, RevokeWhy(d)) == Ends(e, x, c, old(cloud.faults), NOTHING_YET)
    ensures flow.Crash? ==> d.ending == Died
    ensures d.pc == match flow case Ok => MarkRevoked case Err(_) => NextTry(c.pc.attempt) case Crash => Idle
  {
    ghost var attempt := c.pc.attempt;
    OneStep(e, x, c, cloud.faults);
    StepKeepsRow(e, x, c, Next(cloud.faults));
    StartingJob(e, x, c, Next(cloud.faults));
    d := Step(e, x, c, Next(cloud.faults));
    hide Ends, Step, RowInAttempt, NextTry, RevokeWhy;
    var f := cloud.Call(cloud.world);
    if f.Dies? {
      return Crash, d;
    }
    if !f.Fine? || !ValidId(RevokeHost(e)) || !e.migrator || RevokeHost(e) !in cloud.world.spaces || !e.rdsSecret {
      return Err(Retry.OnboardError), d;
    }
    var outcome;
    outcome, d := RunPods(store, cloud, e, x, d);
    if outcome == PodDead {
      return Crash, d;
    }
    if outcome != ScriptDone {
      return Err(Retry.OnboardError), d;
    }
    flow, d := AwaitCompletion(store, cloud, e, x, d);
  }

  method AwaitCompletion(store: TenantStore, cloud: CloudApi, e: Outputs, x: TenantId, ghost c: Config)
    returns (flow: Result, ghost d: Config)
    requires At(c, store.rows, cloud.world) && c.pc.AwaitJob? && RowInAttempt(x, c)
    modifies cloud
    ensures At(d, store.rows, cloud.world) && d.target == c.target && RowInAttempt(x, d)
    ensures Ends(e, x, d, cloud.faults, RevokeWhy(d)) == Ends(e, x, c, old(cloud.faults), NOTHING_YET)
    ensures flow.Crash? ==> d.ending == Died
    ensures d.pc == match flow case Ok => MarkRevoked case Err(_) => NextTry(c.pc.attempt) case Crash => Idle
  {
    OneStep(e, x, c, cloud.faults);
    StepKeepsRow(e, x, c, Next(cloud.faults));
    d := Step(e, x, c, Next(cloud.faults));
    hide Ends, Step;
    var f := cloud.Call(cloud.world);
    flow := if f.Dies? then Crash else if f.Fine? then Ok else Err(Retry.OnboardError);
  }

  /** Up to three tries, sleeping 5 and then 10 seconds in between. `outcomes` says which tries succeeded. */
  method RevokePostgresRole(store: TenantStore, cloud: CloudApi, e: Outputs, x: TenantId, ghost c: Config)
    returns (flow: Result, tries: nat, slept: int, ghost outcomes: seq<bool>, ghost d: Config)
    requires At(c, store.rows, cloud.world) && c.pc == StartJob(0) && RowInAttempt(x, c)
    modifies cloud
    ensures At(d, store.rows, cloud.world) && d.target == c.target && RowInAttempt(x, d)
    ensures Ends(e, x, d, cloud.faults, Why(flow)) == Ends(e, x, c, old(cloud.faults), NOTHING_YET)
    ensures flow.Crash? ==> d.ending == Died
    ensures d.pc == match flow case Ok => MarkRevoked case Err(_) => Handler case Crash => Idle
    ensures flow.Err? ==> flow.error == Retry.OnboardError
    ensures !flow.Crash? ==> Retry.Persisted(outcomes, REVOKE_ATTEMPTS, tries, flow.Ok?) && slept == Retry.Paused(tries)
  {
    hide Ends, RowInAttempt;
    d := c;
    slept := 0;
    tries := 0;
    outcomes := [];
    while tries < REVOKE_ATTEMPTS
      invariant 0 <= tries <= REVOKE_ATTEMPTS && |outcomes| == tries && forall i | 0 <= i < tries :: !outcomes[i]
      invariant At(d, store.rows, cloud.world) && d.target == c.target && RowInAttempt(x, d)
      invariant Ends(e, x, d, cloud.faults, RevokeWhy(d)) == Ends(e, x, c, old(cloud.faults), NOTHING_YET)
      invariant d.pc == if tries < REVOKE_ATTEMPTS then StartJob(tries) else Handler
      invariant slept == if tries < REVOKE_ATTEMPTS then Retry.Paused(tries + 1) else Retry.Paused(tries)
    {
      flow, d := DropPostgresRole(store, cloud, e, x, d);
      tries := tries + 1;
      outcomes := outcomes + [flow.Ok?];
      if !flow.Err? {
        return;
      }
      if tries < REVOKE_ATTEMPTS {
        slept := slept + 5 * tries;
      }
    }
    flow := Err(Retry.OnboardError);
  }

  /** A missing release or namespace is fine; a live namespace must go away. */
  method DeleteKubernetes(store: TenantStore, cloud: CloudApi, e: Outputs, x: TenantId, ghost c: Config)
    returns (flow: Result, ghost d: Config)
    requires At(c, store.rows, cloud.world) && c.pc == Uninstall && RowInAttempt(x, c)
    modifies cloud
    ensures At(d, store.rows, cloud.world) && d.target == c.target && RowInAttempt(x, d)
    ensures Ends(e, x, d, cloud.faults, Why(flow)) == Ends(e, x, c, old(cloud.faults), NOTHING_YET)
    ensures d.pc == match flow case Ok => MarkK8s case Err(_) => Handler case Crash => Idle
    ensures flow.Crash? ==> d.ending == Died
  {
    OneStep(e, x, c, cloud.faults);
    StepKeepsRow(e, x, c, Next(cloud.faults));
    d := Step(e, x, c, Next(cloud.faults));
    hide Ends, Step;
    var f := cloud.Call(UninstallRelease(cloud.world, x));
    if f.Dies? {
      return Crash, d;
    }
    if f.Raises? {
      return Err(f.error), d;
    }
    OneStep(e, x, d, cloud.faults);
    StepKeepsRow(e, x, d, Next(cloud.faults));
    d := Step(e, x, d, Next(cloud.faults));
    var present := x in cloud.world.spaces;
    f := cloud.Call(RemoveSpace(cloud.world, x));
    flow := if f.Dies? then Crash else if f.Raises? then Err(f.error)
            else if f.Fails? && present then Err(Retry.KubernetesRetryable) else Ok;
  }

  lemma InlineStep(e: Outputs, x: TenantId, c: Config, f: Fault)
    requires c.pc == DropInlinePolicy && c.target.Ours?
    ensures var d := Step(e, x, c, f);
            && d.target == c.target && (f.Dies? ==> d.ending == Died)
            && d.pc == (if f.Dies? then Idle else if f.Fine? then DropIamRole else Handler)
            && d.s.rows == c.s.rows
            && d.s.world == if Took(f) then RemoveInline(c.s.world, c.target.role, InlinePolicyName(e.prefix, x))
                            else c.s.world
  {
    hide RemoveInline, InlinePolicyName;
  }

  lemma RoleStep(e: Outputs, x: TenantId, c: Config, f: Fault)
    requires c.pc == DropIamRole && c.target.Ours?
    ensures var d, w, role := Step(e, x, c, f), c.s.world, c.target.role;
            var conflict := role in w.iam && w.iam[role].inline != map[];
            && d.target == c.target && (f.Dies? ==> d.ending == Died)
            && d.pc == (if f.Dies? then Idle else if f.Fine? && !conflict then MarkIam else Handler)
            && d.s.rows == c.s.rows && d.s.world == if Took(f) && !conflict then RemoveRole(w, role) else w
  {
    hide RemoveRole;
  }

  /** Inline policy, then the role; one that is already gone is tolerated, one that holds foreign policies is not. */
  method DeleteTenantIrsa(store: TenantStore, cloud: CloudApi, e: Outputs, x: TenantId, role: string, ghost c: Config)
    returns (flow: Result, ghost d: Config)
    requires At(c, store.rows, cloud.world) && c.pc == DropInlinePolicy && RowInAttempt(x, c)
    requires c.target.Ours? && c.target.role == role
    modifies cloud
    ensures At(d, store.rows, cloud.world) && d.target == c.target && RowInAttempt(x, d)
    ensures Ends(e, x, d, cloud.faults, Why(flow)) == Ends(e, x, c, old(cloud.faults), NOTHING_YET)
    ensures d.pc == match flow case Ok => MarkIam case Err(_) => Handler case Crash => Idle
    ensures flow.Crash? ==> d.ending == Died
  {
    OneStep(e, x, c, cloud.faults);
    StepKeepsRow(e, x, c, Next(cloud.faults));
    InlineStep(e, x, c, Next(cloud.faults));
    d := Step(e, x, c, Next(cloud.faults));
    hide Ends, Step, RowInAttempt, RemoveInline, RemoveRole;
    var f := cloud.Call(RemoveInline(cloud.world, role, InlinePolicyName(e.prefix, x)));
    if f.Dies? {
      return Crash, d;
    }
    if !f.Fine? {
      return Err(f.error), d;
    }
    OneStep(e, x, d, cloud.faults);
    StepKeepsRow(e, x, d, Next(cloud.faults));
    RoleStep(e, x, d, Next(cloud.faults));
    d := Step(e, x, d, Next(cloud.faults));
    var conflict := role in cloud.world.iam && cloud.world.iam[role].inline != map[];
    f := cloud.Call(if conflict then cloud.world else RemoveRole(cloud.world, role));
    flow := if f.Dies? then Crash else if !f.Fine? then Err(f.error)
            else if conflict then Err(Retry.PermanentProvisioning) else Ok;
  }

  method DeleteTenantSecret(store: TenantStore, cloud: CloudApi, e: Outputs, x: TenantId, secret: string,
          ghost c: Config)
    returns (flow: Result, ghost d: Config)
    requires At(c, store.rows, cloud.world) && c.pc == DropSecret && RowInAttempt(x, c)
    requires c.target.Ours? && c.target.secret == secret
    modifies cloud
    ensures At(d, store.rows, cloud.world) && d.target == c.target && RowInAttempt(x, d)
    ensures Ends(e, x, d, cloud.faults, Why(flow)) == Ends(e, x, c, old(cloud.faults), NOTHING_YET)
    ensures d.pc == match flow case Ok => MarkSecret case Err(_) => Handler case Crash => Idle
    ensures flow.Crash? ==> d.ending == Died
  {
    OneStep(e, x, c, cloud.faults);
    StepKeepsRow(e, x, c, Next(cloud.faults));
    d := Step(e, x, c, Next(cloud.faults));
    hide Ends, Step;
    var f := cloud.Call(RemoveSecret(cloud.world, secret, e.recoveryWindow));
    flow := if f.Dies? then Crash else if f.Fine? then Ok else Err(f.error);
  }

  method ReadTofuOutputs(store: TenantStore, cloud: CloudApi, e: Outputs, x: TenantId, ghost c: Config)
    returns (flow: Result, ghost d: Config)
    requires At(c, store.rows, cloud.world) && c.pc == ReadOutputs && RowInAttempt(x, c)
    modifies cloud
    ensures At(d, store.rows, cloud.world) && d.target == c.target && RowInAttempt(x, d)
    ensures Ends(e, x, d, cloud.faults, Why(flow)) == Ends(e, x, c, old(cloud.faults), NOTHING_YET)
    ensures d.pc == match flow case Ok => StartJob(0) case Err(_) => Handler case Crash => Idle
    ensures flow.Crash? ==> d.ending == Died
  {
    OneStep(e, x, c, cloud.faults);
    StepKeepsRow(e, x, c, Next(cloud.faults));
    d := Step(e, x, c, Next(cloud.faults));
    hide Ends, Step;
    var f := cloud.Call(cloud.world);
    flow := if f.Dies? then Crash else if f.Fine? then Ok else Err(f.error);
  }

  method DropRegistryRow(store: TenantStore, cloud: CloudApi, e: Outputs, x: TenantId, ghost c: Config)
    returns (flow: Result, ghost d: Config)
    requires At(c, store.rows, cloud.world) && c.pc == DropRow && RowInAttempt(x, c)
    modifies store, cloud`faults
    ensures At(d, store.rows, cloud.world) && d.target == c.target && RowInAttempt(x, d)
    ensures Ends(e, x, d, cloud.faults, Why(flow)) == Ends(e, x, c, old(cloud.faults), NOTHING_YET)
    ensures d.pc == match flow case Ok => Idle case Err(_) => Handler case Crash => Idle
    ensures flow.Crash? ==> d.ending == Died
    ensures flow.Ok? ==> d.ending == Returned
  {
    OneStep(e, x, c, cloud.faults);
    StepKeepsRow(e, x, c, Next(cloud.faults));
    d := Step(e, x, c, Next(cloud.faults));
    var f := Next(cloud.faults);
    cloud.faults := Rest(cloud.faults);
    if Took(f) {
      var _ := store.Delete(x);
    }
    flow := if f.Dies? then Crash else if f.Fine? then Ok else Err(f.error);
    hide Ends;
  }

  /** Application access is cut and recorded. */
  method CutAccess(store: TenantStore, cloud: CloudApi, e: Outputs, x: TenantId, ghost c: Config)
    returns (flow: Result, ghost d: Config)
    requires ValidId(x) && At(c, store.rows, cloud.world) && c.pc == ScaleDown && RowInAttempt(x, c)
    modifies store, cloud
    ensures At(d, store.rows, cloud.world) && d.target == c.target && RowInAttempt(x, d)
    ensures Ends(e, x, d, cloud.faults, Why(flow)) == Ends(e, x, c, old(cloud.faults), NOTHING_YET)
    ensures d.pc == match flow case Ok => ReadOutputs case Err(_) => Handler case Crash => Idle
    ensures flow.Crash? ==> d.ending == Died
  {
    hide Ends, Step, RowInAttempt;
    flow, d := DisableApplicationAccess(store, cloud, e, x, c);
    if flow == Ok {
      flow, d := WriteCheckpoint(store, cloud, e, x, AccessDisabled, d);
    }
  }

  /** Authority is revoked and that is recorded. */
  method RevokeAuthority(store: TenantStore, cloud: CloudApi, e: Outputs, x: TenantId, ghost c: Config)
    returns (flow: Result, ghost d: Config)
    requires ValidId(x) && At(c, store.rows, cloud.world) && c.pc == ReadOutputs && RowInAttempt(x, c)
    modifies store, cloud
    ensures At(d, store.rows, cloud.world) && d.target == c.target && RowInAttempt(x, d)
    ensures Ends(e, x, d, cloud.faults, Why(flow)) == Ends(e, x, c, old(cloud.faults), NOTHING_YET)
    ensures d.pc == match flow case Ok => Uninstall case Err(_) => Handler case Crash => Idle
    ensures flow.Crash? ==> d.ending == Died
  {
    hide Ends, Step, RowInAttempt;
    flow, d := ReadTofuOutputs(store, cloud, e, x, c);
    if flow != Ok {
      return;
    }
    var tries, slept;
    ghost var outcomes;
    flow, tries, slept, outcomes, d := RevokePostgresRole(store, cloud, e, x, d);
    if flow != Ok {
      return;
    }
    flow, d := WriteCheckpoint(store, cloud, e, x, DbRevoked, d);
  }

  /** The AWS identity, only when the control plane owns it. */
  method DeleteIdentity(store: TenantStore, cloud: CloudApi, e: Outputs, x: TenantId, target: Target, ghost c: Config)
    returns (flow: Result, ghost d: Config)
    requires ValidId(x) && At(c, store.rows, cloud.world) && c.target == target && RowInAttempt(x, c)
    requires target.Ours? && c.pc == DropInlinePolicy
    modifies store, cloud
    ensures At(d, store.rows, cloud.world) && d.target == c.target && RowInAttempt(x, d)
    ensures Ends(e, x, d, cloud.faults, Why(flow)) == Ends(e, x, c, old(cloud.faults), NOTHING_YET)
    ensures d.pc == match flow case Ok => DropRow case Err(_) => Handler case Crash => Idle
    ensures flow.Crash? ==> d.ending == Died
  {
    hide Ends, Step, RowInAttempt;
    flow, d := DeleteTenantIrsa(store, cloud, e, x, target.role, c);
    if flow != Ok {
      return;
    }
    flow, d := WriteCheckpoint(store, cloud, e, x, IamDeleted, d);
    if flow != Ok {
      return;
    }
    flow, d := DeleteTenantSecret(store, cloud, e, x, target.secret, d);
    if flow != Ok {
      return;
    }
    flow, d := WriteCheckpoint(store, cloud, e, x, SecretDeleted, d);
  }

  method TearDown(store: TenantStore, cloud: CloudApi, e: Outputs, x: TenantId, target: Target, ghost c: Config)
    returns (flow: Result, ghost d: Config)
    requires ValidId(x) && At(c, store.rows, cloud.world) && c.pc == ScaleDown && RowInAttempt(x, c)
    requires c.target == target
    modifies store, cloud
    ensures At(d, store.rows, cloud.world) && RowInAttempt(x, d)
    ensures Ends(e, x, d, cloud.faults, Why(flow)) == Ends(e, x, c, old(cloud.faults), NOTHING_YET)
    ensures d.pc == match flow case Ok => Idle case Err(_) => Handler case Crash => Idle
    ensures flow.Crash? ==> d.ending == Died
    ensures flow.Ok? ==> d.ending == Returned
  {
    hide Ends, Step, RowInAttempt;
    flow, d := CutAccess(store, cloud, e, x, c);
    if flow != Ok {
      return;
    }
    flow, d := RevokeAuthority(store, cloud, e, x, d);
    if flow != Ok {
      return;
    }
    flow, d := DeleteKubernetes(store, cloud, e, x, d);
    if flow != Ok {
      return;
    }
    flow, d := WriteCheckpoint(store, cloud, e, x, K8sDeleted, d);
    if flow != Ok {
      return;
    }
    if target.Ours? {
      flow, d := DeleteIdentity(store, cloud, e, x, target, d);
      if flow != Ok {
        return;
      }
    }
    flow, d := DropRegistryRow(store, cloud, e, x, d);
  }

  /** An idle run is over; the handler takes one more write. */
  lemma LastWrite(e: Outputs, x: TenantId, d: Config, fs: seq<Fault>, why: Retry.Failure)
    requires WellFormed(d.pc) && !Underway(d.pc)
    ensures Ends(e, x, d, fs, why)
         == if d.pc == Idle then (d, fs, why)
            else (Step(e, x, d, Next(fs)), Rest(fs), if Next(fs).Fine? then why else Cause(d, Next(fs)))
  {
    if d.pc == Handler {
      var n, w := Step(e, x, d, Next(fs)), if Next(fs).Fine? then why else Cause(d, Next(fs));
      assert n.pc == Idle && RunToIdle(e, x, n, Rest(fs)) == (n, Rest(fs)) && RunError(e, x, n, Rest(fs), w) == w;
      hide Cause, Step;
      assert RunError(e, x, d, fs, why) == RunError(e, x, n, Rest(fs), w);
    }
  }

  lemma FirstWrite(e: Outputs, x: TenantId, s: State, fs: seq<Fault>)
    ensures var d := Step(e, x, Begin(s), Next(fs));
            && WellFormed(d.pc)
            && (Attempt(e, x, s, fs).0, Attempt(e, x, s, fs).1, AttemptError(e, x, s, fs))
               == if Next(fs).Fine? then Ends(e, x, d, Rest(fs), NOTHING_YET)
                  else (d, Rest(fs), Cause(Begin(s), Next(fs)))
  {
    hide Cause;
  }

  /** The program deletes exactly as the machine does, under every fault schedule, and raises what the machine says.
      An invalid id is rejected before anything happens. */
  method DeleteTenant(store: TenantStore, cloud: CloudApi, e: Outputs, x: TenantId)
    returns (ending: Ending, error: Retry.Failure)
    modifies store, cloud
    ensures !ValidId(x) ==>
              ending == Raised && error == Retry.ValidationError && store.rows == old(store.rows)
              && cloud.world == old(cloud.world) && cloud.faults == old(cloud.faults)
    ensures ValidId(x) ==>
              var s := State(old(store.rows), old(cloud.world));
              var (c, left) := Attempt(e, x, s, old(cloud.faults));
              && ending == c.ending && store.rows == c.s.rows && cloud.world == c.s.world && cloud.faults == left
              && (ending == Raised ==> error == AttemptError(e, x, s, old(cloud.faults)))
  {
    error := Retry.ValidationError;
    if !ValidId(x) {
      return Raised, error;
    }
    ghost var s0 := State(store.rows, cloud.world);
    ghost var fs := cloud.faults;
    var target := TargetOf(e, store.rows, x);
    ghost var d := Step(e, x, Begin(s0), Next(cloud.faults));
    FirstWrite(e, x, s0, fs);
    hide Attempt, AttemptError, Ends;
    var f := SaveRow(store, cloud, e, x, STARTED);
    if !f.Fine? {
      return if f.Dies? then Died else Raised, if f.Dies? then error else f.error;
    }
    var flow;
    flow, d := TearDown(store, cloud, e, x, target, d);
    LastWrite(e, x, d, cloud.faults, Why(flow));
    if flow == Crash {
      return Died, error;
    }
    if flow == Ok {
      return Returned, error;
    }
    f := SaveRow(store, cloud, e, x, Failed());
    ending := if f.Dies? then Died else Raised;
    error := if f.Fine? then flow.error else if f.Dies? then error else f.error;
  }
}
