/** `delete_tenant` as a state machine: one step per outside call or registry write, under any fault schedule. */
module Teardown {
  import opened Names
  import opened Observe
  import opened Postgres
  import opened Cloud
  import opened Registry
  import Retry

  datatype State = State(rows: Rows, world: World)

  /** The identity this attempt may delete: read from the row when the attempt starts. */
  datatype Target = NotOurs | Ours(role: string, secret: string)

  function TargetOf(e: Outputs, rows: Rows, x: TenantId): Target {
    if x in rows && rows[x].owner == ControlPlane then
      Ours(TeardownRoleName(e.prefix, x, rows[x].irsaRoleArn),
           if Truthy(rows[x].secretName) then rows[x].secretName.value else SecretName(e.prefix, x))
    else NotOurs
  }

  /** The tenant whose namespace hosts the revoke job. */
  function RevokeHost(e: Outputs): TenantId {
    if e.platform.Some? && e.platform.value != "" then e.platform.value else "a"
  }

  const REVOKE_ATTEMPTS: nat := 3
  const JOB_PODS: nat := 2          // backoffLimit 1
  const LAST_LINE: nat := 8
  const ROTATED: nat := 0           // stands for the random password nobody keeps

  datatype Pc =
    | Idle
    | ScaleDown | DropIngress | MarkAccess | ReadOutputs
    | StartJob(attempt: nat) | Line(attempt: nat, pod: nat, line: nat) | AwaitJob(attempt: nat)
    | MarkRevoked | Uninstall | DeleteNamespace | MarkK8s
    | DropInlinePolicy | DropIamRole | MarkIam | DropSecret | MarkSecret | DropRow
    | Handler

  datatype Ending = Running | Returned | Raised | Died

  datatype Config = Config(pc: Pc, target: Target, s: State, ending: Ending)

  // ---- effects ----

  const STARTED := NO_CHANGE.(desired := Set(WantGone), status := Set(DELETING), error := Set(None),
                              deleteStep := Set(Some(Started)))

  function Checkpoint(step: DeleteStep): Patch {
    NO_CHANGE.(status := Set(DELETING), deleteStep := Set(Some(step)), error := Set(None))
  }

  function Failed(): Patch {
    NO_CHANGE.(desired := Set(WantGone), status := Set(DELETE_FAILED), error := Set(Some(OtherProblem("exception"))))
  }

  function WriteRow(e: Outputs, s: State, x: TenantId, p: Patch): State {
    s.(rows := Put(s.rows, x, p, e.now))
  }

  function ScaledToZero(w: Workload): Workload {
    if w.deploy.Some? then w.(deploy := Some(Deploy(0, 0))) else w
  }

  function OnSpace(w: World, x: TenantId, f: Workload -> Workload): World {
    if x in w.spaces then w.(spaces := w.spaces[x := f(w.spaces[x])]) else w
  }

  function ScaleToZero(w: World, x: TenantId): World { OnSpace(w, x, ScaledToZero) }

  function RemoveIngress(w: World, x: TenantId): World { OnSpace(w, x, (v: Workload) => v.(ingress := false)) }

  function UninstallRelease(w: World, x: TenantId): World {
    OnSpace(w, x, (v: Workload) => Workload(None, false, false, false, false, false))
  }

  function RemoveSpace(w: World, x: TenantId): World { w.(spaces := Without(w.spaces, x)) }

  function RemoveInline(w: World, role: string, policy: string): World {
    if role in w.iam then w.(iam := w.iam[role := w.iam[role].(inline := Without(w.iam[role].inline, policy))]) else w
  }

  function RemoveRole(w: World, role: string): World { w.(iam := Without(w.iam, role)) }

  /** Force-delete, or schedule with a recovery window; a missing or already pending secret is tolerated. */
  function RemoveSecret(w: World, secret: string, recovery: bool): World {
    if !recovery then w.(secrets := Without(w.secrets, secret))
    else if secret in w.secrets then w.(secrets := w.secrets[secret := w.secrets[secret].(pendingDelete := true)])
    else w
  }

  /** The statements of the drop-role script; line 1 is the lookup that skips the rest for an absent role. */
  function ScriptLine(x: TenantId, line: nat): Sql {
    if line == 0 then DropPolicy(x)
    else if line == 2 then NoLogin(TenantRole(x))
    else if line == 3 then AlterPassword(TenantRole(x), ROTATED)
    else if line == 4 then RevokeTable(TenantRole(x))
    else if line == 5 then RevokeSequence(TenantRole(x))
    else if line == 6 then RevokeSchema(TenantRole(x))
    else if line == 7 then RevokeDatabase(TenantRole(x))
    else DropRole(TenantRole(x))
  }

  // ---- one step: what it does, when it can, and where it leads ----

  function NextTry(attempt: nat): Pc {
    if attempt + 1 < REVOKE_ATTEMPTS then StartJob(attempt + 1) else Handler
  }

  function PodFailed(attempt: nat, pod: nat): Pc {
    if pod + 1 < JOB_PODS then Line(attempt, pod + 1, 0) else NextTry(attempt)
  }

  /** The revoke job needs its host namespace and the two outputs it reads. */
  predicate JobCanStart(e: Outputs, w: World) {
    ValidId(RevokeHost(e)) && RevokeHost(e) in w.spaces && e.migrator && e.rdsSecret
  }

  /** Nothing but an injected fault keeps the call from succeeding. */
  predicate Possible(e: Outputs, x: TenantId, c: Config) {
    var w := c.s.world;
    match c.pc
    case StartJob(_) => JobCanStart(e, w)
    case Line(_, _, line) => line == 1 || Runs(w.db, ScriptLine(x, line))
    case DropIamRole => c.target.Ours? && c.target.role in w.iam ==> w.iam[c.target.role].inline == map[]
    case _ => true
  }

  /** The state once the call at this point has taken effect. */
  function Effect(e: Outputs, x: TenantId, c: Config): State
    requires Possible(e, x, c)
  {
    var s, w := c.s, c.s.world;
    match c.pc
    case ScaleDown => s.(world := ScaleToZero(w, x))
    case DropIngress => s.(world := RemoveIngress(w, x))
    case MarkAccess => WriteRow(e, s, x, Checkpoint(AccessDisabled))
    case Line(_, _, line) => if line == 1 then s else s.(world := w.(db := Apply(w.db, ScriptLine(x, line))))
    case MarkRevoked => WriteRow(e, s, x, Checkpoint(DbRevoked))
    case Uninstall => s.(world := UninstallRelease(w, x))
    case DeleteNamespace => s.(world := RemoveSpace(w, x))
    case MarkK8s => WriteRow(e, s, x, Checkpoint(K8sDeleted))
    case DropInlinePolicy =>
      if c.target.Ours? then s.(world := RemoveInline(w, c.target.role, InlinePolicyName(e.prefix, x))) else s
    case DropIamRole => if c.target.Ours? then s.(world := RemoveRole(w, c.target.role)) else s
    case MarkIam => WriteRow(e, s, x, Checkpoint(IamDeleted))
    case DropSecret => if c.target.Ours? then s.(world := RemoveSecret(w, c.target.secret, e.recoveryWindow)) else s
    case MarkSecret => WriteRow(e, s, x, Checkpoint(SecretDeleted))
    case DropRow => s.(rows := Without(s.rows, x))
    case _ => s
  }

  /** Where success leads. */
  function Onward(x: TenantId, c: Config): Pc {
    match c.pc
    case ScaleDown => DropIngress
    case DropIngress => MarkAccess
    case MarkAccess => ReadOutputs
    case ReadOutputs => StartJob(0)
    case StartJob(i) => Line(i, 0, 0)
    case Line(i, p, line) =>
      if line == LAST_LINE || (line == 1 && TenantRole(x) !in c.s.world.db.roles) then AwaitJob(i)
      else Line(i, p, line + 1)
    case AwaitJob(_) => MarkRevoked
    case MarkRevoked => Uninstall
    case Uninstall => DeleteNamespace
    case DeleteNamespace => MarkK8s
    case MarkK8s => if c.target.Ours? then DropInlinePolicy else DropRow
    case DropInlinePolicy => DropIamRole
    case DropIamRole => MarkIam
    case MarkIam => DropSecret
    case DropSecret => MarkSecret
    case MarkSecret => DropRow
    case _ => Idle
  }

  /** Best-effort commands ignore a bad exit status; deleting an absent namespace is not even tried. */
  predicate Lenient(x: TenantId, c: Config) {
    || c.pc.ScaleDown? || c.pc.DropIngress? || c.pc.Uninstall?
    || (c.pc.DeleteNamespace? && x !in c.s.world.spaces)
  }

  /** Where failure leads: a failing statement fails the pod, an exception while waiting for the job
      (a timeout, say) gives up on that job, and any other exception reaches the handler. */
  function Fallback(x: TenantId, c: Config, f: Fault): Pc {
    match c.pc
    case Line(i, p, _) => if f.Raises? then NextTry(i) else PodFailed(i, p)
    case StartJob(i) => NextTry(i)
    case AwaitJob(i) => NextTry(i)
    case _ => if Lenient(x, c) && !f.Raises? then Onward(x, c) else Handler
  }

  /** The exception a call that goes wrong ends in. Everything inside the revocation is wrapped into one class. A
      failing `kubectl delete ns` always counts as a timeout, because its command line contains the word. */
  function Cause(c: Config, f: Fault): Retry.Failure {
    match c.pc
    case StartJob(_) => Retry.OnboardError
    case Line(_, _, _) => Retry.OnboardError
    case AwaitJob(_) => Retry.OnboardError
    case DeleteNamespace => if f.Raises? then f.error else Retry.KubernetesRetryable
    case _ => if f.Fails? || f.Raises? then f.error else Retry.PermanentProvisioning
  }

  function Step(e: Outputs, x: TenantId, c: Config, f: Fault): Config {
    if c.pc == Idle then
      var after := WriteRow(e, c.s, x, STARTED);
      if f.Fine? then Config(ScaleDown, TargetOf(e, c.s.rows, x), after, Running)
      else Config(Idle, c.target, if Took(f) then after else c.s, if f.Dies? then Died else Raised)
    else if c.pc == Handler then
      Config(Idle, c.target, if Took(f) then WriteRow(e, c.s, x, Failed()) else c.s, if f.Dies? then Died else Raised)
    else
      var s := if Took(f) && Possible(e, x, c) then Effect(e, x, c) else c.s;
      if f.Dies? then Config(Idle, c.target, s, Died)
      else if f.Fine? && Possible(e, x, c) then
        Config(Onward(x, c), c.target, s, if c.pc.DropRow? then Returned else Running)
      else Config(Fallback(x, c, f), c.target, s, Running)
  }

  // ---- runs ----

  function Begin(s: State): Config { Config(Idle, NotOurs, s, Running) }

  /** Any number of steps, across any number of attempts: after an attempt ends, the next step starts another. */
  function Play(e: Outputs, x: TenantId, c: Config, fs: seq<Fault>): Config
    decreases |fs|
  {
    if fs == [] then c else Play(e, x, Step(e, x, c, fs[0]), fs[1..])
  }

  /** Strictly decreases within an attempt, so every attempt ends. */
  function Rank(pc: Pc): nat {
    match pc
    case Idle => 0
    case Handler => 1
    case DropRow => 2
    case MarkSecret => 3
    case DropSecret => 4
    case MarkIam => 5
    case DropIamRole => 6
    case DropInlinePolicy => 7
    case MarkK8s => 8
    case DeleteNamespace => 9
    case Uninstall => 10
    case MarkRevoked => 11
    case AwaitJob(i) => 12 + 22 * Left(REVOKE_ATTEMPTS, i)
    case Line(i, p, l) => 13 + 22 * Left(REVOKE_ATTEMPTS, i) + 9 * Left(JOB_PODS, p) + Left(LAST_LINE, l) - 9
    case StartJob(i) => 32 + 22 * Left(REVOKE_ATTEMPTS, i)
    case ReadOutputs => 100
    case MarkAccess => 101
    case DropIngress => 102
    case ScaleDown => 103
  }

  function Left(limit: nat, i: nat): nat { if i < limit then limit - i else 0 }
}
