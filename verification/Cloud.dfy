/** The outside world as the control plane acts on it, and the faults its calls can meet. */
module Cloud {
  import opened Names
  import opened Observe
  import opened Postgres
  import opened Retry

  /** `arn` tells one creation of a secret from the next; the payload (password) changes only with it. */
  datatype Secret = Secret(arn: nat, user: RoleName, pendingDelete: bool)

  /** `inline[p]` is the secret ARN that inline policy p lets the role read. */
  datatype IamRole = IamRole(trusts: TenantId, inline: map<string, nat>)

  /** `slow` holds the tenants whose new pods will not be ready while the control plane looks on. */
  datatype World = World(
    spaces: map<TenantId, Workload>, iam: map<string, IamRole>, secrets: map<string, Secret>, nextArn: nat, db: Db,
    slow: set<TenantId>)

  /** Distinct for every secret, and never what a rotation leaves (0). */
  function PasswordOf(s: Secret): nat { s.arn + 1 }

  predicate Live(w: World, secret: string) { secret in w.secrets && !w.secrets[secret].pendingDelete }

  /** The OpenTofu outputs and environment an operation reads. */
  datatype Outputs = Outputs(
    platform: Option<TenantId>, prefix: string, account: string,
    rdsHost: bool, oidc: bool, rdsSecret: bool, migrator: bool, publicCidrs: bool,
    albController: bool, nodePorts: set<TenantId>,
    tofuIds: seq<TenantId>, tofuIrsa: map<TenantId, string>, tofuSecrets: map<TenantId, string>,
    recoveryWindow: bool, albUrl: string, now: nat)

  /** What one outside call does: succeeds, reports failure, raises, or the control plane dies during it.
      `took` says whether the effect happened all the same. */
  datatype Fault =
    | Fine
    | Fails(took: bool, error: Failure)
    | Raises(took: bool, error: Failure)
    | Dies(took: bool)

  predicate Took(f: Fault) { f.Fine? || f.took }

  /** How a piece of the program ends: normally, with an exception, or with the process. */
  datatype Result = Ok | Err(error: Failure) | Crash

  function ResultOf(f: Fault): Result {
    if f.Fine? then Ok else if f.Dies? then Crash else Err(f.error)
  }

  /** How a call that does not succeed looks to its caller. */
  predicate Stopped(f: Fault, r: Result) { !f.Fine? ==> r == if f.Dies? then Crash else Err(f.error) }

  /** A fault schedule is consumed call by call; past its end every call succeeds. */
  function Next(fs: seq<Fault>): Fault { if fs == [] then Fine else fs[0] }

  function Rest(fs: seq<Fault>): seq<Fault> { if fs == [] then [] else fs[1..] }

  /** The schedule after n calls. */
  function Skip(fs: seq<Fault>, n: nat): seq<Fault> { if n == 0 then fs else Skip(Rest(fs), n - 1) }

  lemma {:induction false} SkipOn(fs: seq<Fault>, a: nat, b: nat)
    ensures Skip(Skip(fs, a), b) == Skip(fs, a + b)
  {
    if a > 0 {
      SkipOn(Rest(fs), a - 1, b);
    }
  }

  lemma SkipOne(fs: seq<Fault>, n: nat)
    ensures Rest(Skip(fs, n)) == Skip(fs, n + 1)
  {
    SkipOn(fs, n, 1);
    assert Skip(Skip(fs, n), 1) == Skip(Rest(Skip(fs, n)), 0);
  }

  lemma {:induction false} NothingToSkip(n: nat)
    ensures Skip([], n) == []
  {
    if n > 0 {
      NothingToSkip(n - 1);
    }
  }

  /** The call fails with an error, reported or raised. */
  predicate Breaks(f: Fault) { f.Fails? || f.Raises? }

  function ErrorOf(f: Fault): Failure { if Breaks(f) then f.error else OtherException }

  class CloudApi {
    var world: World
    var faults: seq<Fault>

    constructor (w: World, fs: seq<Fault>)
      ensures world == w && faults == fs
    {
      world, faults := w, fs;
    }

    /** One outside call whose effect turns the world into `after`. */
    method Call(after: World) returns (f: Fault)
      modifies this
      ensures f == Next(old(faults)) && faults == Rest(old(faults))
      ensures world == if Took(f) then after else old(world)
    {
      f := Next(faults);
      faults := Rest(faults);
      if Took(f) {
        world := after;
      }
    }
  }
}
