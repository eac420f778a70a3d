/** `aws_identity`: the Secrets Manager secret and IAM role of one tenant, created idempotently under retries. */
module Identity {
  import opened Names
  import opened Postgres
  import opened Cloud
  import opened Retry
  import opened Registry

  datatype Pointers = Pointers(secretName: Option<string>, irsaRoleArn: Option<string>, owner: Owner)

  datatype IdentityOutcome = Got(pointers: Pointers) | Refused(error: Failure) | Died

  const IDENTITY_ATTEMPTS: nat := 5
  const POLLS: nat := 60            // 120 seconds, one look every 2 seconds

  function SecretOf(e: Outputs, x: TenantId): string { SecretName(e.prefix, x) }

  function RoleOf(e: Outputs, x: TenantId): string { IamRoleName(e.prefix, x) }

  function OwnPointers(e: Outputs, x: TenantId): Pointers {
    Pointers(Some(SecretOf(e, x)), Some(RoleArn(e.account, RoleOf(e, x))), ControlPlane)
  }

  /** One live secret, one role that only x's service account may assume, and an inline policy
      naming exactly the live secret. */
  predicate HasIdentity(e: Outputs, x: TenantId, w: World) {
    && Live(w, SecretOf(e, x))
    && RoleOf(e, x) in w.iam
    && w.iam[RoleOf(e, x)].trusts == x
    && InlinePolicyName(e.prefix, x) in w.iam[RoleOf(e, x)].inline
    && w.iam[RoleOf(e, x)].inline[InlinePolicyName(e.prefix, x)] == w.secrets[SecretOf(e, x)].arn
  }

  /** What creating x's identity may have done to the world so far: a secret that was live keeps its payload;
      a missing one has been written at most once; nothing else is touched. */
  predicate IdentityOnly(e: Outputs, x: TenantId, w0: World, w: World) {
    && w.spaces == w0.spaces && w.db == w0.db && w.slow == w0.slow
    && Without(w.secrets, SecretOf(e, x)) == Without(w0.secrets, SecretOf(e, x))
    && Without(w.iam, RoleOf(e, x)) == Without(w0.iam, RoleOf(e, x))
    && (RoleOf(e, x) in w0.iam ==> RoleOf(e, x) in w.iam)
    && (forall p | RoleOf(e, x) in w.iam && p in w.iam[RoleOf(e, x)].inline ::
          p == InlinePolicyName(e.prefix, x) || (RoleOf(e, x) in w0.iam && p in w0.iam[RoleOf(e, x)].inline))
    && if Live(w0, SecretOf(e, x)) then
         && SecretOf(e, x) in w.secrets && w.secrets[SecretOf(e, x)] == w0.secrets[SecretOf(e, x)]
         && w.nextArn == w0.nextArn
       else if Live(w, SecretOf(e, x)) then
         w.secrets[SecretOf(e, x)] == Secret(w0.nextArn, TenantRole(x), false) && w.nextArn == w0.nextArn + 1
       else
         && w.nextArn == w0.nextArn
         && (SecretOf(e, x) in w.secrets ==>
               SecretOf(e, x) in w0.secrets && w.secrets[SecretOf(e, x)] == w0.secrets[SecretOf(e, x)])
  }

  function Created(e: Outputs, x: TenantId, w: World): World {
    w.(secrets := w.secrets[SecretOf(e, x) := Secret(w.nextArn, TenantRole(x), false)], nextArn := w.nextArn + 1)
  }

  function Trusting(e: Outputs, x: TenantId, w: World): World {
    var inline := if RoleOf(e, x) in w.iam then w.iam[RoleOf(e, x)].inline else map[];
    w.(iam := w.iam[RoleOf(e, x) := IamRole(x, inline)])
  }

  /** What the n calls of an operation come to is decided by the last of them: dead or failed as it is, and if it
      succeeds, done, unless the name turned out to be taken. */
  predicate EndsBy(fs: seq<Fault>, n: nat, error: Option<Failure>, dead: bool) {
    n >= 1 && EndsWith(Next(Skip(fs, n - 1)), error, dead)
  }

  predicate EndsWith(last: Fault, error: Option<Failure>, dead: bool) {
    match last
    case Fine => !dead && (error.None? || error == Some(PermanentProvisioning))
    case Dies(_) => dead
    case broken => !dead && error == Some(broken.error)
  }

  lemma EndsLater(fs: seq<Fault>, m: nat, n: nat, error: Option<Failure>, dead: bool)
    requires EndsBy(Skip(fs, m), n, error, dead)
    ensures EndsBy(fs, m + n, error, dead) && Skip(Skip(fs, m), n) == Skip(fs, m + n)
  {
    hide *;
    LastOf(Skip(fs, m), n, error, dead);
    SkipOn(fs, m, n - 1);
    SkipOn(fs, m, n);
    LastIs(fs, m + n, error, dead);
  }

  lemma LastOf(fs: seq<Fault>, n: nat, error: Option<Failure>, dead: bool)
    requires EndsBy(fs, n, error, dead)
    ensures n >= 1 && EndsWith(Next(Skip(fs, n - 1)), error, dead)
  {
    hide EndsWith, Skip;
  }

  lemma LastIs(fs: seq<Fault>, n: nat, error: Option<Failure>, dead: bool)
    requires n >= 1
    ensures EndsWith(Next(Skip(fs, n - 1)), error, dead) <==> EndsBy(fs, n, error, dead)
  {
    hide EndsWith, Skip;
  }

  lemma EndsNow(fs: seq<Fault>)
    ensures Skip(fs, 0) == fs && Skip(fs, 1) == Rest(fs)
  {
    assert Skip(Rest(fs), 0) == Rest(fs);
  }

  /** create_secret: refused while the name is taken, live or pending. */
  method CreateSecret(cloud: CloudApi, e: Outputs, x: TenantId) returns (error: Option<Failure>, dead: bool)
    modifies cloud
    ensures dead ==> error.Some?
    ensures error.None? ==> !Live(old(cloud.world), SecretOf(e, x)) && cloud.world == Created(e, x, old(cloud.world))
    ensures cloud.world == old(cloud.world)
            || (SecretOf(e, x) !in old(cloud.world).secrets && cloud.world == Created(e, x, old(cloud.world)))
    ensures EndsBy(old(cloud.faults), 1, error, dead) && cloud.faults == Skip(old(cloud.faults), 1)
    ensures old(cloud.faults) == [] ==> !dead && cloud.faults == []
    ensures old(cloud.faults) == [] && SecretOf(e, x) !in old(cloud.world).secrets ==> error.None?
  {
    EndsNow(cloud.faults);
    var taken := SecretOf(e, x) in cloud.world.secrets;
    var f := cloud.Call(if taken then cloud.world else Created(e, x, cloud.world));
    dead := f.Dies?;
    error := if f.Dies? then Some(OtherException)
             else if !f.Fine? then Some(f.error)
             else if taken then Some(PermanentProvisioning) else None;
  }

  /** Waits until the name is free, but not for ever. */
  method AwaitRemoval(cloud: CloudApi, e: Outputs, x: TenantId)
    returns (error: Option<Failure>, dead: bool, ghost n: nat)
    requires !Live(cloud.world, SecretOf(e, x))
    modifies cloud
    ensures dead ==> error.Some?
    ensures cloud.world == old(cloud.world) && cloud.faults == Skip(old(cloud.faults), n)
    ensures error.Some? ==> EndsBy(old(cloud.faults), n, error, dead)
    ensures error.None? ==> !dead && n <= 60
    ensures error.None? && n < 60 ==> SecretOf(e, x) !in cloud.world.secrets
    ensures old(cloud.faults) == [] ==> cloud.faults == [] && error.None?
  {
    ghost var fs := cloud.faults;
    var polls := 0;
    n := 0;
    EndsNow(fs);
    while polls < POLLS
      invariant 0 <= polls <= POLLS && n == polls
      invariant cloud.world == old(cloud.world) && cloud.faults == Skip(fs, n)
      invariant fs == [] ==> cloud.faults == []
    {
      SkipOne(fs, n);
      var f := cloud.Call(cloud.world);        // describe_secret
      n := n + 1;
      if !f.Fine? {
        return if f.Dies? then Some(OtherException) else Some(f.error), f.Dies?, n;
      }
      if SecretOf(e, x) !in cloud.world.secrets {
        return None, false, n;
      }
      polls := polls + 1;
    }
    error, dead := None, false;
  }

  /** Makes sure a live secret exists: keeps a live one, finishes a pending deletion before re-creating. */
  method EnsureSecret(cloud: CloudApi, e: Outputs, x: TenantId)
    returns (error: Option<Failure>, dead: bool, ghost n: nat)
    modifies cloud
    ensures dead ==> error.Some?
    ensures EndsBy(old(cloud.faults), n, error, dead) && cloud.faults == Skip(old(cloud.faults), n)
    ensures IdentityOnly(e, x, old(cloud.world), cloud.world)
    ensures cloud.world.iam == old(cloud.world).iam
    ensures error.None? ==> Live(cloud.world, SecretOf(e, x))
    ensures old(cloud.faults) == [] ==> cloud.faults == [] && error.None?
  {
    ghost var fs, w0 := cloud.faults, cloud.world;
    EndsNow(fs);
    n := 1;
    var f := cloud.Call(cloud.world);          // describe_secret
    if !f.Fine? {
      return if f.Dies? then Some(OtherException) else Some(f.error), f.Dies?, n;
    }
    if Live(cloud.world, SecretOf(e, x)) {
      return None, false, n;
    }
    hide Skip;
    if SecretOf(e, x) in cloud.world.secrets {
      SkipOne(fs, 1);
      f := cloud.Call(cloud.world.(secrets := Without(cloud.world.secrets, SecretOf(e, x))));
      n := 2;
      if f.Dies? {
        return Some(OtherException), true, n;
      }
      if f.Raises? {
        return Some(f.error), false, n;        // a client error is swallowed, anything else is not
      }
      ghost var more;
      error, dead, more := AwaitRemoval(cloud, e, x);
      if error.Some? {
        EndsLater(fs, n, more, error, dead);
        return error, dead, n + more;
      }
      SkipOn(fs, n, more);
      n := n + more;
    }
    assert cloud.faults == Skip(fs, n) && !Live(cloud.world, SecretOf(e, x));
    assert IdentityOnly(e, x, w0, cloud.world);
    ghost var w1 := cloud.world;
    error, dead := CreateSecret(cloud, e, x);
    EndsLater(fs, n, 1, error, dead);
    n := n + 1;
    CreationIsIdentity(e, x, w0, w1, cloud.world);
  }

  lemma CreationIsIdentity(e: Outputs, x: TenantId, w0: World, w1: World, w: World)
    requires IdentityOnly(e, x, w0, w1) && w1.iam == w0.iam && !Live(w1, SecretOf(e, x)) && w1.nextArn == w0.nextArn
    requires w == w1 || (SecretOf(e, x) !in w1.secrets && w == Created(e, x, w1))
    ensures IdentityOnly(e, x, w0, w) && w.iam == w0.iam
    ensures w == Created(e, x, w1) ==> Live(w, SecretOf(e, x))
  {
  }

  /** Makes sure the role exists, trusts x alone, and may read the live secret. */
  method EnsureRole(cloud: CloudApi, e: Outputs, x: TenantId)
    returns (error: Option<Failure>, dead: bool, ghost n: nat)
    requires Live(cloud.world, SecretOf(e, x))
    modifies cloud
    ensures dead ==> error.Some?
    ensures EndsBy(old(cloud.faults), n, error, dead) && cloud.faults == Skip(old(cloud.faults), n)
    ensures IdentityOnly(e, x, old(cloud.world), cloud.world)
    ensures error.None? ==> HasIdentity(e, x, cloud.world)
    ensures old(cloud.faults) == [] ==> cloud.faults == [] && error.None?
  {
    ghost var fs := cloud.faults;
    EndsNow(fs);
    SkipOne(fs, 1);
    SkipOne(fs, 2);
    n := 1;
    var f := cloud.Call(cloud.world);          // get_role
    if !f.Fine? {
      return if f.Dies? then Some(OtherException) else Some(f.error), f.Dies?, n;
    }
    hide Skip;
    n := 2;
    f := cloud.Call(Trusting(e, x, cloud.world));   // update_assume_role_policy, or create_role
    if !f.Fine? {
      return if f.Dies? then Some(OtherException) else Some(f.error), f.Dies?, n;
    }
    var role := cloud.world.iam[RoleOf(e, x)];
    var arn := cloud.world.secrets[SecretOf(e, x)].arn;
    n := 3;
    f := cloud.Call(cloud.world.(iam := cloud.world.iam[RoleOf(e, x) :=
           role.(inline := role.inline[InlinePolicyName(e.prefix, x) := arn])]));
    if !f.Fine? {
      return if f.Dies? then Some(OtherException) else Some(f.error), f.Dies?, n;
    }
    return None, false, n;
  }

  /** How one attempt ends, by the n calls it makes: refused at once without the outputs it needs, and else as its last
      call does; a first call that fails is its last, and undisturbed it succeeds. */
  predicate OnceBy(e: Outputs, fs: seq<Fault>, n: nat, r: IdentityOutcome) {
    if !e.rdsHost || !e.oidc then n == 0 && r == Refused(OnboardError)
    else
      && n >= 1 && (!Next(fs).Fine? ==> n == 1) && (fs == [] ==> r.Got?)
      && match Next(Skip(fs, n - 1))
         case Fine => r.Got? || r == Refused(PermanentProvisioning)
         case Dies(_) => r.Died?
         case broken => r == Refused(broken.error)
  }

  method EnsureOnce(cloud: CloudApi, e: Outputs, x: TenantId) returns (r: IdentityOutcome, ghost n: nat)
    modifies cloud
    ensures IdentityOnly(e, x, old(cloud.world), cloud.world)
    ensures r.Got? ==> HasIdentity(e, x, cloud.world) && r.pointers == OwnPointers(e, x) && e.rdsHost && e.oidc
    ensures OnceBy(e, old(cloud.faults), n, r) && cloud.faults == Skip(old(cloud.faults), n)
    ensures old(cloud.faults) == [] ==> cloud.faults == []
    ensures old(cloud.faults) == [] && e.rdsHost && e.oidc ==> r.Got?
  {
    ghost var fs := cloud.faults;
    EndsNow(fs);
    if !e.rdsHost || !e.oidc {
      return Refused(OnboardError), 0;
    }
    var f := cloud.Call(cloud.world);          // get_caller_identity
    if !f.Fine? {
      return if f.Dies? then Died else Refused(f.error), 1;
    }
    hide Skip, IdentityOnly, HasIdentity;
    ghost var w0 := cloud.world;
    var error, dead;
    error, dead, n := EnsureSecret(cloud, e, x);
    EndsLater(fs, 1, n, error, dead);
    n := n + 1;
    if error.None? {
      ghost var w1, more := cloud.world, 0;
      error, dead, more := EnsureRole(cloud, e, x);
      IdentityOnlyComposes(e, x, w0, w1, cloud.world);
      EndsLater(fs, n, more, error, dead);
      n := n + more;
    }
    if dead {
      return Died, n;
    }
    r := if error.Some? then Refused(error.value) else Got(OwnPointers(e, x));
  }

  /** What the retry helper makes of an attempt; a dead process calls nothing again. */
  function AsOutcome(r: IdentityOutcome): Outcome<Pointers> {
    match r
    case Got(p) => Returned(p)
    case Refused(error) => Raised(error)
    case Died => Raised(OtherException)
  }

  function AsOutcomes(rs: seq<IdentityOutcome>): (os: seq<Outcome<Pointers>>)
    ensures |os| == |rs| && forall i | 0 <= i < |rs| :: os[i] == AsOutcome(rs[i])
  {
    if rs == [] then [] else AsOutcomes(rs[..|rs| - 1]) + [AsOutcome(rs[|rs| - 1])]
  }

  /** The results are those of attempts made one after the other, from the start of the schedule on: attempt i has its
      calls from starts[i] to starts[i + 1]. */
  predicate MadeInTurn(e: Outputs, fs: seq<Fault>, results: seq<IdentityOutcome>, starts: seq<nat>) {
    && |starts| == |results| + 1 && starts[0] == 0
    && forall i | 0 <= i < |results| ::
         starts[i] <= starts[i + 1] && OnceBy(e, Skip(fs, starts[i]), starts[i + 1] - starts[i], results[i])
  }

  /** The next k calls fail, each with an error that is worth another try. */
  predicate Throttled(fs: seq<Fault>, k: nat) {
    k == 0 || (Breaks(Next(fs)) && Retryable(Next(fs).error) && Throttled(Rest(fs), k - 1))
  }

  /** If nothing but k throttled first calls goes wrong: four are made good by the next attempt, a fifth is the last. */
  ghost predicate RidesOut(fs: seq<Fault>, calls: nat, r: IdentityOutcome, left: seq<Fault>) {
    forall k: nat | Throttled(fs, k) && Skip(fs, k) == [] ::
      if k <= 4 then r.Got? && calls == k + 1 && left == [] else calls == 5 && r == Refused(ErrorOf(Next(Skip(fs, 4))))
  }

  /** The call before goes through, and then nothing goes wrong but k throttled first calls to AWS. */
  predicate Throttles(fs: seq<Fault>, k: nat) { Next(fs).Fine? && Throttled(Rest(fs), k) && Skip(Rest(fs), k) == [] }

  /** The error of the fifth of them. */
  function FifthError(fs: seq<Fault>): Failure { ErrorOf(Next(Skip(Rest(fs), 4))) }

  lemma {:induction false} ThrottledAt(fs: seq<Fault>, k: nat, i: nat)
    requires Throttled(fs, k) && i < k
    ensures var f := Next(Skip(fs, i)); Breaks(f) && Retryable(f.error)
  {
    if i > 0 {
      ThrottledAt(Rest(fs), k - 1, i - 1);
    }
  }

  /** Each throttled first call is an attempt of its own. */
  lemma {:induction false} OneAttemptEach(e: Outputs, fs: seq<Fault>, k: nat, results: seq<IdentityOutcome>,
          starts: seq<nat>, i: nat)
    requires e.rdsHost && e.oidc && Throttled(fs, k) && MadeInTurn(e, fs, results, starts)
    requires i <= |results| && i <= k
    ensures starts[i] == i
    ensures i < k && i < |results| ==>
              results[i] == Refused(ErrorOf(Next(Skip(fs, i)))) && CallsAgain(AsOutcome(results[i]))
  {
    hide Skip, Throttled;
    if i > 0 {
      OneAttemptEach(e, fs, k, results, starts, i - 1);
      ThrottledAt(fs, k, i - 1);
      assert OnceBy(e, Skip(fs, starts[i - 1]), starts[i] - starts[i - 1], results[i - 1]);
    }
    if i < k {
      ThrottledAt(fs, k, i);
      if i < |results| {
        assert OnceBy(e, Skip(fs, starts[i]), starts[i + 1] - starts[i], results[i]);
        SkipNone(Skip(fs, i));
      }
    }
  }

  lemma AllSkipped(fs: seq<Fault>, k: nat, n: nat)
    requires Skip(fs, k) == [] && k <= n
    ensures Skip(fs, n) == []
  {
    SkipOn(fs, k, n - k);
    NothingToSkip(n - k);
  }

  /** Up to four throttled attempts are made good by the next one; the fifth is the last. */
  lemma FiveAttempts(e: Outputs, fs: seq<Fault>, k: nat, results: seq<IdentityOutcome>, starts: seq<nat>)
    requires e.rdsHost && e.oidc && Throttled(fs, k) && Skip(fs, k) == []
    requires MadeInTurn(e, fs, results, starts) && results != []
    requires Retried(AsOutcomes(results), IDENTITY_ATTEMPTS, |results|, AsOutcome(results[|results| - 1]))
    ensures if k <= 4 then |results| == k + 1 && results[k].Got? && Skip(fs, starts[k + 1]) == []
            else |results| == 5 && results[4] == Refused(ErrorOf(Next(Skip(fs, 4))))
  {
    var calls := |results|;
    hide Skip, Throttled;
    if calls <= k {
      OneAttemptEach(e, fs, k, results, starts, calls - 1);
    } else {
      OneAttemptEach(e, fs, k, results, starts, k);
      assert OnceBy(e, Skip(fs, starts[k]), starts[k + 1] - starts[k], results[k]);
      assert results[k].Got?;
      assert !CallsAgain(AsOutcomes(results)[k]);
      AllSkipped(fs, k, starts[k + 1]);
    }
  }

  const BASE_DELAY := 0.4

  /** All of these make the helper call again. */
  predicate AllAgain(results: seq<IdentityOutcome>) {
    forall i | 0 <= i < |results| :: CallsAgain(AsOutcome(results[i]))
  }

  /** One attempt more. */
  method MakeAttempt(cloud: CloudApi, e: Outputs, x: TenantId, ghost w0: World, ghost fs: seq<Fault>,
          ghost results: seq<IdentityOutcome>, ghost starts: seq<nat>)
    returns (r: IdentityOutcome, ghost n: nat)
    requires IdentityOnly(e, x, w0, cloud.world) && MadeInTurn(e, fs, results, starts)
    requires cloud.faults == Skip(fs, starts[|results|])
    modifies cloud
    ensures IdentityOnly(e, x, w0, cloud.world)
    ensures r.Got? ==> HasIdentity(e, x, cloud.world) && r.pointers == OwnPointers(e, x) && e.rdsHost && e.oidc
    ensures MadeInTurn(e, fs, results + [r], starts + [n]) && cloud.faults == Skip(fs, n)
  {
    hide IdentityOnly, HasIdentity, OnceBy, Skip;
    ghost var before, more := cloud.world, 0;
    r, more := EnsureOnce(cloud, e, x);
    IdentityOnlyComposes(e, x, w0, before, cloud.world);
    NextInTurn(e, fs, results, starts, r, more);
    n := starts[|results|] + more;
  }

  /** Attempt after attempt, until one is final or five have been made. */
  method MakeAttempts(cloud: CloudApi, e: Outputs, x: TenantId)
    returns (r: IdentityOutcome, calls: nat, slept: real, ghost results: seq<IdentityOutcome>, ghost starts: seq<nat>)
    modifies cloud
    ensures IdentityOnly(e, x, old(cloud.world), cloud.world)
    ensures r.Got? ==> HasIdentity(e, x, cloud.world) && r.pointers == OwnPointers(e, x) && e.rdsHost && e.oidc
    ensures 1 <= calls <= IDENTITY_ATTEMPTS && |results| == calls && r == results[calls - 1]
    ensures MadeInTurn(e, old(cloud.faults), results, starts) && cloud.faults == Skip(old(cloud.faults), starts[calls])
    ensures AllAgain(results[..calls - 1]) && (CallsAgain(AsOutcome(r)) ==> calls == IDENTITY_ATTEMPTS)
    ensures slept == Slept(BASE_DELAY, calls)
  {
    ghost var fs, w0 := cloud.faults, cloud.world;
    slept := 0.0;
    results, starts := [], [0];
    IdentityFromNothing(e, x, w0);
    SkipNone(fs);
    FirstPause(BASE_DELAY);
    assert MadeInTurn(e, fs, results, starts);
    hide IdentityOnly, HasIdentity, OnceBy, Skip, AsOutcome, Live, Slept, Pow2;
    calls := 0;
    while true
      invariant |results| == calls < IDENTITY_ATTEMPTS
      invariant MadeInTurn(e, fs, results, starts) && cloud.faults == Skip(fs, starts[calls])
      invariant AllAgain(results) && slept == Slept(BASE_DELAY, calls + 1)
      invariant IdentityOnly(e, x, w0, cloud.world)
      decreases IDENTITY_ATTEMPTS - calls
    {
      ghost var n, done := 0, results;
      r, n := MakeAttempt(cloud, e, x, w0, fs, results, starts);
      results, starts := results + [r], starts + [n];
      calls := calls + 1;
      assert results[..calls - 1] == done;
      if !CallsAgain(AsOutcome(r)) || calls == IDENTITY_ATTEMPTS {
        return;
      }
      NextPause(BASE_DELAY, calls);
      slept := slept + BASE_DELAY * Pow2(calls - 1) as real;
    }
  }

  /** For every schedule of AWS faults: if this returns, there is one live secret, one role and an inline policy
      naming the live secret; a secret live on entry keeps its payload, and a missing one has been written
      exactly once even if the create call failed after taking effect. Attempts are made and retried as `with_retry`
      does: `results` are theirs. A throttled one is made good by the next, up to the fourth. */
  method EnsureTenantIdentity(cloud: CloudApi, e: Outputs, x: TenantId)
    returns (r: IdentityOutcome, calls: nat, slept: real, ghost results: seq<IdentityOutcome>, ghost starts: seq<nat>)
    modifies cloud
    ensures IdentityOnly(e, x, old(cloud.world), cloud.world)
    ensures r.Got? ==> HasIdentity(e, x, cloud.world) && r.pointers == OwnPointers(e, x) && e.rdsHost && e.oidc
    ensures r.Got? ==>
              cloud.world.nextArn == old(cloud.world).nextArn + if Live(old(cloud.world), SecretOf(e, x)) then 0 else 1
    ensures |results| == calls >= 1 && r == results[calls - 1] && MadeInTurn(e, old(cloud.faults), results, starts)
    ensures cloud.faults == Skip(old(cloud.faults), starts[calls])
    ensures Retried(AsOutcomes(results), 5, calls, AsOutcome(r)) && slept == Slept(0.4, calls)
    ensures var f := Next(old(cloud.faults));
            e.rdsHost && e.oidc && Breaks(f) && f.error !in {AwsRetryable, KubernetesRetryable} ==>
              calls == 1 && r == Refused(f.error)
    ensures !e.rdsHost || !e.oidc ==> calls == 1 && r == Refused(OnboardError)
    ensures e.rdsHost && e.oidc ==> RidesOut(old(cloud.faults), calls, r, cloud.faults)
    ensures old(cloud.faults) == [] ==> cloud.faults == []
    ensures old(cloud.faults) == [] && e.rdsHost && e.oidc ==> r.Got?
  {
    ghost var fs, w0 := cloud.faults, cloud.world;
    r, calls, slept, results, starts := MakeAttempts(cloud, e, x);
    AllRetried(results);
    if r.Got? {
      IdentityCounts(e, x, w0, cloud.world);
    }
    if e.rdsHost && e.oidc {
      FiveAreMade(e, fs, results, starts);
    }
    CalmAttempts(fs, starts[calls], calls, r);
    if !e.rdsHost || !e.oidc {
      RefusedAtOnce(e, fs, results, starts);
    }
    if e.rdsHost && e.oidc && Breaks(Next(fs)) && ErrorOf(Next(fs)) !in {AwsRetryable, KubernetesRetryable} {
      FinalAtOnce(e, fs, results, starts);
    }
    hide IdentityOnly, HasIdentity, Live, MadeInTurn, AsOutcomes, Retried;
  }

  lemma RefusedAtOnce(e: Outputs, fs: seq<Fault>, results: seq<IdentityOutcome>, starts: seq<nat>)
    requires (!e.rdsHost || !e.oidc) && MadeInTurn(e, fs, results, starts) && results != []
    requires Retried(AsOutcomes(results), IDENTITY_ATTEMPTS, |results|, AsOutcome(results[|results| - 1]))
    ensures |results| == 1 && results[0] == Refused(OnboardError)
  {
    assert OnceBy(e, Skip(fs, starts[0]), starts[1] - starts[0], results[0]);
    assert !CallsAgain(AsOutcomes(results)[0]);
    hide Skip;
  }

  lemma FinalAtOnce(e: Outputs, fs: seq<Fault>, results: seq<IdentityOutcome>, starts: seq<nat>)
    requires e.rdsHost && e.oidc && Breaks(Next(fs)) && ErrorOf(Next(fs)) !in {AwsRetryable, KubernetesRetryable}
    requires MadeInTurn(e, fs, results, starts) && results != []
    requires Retried(AsOutcomes(results), IDENTITY_ATTEMPTS, |results|, AsOutcome(results[|results| - 1]))
    ensures |results| == 1 && results[0] == Refused(ErrorOf(Next(fs)))
  {
    SkipNone(fs);
    assert OnceBy(e, Skip(fs, starts[0]), starts[1] - starts[0], results[0]);
    assert results[0] == Refused(ErrorOf(Next(fs)));
    assert !CallsAgain(AsOutcomes(results)[0]);
    hide Skip;
  }

  lemma CalmAttempts(fs: seq<Fault>, n: nat, calls: nat, r: IdentityOutcome)
    ensures fs == [] ==> Skip(fs, n) == []
    ensures fs == [] && RidesOut(fs, calls, r, Skip(fs, n)) ==> r.Got?
  {
    NothingToSkip(n);
    assert Throttled([], 0) && Skip([], 0) == [];
  }

  lemma FiveAreMade(e: Outputs, fs: seq<Fault>, results: seq<IdentityOutcome>, starts: seq<nat>)
    requires e.rdsHost && e.oidc && MadeInTurn(e, fs, results, starts) && results != []
    requires Retried(AsOutcomes(results), IDENTITY_ATTEMPTS, |results|, AsOutcome(results[|results| - 1]))
    ensures RidesOut(fs, |results|, results[|results| - 1], Skip(fs, starts[|results|]))
  {
    forall k: nat | Throttled(fs, k) && Skip(fs, k) == []
      ensures var calls, r := |results|, results[|results| - 1];
              if k <= 4 then r.Got? && calls == k + 1 && Skip(fs, starts[calls]) == []
              else calls == 5 && r == Refused(ErrorOf(Next(Skip(fs, 4))))
    {
      FiveAttempts(e, fs, k, results, starts);
    }
  }

  lemma NextInTurn(e: Outputs, fs: seq<Fault>, results: seq<IdentityOutcome>, starts: seq<nat>, r: IdentityOutcome,
          n: nat)
    requires MadeInTurn(e, fs, results, starts) && OnceBy(e, Skip(fs, starts[|results|]), n, r)
    ensures |starts| == |results| + 1
    ensures MadeInTurn(e, fs, results + [r], starts + [starts[|results|] + n])
    ensures Skip(Skip(fs, starts[|results|]), n) == Skip(fs, starts[|results|] + n)
  {
    hide OnceBy, Skip;
    SkipOn(fs, starts[|results|], n);
    var rs, ss := results + [r], starts + [starts[|results|] + n];
    forall i | 0 <= i < |rs| ensures ss[i] <= ss[i + 1] && OnceBy(e, Skip(fs, ss[i]), ss[i + 1] - ss[i], rs[i]) {
      if i < |results| {
        assert rs[i] == results[i] && ss[i] == starts[i] && ss[i + 1] == starts[i + 1];
      }
    }
  }

  lemma AllRetried(results: seq<IdentityOutcome>)
    requires 1 <= |results| <= IDENTITY_ATTEMPTS
    requires AllAgain(results[..|results| - 1])
    requires CallsAgain(AsOutcome(results[|results| - 1])) ==> |results| == IDENTITY_ATTEMPTS
    ensures Retried(AsOutcomes(results), IDENTITY_ATTEMPTS, |results|, AsOutcome(results[|results| - 1]))
  {
    forall i | 0 <= i < |results| - 1 ensures CallsAgain(AsOutcomes(results)[i]) {
      assert results[i] == results[..|results| - 1][i];
    }
  }

  lemma IdentityCounts(e: Outputs, x: TenantId, w0: World, w: World)
    requires IdentityOnly(e, x, w0, w) && HasIdentity(e, x, w)
    ensures w.nextArn == w0.nextArn + if Live(w0, SecretOf(e, x)) then 0 else 1
  {
  }

  lemma SkipNone(fs: seq<Fault>)
    ensures Skip(fs, 0) == fs
  {
  }

  lemma IdentityFromNothing(e: Outputs, x: TenantId, w: World)
    ensures IdentityOnly(e, x, w, w)
  {
  }

  lemma IdentityOnlyComposes(e: Outputs, x: TenantId, a: World, b: World, c: World)
    requires IdentityOnly(e, x, a, b) && IdentityOnly(e, x, b, c)
    ensures IdentityOnly(e, x, a, c)
  {
  }

  // ---- identity maps ----

  /** Identities of rows the control plane owns, with both pointers set. */
  predicate HasPointers(row: Row) { row.owner == ControlPlane && Truthy(row.secretName) && Truthy(row.irsaRoleArn) }

  /** The dictionaries an onboard works from. */
  datatype Maps = Maps(ids: seq<TenantId>, irsa: map<TenantId, string>, secrets: map<TenantId, string>)

  datatype Extra = Extra(secret: string, role: string)

  /** The control plane's own identities, one per row that has both pointers. */
  function OwnIdentities(rows: Rows): map<TenantId, Extra> {
    map t | t in rows && HasPointers(rows[t]) :: Extra(rows[t].secretName.value, rows[t].irsaRoleArn.value)
  }

  /** `_cp_identities`: walks the listed rows. */
  method CpIdentities(rows: Rows) returns (extra: map<TenantId, Extra>)
    ensures extra == OwnIdentities(rows)
  {
    var items := Enumerate(rows.Keys);
    extra := map[];
    for i := 0 to |items|
      invariant forall t :: t in extra <==> t in items[..i] && t in OwnIdentities(rows)
      invariant forall t | t in extra :: extra[t] == OwnIdentities(rows)[t]
    {
      var row := rows[items[i]];
      assert items[..i + 1] == items[..i] + [items[i]];
      if HasPointers(row) {
        extra := extra[items[i] := Extra(row.secretName.value, row.irsaRoleArn.value)];
      }
    }
    assert items[..|items|] == items;
  }

  /** `base` with the control plane's own entries of the tenants in `done` written over it. */
  ghost predicate Overlays(m: map<TenantId, string>, base: map<TenantId, string>, own: map<TenantId, string>,
          done: set<TenantId>) {
    && (forall t :: t in m <==> t in base || (t in own && t in done))
    && (forall t | t in m :: m[t] == if t in own && t in done then own[t] else base[t])
  }

  lemma OverlayNext(m: map<TenantId, string>, base: map<TenantId, string>, own: map<TenantId, string>,
          done: set<TenantId>, t: TenantId)
    requires Overlays(m, base, own, done) && t in own
    ensures Overlays(m[t := own[t]], base, own, done + {t})
  {
  }

  function SecretsIn(extra: map<TenantId, Extra>): map<TenantId, string> { map t | t in extra :: extra[t].secret }

  function RolesIn(extra: map<TenantId, Extra>): map<TenantId, string> { map t | t in extra :: extra[t].role }

  /** OpenTofu's ids, then those of the control plane's own that it does not have, sorted. */
  ghost predicate MergedIds(tofu: seq<TenantId>, own: set<TenantId>, ids: seq<TenantId>) {
    && tofu <= ids
    && (forall t :: t in ids[|tofu|..] <==> t in own && t !in tofu)
    && (forall i, j | |tofu| <= i < j < |ids| :: Before(ids[i], ids[j]))
  }

  lemma FirstOfMerged(tofu: seq<TenantId>, own: set<TenantId>, ids: seq<TenantId>)
    requires MergedIds(tofu, own, ids)
    ensures if tofu != [] then ids != [] && ids[0] == tofu[0]
            else if own != {} then ids != [] && ids[0] == Least(own)
            else ids == []
  {
    if tofu == [] {
      assert ids[0..] == ids && (ids != [] ==> ids[0] in ids);
      if own != {} {
        assert Least(own) in ids;
        assert IsLeast(own, ids[0]);
        LeastIsUnique(own, ids[0], Least(own));
      }
    }
  }

  /** Appending the least of the ids still to come. */
  lemma MergeNext(tofu: seq<TenantId>, done: set<TenantId>, todo: set<TenantId>, ids: seq<TenantId>, t: TenantId)
    requires MergedIds(tofu, done, ids) && IsLeast(todo, t) && done !! todo
    requires forall u, v | u in done && v in todo :: Before(u, v)
    ensures MergedIds(tofu, done + {t}, if t in ids then ids else ids + [t])
    ensures forall u, v | u in done + {t} && v in todo - {t} :: Before(u, v)
  {
    assert ids == tofu + ids[|tofu|..];
    if t !in ids {
      var more := ids + [t];
      assert more[|tofu|..] == ids[|tofu|..] + [t];
      forall i, j | |tofu| <= i < j < |more| ensures Before(more[i], more[j]) {
        if j == |ids| {
          assert ids[i] in ids[|tofu|..];
        }
      }
    }
  }

  /** `merge_identity_maps`: OpenTofu's maps, overlaid with the control plane's own identities in sorted order. */
  method MergeIdentityMaps(e: Outputs, extra: map<TenantId, Extra>) returns (m: Maps)
    ensures Overlays(m.secrets, e.tofuSecrets, SecretsIn(extra), extra.Keys)
    ensures Overlays(m.irsa, e.tofuIrsa, RolesIn(extra), extra.Keys)
    ensures MergedIds(e.tofuIds, extra.Keys, m.ids)
  {
    var ids, irsa, secrets := e.tofuIds, e.tofuIrsa, e.tofuSecrets;
    var todo := extra.Keys;
    ghost var done: set<TenantId> := {};
    assert MergedIds(e.tofuIds, done, ids);
    while todo != {}
      invariant done + todo == extra.Keys && done !! todo
      invariant MergedIds(e.tofuIds, done, ids)
      invariant forall u, v | u in done && v in todo :: Before(u, v)
      invariant Overlays(irsa, e.tofuIrsa, RolesIn(extra), done)
      invariant Overlays(secrets, e.tofuSecrets, SecretsIn(extra), done)
      decreases todo
    {
      var t := TakeLeast(todo);
      OverlayNext(irsa, e.tofuIrsa, RolesIn(extra), done, t);
      OverlayNext(secrets, e.tofuSecrets, SecretsIn(extra), done, t);
      MergeNext(e.tofuIds, done, todo, ids, t);
      hide Overlays, MergedIds;
      if t !in ids {
        ids := ids + [t];
      }
      irsa := irsa[t := extra[t].role];
      secrets := secrets[t := extra[t].secret];
      todo, done := todo - {t}, done + {t};
    }
    assert done == extra.Keys;
    m := Maps(ids, irsa, secrets);
  }
}
