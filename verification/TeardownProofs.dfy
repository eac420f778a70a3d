/** Safety, confluence and progress of `delete_tenant` over every fault schedule. */
module TeardownProofs {
  import opened Names
  import opened Observe
  import opened Postgres
  import opened Cloud
  import opened Registry
  import opened Teardown
  import Retry

  // ---- what deletion promises ----

  predicate SecretGone(e: Outputs, w: World, secret: string) {
    if e.recoveryWindow then secret in w.secrets ==> w.secrets[secret].pendingDelete else secret !in w.secrets
  }

  predicate AwsGone(e: Outputs, t: Target, w: World) {
    t.Ours? ==> t.role !in w.iam && SecretGone(e, w, t.secret)
  }

  /** The state with tenant x erased: its row, namespace, DB role and policy, and the AWS identity
      the control plane owns. Everything else is as it was. */
  function Erased(e: Outputs, x: TenantId, t: Target, s: State): State {
    var w := s.world;
    var db := w.db.(roles := Without(w.db.roles, TenantRole(x)), policies := Without(w.db.policies, x));
    var w1 := w.(spaces := Without(w.spaces, x), db := db);
    State(Without(s.rows, x), if t.Ours? then RemoveSecret(RemoveRole(w1, t.role), t.secret, e.recoveryWindow) else w1)
  }

  // ---- what it may assume ----

  /** A tenant role presupposes the table, and only x's policy names x's role. */
  predicate DbTidy(x: TenantId, db: Db) {
    && (TenantRole(x) in db.roles ==> db.table)
    && forall t | t in db.policies :: db.policies[t] == TenantRole(x) ==> t == x
  }

  /** The IAM role carries no inline policy but the control plane's own. */
  predicate IamTidy(e: Outputs, x: TenantId, t: Target, w: World) {
    t.Ours? && t.role in w.iam ==> w.iam[t.role].inline.Keys <= {InlinePolicyName(e.prefix, x)}
  }

  predicate Ready(e: Outputs, x: TenantId, s: State) {
    DbTidy(x, s.world.db) && IamTidy(e, x, TargetOf(e, s.rows, x), s.world)
  }

  // ---- the inductive invariant ----

  predicate WellFormed(pc: Pc) {
    match pc
    case StartJob(i) => i < REVOKE_ATTEMPTS
    case AwaitJob(i) => i < REVOKE_ATTEMPTS
    case Line(i, p, l) => i < REVOKE_ATTEMPTS && p < JOB_PODS && l <= LAST_LINE
    case _ => true
  }

  predicate PastRevoke(pc: Pc) {
    pc.AwaitJob? || pc.MarkRevoked? || pc.Uninstall? || pc.DeleteNamespace? || PastSpace(pc)
  }

  predicate PastSpace(pc: Pc) { pc.MarkK8s? || InAws(pc) || pc.DropRow? }

  predicate InAws(pc: Pc) {
    pc.DropInlinePolicy? || pc.DropIamRole? || pc.MarkIam? || pc.DropSecret? || pc.MarkSecret?
  }

  predicate PastRole(pc: Pc) { pc.MarkIam? || pc.DropSecret? || pc.MarkSecret? || pc.DropRow? }

  predicate PastSecret(pc: Pc) { pc.MarkSecret? || pc.DropRow? }

  predicate Revoked(x: TenantId, db: Db) { TenantRole(x) !in db.roles && x !in db.policies }

  /** What the drop-role script has achieved when it reaches a line. */
  predicate LineFacts(x: TenantId, line: nat, db: Db) {
    && (line >= 1 ==> x !in db.policies)
    && (line >= 2 ==>
          && TenantRole(x) in db.roles
          && var r := db.roles[TenantRole(x)];
             && (line >= 3 ==> !r.login) && (line >= 4 ==> r.password == ROTATED)
             && (line >= 5 ==> !r.table) && (line >= 6 ==> !r.sequence)
             && (line >= 7 ==> !r.usage) && (line >= 8 ==> !r.connect))
  }

  /** Reaching a point of the attempt means the steps before it have taken effect. */
  predicate Progress(e: Outputs, x: TenantId, c: Config) {
    var w := c.s.world;
    && (c.pc.Line? ==> LineFacts(x, c.pc.line, w.db))
    && (PastRevoke(c.pc) ==> Revoked(x, w.db))
    && (PastSpace(c.pc) ==> x !in w.spaces)
    && (InAws(c.pc) ==> c.target.Ours?)
    && (c.pc.DropIamRole? && c.target.role in w.iam ==> w.iam[c.target.role].inline == map[])
    && (PastRole(c.pc) && c.target.Ours? ==> c.target.role !in w.iam)
    && (PastSecret(c.pc) && c.target.Ours? ==> SecretGone(e, w, c.target.secret))
  }

  /** The row while an attempt runs: wanted gone, being deleted; only after the final delete is it missing. */
  predicate RowInAttempt(x: TenantId, c: Config) {
    && (c.pc != Idle && c.pc != Handler ==> x in c.s.rows)
    && (c.pc != Idle && x in c.s.rows ==> c.s.rows[x].desired == WantGone && c.s.rows[x].status == DELETING)
  }

  /** t is the identity to delete, or that identity is gone and forgotten. */
  predicate Trusted(e: Outputs, t0: Target, t: Target, w: World) {
    t == t0 || (t.NotOurs? && AwsGone(e, t0, w))
  }

  /** The part of the invariant that is about the state alone. */
  predicate Sound(e: Outputs, x: TenantId, t0: Target, t: Target, s: State) {
    && DbTidy(x, s.world.db) && IamTidy(e, x, t0, s.world)
    && Trusted(e, t0, t, s.world) && Trusted(e, t0, TargetOf(e, s.rows, x), s.world)
  }

  predicate Inv(e: Outputs, x: TenantId, t0: Target, c: Config) {
    && WellFormed(c.pc) && Progress(e, x, c) && RowInAttempt(x, c)
    && Sound(e, x, t0, if c.pc == Idle then t0 else c.target, c.s)
  }

  /** Between an attempt's first write and its end. */
  predicate Underway(pc: Pc) { pc != Idle && pc != Handler }

  lemma LineIsSound(e: Outputs, x: TenantId, t0: Target, c: Config)
    requires Inv(e, x, t0, c) && c.pc.Line? && Possible(e, x, c)
    ensures Sound(e, x, t0, c.target, Effect(e, x, c))
  {
  }

  lemma EffectIsSound(e: Outputs, x: TenantId, t0: Target, c: Config)
    requires Inv(e, x, t0, c) && Underway(c.pc) && Possible(e, x, c)
    ensures Sound(e, x, t0, c.target, Effect(e, x, c))
  {
    if c.pc.Line? {
      LineIsSound(e, x, t0, c);
    }
  }

  /** What a step underway amounts to: the call took effect or not, and control is gone, past the call,
      or at the point its failure leads to. */
  lemma StepShape(e: Outputs, x: TenantId, c: Config, f: Fault)
    requires Underway(c.pc)
    ensures var d := Step(e, x, c, f);
            && d.target == c.target
            && (d.s == c.s || (Possible(e, x, c) && d.s == Effect(e, x, c)))
            && (|| d.pc == Idle
                || (Possible(e, x, c) && d.s == Effect(e, x, c) && d.pc == Onward(x, c))
                || d.pc == Fallback(x, c, f))
  {
    hide Effect, Onward, Fallback, Possible;
  }

  lemma LineMakesProgress(e: Outputs, x: TenantId, c: Config)
    requires WellFormed(c.pc) && c.pc.Line? && LineFacts(x, c.pc.line, c.s.world.db) && Possible(e, x, c)
    ensures c.pc.line < LAST_LINE ==> LineFacts(x, c.pc.line + 1, Effect(e, x, c).world.db)
                                      || (c.pc.line == 1 && Onward(x, c).AwaitJob?)
    ensures Onward(x, c).AwaitJob? ==> Revoked(x, Effect(e, x, c).world.db)
  {
  }

  lemma AwsMakesProgress(e: Outputs, x: TenantId, c: Config)
    requires Progress(e, x, c) && InAws(c.pc) && Possible(e, x, c) && IamTidy(e, x, c.target, c.s.world)
    ensures Progress(e, x, Config(Onward(x, c), c.target, Effect(e, x, c), Running))
  {
    hide JobCanStart;
  }

  lemma EffectMakesProgress(e: Outputs, x: TenantId, c: Config)
    requires WellFormed(c.pc) && Progress(e, x, c) && Underway(c.pc) && Possible(e, x, c)
    requires IamTidy(e, x, c.target, c.s.world)
    ensures Progress(e, x, Config(Onward(x, c), c.target, Effect(e, x, c), Running))
  {
    hide JobCanStart;
    if c.pc.Line? {
      LineMakesProgress(e, x, c);
    } else if InAws(c.pc) {
      AwsMakesProgress(e, x, c);
    }
  }

  lemma EffectKeepsRow(e: Outputs, x: TenantId, c: Config)
    requires RowInAttempt(x, c) && Underway(c.pc) && Possible(e, x, c)
    ensures c.pc != DropRow ==> x in Effect(e, x, c).rows
    ensures x in Effect(e, x, c).rows ==>
              Effect(e, x, c).rows[x].desired == WantGone && Effect(e, x, c).rows[x].status == DELETING
  {
  }

  /** A failed call leads to the handler, to a fresh try of the revoke job or its script,
      or, for a best-effort command, on. */
  lemma FallbackIsEarly(x: TenantId, c: Config, f: Fault)
    requires WellFormed(c.pc) && Underway(c.pc)
    ensures var p := Fallback(x, c, f);
            p.Handler? || p.StartJob? || (p.Line? && p.line == 0) || (p == Onward(x, c) && Lenient(x, c))
    ensures WellFormed(Fallback(x, c, f)) && WellFormed(Onward(x, c))
  {
  }

  lemma EarlyIsFree(e: Outputs, x: TenantId, p: Pc, t: Target, s: State)
    requires p.Handler? || p.StartJob? || p.Idle? || (p.Line? && p.line == 0)
    ensures Progress(e, x, Config(p, t, s, Running))
  {
  }

  lemma LenientIsFree(e: Outputs, x: TenantId, c: Config)
    requires Lenient(x, c) && Progress(e, x, c)
    ensures Progress(e, x, Config(Onward(x, c), c.target, c.s, Running))
  {
  }

  lemma StepMakesProgress(e: Outputs, x: TenantId, c: Config, f: Fault)
    requires WellFormed(c.pc) && Progress(e, x, c) && Underway(c.pc) && IamTidy(e, x, c.target, c.s.world)
    ensures Progress(e, x, Step(e, x, c, f)) && WellFormed(Step(e, x, c, f).pc)
  {
    var d := Step(e, x, c, f);
    StepShape(e, x, c, f);
    FallbackIsEarly(x, c, f);
    hide Step, Effect, Onward, Fallback, Possible, Lenient, IamTidy;
    assert Progress(e, x, d) <==> Progress(e, x, Config(d.pc, d.target, d.s, Running));
    hide Progress;
    if d.pc.Handler? || d.pc.StartJob? || d.pc.Idle? || (d.pc.Line? && d.pc.line == 0) {
      EarlyIsFree(e, x, d.pc, d.target, d.s);
    } else if d.s == c.s && Lenient(x, c) && d.pc == Onward(x, c) {
      LenientIsFree(e, x, c);
    } else {
      EffectMakesProgress(e, x, c);
    }
  }

  lemma StepKeepsRow(e: Outputs, x: TenantId, c: Config, f: Fault)
    requires WellFormed(c.pc) && RowInAttempt(x, c) && Underway(c.pc)
    ensures RowInAttempt(x, Step(e, x, c, f))
  {
    StepShape(e, x, c, f);
    FallbackIsEarly(x, c, f);
    if Possible(e, x, c) {
      EffectKeepsRow(e, x, c);
    }
    hide Step, Effect, Possible;
  }

  lemma EdgeKeepsInv(e: Outputs, x: TenantId, t0: Target, c: Config, f: Fault)
    requires Inv(e, x, t0, c) && !Underway(c.pc)
    ensures Inv(e, x, t0, Step(e, x, c, f))
  {
    hide Effect, Possible, Onward, Fallback, JobCanStart, LineFacts;
  }

  lemma StepKeepsInv(e: Outputs, x: TenantId, t0: Target, c: Config, f: Fault)
    requires Inv(e, x, t0, c)
    ensures Inv(e, x, t0, Step(e, x, c, f))
  {
    if !Underway(c.pc) {
      EdgeKeepsInv(e, x, t0, c, f);
    } else {
      StepMakesProgress(e, x, c, f);
      StepKeepsRow(e, x, c, f);
      StepShape(e, x, c, f);
      if Possible(e, x, c) {
        EffectIsSound(e, x, t0, c);
      }
      hide Step, Effect, Onward, Fallback, Possible, Progress, RowInAttempt, Lenient, WellFormed;
    }
  }

  // ---- erasure: no step changes what the finished deletion will look like ----

  lemma SecretRemovalSettles(w: World, secret: string, recovery: bool)
    ensures RemoveSecret(RemoveSecret(w, secret, recovery), secret, recovery) == RemoveSecret(w, secret, recovery)
  {
  }

  lemma SpaceKeepsErased(e: Outputs, x: TenantId, t: Target, s: State, v: Workload)
    requires x in s.world.spaces
    ensures Erased(e, x, t, s.(world := s.world.(spaces := s.world.spaces[x := v]))) == Erased(e, x, t, s)
  {
    assert Without(s.world.spaces[x := v], x) == Without(s.world.spaces, x);
  }

  lemma RowKeepsErased(e: Outputs, x: TenantId, t: Target, s: State, p: Patch)
    ensures Erased(e, x, t, WriteRow(e, s, x, p)) == Erased(e, x, t, s)
  {
    assert Without(Put(s.rows, x, p, e.now), x) == Without(s.rows, x);
  }

  lemma RolesKeepErased(e: Outputs, x: TenantId, t: Target, s: State, db: Db)
    requires db.(roles := s.world.db.roles, policies := s.world.db.policies) == s.world.db
    requires Without(db.roles, TenantRole(x)) == Without(s.world.db.roles, TenantRole(x))
    requires Without(db.policies, x) == Without(s.world.db.policies, x)
    ensures Erased(e, x, t, s.(world := s.world.(db := db))) == Erased(e, x, t, s)
  {
  }

  lemma LineKeepsErased(e: Outputs, x: TenantId, t: Target, c: Config)
    requires c.pc.Line? && c.pc.line <= LAST_LINE && Possible(e, x, c)
    ensures Erased(e, x, t, Effect(e, x, c)) == Erased(e, x, t, c.s)
  {
    if c.pc.line != 1 {
      var db, db' := c.s.world.db, Apply(c.s.world.db, ScriptLine(x, c.pc.line));
      assert Without(db'.roles, TenantRole(x)) == Without(db.roles, TenantRole(x));
      assert Without(db'.policies, x) == Without(db.policies, x);
      RolesKeepErased(e, x, t, c.s, db');
    }
  }

  lemma AwsKeepsErased(e: Outputs, x: TenantId, t: Target, s: State, w: World)
    requires t.Ours?
    requires || w == RemoveInline(s.world, t.role, InlinePolicyName(e.prefix, x))
             || w == RemoveRole(s.world, t.role)
             || w == RemoveSecret(s.world, t.secret, e.recoveryWindow)
    ensures Erased(e, x, t, s.(world := w)) == Erased(e, x, t, s)
  {
    assert Without(w.iam, t.role) == Without(s.world.iam, t.role);
    SecretRemovalSettles(s.world, t.secret, e.recoveryWindow);
    if e.recoveryWindow {
    } else {
      assert Without(w.secrets, t.secret) == Without(s.world.secrets, t.secret);
    }
  }

  lemma EffectKeepsErased(e: Outputs, x: TenantId, t0: Target, c: Config)
    requires WellFormed(c.pc) && Underway(c.pc) && Possible(e, x, c) && Trusted(e, t0, c.target, c.s.world)
    ensures Erased(e, x, t0, Effect(e, x, c)) == Erased(e, x, t0, c.s)
  {
    var d := Effect(e, x, c);
    if c.pc.Line? {
      LineKeepsErased(e, x, t0, c);
    } else if InAws(c.pc) && !c.pc.MarkIam? && !c.pc.MarkSecret? {
      if c.target.Ours? {
        AwsKeepsErased(e, x, t0, c.s, d.world);
      }
    } else if c.pc.DropRow? {
      assert Without(Without(c.s.rows, x), x) == Without(c.s.rows, x);
    } else if c.pc.DeleteNamespace? {
      assert Without(Without(c.s.world.spaces, x), x) == Without(c.s.world.spaces, x);
    } else if c.pc.ScaleDown? || c.pc.DropIngress? || c.pc.Uninstall? {
      if x in c.s.world.spaces {
        SpaceKeepsErased(e, x, t0, c.s, d.world.spaces[x]);
      }
    } else if c.pc.MarkAccess? {
      RowKeepsErased(e, x, t0, c.s, Checkpoint(AccessDisabled));
    } else if c.pc.MarkRevoked? {
      RowKeepsErased(e, x, t0, c.s, Checkpoint(DbRevoked));
    } else if c.pc.MarkK8s? {
      RowKeepsErased(e, x, t0, c.s, Checkpoint(K8sDeleted));
    } else if c.pc.MarkIam? {
      RowKeepsErased(e, x, t0, c.s, Checkpoint(IamDeleted));
    } else if c.pc.MarkSecret? {
      RowKeepsErased(e, x, t0, c.s, Checkpoint(SecretDeleted));
    }
  }

  lemma StepKeepsErased(e: Outputs, x: TenantId, t0: Target, c: Config, f: Fault)
    requires Inv(e, x, t0, c)
    ensures Erased(e, x, t0, Step(e, x, c, f).s) == Erased(e, x, t0, c.s)
  {
    RowKeepsErased(e, x, t0, c.s, STARTED);
    RowKeepsErased(e, x, t0, c.s, Failed());
    hide Erased, Effect, Possible, Onward, Fallback;
    if Underway(c.pc) {
      StepShape(e, x, c, f);
      if Possible(e, x, c) {
        EffectKeepsErased(e, x, t0, c);
      }
    }
  }

  // ---- fail-closed order ----

  /** The AWS identity stands exactly as it did in w0. */
  predicate SameSecret(t: Target, w0: World, w: World) {
    t.Ours? ==>
      (t.secret in w.secrets <==> t.secret in w0.secrets)
      && (t.secret in w.secrets ==> w.secrets[t.secret] == w0.secrets[t.secret])
  }

  predicate SameIdentity(t: Target, w0: World, w: World) {
    && SameSecret(t, w0, w)
    && (t.Ours? ==>
          (t.role in w.iam <==> t.role in w0.iam) && (t.role in w.iam ==> w.iam[t.role] == w0.iam[t.role]))
  }

  /** Authority goes first: while the DB role exists, namespace and AWS identity stand; while the namespace
      exists, the AWS identity does; while the IAM role exists, the secret does. */
  predicate FailClosed(x: TenantId, t: Target, w0: World, w: World) {
    && (TenantRole(x) in w.db.roles ==> (x in w.spaces <==> x in w0.spaces) && SameIdentity(t, w0, w))
    && (x in w.spaces ==> SameIdentity(t, w0, w))
    && (t.Ours? && t.role in w.iam ==> SameSecret(t, w0, w))
  }

  lemma LineFailsClosed(e: Outputs, x: TenantId, t0: Target, w0: World, c: Config)
    requires FailClosed(x, t0, w0, c.s.world) && c.pc.Line? && Possible(e, x, c)
    ensures FailClosed(x, t0, w0, Effect(e, x, c).world)
  {
    LineOnlyRevokes(e, x, c);
    FailClosedUpToDb(x, t0, w0, c.s.world, Effect(e, x, c).world.db);
    hide FailClosed, Effect, Possible;
  }

  lemma FailClosedUpToDb(x: TenantId, t: Target, w0: World, w: World, db: Db)
    requires FailClosed(x, t, w0, w) && (TenantRole(x) in db.roles ==> TenantRole(x) in w.db.roles)
    ensures FailClosed(x, t, w0, w.(db := db))
  {
  }

  lemma EffectFailsClosed(e: Outputs, x: TenantId, t0: Target, w0: World, c: Config)
    requires FailClosed(x, t0, w0, c.s.world) && Progress(e, x, c) && Trusted(e, t0, c.target, c.s.world)
    requires Underway(c.pc) && Possible(e, x, c)
    ensures FailClosed(x, t0, w0, Effect(e, x, c).world)
  {
    if c.pc.Line? {
      LineFailsClosed(e, x, t0, w0, c);
    }
  }

  /** Inside the revocation: the role is as it was, or can no longer log in; and before it has lost any grant its
      password has been rotated as well, so a drop that fails leaves nothing usable. */
  predicate Disarmed(x: TenantId, db0: Db, db: Db) {
    TenantRole(x) in db.roles ==>
      && TenantRole(x) in db0.roles
      && var r0, r := db0.roles[TenantRole(x)], db.roles[TenantRole(x)];
         && (r == r0 || !r.login)
         && (r0.(login := r.login, password := r.password) == r || (!r.login && r.password == ROTATED))
  }

  lemma LineDisarms(e: Outputs, x: TenantId, db0: Db, c: Config)
    requires c.pc.Line? && c.pc.line <= LAST_LINE && Possible(e, x, c)
    requires Disarmed(x, db0, c.s.world.db) && LineFacts(x, c.pc.line, c.s.world.db)
    ensures Disarmed(x, db0, Effect(e, x, c).world.db)
  {
  }

  lemma OnlyLinesTouchDb(e: Outputs, x: TenantId, c: Config)
    requires Underway(c.pc) && Possible(e, x, c) && !c.pc.Line?
    ensures Effect(e, x, c).world.db == c.s.world.db
  {
  }

  lemma StepDisarms(e: Outputs, x: TenantId, db0: Db, c: Config, f: Fault)
    requires WellFormed(c.pc) && Progress(e, x, c) && Disarmed(x, db0, c.s.world.db)
    ensures Disarmed(x, db0, Step(e, x, c, f).s.world.db)
  {
    if Underway(c.pc) {
      StepShape(e, x, c, f);
      if Possible(e, x, c) {
        if c.pc.Line? {
          LineDisarms(e, x, db0, c);
        } else {
          OnlyLinesTouchDb(e, x, c);
        }
      }
    }
    hide Effect, Possible, Onward, Fallback, Disarmed;
  }

  // ---- checkpoints ----

  predicate AtLeastRevoked(d: DeleteStep) { d.DbRevoked? || d.K8sDeleted? || d.IamDeleted? || d.SecretDeleted? }

  /** What a recorded delete_step guarantees. */
  predicate CheckpointHolds(e: Outputs, x: TenantId, t: Target, w: World, d: DeleteStep) {
    && (AtLeastRevoked(d) ==> Revoked(x, w.db))
    && (d.K8sDeleted? || d.IamDeleted? || d.SecretDeleted? ==> x !in w.spaces)
    && ((d.IamDeleted? || d.SecretDeleted?) && t.Ours? ==> t.role !in w.iam)
    && (d.SecretDeleted? && t.Ours? ==> SecretGone(e, w, t.secret))
  }

  predicate CheckpointSound(e: Outputs, x: TenantId, t: Target, s: State) {
    x in s.rows && s.rows[x].deleteStep.Some? ==> CheckpointHolds(e, x, t, s.world, s.rows[x].deleteStep.value)
  }

  /** The step recorded by the time the attempt stands at a point. */
  function StepBefore(pc: Pc): DeleteStep {
    match pc
    case ScaleDown | DropIngress | MarkAccess => Started
    case ReadOutputs | StartJob(_) | Line(_, _, _) | AwaitJob(_) | MarkRevoked => AccessDisabled
    case Uninstall | DeleteNamespace | MarkK8s => DbRevoked
    case DropInlinePolicy | DropIamRole | MarkIam => K8sDeleted
    case DropSecret | MarkSecret => IamDeleted
    case _ => SecretDeleted
  }

  /** An attempt underway has recorded exactly the last step it completed. */
  predicate StepRecorded(x: TenantId, c: Config) {
    Underway(c.pc) ==>
      && x in c.s.rows
      && c.s.rows[x].deleteStep
         == Some(if c.pc.DropRow? && c.target.NotOurs? then K8sDeleted else StepBefore(c.pc))
  }

  lemma CheckpointSurvives(e: Outputs, x: TenantId, t: Target, w: World, w': World, d: DeleteStep)
    requires CheckpointHolds(e, x, t, w, d)
    requires Revoked(x, w.db) ==> Revoked(x, w'.db)
    requires w'.spaces.Keys <= w.spaces.Keys && w'.iam.Keys <= w.iam.Keys
    requires t.Ours? && SecretGone(e, w, t.secret) ==> SecretGone(e, w', t.secret)
    ensures CheckpointHolds(e, x, t, w', d)
  {
  }

  lemma LineOnlyRevokes(e: Outputs, x: TenantId, c: Config)
    requires c.pc.Line? && Possible(e, x, c)
    ensures var w, w' := c.s.world, Effect(e, x, c).world;
            && w' == w.(db := w'.db) && w'.db.table == w.db.table
            && w'.db.roles.Keys <= w.db.roles.Keys && w'.db.policies.Keys <= w.db.policies.Keys
            && forall t | t in w'.db.policies :: w'.db.policies[t] == w.db.policies[t]
  {
  }

  /** Nothing is created between w0 and w, and what is left keeps its secret's payload. */
  predicate OnlyRemoves(w0: World, w: World) {
    && w.db.roles.Keys <= w0.db.roles.Keys && w.db.policies.Keys <= w0.db.policies.Keys
    && w.spaces.Keys <= w0.spaces.Keys && w.iam.Keys <= w0.iam.Keys && w.db.table == w0.db.table
    && (forall t | t in w.db.policies :: w.db.policies[t] == w0.db.policies[t])
    && (forall n | n in w.iam :: w.iam[n].inline.Keys <= w0.iam[n].inline.Keys)
    && forall n | n in w.secrets ::
         && n in w0.secrets && w.secrets[n].arn == w0.secrets[n].arn && w.secrets[n].user == w0.secrets[n].user
         && (w0.secrets[n].pendingDelete ==> w.secrets[n].pendingDelete)
  }

  /** No call of a deletion creates anything. */
  lemma EffectOnlyRemoves(e: Outputs, x: TenantId, c: Config)
    requires WellFormed(c.pc) && Underway(c.pc) && Possible(e, x, c)
    ensures OnlyRemoves(c.s.world, Effect(e, x, c).world)
  {
    if c.pc.Line? {
      LineOnlyRevokes(e, x, c);
    }
  }

  predicate IsMark(pc: Pc) { pc.MarkAccess? || pc.MarkRevoked? || pc.MarkK8s? || pc.MarkIam? || pc.MarkSecret? }

  lemma MarkIsHonest(e: Outputs, x: TenantId, t0: Target, c: Config)
    requires IsMark(c.pc) && Progress(e, x, c) && Trusted(e, t0, c.target, c.s.world)
    ensures CheckpointSound(e, x, t0, Effect(e, x, c))
  {
  }

  lemma EffectKeepsCheckpoint(e: Outputs, x: TenantId, t0: Target, c: Config)
    requires WellFormed(c.pc) && Underway(c.pc) && Possible(e, x, c) && Progress(e, x, c)
    requires Trusted(e, t0, c.target, c.s.world) && CheckpointSound(e, x, t0, c.s)
    ensures CheckpointSound(e, x, t0, Effect(e, x, c))
  {
    if IsMark(c.pc) {
      MarkIsHonest(e, x, t0, c);
    } else if c.pc != DropRow {
      assert Effect(e, x, c).rows == c.s.rows;
      EffectOnlyRemoves(e, x, c);
      hide Effect, Possible, Progress;
      if x in c.s.rows && c.s.rows[x].deleteStep.Some? {
        CheckpointSurvives(e, x, t0, c.s.world, Effect(e, x, c).world, c.s.rows[x].deleteStep.value);
      }
    }
  }

  lemma StepKeepsCheckpoint(e: Outputs, x: TenantId, t0: Target, c: Config, f: Fault)
    requires Inv(e, x, t0, c) && CheckpointSound(e, x, t0, c.s)
    ensures CheckpointSound(e, x, t0, Step(e, x, c, f).s)
  {
    if Underway(c.pc) {
      StepShape(e, x, c, f);
      if Possible(e, x, c) {
        EffectKeepsCheckpoint(e, x, t0, c);
      }
      hide Step, Effect, Possible, Onward, Fallback, CheckpointSound, Progress;
    }
  }

  lemma StepFailsClosed(e: Outputs, x: TenantId, t0: Target, w0: World, c: Config, f: Fault)
    requires Inv(e, x, t0, c) && FailClosed(x, t0, w0, c.s.world)
    ensures FailClosed(x, t0, w0, Step(e, x, c, f).s.world)
  {
    if Underway(c.pc) {
      StepShape(e, x, c, f);
      if Possible(e, x, c) {
        EffectFailsClosed(e, x, t0, w0, c);
      }
      hide Step, Effect, Possible, Onward, Fallback, FailClosed, Progress;
    }
  }

  /** Progress over one attempt: the recorded step is the last one completed. */
  lemma StepKeepsRecord(e: Outputs, x: TenantId, t0: Target, c: Config, f: Fault)
    requires Inv(e, x, t0, c) && StepRecorded(x, c)
    ensures StepRecorded(x, Step(e, x, c, f))
  {
    if Underway(c.pc) {
      StepKeepsInv(e, x, t0, c, f);
      FallbackIsEarly(x, c, f);
      EffectRecords(e, x, c);
      StepShape(e, x, c, f);
      hide Step, Effect, Possible, Progress, Sound, Onward, Fallback;
    }
  }

  lemma EffectRecords(e: Outputs, x: TenantId, c: Config)
    requires WellFormed(c.pc) && Underway(c.pc) && StepRecorded(x, c) && Progress(e, x, c)
    ensures Possible(e, x, c) ==> StepRecorded(x, Config(Onward(x, c), c.target, Effect(e, x, c), Running))
    ensures Lenient(x, c) ==> StepRecorded(x, Config(Onward(x, c), c.target, c.s, Running))
  {
  }

  // ---- the namespace that hosts the revoke job ----

  lemma EffectKeepsOtherSpaces(e: Outputs, x: TenantId, c: Config)
    requires Underway(c.pc) && Possible(e, x, c)
    ensures forall y | y != x || !PastRevoke(c.pc) ::
              y in Effect(e, x, c).world.spaces <==> y in c.s.world.spaces
  {
    if c.pc.Line? {
      LineOnlyRevokes(e, x, c);
    }
  }

  lemma StepKeepsHost(e: Outputs, x: TenantId, c: Config, f: Fault)
    requires x != RevokeHost(e) && JobCanStart(e, c.s.world)
    ensures JobCanStart(e, Step(e, x, c, f).s.world)
  {
    if Underway(c.pc) {
      StepShape(e, x, c, f);
      if Possible(e, x, c) {
        EffectKeepsOtherSpaces(e, x, c);
      }
    }
    hide Effect, Possible, Onward, Fallback;
  }

  // ---- progress ----

  datatype Resource = DbRole | DbPolicy | Namespace | RoleIam | LiveSecret

  /** The resources of x still standing. */
  function Remaining(x: TenantId, t: Target, w: World): set<Resource> {
    set r: Resource | Stands(x, t, w, r)
  }

  predicate Stands(x: TenantId, t: Target, w: World, r: Resource) {
    match r
    case DbRole => TenantRole(x) in w.db.roles
    case DbPolicy => x in w.db.policies
    case Namespace => x in w.spaces
    case RoleIam => t.Ours? && t.role in w.iam
    case LiveSecret => t.Ours? && t.secret in w.secrets && !w.secrets[t.secret].pendingDelete
  }

  lemma StepShrinks(e: Outputs, x: TenantId, t: Target, c: Config, f: Fault)
    requires WellFormed(c.pc)
    ensures Remaining(x, t, Step(e, x, c, f).s.world) <= Remaining(x, t, c.s.world)
  {
    if Underway(c.pc) {
      StepShape(e, x, c, f);
      if Possible(e, x, c) {
        EffectOnlyRemoves(e, x, c);
      }
      hide Effect, Possible, Onward, Fallback, Step;
      assert Step(e, x, c, f).s.world == c.s.world || Possible(e, x, c);
    }
  }

  /** Every step brings the attempt closer to its end. */
  lemma StepDescends(e: Outputs, x: TenantId, c: Config, f: Fault)
    requires WellFormed(c.pc) && c.pc != Idle
    ensures Rank(Step(e, x, c, f).pc) < Rank(c.pc)
    ensures WellFormed(Step(e, x, c, f).pc)
  {
    if Underway(c.pc) {
      StepShape(e, x, c, f);
      PcDescends(x, c, f);
      hide Effect, Possible, Onward, Fallback, Step, Rank, WellFormed;
    }
  }

  lemma PcDescends(x: TenantId, c: Config, f: Fault)
    requires WellFormed(c.pc) && Underway(c.pc)
    ensures Rank(Fallback(x, c, f)) < Rank(c.pc) && Rank(Onward(x, c)) < Rank(c.pc) && Rank(Idle) < Rank(c.pc)
    ensures WellFormed(Fallback(x, c, f)) && WellFormed(Onward(x, c)) && WellFormed(Idle)
  {
  }

  /** Runs an attempt to its end under the given fault schedule. */
  function RunToIdle(e: Outputs, x: TenantId, c: Config, fs: seq<Fault>): (r: (Config, seq<Fault>))
    requires WellFormed(c.pc)
    ensures r.0.pc == Idle
    decreases Rank(c.pc)
  {
    if c.pc == Idle then (c, fs)
    else
      StepDescends(e, x, c, Next(fs));
      RunToIdle(e, x, Step(e, x, c, Next(fs)), Rest(fs))
  }

  /** One whole `delete_tenant` call: the final state with how it ended, and the faults left over. */
  function Attempt(e: Outputs, x: TenantId, s: State, fs: seq<Fault>): (Config, seq<Fault>) {
    RunToIdle(e, x, Step(e, x, Begin(s), Next(fs)), Rest(fs))
  }

  // ---- the exception a failing attempt ends with ----

  /** The handler re-raises what brought control there, unless its own write fails. */
  function WhyAfter(e: Outputs, x: TenantId, c: Config, f: Fault, why: Retry.Failure): Retry.Failure {
    if c.pc == Handler then (if f.Fine? then why else Cause(c, f))
    else if Step(e, x, c, f).pc == Handler then Cause(c, f)
    else why
  }

  function RunError(e: Outputs, x: TenantId, c: Config, fs: seq<Fault>, why: Retry.Failure): Retry.Failure
    requires WellFormed(c.pc)
    decreases Rank(c.pc)
  {
    if c.pc == Idle then why
    else
      StepDescends(e, x, c, Next(fs));
      RunError(e, x, Step(e, x, c, Next(fs)), Rest(fs), WhyAfter(e, x, c, Next(fs), why))
  }

  /** What a `delete_tenant` call that ends Raised raises. */
  function AttemptError(e: Outputs, x: TenantId, s: State, fs: seq<Fault>): Retry.Failure {
    if !Next(fs).Fine? then Cause(Begin(s), Next(fs))
    else RunError(e, x, Step(e, x, Begin(s), Next(fs)), Rest(fs), Retry.OtherException)
  }

  // ---- what a failed attempt leaves in the row ----

  function MarkedStep(pc: Pc): DeleteStep {
    match pc
    case MarkAccess => AccessDisabled
    case MarkRevoked => DbRevoked
    case MarkK8s => K8sDeleted
    case MarkIam => IamDeleted
    case _ => SecretDeleted
  }

  /** A checkpoint counts once its write has taken effect; none is left once the row itself has been deleted. */
  function NextMark(pc: Pc, f: Fault, last: Option<DeleteStep>): Option<DeleteStep> {
    if !Took(f) then last
    else if IsMark(pc) then Some(MarkedStep(pc))
    else if pc.DropRow? then None
    else last
  }

  /** The last checkpoint of the attempt. */
  function LastMark(e: Outputs, x: TenantId, c: Config, fs: seq<Fault>, last: Option<DeleteStep>): Option<DeleteStep>
    requires WellFormed(c.pc)
    decreases Rank(c.pc)
  {
    if !Underway(c.pc) then last
    else
      StepDescends(e, x, c, Next(fs));
      LastMark(e, x, Step(e, x, c, Next(fs)), Rest(fs), NextMark(c.pc, Next(fs), last))
  }

  /** What the handler's write meets, if the attempt gets that far. */
  function HandlerFault(e: Outputs, x: TenantId, c: Config, fs: seq<Fault>): Fault
    requires WellFormed(c.pc)
    decreases Rank(c.pc)
  {
    if !Underway(c.pc) then Next(fs)
    else
      StepDescends(e, x, c, Next(fs));
      HandlerFault(e, x, Step(e, x, c, Next(fs)), Rest(fs))
  }

  predicate RecordIs(x: TenantId, c: Config, last: Option<DeleteStep>) {
    && (Underway(c.pc) ==> x in c.s.rows)
    && (c.pc != Idle ==> last == if x in c.s.rows then c.s.rows[x].deleteStep else None)
  }

  lemma EffectTracksMark(e: Outputs, x: TenantId, c: Config, last: Option<DeleteStep>)
    requires Underway(c.pc) && RecordIs(x, c, last) && Possible(e, x, c)
    ensures var rows := Effect(e, x, c).rows;
            && NextMark(c.pc, Fine, last) == (if x in rows then rows[x].deleteStep else None)
            && (x !in rows ==> c.pc.DropRow?)
  {
  }

  lemma StepTracksMark(e: Outputs, x: TenantId, c: Config, f: Fault, last: Option<DeleteStep>)
    requires WellFormed(c.pc) && Underway(c.pc) && RecordIs(x, c, last)
    ensures RecordIs(x, Step(e, x, c, f), NextMark(c.pc, f, last))
  {
    assert IsMark(c.pc) || c.pc.DropRow? ==> Possible(e, x, c);
    FallbackIsEarly(x, c, f);
    if Possible(e, x, c) {
      EffectTracksMark(e, x, c, last);
    }
    assert c.pc.DropRow? ==> Onward(x, c) == Idle && Fallback(x, c, f) == Handler;
    hide Effect, Possible, Onward, Fallback;
  }

  lemma {:induction false} FailedRunRecords(e: Outputs, x: TenantId, c: Config, fs: seq<Fault>,
          last: Option<DeleteStep>)
    requires WellFormed(c.pc) && c.pc != Idle && RecordIs(x, c, last) && RowInAttempt(x, c)
    requires RunToIdle(e, x, c, fs).0.ending == Raised
    ensures FailureRecorded(x, RunToIdle(e, x, c, fs).0.s.rows, Took(HandlerFault(e, x, c, fs)),
                            LastMark(e, x, c, fs, last))
    decreases Rank(c.pc)
  {
    var d := Step(e, x, c, Next(fs));
    StepDescends(e, x, c, Next(fs));
    if Underway(c.pc) {
      StepTracksMark(e, x, c, Next(fs), last);
      StepKeepsRow(e, x, c, Next(fs));
      UnderwayNeverRaises(e, x, c, Next(fs));
      hide Step, Rank, RecordIs, RowInAttempt, FailureRecorded;
      FailedRunRecords(e, x, d, Rest(fs), NextMark(c.pc, Next(fs), last));
    }
  }

  /** Only the handler ends an attempt with an exception. */
  lemma UnderwayNeverRaises(e: Outputs, x: TenantId, c: Config, f: Fault)
    requires Underway(c.pc)
    ensures Step(e, x, c, f).pc == Idle ==> Step(e, x, c, f).ending != Raised
  {
    hide Effect, Possible;
  }

  /** The row of a failed attempt: DELETE_FAILED / GONE with the attempt's last checkpoint, if the handler's write took
      effect; else still DELETING / GONE with that checkpoint, or no row if it had been deleted. */
  predicate FailureRecorded(x: TenantId, rows: Rows, handled: bool, last: Option<DeleteStep>) {
    && (handled ==> x in rows && rows[x].status == DELETE_FAILED && rows[x].error.Some?)
    && (!handled && x in rows ==> rows[x].status == DELETING)
    && (x in rows ==> rows[x].desired == WantGone)
    && last == (if x in rows then rows[x].deleteStep else None)
  }
}
