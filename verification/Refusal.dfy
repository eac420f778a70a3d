/** A deletion that AWS refuses halfway: the workload is gone, the identity stands. */
module Refusal {
  import opened Names
  import opened Cloud
  import opened Retry
  import opened Registry
  import T = Teardown
  import TP = TeardownProofs
  import DT = DeleteTheorems

  predicate UpToIam(pc: T.Pc) {
    TP.Underway(pc) && !pc.DropIamRole? && !pc.MarkIam? && !pc.DropSecret? && !pc.MarkSecret? && !pc.DropRow?
  }

  /** The workload is gone and the row waits for another attempt; IAM roles and secrets are as they were. */
  predicate IdentityLeft(x: TenantId, w: World, s: T.State) {
    && x !in s.world.spaces && s.world.iam == w.iam && s.world.secrets == w.secrets
    && x in s.rows && s.rows[x].desired == WantGone && s.rows[x].status == DELETE_FAILED
  }

  /** Everything succeeds until AWS refuses, for good, to delete the inline policy. */
  function RefusedByIam(e: Outputs, x: TenantId, c: T.Config): seq<Fault>
    requires TP.WellFormed(c.pc)
    decreases T.Rank(c.pc)
  {
    if c.pc.DropInlinePolicy? then [Fails(false, PermanentProvisioning)]
    else if !TP.Underway(c.pc) then []
    else
      TP.StepDescends(e, x, c, Fine);
      [Fine] + RefusedByIam(e, x, T.Step(e, x, c, Fine))
  }

  lemma {:induction false} RefusalFails(e: Outputs, x: TenantId, t0: T.Target, c: T.Config, why: Failure)
    requires TP.Inv(e, x, t0, c) && UpToIam(c.pc) && c.target.Ours?
    requires T.JobCanStart(e, c.s.world) || TP.PastRevoke(c.pc)
    ensures var fs := RefusedByIam(e, x, c);
            && TP.RunToIdle(e, x, c, fs).0.ending == T.Raised
            && TP.RunError(e, x, c, fs, why) == PermanentProvisioning
            && IdentityLeft(x, c.s.world, TP.RunToIdle(e, x, c, fs).0.s)
    decreases T.Rank(c.pc)
  {
    var fs := RefusedByIam(e, x, c);
    TP.StepDescends(e, x, c, Next(fs));
    if c.pc.DropInlinePolicy? {
      RefusalIsRaised(e, x, c, why);
    } else {
      var d := T.Step(e, x, c, Fine);
      assert Next(fs) == Fine && Rest(fs) == RefusedByIam(e, x, d);
      TP.StepKeepsInv(e, x, t0, c, Fine);
      DT.CleanStepAdvances(e, x, t0, c);
      OnwardToIam(x, c);
      TargetStands(e, x, c);
      IdentityStands(e, x, c);
      hide TP.Inv, T.Step, T.Onward, T.Rank, RefusedByIam;
      RefusalFails(e, x, t0, d, why);
    }
  }

  lemma OnwardToIam(x: TenantId, c: T.Config)
    requires UpToIam(c.pc) && !c.pc.DropInlinePolicy? && c.target.Ours?
    ensures UpToIam(T.Onward(x, c))
  {
  }

  lemma TargetStands(e: Outputs, x: TenantId, c: T.Config)
    requires TP.Underway(c.pc)
    ensures T.Step(e, x, c, Fine).target == c.target
  {
    hide T.Effect, T.Possible, T.Onward, T.Fallback;
  }

  lemma IdentityStands(e: Outputs, x: TenantId, c: T.Config)
    requires UpToIam(c.pc) && !c.pc.DropInlinePolicy?
    ensures var w := T.Step(e, x, c, Fine).s.world; w.iam == c.s.world.iam && w.secrets == c.s.world.secrets
  {
    hide T.Possible, T.Onward, T.Fallback;
  }

  lemma RefusalIsRaised(e: Outputs, x: TenantId, c: T.Config, why: Failure)
    requires c.pc.DropInlinePolicy? && x !in c.s.world.spaces
    ensures var fs := [Fails(false, PermanentProvisioning)];
            && TP.RunToIdle(e, x, c, fs).0.ending == T.Raised
            && TP.RunError(e, x, c, fs, why) == PermanentProvisioning
            && IdentityLeft(x, c.s.world, TP.RunToIdle(e, x, c, fs).0.s)
  {
    var fs := [Fails(false, PermanentProvisioning)];
    var h := T.Step(e, x, c, Next(fs));
    assert h.pc == T.Handler && Rest(fs) == [];
    var i := T.Step(e, x, h, Fine);
    assert i.pc == T.Idle && i.ending == T.Raised;
    assert TP.RunToIdle(e, x, i, []) == (i, []);
    assert TP.RunToIdle(e, x, h, []) == (i, []);
    hide T.Step;
    assert TP.RunError(e, x, h, [], PermanentProvisioning) == PermanentProvisioning;
  }

  /** A schedule under which the deletion of a tenant of the control plane's own fails with a permanent error. */
  function RefusedAttempt(e: Outputs, x: TenantId, s: T.State): seq<Fault> {
    var c := T.Step(e, x, T.Begin(s), Fine);
    [Fine] + RefusedByIam(e, x, c)
  }

  lemma RefusedAttemptFails(e: Outputs, x: TenantId, s: T.State)
    requires TP.Ready(e, x, s) && T.JobCanStart(e, s.world) && T.TargetOf(e, s.rows, x).Ours?
    ensures var (d, left) := TP.Attempt(e, x, s, RefusedAttempt(e, x, s));
            d.ending == T.Raised && IdentityLeft(x, s.world, d.s)
    ensures TP.AttemptError(e, x, s, RefusedAttempt(e, x, s)) == PermanentProvisioning
  {
    var c := T.Step(e, x, T.Begin(s), Fine);
    var fs := RefusedAttempt(e, x, s);
    assert Next(fs) == Fine && Rest(fs) == RefusedByIam(e, x, c);
    DT.BeginIsInv(e, x, s);
    TP.StepKeepsInv(e, x, T.TargetOf(e, s.rows, x), T.Begin(s), Fine);
    assert c.pc == T.ScaleDown && c.target == T.TargetOf(e, s.rows, x) && c.s.world == s.world;
    hide T.Step, TP.Inv, TP.Ready, RefusedByIam;
    RefusalFails(e, x, T.TargetOf(e, s.rows, x), c, OtherException);
  }
}
