/** How much of the revocation may fail: two of three jobs, and one of two pods in each. */
module Revocation {
  import opened Names
  import opened Cloud
  import opened Registry
  import opened Teardown
  import opened TeardownProofs
  import opened DeleteTheorems
  import opened Access
  import Retry

  function AfterEarly(pc: Pc): Pc {
    match pc
    case ScaleDown => DropIngress
    case DropIngress => MarkAccess
    case MarkAccess => ReadOutputs
    case _ => StartJob(0)
  }

  lemma EarlyStep(e: Outputs, x: TenantId, t0: Target, c: Config)
    requires Inv(e, x, t0, c) && (c.pc.ScaleDown? || c.pc.DropIngress? || c.pc.MarkAccess? || c.pc.ReadOutputs?)
    ensures var d := Step(e, x, c, Fine);
            && d.pc == AfterEarly(c.pc) && Inv(e, x, t0, d)
            && (JobCanStart(e, c.s.world) ==> JobCanStart(e, d.s.world))
  {
    StepKeepsInv(e, x, t0, c, Fine);
    if JobCanStart(e, c.s.world) {
      CleanStepAdvances(e, x, t0, c);
    }
    hide Inv, Effect, Fallback, JobCanStart;
  }

  /** From the first write to the first job, one call after the other. */
  lemma UpToFirstJob(e: Outputs, x: TenantId, t0: Target, s: State)
    requires Inv(e, x, t0, Begin(s))
    ensures var c1 := Step(e, x, Begin(s), Fine);
            var c2 := Step(e, x, c1, Fine);
            var c3 := Step(e, x, c2, Fine);
            var c4 := Step(e, x, c3, Fine);
            var c5 := Step(e, x, c4, Fine);
            && c1.pc == ScaleDown && c2.pc == DropIngress && c3.pc == MarkAccess && c4.pc == ReadOutputs
            && c5.pc == StartJob(0) && Inv(e, x, t0, c5)
            && (JobCanStart(e, s.world) ==> JobCanStart(e, c5.s.world))
  {
    var c1 := Step(e, x, Begin(s), Fine);
    StepKeepsInv(e, x, t0, Begin(s), Fine);
    assert c1.pc == ScaleDown && c1.s.world == s.world;
    hide Inv, Step, JobCanStart;
    var c2 := Step(e, x, c1, Fine);
    var c3 := Step(e, x, c2, Fine);
    EarlyStep(e, x, t0, c1);
    EarlyStep(e, x, t0, c2);
    EarlyStep(e, x, t0, c3);
    EarlyStep(e, x, t0, Step(e, x, c3, Fine));
  }

  function AtFirstJob(e: Outputs, x: TenantId, s: State): Config {
    Step(e, x, Step(e, x, Step(e, x, Step(e, x, Step(e, x, Begin(s), Fine), Fine), Fine), Fine), Fine)
  }

  lemma JobBreaks(e: Outputs, x: TenantId, c: Config, i: nat, f: Fault)
    requires c.pc == StartJob(i) && Breaks(f)
    ensures Step(e, x, c, f).pc == if i < 2 then StartJob(i + 1) else Handler
    ensures Step(e, x, c, f).s == c.s
    ensures WhyAfter(e, x, c, f, Retry.OtherException) == if i < 2 then Retry.OtherException else Retry.OnboardError
  {
  }

  /** How an attempt ends from here: where, and with which exception. */
  function Outcome(e: Outputs, x: TenantId, c: Config, fs: seq<Fault>, why: Retry.Failure): (Config, Retry.Failure)
    requires WellFormed(c.pc)
  {
    (RunToIdle(e, x, c, fs).0, RunError(e, x, c, fs, why))
  }

  lemma NextCall(e: Outputs, x: TenantId, c: Config, f: Fault, rest: seq<Fault>, why: Retry.Failure)
    requires WellFormed(c.pc) && c.pc != Idle
    ensures WellFormed(Step(e, x, c, f).pc)
    ensures Outcome(e, x, c, [f] + rest, why) == Outcome(e, x, Step(e, x, c, f), rest, WhyAfter(e, x, c, f, why))
  {
    assert ([f] + rest)[1..] == rest;
    StepDescends(e, x, c, f);
    hide Step, Rank, WhyAfter;
  }

  lemma FiveCalls(e: Outputs, x: TenantId, s: State, rest: seq<Fault>)
    requires Inv(e, x, TargetOf(e, s.rows, x), Begin(s))
    ensures var c, fs := AtFirstJob(e, x, s), [Fine, Fine, Fine, Fine, Fine] + rest;
            && c.pc == StartJob(0) && Inv(e, x, TargetOf(e, s.rows, x), c)
            && (JobCanStart(e, s.world) ==> JobCanStart(e, c.s.world))
            && (Attempt(e, x, s, fs).0, AttemptError(e, x, s, fs)) == Outcome(e, x, c, rest, Retry.OtherException)
  {
    var c1 := Step(e, x, Begin(s), Fine);
    var c2 := Step(e, x, c1, Fine);
    var c3 := Step(e, x, c2, Fine);
    var c4 := Step(e, x, c3, Fine);
    hide Step, Inv, Outcome, Attempt, AttemptError, JobCanStart;
    UpToFirstJob(e, x, TargetOf(e, s.rows, x), s);
    var fs := [Fine, Fine, Fine, Fine, Fine] + rest;
    var r1, r2, r3, r4 := fs[1..], fs[2..], fs[3..], fs[4..];
    assert r1 == [Fine] + r2 && r2 == [Fine] + r3 && r3 == [Fine] + r4 && r4 == [Fine] + rest;
    AttemptIsOutcome(e, x, s, fs);
    NothingYet(e, x, c1);
    NothingYet(e, x, c2);
    NothingYet(e, x, c3);
    NothingYet(e, x, c4);
    NextCall(e, x, c1, Fine, r2, Retry.OtherException);
    NextCall(e, x, c2, Fine, r3, Retry.OtherException);
    NextCall(e, x, c3, Fine, r4, Retry.OtherException);
    NextCall(e, x, c4, Fine, rest, Retry.OtherException);
  }

  lemma AttemptIsOutcome(e: Outputs, x: TenantId, s: State, fs: seq<Fault>)
    requires Next(fs).Fine?
    ensures var c := Step(e, x, Begin(s), Fine);
            && WellFormed(c.pc)
            && (Attempt(e, x, s, fs).0, AttemptError(e, x, s, fs)) == Outcome(e, x, c, Rest(fs), Retry.OtherException)
  {
    assert Step(e, x, Begin(s), Fine).pc == ScaleDown;
    hide Step;
  }

  lemma NothingYet(e: Outputs, x: TenantId, c: Config)
    requires c.pc != Handler && Step(e, x, c, Fine).pc != Handler
    ensures WhyAfter(e, x, c, Fine, Retry.OtherException) == Retry.OtherException
  {
    hide Step;
  }

  /** Two of the three jobs may fail to start: the third still revokes, and the deletion returns. */
  lemma TwoJobsMayFail(e: Outputs, x: TenantId, s: State, a: Fault, b: Fault)
    requires Ready(e, x, s) && JobCanStart(e, s.world) && Breaks(a) && Breaks(b)
    ensures Attempt(e, x, s, [Fine, Fine, Fine, Fine, Fine, a, b]).0.ending == Returned
  {
    var t0 := TargetOf(e, s.rows, x);
    BeginIsInv(e, x, s);
    FiveCalls(e, x, s, [a, b]);
    hide Ready, JobCanStart, AtFirstJob, Attempt, AttemptError;
    ThirdJobRevokes(e, x, t0, AtFirstJob(e, x, s), a, b);
    assert [Fine, Fine, Fine, Fine, Fine] + [a, b] == [Fine, Fine, Fine, Fine, Fine, a, b];
  }

  lemma ThirdJobRevokes(e: Outputs, x: TenantId, t0: Target, c: Config, a: Fault, b: Fault)
    requires Inv(e, x, t0, c) && c.pc == StartJob(0) && JobCanStart(e, c.s.world) && Breaks(a) && Breaks(b)
    ensures Outcome(e, x, c, [a, b], Retry.OtherException).0.ending == Returned
  {
    var d := Step(e, x, c, a);
    JobBreaks(e, x, c, 0, a);
    JobBreaks(e, x, d, 1, b);
    StepKeepsInv(e, x, t0, c, a);
    StepKeepsInv(e, x, t0, d, b);
    hide Step, Inv, JobCanStart, WhyAfter;
    NextCall(e, x, c, a, [b], Retry.OtherException);
    NextCall(e, x, d, b, [], Retry.OtherException);
    assert [a] + [b] == [a, b] && [b] + [] == [b];
    CleanRunReturns(e, x, t0, Step(e, x, d, b));
  }

  lemma ThreeJobsBreak(e: Outputs, x: TenantId, c0: Config, a: Fault, b: Fault, c: Fault)
    requires c0.pc == StartJob(0) && Breaks(a) && Breaks(b) && Breaks(c)
    ensures var o := Outcome(e, x, c0, [a, b, c], Retry.OtherException);
            o.0.ending == Raised && o.1 == Retry.OnboardError
  {
    var c1 := Step(e, x, c0, a);
    var c2 := Step(e, x, c1, b);
    var c3 := Step(e, x, c2, c);
    JobBreaks(e, x, c0, 0, a);
    JobBreaks(e, x, c1, 1, b);
    JobBreaks(e, x, c2, 2, c);
    hide Step, WhyAfter, Outcome;
    assert [a] + [b, c] == [a, b, c] && [b] + [c] == [b, c] && [c] + [] == [c];
    NextCall(e, x, c0, a, [b, c], Retry.OtherException);
    NextCall(e, x, c1, b, [c], Retry.OtherException);
    NextCall(e, x, c2, c, [], Retry.OtherException);
    RaisesFromHandler(e, x, c3, Retry.OnboardError);
  }

  /** All three may not: the deletion then raises an error that is not the control plane's own. */
  lemma ThreeJobsMayNotFail(e: Outputs, x: TenantId, s: State, a: Fault, b: Fault, c: Fault)
    requires Ready(e, x, s) && Breaks(a) && Breaks(b) && Breaks(c)
    ensures var fs := [Fine, Fine, Fine, Fine, Fine, a, b, c];
            Attempt(e, x, s, fs).0.ending == Raised && AttemptError(e, x, s, fs) == Retry.OnboardError
  {
    BeginIsInv(e, x, s);
    FiveCalls(e, x, s, [a, b, c]);
    hide AtFirstJob, Attempt, AttemptError, Outcome;
    ThreeJobsBreak(e, x, AtFirstJob(e, x, s), a, b, c);
    assert [Fine, Fine, Fine, Fine, Fine] + [a, b, c] == [Fine, Fine, Fine, Fine, Fine, a, b, c];
  }

  /** Outside the revocation: a bad exit status of the commands that scale, cut off or uninstall is passed over, and so
      is that of removing a namespace that is not there. Every other failure goes to the handler and comes out as it is,
      but that a failing removal of the namespace always counts as a timeout. */
  lemma FailuresSurface(e: Outputs, x: TenantId, c: Config, f: Fault, why: Retry.Failure)
    requires Underway(c.pc) && !c.pc.StartJob? && !c.pc.Line? && !c.pc.AwaitJob? && Breaks(f)
    ensures var d := Step(e, x, c, f);
            if f.Fails? && (c.pc.ScaleDown? || c.pc.DropIngress? || c.pc.Uninstall?
                            || (c.pc.DeleteNamespace? && x !in c.s.world.spaces))
            then
              && d.pc == (match c.pc
                          case ScaleDown => DropIngress
                          case DropIngress => MarkAccess
                          case Uninstall => DeleteNamespace
                          case _ => MarkK8s)
              && WhyAfter(e, x, c, f, why) == why
            else
              && d.pc == Handler
              && WhyAfter(e, x, c, f, why)
                 == if f.Fails? && c.pc.DeleteNamespace? then Retry.KubernetesRetryable else f.error
  {
    hide Effect, Possible;
  }

  lemma RaisesFromHandler(e: Outputs, x: TenantId, c: Config, why: Retry.Failure)
    requires c.pc == Handler
    ensures Outcome(e, x, c, [], why).0.ending == Raised && Outcome(e, x, c, [], why).1 == why
  {
    HandlerRaises(e, x, c);
    var d := Step(e, x, c, Fine);
    assert WhyAfter(e, x, c, Fine, why) == why;
    hide Step, WhyAfter;
    assert RunToIdle(e, x, d, []).0 == d && RunError(e, x, d, [], why) == why;
  }

  lemma HandlerRaises(e: Outputs, x: TenantId, c: Config)
    requires c.pc == Handler
    ensures Step(e, x, c, Fine).pc == Idle && Step(e, x, c, Fine).ending == Raised
  {
  }

  /** In each job one pod may fail: the second runs the script from its first line, and only its failure fails the
      job. A statement whose answer never comes fails the job at once. */
  lemma OnePodMayFail(e: Outputs, x: TenantId, c: Config, i: nat, pod: nat, line: nat, f: Fault)
    requires c.pc == Line(i, pod, line) && i < 3 && pod < 2
    ensures Step(e, x, c, f).pc
         == match f
            case Dies(_) => Idle
            case Fine =>
              if Possible(e, x, c) then Onward(x, c)
              else if pod == 0 then Line(i, 1, 0) else if i < 2 then StartJob(i + 1) else Handler
            case Fails(_, _) => if pod == 0 then Line(i, 1, 0) else if i < 2 then StartJob(i + 1) else Handler
            case Raises(_, _) => if i < 2 then StartJob(i + 1) else Handler
    ensures Step(e, x, c, f).pc == Handler ==> WhyAfter(e, x, c, f, Retry.OtherException) == Retry.OnboardError
  {
    assert Possible(e, x, c) ==> Onward(x, c) != Handler by {
      hide Possible, Effect;
    }
    hide Possible, Onward, Effect;
  }

  /** A job that cannot be waited for counts as failed; one that is waited for has revoked. */
  lemma WaitMayFail(e: Outputs, x: TenantId, c: Config, i: nat, f: Fault)
    requires c.pc == AwaitJob(i) && i < 3
    ensures Step(e, x, c, f).s == c.s
    ensures Step(e, x, c, f).pc == if f.Dies? then Idle else if f.Fine? then MarkRevoked
                                   else if i < 2 then StartJob(i + 1) else Handler
    ensures Step(e, x, c, f).pc == Handler ==> WhyAfter(e, x, c, f, Retry.OtherException) == Retry.OnboardError
  {
  }

  /** A role that still carries somebody else's inline policy is not deleted, and that is a permanent error. */
  lemma ConflictSurfaces(e: Outputs, x: TenantId, c: Config, why: Retry.Failure)
    requires c.pc == DropIamRole && c.target.Ours? && c.target.role in c.s.world.iam
    requires c.s.world.iam[c.target.role].inline != map[]
    ensures var d := Step(e, x, c, Fine);
            d.pc == Handler && d.s == c.s && WhyAfter(e, x, c, Fine, why) == Retry.PermanentProvisioning
  {
  }
}
