/** What a deletion has done to the workload, by the calls that took effect, what its first checkpoint means, and that
    one that returns has left out no call. */
module Access {
  import opened Names
  import opened Observe
  import opened Cloud
  import opened Registry
  import opened Teardown
  import opened TeardownProofs
  import Retry

  /** On this run, over any number of attempts, some call at this point of the program has taken effect. */
  predicate Happened(e: Outputs, x: TenantId, c: Config, fs: seq<Fault>, pc: Pc)
    decreases |fs|
  {
    fs != [] && ((c.pc == pc && Took(fs[0])) || Happened(e, x, Step(e, x, c, fs[0]), fs[1..], pc))
  }

  /** A workload that was `v0`, once it may have been scaled down, cut off from the edge, or uninstalled. */
  predicate Remains(v0: Workload, scaled: bool, cut: bool, uninstalled: bool, v: Workload) {
    && (uninstalled ==> v == Workload(None, false, false, false, false, false))
    && (!uninstalled ==>
          && (v.deploy.Some? <==> v0.deploy.Some?)
          && (scaled && v.deploy.Some? ==> v.deploy.value.spec == 0 && v.deploy.value.ready == 0)
          && (!scaled ==> v.deploy == v0.deploy)
          && (v.ingress <==> v0.ingress && !cut)
          && v.service == v0.service && v.networkPolicy == v0.networkPolicy && v.quota == v0.quota
          && v.annotatedSa == v0.annotatedSa)
  }

  predicate TouchesSpace(pc: Pc) { pc.ScaleDown? || pc.DropIngress? || pc.Uninstall? || pc.DeleteNamespace? }

  lemma OtherEffects(e: Outputs, x: TenantId, c: Config)
    requires Underway(c.pc) && Possible(e, x, c) && !TouchesSpace(c.pc)
    ensures Effect(e, x, c).world.spaces == c.s.world.spaces
  {
    hide Possible;
  }

  predicate OnlySpaceOf(x: TenantId, w0: World, w: World) {
    Without(w.spaces, x) == Without(w0.spaces, x) && (x in w.spaces <==> x in w0.spaces)
  }

  lemma ScalingScales(w: World, x: TenantId)
    ensures OnlySpaceOf(x, w, ScaleToZero(w, x))
    ensures x in w.spaces ==> Remains(w.spaces[x], true, false, false, ScaleToZero(w, x).spaces[x])
  {
  }

  lemma CuttingCuts(w: World, x: TenantId)
    ensures OnlySpaceOf(x, w, RemoveIngress(w, x))
    ensures x in w.spaces ==> Remains(w.spaces[x], false, true, false, RemoveIngress(w, x).spaces[x])
  {
  }

  lemma UninstallingUninstalls(w: World, x: TenantId)
    ensures OnlySpaceOf(x, w, UninstallRelease(w, x))
    ensures x in w.spaces ==> Remains(w.spaces[x], false, false, true, UninstallRelease(w, x).spaces[x])
  {
  }

  lemma EffectOnSpaces(e: Outputs, x: TenantId, c: Config)
    requires TouchesSpace(c.pc)
    ensures var w0, w := c.s.world, Effect(e, x, c).world;
            && Without(w.spaces, x) == Without(w0.spaces, x)
            && (x in w.spaces <==> x in w0.spaces && c.pc != DeleteNamespace)
            && (x in w.spaces ==>
                  Remains(w0.spaces[x], c.pc == ScaleDown, c.pc == DropIngress, c.pc == Uninstall, w.spaces[x]))
  {
    ScalingScales(c.s.world, x);
    CuttingCuts(c.s.world, x);
    UninstallingUninstalls(c.s.world, x);
    assert Without(Without(c.s.world.spaces, x), x) == Without(c.s.world.spaces, x);
    hide ScaleToZero, RemoveIngress, UninstallRelease, Remains;
  }

  lemma StepWorld(e: Outputs, x: TenantId, c: Config, f: Fault)
    ensures Step(e, x, c, f).s.world
         == if Underway(c.pc) && Took(f) && Possible(e, x, c) then Effect(e, x, c).world else c.s.world
  {
    hide Effect, Possible, Onward, Fallback;
  }

  lemma UntouchedRemains(w: World, x: TenantId)
    ensures x in w.spaces ==> Remains(w.spaces[x], false, false, false, w.spaces[x])
  {
  }

  lemma StepOnSpaces(e: Outputs, x: TenantId, c: Config, f: Fault)
    ensures var w0, w := c.s.world, Step(e, x, c, f).s.world;
            && Without(w.spaces, x) == Without(w0.spaces, x)
            && (c.pc != DeleteNamespace ==> OnlySpaceOf(x, w0, w))
            && (x in w.spaces <==> x in w0.spaces && !(c.pc == DeleteNamespace && Took(f)))
            && (x in w.spaces ==>
                  Remains(w0.spaces[x], c.pc == ScaleDown && Took(f), c.pc == DropIngress && Took(f),
                       c.pc == Uninstall && Took(f), w.spaces[x]))
  {
    hide Step, Effect, Without, Remains;
    StepWorld(e, x, c, f);
    assert TouchesSpace(c.pc) ==> Possible(e, x, c);
    hide Possible;
    UntouchedRemains(c.s.world, x);
    if TouchesSpace(c.pc) {
      EffectOnSpaces(e, x, c);
    } else if Underway(c.pc) && Possible(e, x, c) {
      OtherEffects(e, x, c);
    }
  }

  /** At every moment of every run of attempts the namespace is there unless its removal has taken effect, and in it
      the pods are gone exactly if a scale call took effect, the Ingress exactly if a removal did, and everything
      exactly if an uninstall did; the rest is as at the start, and so are all other namespaces. */
  lemma {:induction false} WorkloadFollowsCalls(e: Outputs, x: TenantId, c: Config, fs: seq<Fault>)
    ensures var w0, w := c.s.world, Play(e, x, c, fs).s.world;
            && Without(w.spaces, x) == Without(w0.spaces, x)
            && (x in w.spaces <==> x in w0.spaces && !Happened(e, x, c, fs, DeleteNamespace))
            && (x in w.spaces ==>
                  Remains(w0.spaces[x], Happened(e, x, c, fs, ScaleDown), Happened(e, x, c, fs, DropIngress),
                       Happened(e, x, c, fs, Uninstall), w.spaces[x]))
    decreases |fs|
  {
    hide Step;
    if fs != [] {
      StepOnSpaces(e, x, c, fs[0]);
      WorkloadFollowsCalls(e, x, Step(e, x, c, fs[0]), fs[1..]);
    }
  }

  // ---- what the checkpoint means ----

  /** Nothing of the tenant runs, and nothing leads to it. */
  predicate NoAccess(x: TenantId, w: World) {
    x in w.spaces ==> ReplicasOf(w.spaces[x]) == 0 && !w.spaces[x].ingress
  }

  /** The exact condition for application access to be cut, at every moment of every run of attempts: the namespace is
      gone or uninstalled, or there were no pods to begin with or a scale call has taken effect, and likewise for the
      Ingress. */
  lemma AccessIsCutExactlyIf(e: Outputs, x: TenantId, c: Config, fs: seq<Fault>)
    ensures NoAccess(x, Play(e, x, c, fs).s.world)
            <==> (x in c.s.world.spaces ==>
                    || Happened(e, x, c, fs, DeleteNamespace) || Happened(e, x, c, fs, Uninstall)
                    || (&& (ReplicasOf(c.s.world.spaces[x]) == 0 || Happened(e, x, c, fs, ScaleDown))
                        && (!c.s.world.spaces[x].ingress || Happened(e, x, c, fs, DropIngress))))
  {
    WorkloadFollowsCalls(e, x, c, fs);
    hide Play, Happened;
  }

  /** The checkpoint the row carries, if there is a row. */
  function Recorded(x: TenantId, s: State): Option<DeleteStep> {
    if x in s.rows then s.rows[x].deleteStep else None
  }

  /** From the access checkpoint up to that of the revocation, and the end of an attempt that failed in between. */
  predicate BetweenAccessAndRevocation(pc: Pc) {
    || pc.MarkAccess? || pc.ReadOutputs? || pc.StartJob? || pc.Line? || pc.AwaitJob? || pc.MarkRevoked?
    || pc.Handler? || pc.Idle?
  }

  /** Past the revocation's checkpoint no write of the attempt brings the access checkpoint back. */
  predicate Beyond(x: TenantId, c: Config) {
    && Recorded(x, c.s) != Some(AccessDisabled)
    && (c.pc.Uninstall? || c.pc.DeleteNamespace? || PastSpace(c.pc) || c.pc.Handler? || c.pc.Idle?)
  }

  lemma BeyondStays(e: Outputs, x: TenantId, c: Config, f: Fault)
    requires Beyond(x, c) && c.pc != Idle
    ensures Beyond(x, Step(e, x, c, f))
  {
    hide JobCanStart;
  }

  lemma {:induction false} BeyondToTheEnd(e: Outputs, x: TenantId, c: Config, fs: seq<Fault>)
    requires WellFormed(c.pc) && Beyond(x, c)
    ensures Recorded(x, RunToIdle(e, x, c, fs).0.s) != Some(AccessDisabled)
    decreases Rank(c.pc)
  {
    if c.pc != Idle {
      BeyondStays(e, x, c, Next(fs));
      StepDescends(e, x, c, Next(fs));
      hide Step, Rank, Beyond;
      BeyondToTheEnd(e, x, Step(e, x, c, Next(fs)), Rest(fs));
    }
  }

  lemma StepInBetween(e: Outputs, x: TenantId, c: Config, f: Fault)
    requires WellFormed(c.pc) && BetweenAccessAndRevocation(c.pc) && c.pc != Idle
    ensures var d := Step(e, x, c, f);
            d.s.world.spaces == c.s.world.spaces && (BetweenAccessAndRevocation(d.pc) || Beyond(x, d))
  {
    hide JobCanStart;
  }

  lemma {:induction false} SpacesStandInBetween(e: Outputs, x: TenantId, c: Config, fs: seq<Fault>)
    requires WellFormed(c.pc) && BetweenAccessAndRevocation(c.pc)
    requires Recorded(x, RunToIdle(e, x, c, fs).0.s) == Some(AccessDisabled)
    ensures RunToIdle(e, x, c, fs).0.s.world.spaces == c.s.world.spaces
    decreases Rank(c.pc)
  {
    if c.pc != Idle {
      var d := Step(e, x, c, Next(fs));
      StepInBetween(e, x, c, Next(fs));
      StepDescends(e, x, c, Next(fs));
      hide Step, Rank, BetweenAccessAndRevocation, Beyond;
      if BetweenAccessAndRevocation(d.pc) {
        SpacesStandInBetween(e, x, d, Rest(fs));
      } else {
        BeyondToTheEnd(e, x, d, Rest(fs));
      }
    }
  }

  lemma Unrolled(e: Outputs, x: TenantId, c: Config, fs: seq<Fault>)
    requires WellFormed(c.pc)
    ensures if c.pc == Idle then RunToIdle(e, x, c, fs).0 == c
            else WellFormed(Step(e, x, c, Next(fs)).pc)
                 && RunToIdle(e, x, c, fs).0 == RunToIdle(e, x, Step(e, x, c, Next(fs)), Rest(fs)).0
  {
    if c.pc != Idle {
      StepDescends(e, x, c, Next(fs));
      hide Step, Rank;
    }
  }

  lemma FirstCalls(e: Outputs, x: TenantId, s: State, f1: Fault, f2: Fault)
    ensures var c1 := Step(e, x, Begin(s), Fine);
            var c2 := Step(e, x, c1, f1);
            var c3 := Step(e, x, c2, f2);
            && c1.pc == ScaleDown && c1.s.world == s.world && Recorded(x, c1.s) == Some(Started)
            && (if f1.Raises? || f1.Dies? then Beyond(x, c2) else c2.pc == DropIngress)
            && (c2.pc == DropIngress ==> if f2.Raises? || f2.Dies? then Beyond(x, c3) else c3.pc == MarkAccess)
  {
    hide ScaleToZero, RemoveIngress;
  }

  /** A deletion that got past its first write and whose row, however it ended, says access_disabled: the commands that
      scale down and remove the Ingress have both been answered, and the pods are gone exactly if the first took effect,
      the Ingress exactly if the second did. Both are best effort, so a bad exit status does not keep the checkpoint
      from being written. */
  lemma EndedAtAccess(e: Outputs, x: TenantId, s: State, fs: seq<Fault>)
    requires Next(fs).Fine? && Recorded(x, Attempt(e, x, s, fs).0.s) == Some(AccessDisabled)
    ensures var f1, f2, w := Next(Rest(fs)), Next(Rest(Rest(fs))), Attempt(e, x, s, fs).0.s.world;
            && !f1.Raises? && !f1.Dies? && !f2.Raises? && !f2.Dies? && OnlySpaceOf(x, s.world, w)
            && (x in w.spaces ==> Remains(s.world.spaces[x], Took(f1), Took(f2), false, w.spaces[x]))
  {
    var f1, f2 := Next(Rest(fs)), Next(Rest(Rest(fs)));
    var c1 := Step(e, x, Begin(s), Fine);
    var c2 := Step(e, x, c1, f1);
    var c3 := Step(e, x, c2, f2);
    FirstCalls(e, x, s, f1, f2);
    StepOnSpaces(e, x, c1, f1);
    StepOnSpaces(e, x, c2, f2);
    Unrolled(e, x, c1, Rest(fs));
    hide Step, Beyond, Recorded, Next, Rest, RunToIdle, Remains, OnlySpaceOf;
    if f1.Raises? || f1.Dies? {
      BeyondToTheEnd(e, x, c2, Rest(Rest(fs)));
    } else {
      Unrolled(e, x, c2, Rest(Rest(fs)));
      if f2.Raises? || f2.Dies? {
        BeyondToTheEnd(e, x, c3, Rest(Rest(Rest(fs))));
      } else {
        SpacesStandInBetween(e, x, c3, Rest(Rest(Rest(fs))));
        LeftTwice(x, s.world, c2.s.world, c3.s.world, Took(f1), Took(f2));
      }
    }
  }

  lemma LeftTwice(x: TenantId, w0: World, w1: World, w2: World, scaled: bool, cut: bool)
    requires OnlySpaceOf(x, w0, w1) && OnlySpaceOf(x, w1, w2)
    requires x in w0.spaces ==>
               Remains(w0.spaces[x], scaled, false, false, w1.spaces[x])
               && Remains(w1.spaces[x], false, cut, false, w2.spaces[x])
    ensures OnlySpaceOf(x, w0, w2)
    ensures x in w0.spaces ==> Remains(w0.spaces[x], scaled, cut, false, w2.spaces[x])
  {
  }

  /** The failing input: both commands exit with an error and without effect, the checkpoint is written, and the
      OpenTofu outputs cannot be read. The row says access_disabled, and the workload is as it was. */
  lemma AccessCheckpointCanLie(e: Outputs, x: TenantId, s: State, error: Retry.Failure)
    ensures var fs := [Fine, Fails(false, error), Fails(false, error), Fine, Fails(false, error)];
            var c := Attempt(e, x, s, fs).0;
            && c.ending == Raised && c.s.world == s.world && x in c.s.rows
            && c.s.rows[x].status == DELETE_FAILED && c.s.rows[x].deleteStep == Some(AccessDisabled)
  {
    var bad := Fails(false, error);
    var c1 := Step(e, x, Begin(s), Fine);
    var c2 := Step(e, x, c1, bad);
    var c3 := Step(e, x, c2, bad);
    var c4 := Step(e, x, c3, Fine);
    var c5 := Step(e, x, c4, bad);
    FirstCalls(e, x, s, bad, bad);
    LenientCalls(e, x, s, bad);
    FailsAtOutputs(e, x, c4, bad);
    hide Step, Recorded;
    OneCall(e, x, c4, bad, []);
    OneCall(e, x, c3, Fine, [bad]);
    OneCall(e, x, c2, bad, [Fine, bad]);
    OneCall(e, x, c1, bad, [bad, Fine, bad]);
    Unrolled(e, x, c5, []);
    Unrolled(e, x, Step(e, x, c5, Fine), []);
    var fs := [Fine, bad, bad, Fine, bad];
    assert fs[1..] == [bad, bad, Fine, bad];
  }

  lemma OneCall(e: Outputs, x: TenantId, c: Config, f: Fault, rest: seq<Fault>)
    requires WellFormed(c.pc) && c.pc != Idle
    ensures WellFormed(Step(e, x, c, f).pc)
    ensures RunToIdle(e, x, c, [f] + rest).0 == RunToIdle(e, x, Step(e, x, c, f), rest).0
  {
    assert ([f] + rest)[1..] == rest;
    Unrolled(e, x, c, [f] + rest);
  }

  lemma FailsAtOutputs(e: Outputs, x: TenantId, c: Config, bad: Fault)
    requires c.pc == ReadOutputs && bad.Fails?
    ensures var d := Step(e, x, Step(e, x, c, bad), Fine);
            && Step(e, x, c, bad).pc == Handler && d.pc == Idle && d.ending == Raised && d.s.world == c.s.world
            && x in d.s.rows && d.s.rows[x].status == DELETE_FAILED
            && (x in c.s.rows ==> d.s.rows[x].deleteStep == c.s.rows[x].deleteStep)
  {
  }

  lemma LenientCalls(e: Outputs, x: TenantId, s: State, bad: Fault)
    requires bad.Fails? && !bad.took
    ensures var c2 := Step(e, x, Step(e, x, Begin(s), Fine), bad);
            var c3 := Step(e, x, c2, bad);
            var c4 := Step(e, x, c3, Fine);
            && c2.pc == DropIngress && c3.pc == MarkAccess && c4.pc == ReadOutputs
            && c4.s.world == s.world && x in c4.s.rows && c4.s.rows[x].deleteStep == Some(AccessDisabled)
  {
  }

  // ---- nothing is left out ----

  /** On its way to the end the attempt makes the call at p. */
  predicate Makes(e: Outputs, x: TenantId, c: Config, fs: seq<Fault>, p: Pc)
    requires WellFormed(c.pc)
    decreases Rank(c.pc)
  {
    c.pc != Idle
    && (c.pc == p || (StepDescends(e, x, c, Next(fs)); Makes(e, x, Step(e, x, c, Next(fs)), Rest(fs), p)))
  }

  /** The calls every deletion has to make, and those it makes for an identity of the control plane's own. */
  predicate Needed(p: Pc) {
    p in {ScaleDown, DropIngress, MarkAccess, ReadOutputs, MarkRevoked, Uninstall, DeleteNamespace, MarkK8s, DropRow}
  }

  predicate NeededIfOurs(p: Pc) { p in {DropInlinePolicy, DropIamRole, MarkIam, DropSecret, MarkSecret} }

  lemma NoneSkipped(e: Outputs, x: TenantId, c: Config, f: Fault, p: Pc)
    requires WellFormed(c.pc) && Underway(c.pc) && Rank(c.pc) > Rank(p)
    requires Needed(p) || (NeededIfOurs(p) && c.target.Ours?)
    ensures var d := Step(e, x, c, f);
            && d.target == c.target
            && if d.pc == Idle then d.ending != Returned else d.pc == Handler || Rank(d.pc) >= Rank(p)
  {
    hide Effect, Possible;
  }

  lemma HandlerNeverReturns(e: Outputs, x: TenantId, c: Config, fs: seq<Fault>)
    requires c.pc == Handler
    ensures RunToIdle(e, x, c, fs).0.ending != Returned
  {
    var d := Step(e, x, c, Next(fs));
    assert d.pc == Idle && d.ending != Returned;
    hide Step;
    assert RunToIdle(e, x, c, fs) == RunToIdle(e, x, d, Rest(fs));
  }

  lemma {:induction false} RunMakes(e: Outputs, x: TenantId, c: Config, fs: seq<Fault>, p: Pc)
    requires WellFormed(c.pc) && Underway(c.pc) && Rank(c.pc) >= Rank(p)
    requires Needed(p) || (NeededIfOurs(p) && c.target.Ours?)
    requires RunToIdle(e, x, c, fs).0.ending == Returned
    ensures Makes(e, x, c, fs, p)
    decreases Rank(c.pc)
  {
    if c.pc != p {
      var d := Step(e, x, c, Next(fs));
      StepDescends(e, x, c, Next(fs));
      SameRankSamePc(c.pc, p);
      NoneSkipped(e, x, c, Next(fs), p);
      hide Step, Rank, Needed, NeededIfOurs;
      if d.pc == Handler {
        HandlerNeverReturns(e, x, d, Rest(fs));
      } else if d.pc != Idle {
        RunMakes(e, x, d, Rest(fs), p);
      }
    }
  }

  lemma SameRankSamePc(a: Pc, b: Pc)
    requires WellFormed(a) && (Needed(b) || NeededIfOurs(b))
    ensures Rank(a) == Rank(b) ==> a == b
  {
  }

  /** A deletion that returns has made every call: it has scaled down, cut off, read the outputs, uninstalled and
      removed the namespace, recorded every step, and, for an identity of the control plane's own, removed policy,
      role and secret. */
  lemma NothingIsLeftOut(e: Outputs, x: TenantId, s: State, fs: seq<Fault>, p: Pc)
    requires Attempt(e, x, s, fs).0.ending == Returned
    requires Needed(p) || (NeededIfOurs(p) && x in s.rows && s.rows[x].owner == ControlPlane)
    ensures var c := Step(e, x, Begin(s), Next(fs)); WellFormed(c.pc) && Makes(e, x, c, Rest(fs), p)
  {
    var c := Step(e, x, Begin(s), Next(fs));
    assert if Next(fs).Fine? then c.pc == ScaleDown && c.target == TargetOf(e, s.rows, x)
           else c.pc == Idle && c.ending != Returned;
    assert Rank(ScaleDown) >= Rank(p);
    hide Step, Rank;
    if Next(fs).Fine? {
      RunMakes(e, x, c, Rest(fs), p);
    }
  }
}
