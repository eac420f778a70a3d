/** The guarantees of `delete_tenant`, stated over every run: any number of attempts,
    each failing or dying at any call, before or after the call's effect. */
module DeleteTheorems {
  import opened Names
  import opened Postgres
  import opened Cloud
  import opened Registry
  import opened Teardown
  import opened TeardownProofs

  lemma BeginIsInv(e: Outputs, x: TenantId, s: State)
    requires Ready(e, x, s)
    ensures Inv(e, x, TargetOf(e, s.rows, x), Begin(s))
  {
  }

  /** Abandoning an attempt at any point leaves a state a new attempt can start from. */
  lemma InvRestarts(e: Outputs, x: TenantId, t0: Target, c: Config)
    requires Inv(e, x, t0, c)
    ensures Inv(e, x, t0, Begin(c.s))
  {
  }

  lemma {:induction false} PlayKeepsInv(e: Outputs, x: TenantId, t0: Target, c: Config, fs: seq<Fault>)
    requires Inv(e, x, t0, c)
    ensures Inv(e, x, t0, Play(e, x, c, fs))
    ensures Erased(e, x, t0, Play(e, x, c, fs).s) == Erased(e, x, t0, c.s)
    decreases |fs|
  {
    hide Inv, Erased, Step;
    if fs != [] {
      StepKeepsInv(e, x, t0, c, fs[0]);
      StepKeepsErased(e, x, t0, c, fs[0]);
      PlayKeepsInv(e, x, t0, Step(e, x, c, fs[0]), fs[1..]);
    }
  }

  lemma {:induction false} PlayFailsClosed(e: Outputs, x: TenantId, t0: Target, w0: World, c: Config, fs: seq<Fault>)
    requires Inv(e, x, t0, c) && FailClosed(x, t0, w0, c.s.world)
    ensures FailClosed(x, t0, w0, Play(e, x, c, fs).s.world)
    decreases |fs|
  {
    hide Inv, FailClosed, Step;
    if fs != [] {
      StepKeepsInv(e, x, t0, c, fs[0]);
      StepFailsClosed(e, x, t0, w0, c, fs[0]);
      PlayFailsClosed(e, x, t0, w0, Step(e, x, c, fs[0]), fs[1..]);
    }
  }

  /** Fail-closed order, at every moment of every run: while the DB role exists, namespace, IAM role and
      secret are as at the start; while the namespace exists, IAM role and secret are; while the IAM role
      exists, the secret is. */
  lemma DeletionFailsClosed(e: Outputs, x: TenantId, s0: State, fs: seq<Fault>)
    requires Ready(e, x, s0)
    ensures FailClosed(x, TargetOf(e, s0.rows, x), s0.world, Play(e, x, Begin(s0), fs).s.world)
  {
    BeginIsInv(e, x, s0);
    PlayFailsClosed(e, x, TargetOf(e, s0.rows, x), s0.world, Begin(s0), fs);
  }

  lemma {:induction false} PlayDisarms(e: Outputs, x: TenantId, t0: Target, db0: Db, c: Config, fs: seq<Fault>)
    requires Inv(e, x, t0, c) && Disarmed(x, db0, c.s.world.db)
    ensures Disarmed(x, db0, Play(e, x, c, fs).s.world.db)
    decreases |fs|
  {
    if fs != [] {
      StepDisarms(e, x, db0, c, fs[0]);
      StepKeepsInv(e, x, t0, c, fs[0]);
      hide Inv, Disarmed, Step;
      PlayDisarms(e, x, t0, db0, Step(e, x, c, fs[0]), fs[1..]);
    }
  }

  /** At every moment of every run of attempts: as long as x's role exists it is as at the start, or cannot log in; and
      once it has lost any grant, it cannot log in and its old password is void. */
  lemma FailedDropsLeaveNothingUsable(e: Outputs, x: TenantId, s0: State, fs: seq<Fault>)
    requires Ready(e, x, s0)
    ensures Disarmed(x, s0.world.db, Play(e, x, Begin(s0), fs).s.world.db)
    ensures forall secret :: PasswordOf(secret) != ROTATED
  {
    BeginIsInv(e, x, s0);
    PlayDisarms(e, x, TargetOf(e, s0.rows, x), s0.world.db, Begin(s0), fs);
  }

  /** Nothing has been written yet, or what is recorded is true. */
  predicate TellsTruth(e: Outputs, x: TenantId, t: Target, s0: State, c: Config) {
    (c.pc == Idle && c.s == s0) || CheckpointSound(e, x, t, c.s)
  }

  lemma StepTellsTruth(e: Outputs, x: TenantId, t0: Target, s0: State, c: Config, f: Fault)
    requires Inv(e, x, t0, c) && TellsTruth(e, x, t0, s0, c)
    ensures TellsTruth(e, x, t0, s0, Step(e, x, c, f))
  {
    if CheckpointSound(e, x, t0, c.s) {
      StepKeepsCheckpoint(e, x, t0, c, f);
    } else {
      assert CheckpointSound(e, x, t0, WriteRow(e, s0, x, STARTED));
    }
    hide Inv;
  }

  lemma {:induction false} PlayTellsTruth(e: Outputs, x: TenantId, t0: Target, s0: State, c: Config, fs: seq<Fault>)
    requires Inv(e, x, t0, c) && TellsTruth(e, x, t0, s0, c) && StepRecorded(x, c)
    ensures TellsTruth(e, x, t0, s0, Play(e, x, c, fs)) && StepRecorded(x, Play(e, x, c, fs))
    decreases |fs|
  {
    hide Inv, TellsTruth, StepRecorded, Step;
    if fs != [] {
      StepKeepsInv(e, x, t0, c, fs[0]);
      StepTellsTruth(e, x, t0, s0, c, fs[0]);
      StepKeepsRecord(e, x, t0, c, fs[0]);
      PlayTellsTruth(e, x, t0, s0, Step(e, x, c, fs[0]), fs[1..]);
    }
  }

  /** Checkpoints tell the truth at every moment after the first write: the recorded delete_step implies that what it
      names is gone, and an attempt underway has recorded exactly its last completed step. A failure that leads to the
      handler leaves that record alone, or, at a checkpoint whose write took effect all the same, records that one. */
  lemma CheckpointsTellTheTruth(e: Outputs, x: TenantId, s0: State, fs: seq<Fault>, f: Fault)
    requires Ready(e, x, s0)
    ensures var c := Play(e, x, Begin(s0), fs);
            && (c.s == s0 || CheckpointSound(e, x, TargetOf(e, s0.rows, x), c.s))
            && StepRecorded(x, c)
            && (Underway(c.pc) && Step(e, x, c, f).pc == Handler ==>
                  RecordIs(x, Step(e, x, c, f), NextMark(c.pc, f, c.s.rows[x].deleteStep)))
  {
    var c := Play(e, x, Begin(s0), fs);
    BeginIsInv(e, x, s0);
    PlayTellsTruth(e, x, TargetOf(e, s0.rows, x), s0, Begin(s0), fs);
    PlayKeepsInv(e, x, TargetOf(e, s0.rows, x), Begin(s0), fs);
    hide Play, Step, NextMark, Ready;
    if Underway(c.pc) {
      StepTracksMark(e, x, c, f, c.s.rows[x].deleteStep);
    }
  }

  /** How a failed attempt ends, from any state and under any faults. If its first write failed, nothing else happened.
      Otherwise the row is wanted GONE and carries the attempt's last checkpoint, and it is DELETE_FAILED if and only if
      the handler's write took effect; it is missing only if it had been deleted and that write did not. */
  lemma FailedAttemptRecords(e: Outputs, x: TenantId, s: State, fs: seq<Fault>)
    requires Attempt(e, x, s, fs).0.ending == Raised
    ensures var rows, c := Attempt(e, x, s, fs).0.s.rows, Step(e, x, Begin(s), Next(fs));
            if !Next(fs).Fine? then rows == if Took(Next(fs)) then Put(s.rows, x, STARTED, e.now) else s.rows
            else FailureRecorded(x, rows, Took(HandlerFault(e, x, c, Rest(fs))),
                                 LastMark(e, x, c, Rest(fs), Some(Started)))
  {
    var c := Step(e, x, Begin(s), Next(fs));
    if Next(fs).Fine? {
      assert c.pc == ScaleDown && RecordIs(x, c, Some(Started)) && RowInAttempt(x, c);
      hide Step, RowInAttempt, RecordIs, FailureRecorded;
      FailedRunRecords(e, x, c, Rest(fs), Some(Started));
    }
  }

  /** What the first write of a deletion says, over whatever row there was. */
  lemma DeletionStarts(e: Outputs, x: TenantId, s: State, f: Fault)
    requires Took(f)
    ensures var rows := Step(e, x, Begin(s), f).s.rows;
            && x in rows && Without(rows, x) == Without(s.rows, x)
            && rows[x].desired == WantGone && rows[x].status == DELETING && rows[x].error == None
            && rows[x].deleteStep == Some(Started)
            && (x in s.rows ==>
                  && rows[x].owner == s.rows[x].owner && rows[x].secretName == s.rows[x].secretName
                  && rows[x].irsaRoleArn == s.rows[x].irsaRoleArn && rows[x].tier == s.rows[x].tier)
            && (x !in s.rows ==> rows[x].owner == Unowned)
  {
    assert Without(Put(s.rows, x, STARTED, e.now), x) == Without(s.rows, x);
  }

  lemma {:induction false} PlayShrinks(e: Outputs, x: TenantId, t: Target, c: Config, fs: seq<Fault>)
    requires WellFormed(c.pc)
    ensures Remaining(x, t, Play(e, x, c, fs).s.world) <= Remaining(x, t, c.s.world)
    ensures |Remaining(x, t, Play(e, x, c, fs).s.world)| <= |Remaining(x, t, c.s.world)|
    decreases |fs|
  {
    hide Step, Remaining;
    if fs != [] {
      StepShrinks(e, x, t, c, fs[0]);
      StepStaysWellFormed(e, x, c, fs[0]);
      PlayShrinks(e, x, t, Step(e, x, c, fs[0]), fs[1..]);
    }
    Smaller(Remaining(x, t, Play(e, x, c, fs).s.world), Remaining(x, t, c.s.world));
  }

  lemma Smaller<T>(a: set<T>, b: set<T>)
    requires a <= b
    ensures |a| <= |b|
  {
    assert b == a + (b - a);
  }

  lemma StepStaysWellFormed(e: Outputs, x: TenantId, c: Config, f: Fault)
    requires WellFormed(c.pc)
    ensures WellFormed(Step(e, x, c, f).pc)
  {
    if c.pc != Idle {
      StepDescends(e, x, c, f);
    }
  }

  /** Nothing but x is touched, at any moment: every other tenant's row, namespace, database role and policy,
      every other IAM role and secret, and the shared table's contents are as at the start. */
  lemma OthersUntouched(e: Outputs, x: TenantId, s0: State, fs: seq<Fault>)
    requires Ready(e, x, s0)
    ensures var t, s := TargetOf(e, s0.rows, x), Play(e, x, Begin(s0), fs).s;
            && Without(s.rows, x) == Without(s0.rows, x)
            && Without(s.world.spaces, x) == Without(s0.world.spaces, x)
            && Without(s.world.db.roles, TenantRole(x)) == Without(s0.world.db.roles, TenantRole(x))
            && Without(s.world.db.policies, x) == Without(s0.world.db.policies, x)
            && s.world.db.records == s0.world.db.records
            && (if t.Ours? then Without(s.world.iam, t.role) == Without(s0.world.iam, t.role)
                           else s.world.iam == s0.world.iam)
            && forall n | t.NotOurs? || n != t.secret ::
                 (n in s.world.secrets <==> n in s0.world.secrets)
                 && (n in s.world.secrets ==> s.world.secrets[n] == s0.world.secrets[n])
  {
    var t, s := TargetOf(e, s0.rows, x), Play(e, x, Begin(s0), fs).s;
    BeginIsInv(e, x, s0);
    PlayKeepsInv(e, x, t, Begin(s0), fs);
    hide Play, Ready;
    var a, b := Erased(e, x, t, s), Erased(e, x, t, s0);
    assert a.rows == b.rows && a.world.spaces == b.world.spaces && a.world.db == b.world.db;
    forall n | t.NotOurs? || n != t.secret
      ensures (n in s.world.secrets <==> n in s0.world.secrets)
              && (n in s.world.secrets ==> s.world.secrets[n] == s0.world.secrets[n])
    {
      assert n in a.world.secrets <==> n in s.world.secrets;
      assert n in b.world.secrets <==> n in s0.world.secrets;
    }
  }

  /** An identity that the control plane does not own, OpenTofu's say, is not touched by any run of deletions. */
  lemma ForeignIdentityStands(e: Outputs, x: TenantId, s0: State, fs: seq<Fault>)
    requires Ready(e, x, s0) && (x in s0.rows ==> s0.rows[x].owner != ControlPlane)
    ensures var w := Play(e, x, Begin(s0), fs).s.world; w.iam == s0.world.iam && w.secrets == s0.world.secrets
  {
    OthersUntouched(e, x, s0, fs);
    hide Play, Ready;
    var w := Play(e, x, Begin(s0), fs).s.world;
    assert forall n :: n in w.secrets <==> n in s0.world.secrets;
  }

  // ---- what a returning attempt leaves ----

  lemma NothingLeft(e: Outputs, x: TenantId, t: Target, s: State)
    requires x !in s.rows && x !in s.world.spaces && Revoked(x, s.world.db) && AwsGone(e, t, s.world)
    ensures Erased(e, x, t, s) == s
  {
    var w := s.world;
    assert Without(s.rows, x) == s.rows && Without(w.spaces, x) == w.spaces;
    assert Without(w.db.roles, TenantRole(x)) == w.db.roles && Without(w.db.policies, x) == w.db.policies;
    if t.Ours? {
      assert Without(w.iam, t.role) == w.iam;
      assert RemoveSecret(w, t.secret, e.recoveryWindow).secrets == w.secrets;
    }
  }

  lemma LastStepErases(e: Outputs, x: TenantId, t0: Target, c: Config)
    requires Inv(e, x, t0, c) && c.pc == DropRow
    ensures Step(e, x, c, Fine).s == Erased(e, x, t0, c.s)
  {
    StepKeepsErased(e, x, t0, c, Fine);
    NothingLeft(e, x, t0, Step(e, x, c, Fine).s);
  }

  lemma OnlyDropRowReturns(e: Outputs, x: TenantId, c: Config, f: Fault)
    requires c.pc != Idle && Step(e, x, c, f).pc == Idle && Step(e, x, c, f).ending == Returned
    ensures c.pc == DropRow && f == Fine
  {
    hide Effect, Fallback, Possible;
  }

  /** Whatever went wrong on the way: an attempt that returns has erased exactly what it should. */
  lemma {:induction false} ReturningErases(e: Outputs, x: TenantId, t0: Target, c: Config, fs: seq<Fault>)
    requires Inv(e, x, t0, c) && c.pc != Idle && RunToIdle(e, x, c, fs).0.ending == Returned
    ensures RunToIdle(e, x, c, fs).0.s == Erased(e, x, t0, c.s)
    decreases Rank(c.pc)
  {
    var d := Step(e, x, c, Next(fs));
    StepKeepsInv(e, x, t0, c, Next(fs));
    StepKeepsErased(e, x, t0, c, Next(fs));
    StepDescends(e, x, c, Next(fs));
    if d.pc == Idle {
      OnlyDropRowReturns(e, x, c, Next(fs));
      LastStepErases(e, x, t0, c);
    } else {
      hide Inv, Step, Erased;
      ReturningErases(e, x, t0, d, Rest(fs));
    }
  }

  /** Whatever went wrong on the way: a `delete_tenant` that returns has erased exactly the tenant. */
  lemma AttemptErases(e: Outputs, x: TenantId, s: State, fs: seq<Fault>)
    requires Ready(e, x, s) && Attempt(e, x, s, fs).0.ending == Returned
    ensures Attempt(e, x, s, fs).0.s == Erased(e, x, TargetOf(e, s.rows, x), s)
  {
    var t, c := TargetOf(e, s.rows, x), Step(e, x, Begin(s), Next(fs));
    BeginIsInv(e, x, s);
    StepKeepsInv(e, x, t, Begin(s), Next(fs));
    StepKeepsErased(e, x, t, Begin(s), Next(fs));
    assert c.pc == Idle ==> c.ending != Returned;
    hide Step, Inv, Erased, Ready;
    ReturningErases(e, x, t, c, Rest(fs));
  }

  /** The identity a returning deletion removes is the one the row points to, or, where the row points to none, the one
      with the names the control plane would have given it. */
  lemma OwnIdentityGoes(e: Outputs, x: TenantId, s: State, fs: seq<Fault>)
    requires Ready(e, x, s) && Attempt(e, x, s, fs).0.ending == Returned
    requires x in s.rows && s.rows[x].owner == ControlPlane
    ensures var w, row := Attempt(e, x, s, fs).0.s.world, s.rows[x];
            && SecretGone(e, w, if Truthy(row.secretName) then row.secretName.value else e.prefix + "/rds/tenant-" + x)
            && (if Truthy(row.irsaRoleArn) && "arn:" <= row.irsaRoleArn.value
                then LastSegment(row.irsaRoleArn.value) else e.prefix + "-tenant-" + x) !in w.iam
  {
    AttemptErases(e, x, s, fs);
    hide Attempt, Ready, LastSegment;
  }

  // ---- a fault-free attempt returns ----

  /** From any point a run can reach, the remaining calls can all succeed,
      provided the revoke job still has its host. */
  lemma NothingBlocks(e: Outputs, x: TenantId, t0: Target, c: Config)
    requires Inv(e, x, t0, c) && Underway(c.pc)
    requires JobCanStart(e, c.s.world) || PastRevoke(c.pc)
    ensures Possible(e, x, c)
  {
    if c.pc.Line? && c.pc.line == LAST_LINE {
      assert LineFacts(x, LAST_LINE, c.s.world.db);
    }
  }

  lemma CleanStepAdvances(e: Outputs, x: TenantId, t0: Target, c: Config)
    requires Inv(e, x, t0, c) && Underway(c.pc) && (JobCanStart(e, c.s.world) || PastRevoke(c.pc))
    ensures var d := Step(e, x, c, Fine);
            && d.pc == Onward(x, c) && d.pc != Handler && (d.pc == Idle ==> d.ending == Returned)
            && (d.pc == Idle || JobCanStart(e, d.s.world) || PastRevoke(d.pc))
  {
    NothingBlocks(e, x, t0, c);
    EffectKeepsOtherSpaces(e, x, c);
    assert PastRevoke(c.pc) ==> Onward(x, c) == Idle || PastRevoke(Onward(x, c));
    hide Inv, Effect, Possible, Fallback;
  }

  lemma {:induction false} CleanRunReturns(e: Outputs, x: TenantId, t0: Target, c: Config)
    requires Inv(e, x, t0, c) && Underway(c.pc) && (JobCanStart(e, c.s.world) || PastRevoke(c.pc))
    ensures RunToIdle(e, x, c, []).0.ending == Returned
    decreases Rank(c.pc)
  {
    var d := Step(e, x, c, Fine);
    StepKeepsInv(e, x, t0, c, Fine);
    StepDescends(e, x, c, Fine);
    CleanStepAdvances(e, x, t0, c);
    hide Inv, Step, Onward, Rank;
    if d.pc != Idle {
      CleanRunReturns(e, x, t0, d);
    }
  }

  lemma CleanAttemptErases(e: Outputs, x: TenantId, t0: Target, s: State)
    requires Inv(e, x, t0, Begin(s)) && JobCanStart(e, s.world)
    ensures Attempt(e, x, s, []).0.ending == Returned
    ensures Attempt(e, x, s, []).0.s == Erased(e, x, t0, s)
  {
    var c := Step(e, x, Begin(s), Fine);
    StepKeepsInv(e, x, t0, Begin(s), Fine);
    StepKeepsErased(e, x, t0, Begin(s), Fine);
    assert c.pc == ScaleDown && c.s.world == s.world;
    hide Inv, Step, Erased;
    CleanRunReturns(e, x, t0, c);
    ReturningErases(e, x, t0, c, []);
  }

  lemma {:induction false} PlayKeepsHost(e: Outputs, x: TenantId, c: Config, fs: seq<Fault>)
    requires x != RevokeHost(e) && JobCanStart(e, c.s.world)
    ensures JobCanStart(e, Play(e, x, c, fs).s.world)
    decreases |fs|
  {
    if fs != [] {
      StepKeepsHost(e, x, c, fs[0]);
      hide Step;
      PlayKeepsHost(e, x, Step(e, x, c, fs[0]), fs[1..]);
    }
  }

  /** Delete confluence, for every tenant but the one that hosts the revoke job: after any finite sequence of
      attempts that failed or died anywhere, one fault-free attempt returns and leaves exactly the state that a
      single fault-free delete from the start leaves, which is the start with x erased. */
  lemma DeleteConfluence(e: Outputs, x: TenantId, s0: State, fs: seq<Fault>)
    requires Ready(e, x, s0) && x != RevokeHost(e) && JobCanStart(e, s0.world)
    ensures var retried := Attempt(e, x, Play(e, x, Begin(s0), fs).s, []).0;
            var direct := Attempt(e, x, s0, []).0;
            && retried.ending == Returned && direct.ending == Returned
            && retried.s == direct.s == Erased(e, x, TargetOf(e, s0.rows, x), s0)
  {
    var t0 := TargetOf(e, s0.rows, x);
    BeginIsInv(e, x, s0);
    PlayKeepsInv(e, x, t0, Begin(s0), fs);
    PlayKeepsHost(e, x, Begin(s0), fs);
    InvRestarts(e, x, t0, Play(e, x, Begin(s0), fs));
    hide Inv, Ready, Play, Erased, Attempt;
    CleanAttemptErases(e, x, t0, s0);
    CleanAttemptErases(e, x, t0, Play(e, x, Begin(s0), fs).s);
  }

  // ---- without its host the deletion is stuck ----

  /** No revoke job can start, so the attempt stays on the near side of the revocation. */
  predicate Stuck(e: Outputs, c: Config) {
    && !JobCanStart(e, c.s.world) && c.ending != Returned
    && (c.pc.Idle? || c.pc.Handler? || c.pc.ScaleDown? || c.pc.DropIngress? || c.pc.MarkAccess?
        || c.pc.ReadOutputs? || c.pc.StartJob?)
  }

  lemma StuckStays(e: Outputs, x: TenantId, c: Config, f: Fault)
    requires Stuck(e, c)
    ensures Stuck(e, Step(e, x, c, f))
  {
    if Underway(c.pc) {
      StepShape(e, x, c, f);
      if Possible(e, x, c) {
        EffectOnlyRemoves(e, x, c);
      }
    }
    hide Effect;
  }

  lemma {:induction false} StuckForever(e: Outputs, x: TenantId, c: Config, fs: seq<Fault>)
    requires Stuck(e, c)
    ensures Stuck(e, Play(e, x, c, fs))
    decreases |fs|
  {
    if fs != [] {
      StuckStays(e, x, c, fs[0]);
      hide Step, Stuck;
      StuckForever(e, x, Step(e, x, c, fs[0]), fs[1..]);
    }
  }

  lemma {:induction false} StuckRun(e: Outputs, x: TenantId, c: Config, fs: seq<Fault>)
    requires Stuck(e, c) && WellFormed(c.pc)
    ensures RunToIdle(e, x, c, fs).0.ending != Returned
    decreases Rank(c.pc)
  {
    if c.pc != Idle {
      StuckStays(e, x, c, Next(fs));
      StepDescends(e, x, c, Next(fs));
      hide Step, Rank;
      StuckRun(e, x, Step(e, x, c, Next(fs)), Rest(fs));
    }
  }

  /** The exact condition for a delete to be able to succeed, for every tenant: some attempt returns
      if and only if the revoke job can start. The tenant that hosts the job loses that condition the moment
      its own namespace is gone, and then every further attempt fails. */
  lemma DeletableIffJobCanStart(e: Outputs, x: TenantId, s: State)
    requires Ready(e, x, s)
    ensures (exists fs :: Attempt(e, x, s, fs).0.ending == Returned) <==> JobCanStart(e, s.world)
    ensures JobCanStart(e, s.world) <==>
              var host := if e.platform.Some? && e.platform.value != "" then e.platform.value else "a";
              ValidId(host) && host in s.world.spaces && e.migrator && e.rdsSecret
  {
    if JobCanStart(e, s.world) {
      BeginIsInv(e, x, s);
      CleanAttemptErases(e, x, TargetOf(e, s.rows, x), s);
    } else {
      forall fs ensures Attempt(e, x, s, fs).0.ending != Returned {
        StuckStays(e, x, Begin(s), Next(fs));
        StepStaysWellFormed(e, x, Begin(s), Next(fs));
        hide Step;
        StuckRun(e, x, Step(e, x, Begin(s), Next(fs)), Rest(fs));
      }
    }
  }

  lemma HostLosesRetry(e: Outputs, s: State, fs: seq<Fault>)
    requires RevokeHost(e) !in s.world.spaces
    ensures !JobCanStart(e, Play(e, RevokeHost(e), Begin(s), fs).s.world)
    ensures Play(e, RevokeHost(e), Begin(s), fs).ending != Returned
  {
    StuckForever(e, RevokeHost(e), Begin(s), fs);
  }

  /** Every attempt ends, whatever the faults: within Rank(pc) further steps it is idle again. */
  lemma {:induction false} AttemptsEnd(e: Outputs, x: TenantId, c: Config, fs: seq<Fault>) returns (n: nat)
    requires WellFormed(c.pc) && |fs| >= Rank(c.pc)
    ensures n <= Rank(c.pc) <= 103
    ensures Play(e, x, c, fs[..n]).pc == Idle
    decreases Rank(c.pc)
  {
    RankIsBounded(c.pc);
    if c.pc == Idle {
      n := 0;
    } else {
      StepDescends(e, x, c, fs[0]);
      var m := AttemptsEnd(e, x, Step(e, x, c, fs[0]), fs[1..]);
      n := m + 1;
      assert fs[..n][1..] == fs[1..][..m];
      hide Rank, Step;
    }
  }

  lemma RankIsBounded(pc: Pc)
    requires WellFormed(pc)
    ensures Rank(pc) <= 103
    ensures pc != Idle ==> Rank(pc) >= 1
  {
  }
}
