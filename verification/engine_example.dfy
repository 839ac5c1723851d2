/** Runs of the protocol, step by step: one that is accepted, executed and
    verified, one whose verifier is executed late, one whose staged inputs are
    recorded late, and one that is retired by hand while its provisioning call is
    still out. They show that the histories the theorems speak of exist. */
module EngineExample {
  import opened Options
  import opened Rows
  import opened RowWrites
  import opened EventLog
  import opened Engine
  import opened EngineInvariant
  import opened EngineTheorems

  const Simple := Snapshot(7, QueueOne, 1.0, Command, false, false, false, AutoMode(0), true)
  const Example := About(7, 8, Simple, Cron, 100, 0)
  const Accepted0 := NewRow(Example, 0)
  const Began := World(Core(100, Accepted0, [Entry(New, Accepted, 100, NoCode, 0)], QuietEnv), [])
  const Until := 100 + ProvisioningLease

  /** Some history of the example run ends in w. */
  ghost predicate Reached(w: World) {
    exists ws, ss :: History(ws, ss) && ws[0] == Began && ws[|ss|] == w
  }

  lemma Begins()
    ensures Reached(Began)
  {
    assert History([Began], []);
  }

  lemma Extends(w: World, s: Step)
    requires Reached(w) && Enabled(w, s)
    ensures Reached(Apply(w, s))
  {
    var ws, ss :| History(ws, ss) && ws[0] == Began && ws[|ss|] == w;
    var more, steps := ws + [Apply(w, s)], ss + [s];
    forall k | 0 <= k < |steps| ensures Enabled(more[k], steps[k]) && more[k + 1] == Apply(more[k], steps[k]) {
      if k < |ss| { assert steps[k] == ss[k]; }
    }
    assert History(more, steps);
  }

  /** A step of process i. */
  lemma Go(c: Core, ps: seq<Proc>, i: nat, s: Step) returns (d: Core, qs: seq<Proc>)
    requires Reached(World(c, ps)) && Enabled(World(c, ps), s) && !s.Ambient? && !s.Read? && s.i == i
    ensures i < |ps| && d == MoveOf(World(c, ps), s).core && qs == ps[i := MoveOf(World(c, ps), s).proc]
    ensures Reached(World(d, qs))
  {
    var m := MoveOf(World(c, ps), s);
    Extends(World(c, ps), s);
    d, qs := m.core, ps[i := m.proc];
  }

  lemma Happens(c: Core, ps: seq<Proc>, a: AmbientStep) returns (d: Core)
    requires Reached(World(c, ps)) && CanAmbient(c, a)
    ensures d == DoAmbient(c, a) && Reached(World(d, ps))
  {
    Extends(World(c, ps), Ambient(a));
    d := DoAmbient(c, a);
  }

  lemma Joins(c: Core, ps: seq<Proc>, owner: Token) returns (qs: seq<Proc>)
    requires Reached(World(c, ps)) && owner != 0
    ensures qs == ps + [Proc(owner, c.row, Fresh)] && Reached(World(c, qs))
  {
    Extends(World(c, ps), Read(owner));
    qs := ps + [Proc(owner, c.row, Fresh)];
  }

  const Provisioning0 := Accepted0.(state := Provisioning, lease := Lease(1, Until), disk := Disk(9, 1.0))

  lemma Admitted() returns (c: Core)
    ensures c.row == Provisioning0 && c.env == QuietEnv.(executor := 1) && c.now == 100
    ensures Reached(World(c, [Proc(1, Accepted0, PlanRenew)]))
  {
    Begins();
    var ps := Joins(Began.core, [], 1);
    c, ps := Go(Began.core, ps, 0, Execute(0, Admission(Admit, 9, 1.0)));
    c, ps := Go(c, ps, 0, Execute(0, RenewClaim));
    c, ps := Go(c, ps, 0, Execute(0, ProbePasses));
    assert ps == [Proc(1, Accepted0, PlanRenew)];
  }

  const Planned0 := Provisioning0.(place := Place(0, 0, 5, 0))

  lemma Provisions() returns (c: Core)
    ensures c.row == Planned0 && c.env == QuietEnv.(executor := 1, provisionCalls := 1) && c.now == 100
    ensures Reached(World(c, [Proc(1, Accepted0, Provisioned(5))]))
  {
    c := Admitted();
    var ps := [Proc(1, Accepted0, PlanRenew)];
    c, ps := Go(c, ps, 0, Execute(0, RenewClaim));
    c, ps := Go(c, ps, 0, Execute(0, PersistPlan(5)));
    c, ps := Go(c, ps, 0, Execute(0, CallProvision));
    assert ps == [Proc(1, Accepted0, Provisioned(5))];
  }

  // --- A run that passes ------------------------------------------------

  const There := Place(4, 6, 5, 2)
  const Made := QuietEnv.(executor := 1, provisionCalls := 1, ws := 4, live := true)
  const Starting0 := Planned0.(state := Starting, place := There, marker := 3)

  lemma Stages() returns (c: Core)
    ensures c.row == Starting0 && c.env == Made && c.now == 100
    ensures Reached(World(c, [Proc(1, Accepted0, Staging)]))
  {
    c := Provisions();
    var ps := [Proc(1, Accepted0, Provisioned(5))];
    c := Happens(c, ps, EnvCreate(4));
    c, ps := Go(c, ps, 0, Execute(0, ProvisionReturns(6, 2, false)));
    c, ps := Go(c, ps, 0, Execute(0, PersistReceipt(3, NoFault)));
    assert ps == [Proc(1, Accepted0, Staging)];
  }

  lemma Receives() returns (c: Core)
    ensures c.row == Starting0 && c.env == Made && c.now == 100
    ensures Reached(World(c, [Proc(1, Accepted0, StartRenew)]))
  {
    c := Stages();
    var ps := [Proc(1, Accepted0, Staging)];
    c, ps := Go(c, ps, 0, Execute(0, StageInputs(None)));
    assert ps == [Proc(1, Accepted0, StartRenew)];
  }

  const Running0 := Starting0.(state := Running, lease := NoLease)

  lemma StartsCommand() returns (c: Core)
    ensures c.row == Running0 && c.env == Made.(startCalls := 1, exit := Some(0)) && c.now == 100
    ensures Reached(World(c, [Proc(1, Running0, Fresh)]))
  {
    c := Receives();
    var ps := [Proc(1, Accepted0, StartRenew)];
    c, ps := Go(c, ps, 0, Execute(0, RenewClaim));
    c, ps := Go(c, ps, 0, Execute(0, CallStart));
    c, ps := Go(c, ps, 0, Execute(0, ConfirmStart(0)));
    c := Happens(c, ps, EnvExit(0));
    assert ps == [Proc(1, Running0, Fresh)];
  }

  const Settled0 := Running0.(state := Settled)

  lemma Bounds() returns (c: Core)
    ensures c.row == Running0 && c.env == Made.(startCalls := 1, exit := Some(0)) && c.now == 100
    ensures Reached(World(c, [Proc(1, Running0, Settling(None))]))
  {
    c := StartsCommand();
    var ps := [Proc(1, Running0, Fresh)];
    c, ps := Go(c, ps, 0, Monitor(0, BeginMonitor));
    c, ps := Go(c, ps, 0, Monitor(0, Bound(None)));
    assert ps == [Proc(1, Running0, Settling(None))];
  }

  lemma Settles() returns (c: Core)
    ensures c.row == Settled0 && c.env == Made.(startCalls := 1, exit := Some(0)) && c.now == 100
    ensures Reached(World(c, [Proc(1, Running0, Claiming(None))]))
  {
    c := Bounds();
    var ps := [Proc(1, Running0, Settling(None))];
    c, ps := Go(c, ps, 0, Monitor(0, Settle));
    assert ps == [Proc(1, Running0, Claiming(None))];
  }

  const Verifying0 :=
    Settled0.(state := Verifying, effect := Effect(1, 11, VerifierKind, 100 + VerifierLease, ResultPath(11)))

  lemma RunsVerifier() returns (c: Core)
    ensures c.row == Verifying0 && c.now == 100
    ensures Reached(World(c, [Proc(1, Running0, VerifierEnded(11, Published(0)))]))
  {
    c := Settles();
    var ps := [Proc(1, Running0, Claiming(None))];
    c, ps := Go(c, ps, 0, Monitor(0, TakeVerifier(11)));
    c, ps := Go(c, ps, 0, Verify(0, RunVerifier));
    c, ps := Go(c, ps, 0, Verify(0, VerifierEnds(Published(0))));
    assert ps == [Proc(1, Running0, VerifierEnded(11, Published(0)))];
  }

  // --- A verifier executed after its claim was recovered ----------------

  const Lapsed := 100 + VerifierLease

  lemma ClaimsVerifier() returns (c: Core)
    ensures c.row == Verifying0 && c.now == Lapsed && c.env.published == map[]
    ensures Reached(World(c, [Proc(1, Running0, VerifierReady(11)), Proc(2, Verifying0, Fresh)]))
  {
    c := Settles();
    var ps := [Proc(1, Running0, Claiming(None))];
    c, ps := Go(c, ps, 0, Monitor(0, TakeVerifier(11)));
    c := Happens(c, ps, Tick(Lapsed));
    ps := Joins(c, ps, 2);
    assert ps == [Proc(1, Running0, VerifierReady(11)), Proc(2, Verifying0, Fresh)];
  }

  predicate RecoveredVerifier(w: World) {
    w.core.row.state.Interrupted? && w.core.row.effect == NoEffect && Enabled(w, Verify(0, RunVerifier))
  }

  /** A verifier can be executed after its claim expired and the run was
      interrupted: its owner only has to be slow. */
  lemma VerifiersCanRunLate()
    ensures exists w :: Reached(w) && RecoveredVerifier(w)
  {
    var c := ClaimsVerifier();
    var ps := [Proc(1, Running0, VerifierReady(11)), Proc(2, Verifying0, Fresh)];
    c, ps := Go(c, ps, 1, Verify(1, ReadResult(Absent, 0, Lapsed)));
    c, ps := Go(c, ps, 1, Verify(1, PersistExpired(Lapsed)));
    assert RecoveredVerifier(World(c, ps));
  }

  // --- A stale executor's staged inputs ---------------------------------

  const Unconfirmed := Intent(Interrupted, Result(InfraUncertain, AgentNotStarted, Unverified, RestartDuringStart, 0))

  predicate StagesUnderClose(w: World) {
    Fenced(w.core) && w.core.row.effect.kind.CloseKind? && w.core.row.effect.until > w.core.now &&
    w.core.row.receipts.input == 0 && Enabled(w, Execute(0, StageInputs(Some(9)))) &&
    Apply(w, Execute(0, StageInputs(Some(9)))).core.row.receipts.input == 9
  }

  const Closing0 := Starting0.(effect := Effect(2, 13, CloseKind, Until + CloseLease, CloseIntent(Unconfirmed)), updatedAt := Until)

  lemma ClosesUnconfirmed() returns (c: Core, p: Proc)
    ensures c.row == Closing0 && c.now == Until && c.env == Made.(intent := Some(Unconfirmed))
    ensures Reached(World(c, [Proc(1, Accepted0, Staging), p]))
  {
    c := Stages();
    var ps := [Proc(1, Accepted0, Staging)];
    c := Happens(c, ps, Tick(Until));
    ps := Joins(c, ps, 2);
    c, ps := Go(c, ps, 1, Close(1, StartClose(Unconfirmed, 13, Until)));
    p := ps[1];
    assert ps == [Proc(1, Accepted0, Staging), p];
  }

  /** A staged-input receipt can land after the claim it belongs to has expired
      and another process has claimed the workspace's close. */
  lemma StagedInputsCanLandLate()
    ensures exists w :: Reached(w) && StagesUnderClose(w)
  {
    var c, p := ClosesUnconfirmed();
    assert StagesUnderClose(World(c, [Proc(1, Accepted0, Staging), p]));
  }

  // --- Passing ----------------------------------------------------------

  predicate PassedAndFiled(r: Row) {
    r.state.Succeeded? && r.result.verdict.Passed? && r.review.lane.AutoLane? && !r.unread
  }

  /** A run can pass: it is admitted, provisioned, started and verified, ends
      succeeded and is filed automatically, already read. */
  lemma RunsCanPass()
    ensures exists w :: Reached(w) && PassedAndFiled(w.core.row)
  {
    var c := RunsVerifier();
    var ps := [Proc(1, Running0, VerifierEnded(11, Published(0)))];
    c, ps := Go(c, ps, 0, Verify(0, BoundAfter(None, 0)));
    c, ps := Go(c, ps, 0, Verify(0, PersistVerdict));
    assert PassedAndFiled(World(c, ps).core.row);
  }

  // --- A run retired by hand, with its reply still to come --------------

  const Retired0 := Retired(Planned0, RecoveredByHand(), Until).(lease := NoLease)

  lemma Retires() returns (c: Core, p: Proc)
    ensures c.row == Retired0 && c.env == QuietEnv.(executor := 1, provisionCalls := 1) && c.now == Until
    ensures Reached(World(c, [Proc(1, Accepted0, Provisioned(5)), p]))
  {
    c := Provisions();
    var ps := [Proc(1, Accepted0, Provisioned(5))];
    c := Happens(c, ps, Tick(Until));
    ps := Joins(c, ps, 2);
    c, ps := Go(c, ps, 1, Recover(1, LookForBranch(Until)));
    c, ps := Go(c, ps, 1, Recover(1, RetireByHand));
    p := ps[1];
    assert ps == [Proc(1, Accepted0, Provisioned(5)), p];
  }

  const Adopted0 := Retired0.(place := There, unread := true,
    effect := Effect(1, 12, CloseKind, Until + CloseLease, CloseIntent(RecoveredByHand())))

  lemma Replies() returns (c: Core, p: Proc)
    ensures c.row == Retired0 && c.env == Made && c.now == Until
    ensures Reached(World(c, [Proc(1, Accepted0, SavingReceipt(There)), p]))
  {
    c, p := Retires();
    var ps := [Proc(1, Accepted0, Provisioned(5)), p];
    c := Happens(c, ps, EnvCreate(4));
    c, ps := Go(c, ps, 0, Execute(0, ProvisionReturns(6, 2, false)));
    assert ps == [Proc(1, Accepted0, SavingReceipt(There)), p];
  }

  lemma RepliesLate() returns (c: Core, p: Proc)
    ensures c.row == Adopted0 && c.env == Made.(intent := Some(RecoveredByHand())) && c.now == Until
    ensures Reached(World(c, [Proc(1, Adopted0, CallingClose(12, Interrupted, RecoveredByHand())), p]))
  {
    c, p := Replies();
    var ps := [Proc(1, Accepted0, SavingReceipt(There)), p];
    c, ps := Go(c, ps, 0, Execute(0, PersistReceipt(3, NoFault)));
    c, ps := Go(c, ps, 0, Execute(0, PersistLate(12, 0)));
    assert ps == [Proc(1, Adopted0, CallingClose(12, Interrupted, RecoveredByHand())), p];
  }

  predicate RetiredAndClosed(c: Core) {
    OutcomeOf(c.row) == RecoveredByHand() && c.env.closed
  }

  lemma ClosesLate() returns (w: World)
    ensures Reached(w) && RetiredAndClosed(w.core)
  {
    var c, p := RepliesLate();
    var ps := [Proc(1, Adopted0, CallingClose(12, Interrupted, RecoveredByHand())), p];
    c, ps := Go(c, ps, 0, Close(0, CallClose));
    c := Happens(c, ps, EnvVanish);
    c, ps := Go(c, ps, 0, Close(0, CloseAcked));
    c, ps := Go(c, ps, 0, Close(0, PersistClose));
    w := World(c, ps);
  }

  /** The recovery code can appear twice: a run retired by hand whose reply comes
      late, and is cleaned up, logs it when it is retired and when it is closed. */
  lemma RecoveryCodeCanRepeat()
    ensures exists w :: Reached(w) && RetiredAndClosed(w.core) && CountCode(w.core.log, ExplicitRecovery) == 2
  {
    var w := ClosesLate();
    var ws, ss :| History(ws, ss) && ws[0] == Began && ws[|ss|] == w;
    RecoveryEntriesCounted(ws, ss, |ss|, |ss|);
  }
}
