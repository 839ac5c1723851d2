/** Every step of every process keeps the invariant. */
module EngineSteps {
  import opened Options
  import opened Rows
  import opened RowWrites
  import opened Engine
  import opened EngineInvariant

  /** A process's move from (c, p) to (d, q) leaves everything else as others need it. */
  predicate Fits(c: Core, p: Proc, m: Move) {
    RowOk(m.core) && Evolves(c, m.core) && ProcOk(m.core, m.proc) && Unobtrusive(c, p, m)
  }

  predicate Unobtrusive(c: Core, p: Proc, m: Move) {
    (Executing(p.pc) || c.env.executor == 0 || ExecutorRely(c, m.core)) &&
    (Executing(m.proc.pc) ==> Executing(p.pc) || c.env.executor == 0) &&
    (p.pc.CallingClose? || m.core.env.closeCalls == c.env.closeCalls) &&
    (m.proc.pc.CallingClose? ==> c.env.intent.None?) &&
    (OwnsVerifier(p.pc) || (m.core.env.verifierRuns == c.env.verifierRuns && m.core.env.published == c.env.published)) &&
    (OwnsVerifier(m.proc.pc) ==> OwnsVerifier(p.pc) || c.env.verifierClaim.None?)
  }

  lemma Holds(c: Core, p: Proc)
    requires RowOk(c) && ProcOk(c, p)
    ensures Executing(p.pc) ==> c.env.executor != 0
    ensures p.pc.CallingClose? ==> c.env.intent.Some?
    ensures OwnsVerifier(p.pc) ==> c.env.verifierClaim.Some?
  {
  }

  /** The other processes are carried along. */
  lemma OthersStable(w: World, i: nat, m: Move, j: nat)
    requires Inv(w) && i < |w.procs| && j < |w.procs| && i != j && Fits(w.core, w.procs[i], m)
    ensures ProcOk(m.core, w.procs[j])
    ensures !(Executing(m.proc.pc) && Executing(w.procs[j].pc))
    ensures !(m.proc.pc.CallingClose? && w.procs[j].pc.CallingClose?)
    ensures !(OwnsVerifier(m.proc.pc) && OwnsVerifier(w.procs[j].pc))
  {
    assert ProcOk(w.core, w.procs[j]);
    Holds(w.core, w.procs[j]);
    Stable(w.core, m.core, w.procs[j]);
  }

  lemma FitsKeeps(w: World, i: nat, m: Move)
    requires Inv(w) && i < |w.procs| && Fits(w.core, w.procs[i], m) && LogOk(m.core)
    ensures Inv(Moved(w, i, m))
  {
    var v := Moved(w, i, m);
    forall j | 0 <= j < |v.procs| && j != i
      ensures ProcOk(m.core, v.procs[j])
      ensures !(Executing(m.proc.pc) && Executing(v.procs[j].pc))
      ensures !(m.proc.pc.CallingClose? && v.procs[j].pc.CallingClose?)
      ensures !(OwnsVerifier(m.proc.pc) && OwnsVerifier(v.procs[j].pc))
    {
      OthersStable(w, i, m, j);
    }
  }

  // --- The common shapes of a write -------------------------------------

  /** b is r finished, with its claims on effects cleared. */
  predicate Finishes(r: Row, b: Row) {
    !Terminal(r.state) && Terminal(b.state) && b.about == r.about && b.place == r.place && b.receipts == r.receipts &&
    b.effect == NoEffect && Filed(b)
  }

  lemma FinishFits(c: Core, d: Core)
    requires RowOk(c) && Finishes(c.row, d.row) && d.now == c.now && c.log <= d.log
    requires d.env == c.env.(closed := d.env.closed, post := d.env.post)
    requires c.row.effect.kind.CloseKind? ==>
      d.env.closed && OutcomeOf(d.row) == c.env.intent.value && (c.env.acked || c.env.sawGone)
    requires !c.row.effect.kind.CloseKind? ==>
      d.env.closed == c.env.closed && !d.row.state.TimedOut? && (d.row.state.Cancelled? ==> c.env.executor == 0)
    requires d.row.result.verdict.Passed? ==> d.row.state.Succeeded? && Verified(d.row, d.env)
    requires d.row.state.Succeeded? ==> SucceededRightly(d.row, d.env)
    ensures RowOk(d) && Evolves(c, d)
  {
  }

  /** b is r with only its lease, place, receipts, source or inbox mark changed. */
  predicate Touches(c: Core, b: Row) {
    var r := c.row;
    b.about == r.about && SameOutcome(b, r) && b.effect == r.effect &&
    (Claimed(r.state) ==> b.lease.owner == r.lease.owner && (r.lease.until <= c.now ==> b.lease == r.lease)) &&
    (b.place == r.place || (r.state.Provisioning? && b.place.ws == c.env.ws) || (r.state.Provisioning? && b.place.ws == r.place.ws)) &&
    (b.place.ws == 0 ==> r.place.ws == 0) && ReceiptsEvolve(r, b)
  }

  lemma TouchFits(c: Core, d: Core)
    requires RowOk(c) && Touches(c, d.row) && d.now == c.now && c.log <= d.log && d.env == c.env
    ensures RowOk(d) && Evolves(c, d)
  {
  }

  /** b is r with a close effect newly claimed for the first time. */
  predicate ClaimsClose(c: Core, d: Core) {
    var r, b := c.row, d.row;
    r.effect.kind.NoKind? && !r.state.Accepted? && !r.state.Verifying? && b.effect.kind.CloseKind? &&
    b.effect.owner != 0 && b.effect.claim != 0 && d.env.intent.Some? && b.effect.receipt == CloseIntent(d.env.intent.value) &&
    d.env == FirstIntent(c.env, d.env.intent.value) && !Terminal(r.state) && r.place.ws != 0 &&
    b == r.(effect := b.effect, updatedAt := b.updatedAt) &&
    Terminal(d.env.intent.value.state) && !d.env.intent.value.state.Succeeded? &&
    !d.env.intent.value.result.verdict.Passed? && !d.env.intent.value.result.code.ExplicitRecovery?
  }

  lemma ClaimCloseFits(c: Core, d: Core)
    requires RowOk(c) && ClaimsClose(c, d) && d.now == c.now && c.log <= d.log
    ensures RowOk(d) && Evolves(c, d) && c.env.intent.None?
  {
  }

  /** b is r with its verifier newly claimed. */
  predicate TakesVerifier(c: Core, d: Core) {
    var r, b := c.row, d.row;
    r.state.Settled? && r.effect.kind.NoKind? && b.state.Verifying? && b.effect.kind.VerifierKind? &&
    b.effect.owner != 0 && b.effect.claim != 0 && b.effect.receipt == ResultPath(b.effect.claim) &&
    b == r.(state := Verifying, effect := b.effect, updatedAt := b.updatedAt) &&
    d.env == c.env.(verifierClaim := Some(b.effect.claim), pre := d.env.pre) &&
    (Scoped(r) ==> d.env.pre.Some? && d.env.pre.value != 0 && r.receipts.change == d.env.pre.value) &&
    r.about.definition.Snapshot? && !r.about.definition.verifier.NoVerifier?
  }

  lemma ClaimVerifierFits(c: Core, d: Core)
    requires RowOk(c) && TakesVerifier(c, d) && d.now == c.now && c.log <= d.log
    ensures RowOk(d) && Evolves(c, d) && c.env.verifierClaim.None? && c.env.verifierRuns == 0 && c.env.published == map[]
  {
  }

  lemma SettlesFits(c: Core, d: Core)
    requires RowOk(c) && c.row.state.Running? && c.row.effect.kind.NoKind?
    requires d == c.(row := c.row.(state := Settled, updatedAt := d.row.updatedAt), log := d.log) && c.log <= d.log
    ensures RowOk(d) && Evolves(c, d)
  {
  }

  /** b is r with a close effect reclaimed. */
  lemma ReclaimFits(c: Core, d: Core)
    requires RowOk(c) && c.row.effect.kind.CloseKind?
    requires d.row == c.row.(effect := d.row.effect, updatedAt := d.row.updatedAt)
    requires d.row.effect.kind.CloseKind? && d.row.effect.receipt == c.row.effect.receipt
    requires d.row.effect.owner != 0 && d.row.effect.claim != 0 && d == c.(row := d.row)
    ensures RowOk(d) && Evolves(c, d)
  {
  }

  /** The first durable result of the run's verifier. */
  lemma PublishFits(c: Core, claim: Token, exit: int)
    requires RowOk(c) && c.env.verifierClaim == Some(claim) && c.env.verifierRuns == 1 && c.env.published == map[]
    ensures var d := c.(env := Publish(c.env, claim, Some(exit))); RowOk(d) && Evolves(c, d)
  {
  }

  // --- dispatch and execute ---------------------------------------------

  lemma AdmitFits(c: Core, d: Core, owner: Token)
    requires RowOk(c) && c.row.state.Accepted? && owner != 0 && d.now == c.now && c.log <= d.log
    requires d.env == c.env.(executor := owner) && d.row.lease.owner == owner
    requires d.row == c.row.(state := Provisioning, lease := d.row.lease, disk := d.row.disk, updatedAt := d.row.updatedAt)
    ensures RowOk(d) && Evolves(c, d)
  {
  }

  lemma AdmissionFits(c: Core, p: Proc, ruling: Ruling, device: Token, reserve: real)
    requires RowOk(c) && ProcOk(c, p) && FreshIn(p, Accepted) && (ruling.Finish? ==> AdmissionOutcome(ruling.intent))
    ensures Fits(c, p, AfterAdmission(c, p, ruling, device, reserve))
  {
    var m := AfterAdmission(c, p, ruling, device, reserve);
    if ruling.Finish? && m.core.row != c.row {
      FinishFits(c, m.core);
    } else if ruling.Admit? && m.core.row != c.row {
      AdmitFits(c, m.core, p.owner);
    }
  }

  lemma RenewClaimFits(c: Core, p: Proc)
    requires RowOk(c) && ProcOk(c, p) && (p.pc.ProbeRenew? || p.pc.PlanRenew? || p.pc.StartRenew?)
    ensures Fits(c, p, AfterRenewClaim(c, p))
  {
    TouchFits(c, AfterRenewClaim(c, p).core);
  }

  lemma FailClaimFits(c: Core, p: Proc, intent: Intent)
    requires RowOk(c) && ProcOk(c, p) && (p.pc.ProbeRenew? || p.pc.Probe? || HasReceipt(p.pc)) && ClaimFailure(intent)
    ensures Fits(c, p, AfterFailClaim(c, p, intent))
  {
    var m := AfterFailClaim(c, p, intent);
    if m.core != c { FinishFits(c, m.core); }
  }

  lemma PersistSourceFits(c: Core, p: Proc, source: Token)
    requires RowOk(c) && ProcOk(c, p) && p.pc.Probe?
    ensures Fits(c, p, AfterPersistSource(c, p, source))
  {
    TouchFits(c, AfterPersistSource(c, p, source).core);
  }

  lemma PersistPlanFits(c: Core, p: Proc, branch: Token)
    requires RowOk(c) && ProcOk(c, p) && p.pc.Plan? && branch != 0
    ensures Fits(c, p, AfterPersistPlan(c, p, branch))
  {
    TouchFits(c, AfterPersistPlan(c, p, branch).core);
  }

  lemma CallProvisionFits(c: Core, p: Proc)
    requires RowOk(c) && ProcOk(c, p) && p.pc.CallingProvision? && c.now < p.pc.until
    ensures Fits(c, p, AfterCallProvision(c, p))
  {
  }

  lemma ProvisionReturnsFits(c: Core, p: Proc, pane: Token, path: Token, partial: bool)
    requires RowOk(c) && ProcOk(c, p) && p.pc.Provisioned? && c.env.ws != 0 && pane != 0
    ensures Fits(c, p, AfterProvisionReturns(c, p, pane, path, partial))
  {
  }

  lemma PersistPartialFits(c: Core, p: Proc, fault: Fault)
    requires RowOk(c) && ProcOk(c, p) && p.pc.SavingPartial?
    ensures Fits(c, p, AfterPersistPartial(c, p, fault))
  {
    TouchFits(c, AfterPersistPartial(c, p, fault).core);
  }

  lemma PersistReceiptFits(c: Core, p: Proc, marker: Token, fault: Fault)
    requires RowOk(c) && ProcOk(c, p) && p.pc.SavingReceipt?
    ensures Fits(c, p, AfterPersistReceipt(c, p, marker, fault))
  {
  }

  /** A returned workspace recorded on the row, and its cleanup claimed. */
  lemma LateClaimFits(c: Core, d: Core, i: Intent)
    requires RowOk(c) && c.env.intent.None? && c.row.place.ws == 0 && d.row.place.ws == c.env.ws != 0
    requires d.row == c.row.(place := d.row.place, unread := true, updatedAt := d.row.updatedAt, effect := d.row.effect)
    requires d.row.effect.kind.CloseKind? && d.row.effect.owner != 0 && d.row.effect.claim != 0
    requires d.row.effect.receipt == CloseIntent(i) && d.env == c.env.(intent := Some(i))
    requires c.row.state.Provisioning? || Terminal(c.row.state)
    requires if Terminal(c.row.state) then i == OutcomeOf(c.row) else exists detail :: i == LateOutcome(detail)
    requires d.now == c.now && c.log <= d.log
    ensures RowOk(d) && Evolves(c, d)
  {
  }

  lemma PersistLateFits(c: Core, p: Proc, claim: Token, detail: Token)
    requires RowOk(c) && ProcOk(c, p) && p.pc.SavingLate? && claim != 0
    ensures Fits(c, p, AfterPersistLate(c, p, claim, detail))
  {
    var m := AfterPersistLate(c, p, claim, detail);
    if m.core != c { LateClaimFits(c, m.core, LateIntent(c.row, LateOutcome(detail))); }
  }

  lemma StageInputsFits(c: Core, p: Proc, receipt: Option<Token>)
    requires RowOk(c) && ProcOk(c, p) && p.pc.Staging?
    ensures Fits(c, p, AfterStageInputs(c, p, receipt))
  {
    TouchFits(c, AfterStageInputs(c, p, receipt).core);
  }

  lemma CallStartFits(c: Core, p: Proc)
    requires RowOk(c) && ProcOk(c, p) && p.pc.CallingStart? && c.now < p.pc.until
    ensures Fits(c, p, AfterCallStart(c, p))
  {
  }

  lemma ConfirmStartFits(c: Core, p: Proc, detail: Token)
    requires RowOk(c) && ProcOk(c, p) && p.pc.Started?
    ensures Fits(c, p, AfterConfirmStart(c, p, detail))
  {
  }

  predicate StartsCommand(x: ExecuteStep) {
    x.StageInputs? || x.CallStart? || x.StartFails? || x.ConfirmStart? || x.RenewClaim? || x.FailClaim?
  }

  lemma StartFits(c: Core, p: Proc, x: ExecuteStep)
    requires RowOk(c) && ProcOk(c, p) && CanExecute(c, p, x) && StartsCommand(x)
    ensures Fits(c, p, DoExecute(c, p, x))
  {
    match x
    case StageInputs(receipt) => StageInputsFits(c, p, receipt);
    case CallStart => CallStartFits(c, p);
    case ConfirmStart(detail) => ConfirmStartFits(c, p, detail);
    case RenewClaim => RenewClaimFits(c, p);
    case FailClaim(intent) => FailClaimFits(c, p, intent);
    case _ =>
  }

  predicate Provisions(x: ExecuteStep) {
    x.CallProvision? || x.ProvisionReturns? || x.ProvisionFails? || x.PersistPartial? || x.PersistReceipt? || x.PersistLate?
  }

  lemma ProvisionFits(c: Core, p: Proc, x: ExecuteStep)
    requires RowOk(c) && ProcOk(c, p) && CanExecute(c, p, x) && Provisions(x)
    ensures Fits(c, p, DoExecute(c, p, x))
  {
    match x
    case CallProvision => CallProvisionFits(c, p);
    case ProvisionReturns(pane, path, partial) => ProvisionReturnsFits(c, p, pane, path, partial);
    case ProvisionFails =>
    case PersistPartial(fault) => PersistPartialFits(c, p, fault);
    case PersistReceipt(marker, fault) => PersistReceiptFits(c, p, marker, fault);
    case PersistLate(claim, detail) => PersistLateFits(c, p, claim, detail);
  }

  predicate Prepares(x: ExecuteStep) {
    x.Admission? || x.PersistSource? || x.PersistPlan? || x.ProbePasses?
  }

  lemma PrepareFits(c: Core, p: Proc, x: ExecuteStep)
    requires RowOk(c) && ProcOk(c, p) && CanExecute(c, p, x) && Prepares(x)
    ensures Fits(c, p, DoExecute(c, p, x))
  {
    match x
    case Admission(ruling, device, reserve) => AdmissionFits(c, p, ruling, device, reserve);
    case PersistSource(source) => PersistSourceFits(c, p, source);
    case PersistPlan(branch) => PersistPlanFits(c, p, branch);
    case ProbePasses =>
  }

  lemma ExecuteFits(c: Core, p: Proc, x: ExecuteStep)
    requires RowOk(c) && ProcOk(c, p) && CanExecute(c, p, x)
    ensures Fits(c, p, DoExecute(c, p, x))
  {
    if Prepares(x) { PrepareFits(c, p, x); } else if Provisions(x) { ProvisionFits(c, p, x); } else { StartFits(c, p, x); }
  }

  // --- cancel, reconcile, explicit recovery -----------------------------

  lemma FinishUnstartedFits(c: Core, p: Proc, intent: Intent)
    requires RowOk(c) && ProcOk(c, p) && CanRecover(c, p, FinishUnstarted(intent))
    ensures Fits(c, p, AfterFinishUnstarted(c, p, intent))
  {
    var m := AfterFinishUnstarted(c, p, intent);
    if m.core != c { FinishFits(c, m.core); }
  }

  lemma FindWorkspaceFits(c: Core, p: Proc, path: Token, t: Time)
    requires RowOk(c) && ProcOk(c, p) && CanRecover(c, p, FindWorkspace(path, t))
    ensures Fits(c, p, AfterFindWorkspace(c, p, path, t))
  {
    TouchFits(c, AfterFindWorkspace(c, p, path, t).core);
  }

  lemma InterruptStuckFits(c: Core, p: Proc, detail: Token, t: Time)
    requires RowOk(c) && ProcOk(c, p) && CanRecover(c, p, InterruptStuck(detail, t))
    ensures Fits(c, p, AfterInterruptStuck(c, p, detail, t))
  {
    var m := AfterInterruptStuck(c, p, detail, t);
    if m.core != c { FinishFits(c, m.core); }
  }

  lemma RetireByHandFits(c: Core, p: Proc)
    requires RowOk(c) && ProcOk(c, p) && p.pc.Retiring?
    ensures Fits(c, p, AfterRetireByHand(c, p))
  {
    var m := AfterRetireByHand(c, p);
    if m.core != c { FinishFits(c, m.core); }
  }

  lemma ConfirmByMarkerFits(c: Core, p: Proc, detail: Token, t: Time)
    requires RowOk(c) && ProcOk(c, p) && CanRecover(c, p, ConfirmByMarker(detail, t))
    ensures Fits(c, p, AfterConfirmByMarker(c, p, detail, t))
  {
  }

  lemma RecoverFits(c: Core, p: Proc, r: RecoverStep)
    requires RowOk(c) && ProcOk(c, p) && CanRecover(c, p, r)
    ensures Fits(c, p, DoRecover(c, p, r))
  {
    match r
    case FinishUnstarted(intent) => FinishUnstartedFits(c, p, intent);
    case FindWorkspace(path, t) => FindWorkspaceFits(c, p, path, t);
    case InterruptStuck(detail, t) => InterruptStuckFits(c, p, detail, t);
    case LookForBranch(t) =>
    case RetireByHand => RetireByHandFits(c, p);
    case ConfirmByMarker(detail, t) => ConfirmByMarkerFits(c, p, detail, t);
  }

  // --- closing ----------------------------------------------------------

  lemma StartCloseFits(c: Core, p: Proc, intent: Intent, claim: Token, t: Time)
    requires RowOk(c) && ProcOk(c, p) && CanClose(c, p, StartClose(intent, claim, t))
    ensures Fits(c, p, AfterStartClose(c, p, intent, claim, t))
  {
    var m := AfterStartClose(c, p, intent, claim, t);
    if m.core != c { ClaimCloseFits(c, m.core); }
  }

  lemma CallCloseFits(c: Core, p: Proc)
    requires RowOk(c) && ProcOk(c, p) && p.pc.CallingClose?
    ensures Fits(c, p, AfterCallClose(c, p))
  {
  }

  lemma CloseAckedFits(c: Core, p: Proc)
    requires RowOk(c) && ProcOk(c, p) && CanClose(c, p, CloseAcked)
    ensures Fits(c, p, AfterCloseAcked(c, p))
  {
  }

  lemma CloseSeenAbsentFits(c: Core, p: Proc)
    requires RowOk(c) && ProcOk(c, p) && CanClose(c, p, CloseSeenAbsent)
    ensures Fits(c, p, AfterCloseSeenAbsent(c, p))
  {
  }

  lemma ObserveGoneFits(c: Core, p: Proc, t: Time)
    requires RowOk(c) && ProcOk(c, p) && CanClose(c, p, ObserveGone(t))
    ensures Fits(c, p, AfterObserveGone(c, p, t))
  {
  }

  lemma ReclaimCloseFits(c: Core, p: Proc, claim: Token, t: Time)
    requires RowOk(c) && ProcOk(c, p) && p.pc.Reclaiming? && claim != 0
    ensures Fits(c, p, AfterReclaimClose(c, p, claim, t))
  {
    var m := AfterReclaimClose(c, p, claim, t);
    if m.core != c {
      assert m.core.log == c.log;
      ReclaimFits(c, m.core);
      SnapStable(c, m.core, p.snap);
    }
  }

  /** A late close finishing on a row that is over already. */
  lemma LateCloseFits(c: Core, d: Core)
    requires RowOk(c) && Terminal(c.row.state) && c.row.effect.kind.CloseKind? && (c.env.acked || c.env.sawGone)
    requires d.row == c.row.(lease := NoLease, effect := NoEffect, updatedAt := d.row.updatedAt)
    requires d.now == c.now && c.log <= d.log && d.env == c.env.(closed := true)
    ensures RowOk(d) && Evolves(c, d)
  {
  }

  lemma PersistCloseFits(c: Core, p: Proc)
    requires RowOk(c) && ProcOk(c, p) && p.pc.FinishingClose?
    ensures Fits(c, p, AfterPersistClose(c, p))
  {
    var m := AfterPersistClose(c, p);
    if m.core != c {
      if Terminal(c.row.state) { LateCloseFits(c, m.core); } else { FinishFits(c, m.core); }
    }
  }

  lemma CloseFits(c: Core, p: Proc, x: CloseStep)
    requires RowOk(c) && ProcOk(c, p) && CanClose(c, p, x)
    ensures Fits(c, p, DoClose(c, p, x))
  {
    match x
    case StartClose(intent, claim, t) => StartCloseFits(c, p, intent, claim, t);
    case CallClose => CallCloseFits(c, p);
    case CloseAcked => CloseAckedFits(c, p);
    case CloseSeenAbsent => CloseSeenAbsentFits(c, p);
    case CloseUnknown =>
    case ObserveGone(t) => ObserveGoneFits(c, p, t);
    case ReclaimClose(claim, t) => ReclaimCloseFits(c, p, claim, t);
    case PersistClose => PersistCloseFits(c, p);
  }

  // --- monitoring -------------------------------------------------------

  lemma FinishFailedFits(c: Core, p: Proc, code: Code, detail: Token)
    requires RowOk(c) && ProcOk(c, p) && CanMonitor(c, p, FinishFailed(code, detail))
    ensures Fits(c, p, AfterFinishFailed(c, p, code, detail))
  {
    var m := AfterFinishFailed(c, p, code, detail);
    if m.core != c { FinishFits(c, m.core); }
  }

  lemma AttestFits(c: Core, p: Proc, receipt: Option<Token>)
    requires RowOk(c) && ProcOk(c, p) && p.pc.Attesting?
    ensures Fits(c, p, AfterAttest(c, p, receipt))
  {
    TouchFits(c, AfterAttest(c, p, receipt).core);
  }

  lemma BoundFits(c: Core, p: Proc, seen: Option<Observation>)
    requires RowOk(c) && ProcOk(c, p) && p.pc.Bounding?
    ensures Fits(c, p, AfterBound(c, p, seen))
  {
    TouchFits(c, AfterBound(c, p, seen).core);
  }

  lemma PersistRefusalFits(c: Core, p: Proc, detail: Token)
    requires RowOk(c) && ProcOk(c, p) && p.pc.Refusing?
    ensures Fits(c, p, AfterPersistRefusal(c, p, detail))
  {
    var m := AfterPersistRefusal(c, p, detail);
    if m.core != c { FinishFits(c, m.core); }
  }

  lemma SettleFits(c: Core, p: Proc)
    requires RowOk(c) && ProcOk(c, p) && p.pc.Settling?
    ensures Fits(c, p, AfterSettle(c, p))
  {
    var m := AfterSettle(c, p);
    if m.core != c { SettlesFits(c, m.core); }
  }

  lemma FinishWithoutVerifierFits(c: Core, p: Proc)
    requires RowOk(c) && ProcOk(c, p) && CanMonitor(c, p, FinishWithoutVerifier)
    ensures Fits(c, p, AfterFinishWithoutVerifier(c, p))
  {
    var m := AfterFinishWithoutVerifier(c, p);
    if m.core != c { FinishFits(c, m.core); }
  }

  lemma TakenFits(c: Core, p: Proc, d: Core)
    requires RowOk(c) && ProcOk(c, p) && p.pc.Claiming? && TakesVerifier(c, d) && d.now == c.now && c.log <= d.log
    ensures Fits(c, p, Goto(d, p, VerifierReady(d.row.effect.claim)))
  {
    ClaimVerifierFits(c, d);
  }

  lemma TakeVerifierFits(c: Core, p: Proc, claim: Token)
    requires RowOk(c) && ProcOk(c, p) && p.pc.Claiming? && claim != 0
    requires c.row.about.definition.Snapshot? && !c.row.about.definition.verifier.NoVerifier?
    ensures Fits(c, p, AfterTakeVerifier(c, p, claim))
  {
    var m := AfterTakeVerifier(c, p, claim);
    if m.core != c { TakenFits(c, p, m.core); }
  }

  lemma MonitorFits(c: Core, p: Proc, m: MonitorStep)
    requires RowOk(c) && ProcOk(c, p) && CanMonitor(c, p, m)
    ensures Fits(c, p, DoMonitor(c, p, m))
  {
    match m
    case FinishFailed(code, detail) => FinishFailedFits(c, p, code, detail);
    case BeginMonitor =>
    case Attest(receipt) => AttestFits(c, p, receipt);
    case Bound(seen) => BoundFits(c, p, seen);
    case PersistRefusal(detail) => PersistRefusalFits(c, p, detail);
    case Settle => SettleFits(c, p);
    case FinishWithoutVerifier => FinishWithoutVerifierFits(c, p);
    case TakeVerifier(claim) => TakeVerifierFits(c, p, claim);
  }

  // --- the verifier -----------------------------------------------------

  lemma RunVerifierFits(c: Core, p: Proc)
    requires RowOk(c) && ProcOk(c, p) && p.pc.VerifierReady?
    ensures Fits(c, p, AfterRunVerifier(c, p))
  {
  }

  lemma VerifierEndsFits(c: Core, p: Proc, result: VerifierResult)
    requires RowOk(c) && ProcOk(c, p) && p.pc.VerifierRunning?
    ensures Fits(c, p, AfterVerifierEnds(c, p, result))
  {
    if PublishedExit(result).Some? { PublishFits(c, p.pc.claim, PublishedExit(result).value); }
  }

  lemma BoundAfterFits(c: Core, p: Proc, seen: Option<Observation>, detail: Token)
    requires RowOk(c) && ProcOk(c, p) && p.pc.VerifierEnded?
    ensures Fits(c, p, AfterBoundAfter(c, p, seen, detail))
  {
    TouchFits(c, AfterBoundAfter(c, p, seen, detail).core);
  }

  lemma PersistVerdictFits(c: Core, p: Proc)
    requires RowOk(c) && ProcOk(c, p) && p.pc.FinishingVerifier?
    ensures Fits(c, p, AfterPersistVerdict(c, p))
  {
    var m := AfterPersistVerdict(c, p);
    if m.core != c { FinishFits(c, m.core); }
  }

  lemma ReadResultFits(c: Core, p: Proc, read: ReceiptRead, detail: Token, t: Time)
    requires RowOk(c) && ProcOk(c, p) && CanVerify(c, p, ReadResult(read, detail, t))
    ensures Fits(c, p, AfterReadResult(c, p, read, detail, t))
  {
  }

  lemma DurableNext(c: Core, p: Proc, seen: Option<Observation>, detail: Token)
    requires RowOk(c) && ProcOk(c, p) && p.pc.ReadDurable?
    ensures var m := AfterBoundDurable(c, p, seen, detail); VerdictOk(m.core, m.proc.pc.intent, m.proc.pc.post)
  {
  }

  lemma BoundDurableFits(c: Core, p: Proc, seen: Option<Observation>, detail: Token)
    requires RowOk(c) && ProcOk(c, p) && p.pc.ReadDurable?
    ensures Fits(c, p, AfterBoundDurable(c, p, seen, detail))
  {
    var m := AfterBoundDurable(c, p, seen, detail);
    TouchFits(c, m.core);
    DurableNext(c, p, seen, detail);
  }

  lemma PersistExpiredFits(c: Core, p: Proc, t: Time)
    requires RowOk(c) && ProcOk(c, p) && p.pc.FinishingExpired? && t <= c.now
    ensures Fits(c, p, AfterPersistExpired(c, p, t))
  {
    var m := AfterPersistExpired(c, p, t);
    if m.core != c { FinishFits(c, m.core); }
  }

  lemma VerifyFits(c: Core, p: Proc, v: VerifyStep)
    requires RowOk(c) && ProcOk(c, p) && CanVerify(c, p, v)
    ensures Fits(c, p, DoVerify(c, p, v))
  {
    match v
    case PrepareFails(detail) =>
    case RunVerifier => RunVerifierFits(c, p);
    case VerifierEnds(result) => VerifierEndsFits(c, p, result);
    case BoundAfter(seen, detail) => BoundAfterFits(c, p, seen, detail);
    case PersistVerdict => PersistVerdictFits(c, p);
    case ReadResult(read, detail, t) => ReadResultFits(c, p, read, detail, t);
    case BoundDurable(seen, detail) => BoundDurableFits(c, p, seen, detail);
    case PersistExpired(t) => PersistExpiredFits(c, p, t);
  }

  // --- whole steps ------------------------------------------------------

  lemma AmbientFits(c: Core, a: AmbientStep)
    requires RowOk(c) && CanAmbient(c, a)
    ensures var d := DoAmbient(c, a);
      RowOk(d) && Evolves(c, d) && ExecutorRely(c, d) && d.env.closeCalls == c.env.closeCalls &&
      d.env.verifierRuns == c.env.verifierRuns && d.env.published == c.env.published
  {
    if a.Evidence? || a.Inbox? { TouchFits(c, DoAmbient(c, a)); }
  }

  lemma AmbientKeeps(w: World, a: AmbientStep)
    requires Inv(w) && CanAmbient(w.core, a) && LogOk(DoAmbient(w.core, a))
    ensures Inv(w.(core := DoAmbient(w.core, a)))
  {
    AmbientFits(w.core, a);
    forall j | 0 <= j < |w.procs| ensures ProcOk(DoAmbient(w.core, a), w.procs[j]) {
      Stable(w.core, DoAmbient(w.core, a), w.procs[j]);
    }
  }

  lemma ReaderOk(c: Core, owner: Token)
    requires RowOk(c) && owner != 0
    ensures ProcOk(c, Proc(owner, c.row, Fresh))
  {
  }

  lemma UniqueJoin(ps: seq<Proc>, p: Proc)
    requires Unique(ps) && p.pc.Fresh?
    ensures Unique(ps + [p])
  {
  }

  lemma ReadKeeps(w: World, owner: Token)
    requires Inv(w) && owner != 0
    ensures Inv(Apply(w, Read(owner)))
  {
    var p := Proc(owner, w.core.row, Fresh);
    ReaderOk(w.core, owner);
    UniqueJoin(w.procs, p);
    assert forall j :: 0 <= j <= |w.procs| ==> (w.procs + [p])[j] == if j < |w.procs| then w.procs[j] else p;
  }
}
