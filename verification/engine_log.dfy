/** Every step keeps the event log a replayable history of the row, and keeps
    exact count of the entries that carry the explicit-recovery code. */
module EngineLog {
  import opened Rows
  import opened RowWrites
  import opened EventLog
  import opened Engine
  import opened EngineInvariant

  /** Committing a documented write, in a world whose close may also have finished. */
  lemma LogWrite(c: Core, wr: Write, d: Core)
    requires LogOk(c) && Documents(c.row, wr) && d == Commit(c, wr).(env := d.env)
    requires RecoveryEntries(d.row, d.env) ==
             RecoveryEntries(c.row, c.env) + if wr.Wrote? then Bears(wr.log, ExplicitRecovery) else 0
    ensures LogOk(d)
  {
    if wr.Wrote? { Appended(c.log, wr.log, c.row.state, wr.row.state); }
  }

  lemma AmbientLogs(c: Core, a: AmbientStep)
    requires RowOk(c) && LogOk(c) && CanAmbient(c, a)
    ensures LogOk(DoAmbient(c, a))
  {
    match a
    case Evidence(code, detail) =>
      LogWrite(c, RecordEvent(c.row, Last(c.log), code, detail, c.now), DoAmbient(c, a));
    case Inbox => LogWrite(c, MarkRead(c.row), DoAmbient(c, a));
    case _ =>
  }

  lemma AdmissionLogs(c: Core, p: Proc, ruling: Ruling, device: Token, reserve: real)
    requires RowOk(c) && LogOk(c) && (ruling.Finish? ==> AdmissionOutcome(ruling.intent))
    ensures LogOk(AfterAdmission(c, p, ruling, device, reserve).core)
  {
    LogWrite(c, Decide(c.row, p.owner, ruling, device, reserve, c.now, c.now + ProvisioningLease),
             AfterAdmission(c, p, ruling, device, reserve).core);
  }

  lemma PersistLateLogs(c: Core, p: Proc, claim: Token, detail: Token)
    requires RowOk(c) && LogOk(c) && p.pc.SavingLate?
    ensures LogOk(AfterPersistLate(c, p, claim, detail).core)
  {
    LogWrite(c, ClaimLate(c.row, p.owner, claim, p.pc.place, LateOutcome(detail), c.now, c.now + CloseLease),
             AfterPersistLate(c, p, claim, detail).core);
  }

  lemma PersistReceiptLogs(c: Core, p: Proc, marker: Token, fault: Fault)
    requires RowOk(c) && LogOk(c) && p.pc.SavingReceipt?
    ensures LogOk(AfterPersistReceipt(c, p, marker, fault).core)
  {
    LogWrite(c, if fault.BeforeCommit? then Lost else SaveReceipt(c.row, p.owner, p.pc.place, marker, c.now),
             AfterPersistReceipt(c, p, marker, fault).core);
  }

  lemma PersistPartialLogs(c: Core, p: Proc, fault: Fault)
    requires RowOk(c) && LogOk(c) && p.pc.SavingPartial?
    ensures LogOk(AfterPersistPartial(c, p, fault).core)
  {
    var at := p.pc.place;
    LogWrite(c, if fault.BeforeCommit? then Lost else SavePartialReceipt(c.row, p.owner, at.ws, at.pane, at.branch, c.now),
             AfterPersistPartial(c, p, fault).core);
  }

  lemma FailClaimLogs(c: Core, p: Proc, intent: Intent)
    requires RowOk(c) && LogOk(c) && ClaimFailure(intent)
    ensures LogOk(AfterFailClaim(c, p, intent).core)
  {
    LogWrite(c, FinishClaim(c.row, if HasReceipt(p.pc) then Starting else Provisioning, p.owner, intent, c.now),
             AfterFailClaim(c, p, intent).core);
  }

  lemma ClaimLogs(c: Core, p: Proc, x: ExecuteStep)
    requires RowOk(c) && ProcOk(c, p) && LogOk(c) && CanExecute(c, p, x)
    requires x.RenewClaim? || x.FailClaim? || x.ConfirmStart? || x.StageInputs?
    ensures LogOk(DoExecute(c, p, x).core)
  {
    var d := DoExecute(c, p, x).core;
    match x
    case RenewClaim => LogWrite(c, Renew(c.row, p.owner, c.now, c.now + ProvisioningLease), d);
    case FailClaim(intent) => FailClaimLogs(c, p, intent);
    case ConfirmStart(detail) => LogWrite(c, ConfirmStarting(c.row, p.owner, detail, c.now), d);
    case StageInputs(receipt) =>
      LogWrite(c, if receipt.Some? then SetReceiptOnce(c.row, InputReceipt, receipt.value, c.now) else Kept, d);
  }

  lemma ExecuteLogs(c: Core, p: Proc, x: ExecuteStep)
    requires RowOk(c) && ProcOk(c, p) && LogOk(c) && CanExecute(c, p, x)
    ensures LogOk(DoExecute(c, p, x).core)
  {
    var d := DoExecute(c, p, x).core;
    if x.RenewClaim? || x.FailClaim? || x.ConfirmStart? || x.StageInputs? { ClaimLogs(c, p, x); return; }
    match x
    case Admission(ruling, device, reserve) => AdmissionLogs(c, p, ruling, device, reserve);
    case PersistSource(source) => LogWrite(c, SaveSource(c.row, source, c.now), d);
    case PersistPlan(branch) => LogWrite(c, SavePlan(c.row, p.owner, branch, c.now), d);
    case PersistPartial(fault) => PersistPartialLogs(c, p, fault);
    case PersistReceipt(marker, fault) => PersistReceiptLogs(c, p, marker, fault);
    case PersistLate(claim, detail) => PersistLateLogs(c, p, claim, detail);
    case _ =>
  }

  lemma RecoverLogs(c: Core, p: Proc, r: RecoverStep)
    requires RowOk(c) && ProcOk(c, p) && LogOk(c) && CanRecover(c, p, r)
    ensures LogOk(DoRecover(c, p, r).core)
  {
    var d := DoRecover(c, p, r).core;
    match r
    case FinishUnstarted(intent) => FinishRunLogs(c, Accepted, intent);
    case FindWorkspace(path, t) => LogWrite(c, RecoverWorkspace(c.row, p.snap.place.branch, c.env.ws, path, t), d);
    case InterruptStuck(detail, t) => LogWrite(c, InterruptProvisioning(c.row, detail, t), d);
    case LookForBranch(t) =>
    case RetireByHand => LogWrite(c, InterruptRecovered(c.row, p.snap, p.pc.at), d);
    case ConfirmByMarker(detail, t) => LogWrite(c, ConfirmExpiredStart(c.row, detail, t), d);
  }

  lemma PersistCloseLogs(c: Core, p: Proc)
    requires RowOk(c) && ProcOk(c, p) && LogOk(c) && p.pc.FinishingClose?
    ensures LogOk(AfterPersistClose(c, p).core)
  {
    LogWrite(c, FinishEffect(c.row, p.pc.from, p.owner, p.pc.claim, CloseKind, p.pc.intent, c.now),
             AfterPersistClose(c, p).core);
  }

  lemma StartCloseLogs(c: Core, p: Proc, intent: Intent, claim: Token, t: Time)
    requires RowOk(c) && ProcOk(c, p) && LogOk(c) && CanClose(c, p, StartClose(intent, claim, t))
    ensures LogOk(DoClose(c, p, StartClose(intent, claim, t)).core)
  {
    LogWrite(c, ClaimClose(c.row, p.snap.state, p.owner, claim, intent, t, t + CloseLease),
             DoClose(c, p, StartClose(intent, claim, t)).core);
  }

  lemma ReclaimCloseLogs(c: Core, p: Proc, claim: Token, t: Time)
    requires RowOk(c) && ProcOk(c, p) && LogOk(c) && CanClose(c, p, ReclaimClose(claim, t))
    ensures LogOk(DoClose(c, p, ReclaimClose(claim, t)).core)
  {
    LogWrite(c, Reclaim(c.row, p.snap.state, CloseKind, p.owner, claim, t, t + CloseLease),
             DoClose(c, p, ReclaimClose(claim, t)).core);
  }

  lemma CloseLogs(c: Core, p: Proc, x: CloseStep)
    requires RowOk(c) && ProcOk(c, p) && LogOk(c) && CanClose(c, p, x)
    ensures LogOk(DoClose(c, p, x).core)
  {
    match x
    case StartClose(intent, claim, t) => StartCloseLogs(c, p, intent, claim, t);
    case ReclaimClose(claim, t) => ReclaimCloseLogs(c, p, claim, t);
    case PersistClose => PersistCloseLogs(c, p);
    case _ =>
  }

  lemma FinishRunLogs(c: Core, from: State, i: Intent)
    requires RowOk(c) && LogOk(c) && !i.result.code.ExplicitRecovery?
    ensures LogOk(Commit(c, FinishRun(c.row, from, i, c.now)))
  {
    LogWrite(c, FinishRun(c.row, from, i, c.now), Commit(c, FinishRun(c.row, from, i, c.now)));
  }

  lemma FinishLogs(c: Core, p: Proc, m: MonitorStep)
    requires RowOk(c) && ProcOk(c, p) && LogOk(c) && CanMonitor(c, p, m)
    requires m.FinishFailed? || m.PersistRefusal? || m.FinishWithoutVerifier?
    ensures LogOk(DoMonitor(c, p, m).core)
  {
    match m
    case FinishFailed(code, detail) => FinishRunLogs(c, Running, CompletedFailure(Running, code, detail));
    case PersistRefusal(detail) => FinishRunLogs(c, p.snap.state, CompletedFailure(p.snap.state, p.pc.code, detail));
    case FinishWithoutVerifier => FinishRunLogs(c, Settled, SucceededUnverified);
  }

  lemma MonitorLogs(c: Core, p: Proc, m: MonitorStep)
    requires RowOk(c) && ProcOk(c, p) && LogOk(c) && CanMonitor(c, p, m)
    ensures LogOk(DoMonitor(c, p, m).core)
  {
    var d := DoMonitor(c, p, m).core;
    match m
    case Attest(receipt) =>
      LogWrite(c, if receipt.Some? then SetReceiptOnce(c.row, AttestationReceipt, receipt.value, c.now) else Lost, d);
    case Bound(seen) => LogWrite(c, BoundaryWrite(c.row, p.snap, seen, c.now), d);
    case Settle =>
      LogWrite(c, if p.snap.state.Settled? then Kept else Transition(c.row, p.snap.state, Settled, 0, c.now), d);
    case TakeVerifier(claim) => LogWrite(c, RowWrites.ClaimVerifier(c.row, p.owner, claim, c.now, c.now + VerifierLease), d);
    case BeginMonitor =>
    case _ => FinishLogs(c, p, m);
  }

  lemma VerifyLogs(c: Core, p: Proc, v: VerifyStep)
    requires RowOk(c) && ProcOk(c, p) && LogOk(c) && CanVerify(c, p, v)
    ensures LogOk(DoVerify(c, p, v).core)
  {
    var d := DoVerify(c, p, v).core;
    match v
    case BoundAfter(seen, _) => LogWrite(c, BoundaryWrite(c.row, p.snap, seen, c.now), d);
    case BoundDurable(seen, _) => LogWrite(c, BoundaryWrite(c.row, p.snap, seen, c.now), d);
    case PersistVerdict =>
      LogWrite(c, FinishEffect(c.row, Verifying, p.owner, p.pc.claim, VerifierKind, p.pc.intent, c.now), d);
    case PersistExpired(t) => LogWrite(c, FinishExpiredVerifier(c.row, p.pc.intent, t), d);
    case _ =>
  }
}
