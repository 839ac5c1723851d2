/** The engine's protocol is a client of the store: every step writes the row
    through one store request, if at all, and a decided admission is an
    admission step. */
module EngineStore {
  import opened Options
  import opened Rows
  import opened RowWrites
  import opened RowLaws
  import opened Engine
  import opened EngineInvariant
  import Admission
  import Ledger

  datatype Asked = Nothing | Asks(q: Request, at: Time)

  function AskedByExecute(c: Core, p: Proc, x: ExecuteStep): Asked
    requires CanExecute(c, p, x)
  {
    match x
    case Admission(ruling, device, reserve) => Asks(DoDecide(p.owner, ruling, device, reserve, c.now + ProvisioningLease), c.now)
    case RenewClaim => Asks(DoRenew(p.owner, c.now + ProvisioningLease), c.now)
    case FailClaim(intent) => Asks(DoFinishClaim(if HasReceipt(p.pc) then Starting else Provisioning, p.owner, intent), c.now)
    case PersistSource(source) => Asks(DoSaveSource(source), c.now)
    case PersistPlan(branch) => Asks(DoSavePlan(p.owner, branch), c.now)
    case PersistPartial(fault) =>
      var at := p.pc.place;
      if fault.BeforeCommit? then Nothing else Asks(DoSavePartialReceipt(p.owner, at.ws, at.pane, at.branch), c.now)
    case PersistReceipt(marker, fault) =>
      if fault.BeforeCommit? then Nothing else Asks(DoSaveReceipt(p.owner, p.pc.place, marker), c.now)
    case PersistLate(claim, detail) =>
      Asks(DoClaimLate(p.owner, claim, p.pc.place, LateOutcome(detail), c.now + CloseLease), c.now)
    case StageInputs(receipt) =>
      if receipt.None? then Nothing else Asks(DoSetReceiptOnce(InputReceipt, receipt.value), c.now)
    case ConfirmStart(detail) => Asks(DoConfirmStarting(p.owner, detail), c.now)
    case _ => Nothing
  }

  function AskedByRecover(c: Core, p: Proc, r: RecoverStep): Asked
    requires CanRecover(c, p, r)
  {
    match r
    case FinishUnstarted(intent) => Asks(DoFinishRun(Accepted, intent), c.now)
    case FindWorkspace(path, t) => Asks(DoRecoverWorkspace(p.snap.place.branch, c.env.ws, path), t)
    case InterruptStuck(detail, t) => Asks(DoInterruptProvisioning(detail), t)
    case LookForBranch(_) => Nothing
    case RetireByHand => Asks(DoInterruptRecovered(p.snap), p.pc.at)
    case ConfirmByMarker(detail, t) => Asks(DoConfirmExpiredStart(detail), t)
  }

  function AskedByClose(c: Core, p: Proc, x: CloseStep): Asked
    requires CanClose(c, p, x)
  {
    match x
    case StartClose(intent, claim, t) => Asks(DoClaimClose(p.snap.state, p.owner, claim, intent, t + CloseLease), t)
    case ReclaimClose(claim, t) => Asks(DoReclaim(p.snap.state, CloseKind, p.owner, claim, t + CloseLease), t)
    case PersistClose => Asks(DoFinishEffect(p.pc.from, p.owner, p.pc.claim, CloseKind, p.pc.intent), c.now)
    case _ => Nothing
  }

  function AskedByBoundary(c: Core, p: Proc, seen: Option<Observation>): Asked {
    if HasBoundary(p.snap) && seen.Some? && seen.value.Saw? && Scoped(p.snap)
    then Asks(DoSetReceiptOnce(ChangeReceipt, seen.value.payload), c.now)
    else Nothing
  }

  function AskedByMonitor(c: Core, p: Proc, m: MonitorStep): Asked
    requires CanMonitor(c, p, m)
  {
    match m
    case FinishFailed(code, detail) => Asks(DoFinishRun(Running, CompletedFailure(Running, code, detail)), c.now)
    case Attest(receipt) =>
      if receipt.None? then Nothing else Asks(DoSetReceiptOnce(AttestationReceipt, receipt.value), c.now)
    case Bound(seen) => AskedByBoundary(c, p, seen)
    case PersistRefusal(detail) =>
      Asks(DoFinishRun(p.snap.state, CompletedFailure(p.snap.state, p.pc.code, detail)), c.now)
    case Settle => if p.snap.state.Settled? then Nothing else Asks(DoTransition(p.snap.state, Settled, 0), c.now)
    case FinishWithoutVerifier => Asks(DoFinishRun(Settled, SucceededUnverified), c.now)
    case TakeVerifier(claim) => Asks(DoClaimVerifier(p.owner, claim, c.now + VerifierLease), c.now)
    case BeginMonitor => Nothing
  }

  function AskedByVerify(c: Core, p: Proc, v: VerifyStep): Asked
    requires CanVerify(c, p, v)
  {
    match v
    case BoundAfter(seen, _) => AskedByBoundary(c, p, seen)
    case BoundDurable(seen, _) => AskedByBoundary(c, p, seen)
    case PersistVerdict => Asks(DoFinishEffect(Verifying, p.owner, p.pc.claim, VerifierKind, p.pc.intent), c.now)
    case PersistExpired(t) => Asks(DoFinishExpiredVerifier(p.pc.intent), t)
    case _ => Nothing
  }

  /** d has the row and log that serving the request on c leaves, the request is
      one the store's laws cover, and its clock reading is not a future one. */
  predicate Serves(c: Core, d: Core, a: Asked) {
    match a
    case Nothing => d.row == c.row && d.log == c.log
    case Asks(q, at) =>
      var wr := Serve(c.row, Last(c.log), q, at);
      at <= c.now && (q.DoDecide? || !Forces(q)) &&
      if wr.Wrote? then d.row == wr.row && d.log == c.log + wr.log else d.row == c.row && d.log == c.log
  }

  predicate Saves(x: ExecuteStep) {
    x.PersistSource? || x.PersistPlan? || x.PersistPartial? || x.PersistReceipt? || x.PersistLate? || x.StageInputs?
  }

  lemma SavingIsServed(c: Core, p: Proc, x: ExecuteStep)
    requires CanExecute(c, p, x) && Saves(x)
    ensures Serves(c, DoExecute(c, p, x).core, AskedByExecute(c, p, x))
  {
  }

  lemma ExecuteIsServed(c: Core, p: Proc, x: ExecuteStep)
    requires CanExecute(c, p, x)
    ensures Serves(c, DoExecute(c, p, x).core, AskedByExecute(c, p, x))
  {
    if Saves(x) { SavingIsServed(c, p, x); }
  }

  lemma RecoverIsServed(c: Core, p: Proc, r: RecoverStep)
    requires CanRecover(c, p, r) && PcOk(c, p)
    ensures Serves(c, DoRecover(c, p, r).core, AskedByRecover(c, p, r))
  {
  }

  lemma CloseIsServed(c: Core, p: Proc, x: CloseStep)
    requires CanClose(c, p, x)
    ensures Serves(c, DoClose(c, p, x).core, AskedByClose(c, p, x))
  {
  }

  lemma FinishingIsServed(c: Core, p: Proc, m: MonitorStep)
    requires CanMonitor(c, p, m) && PcOk(c, p) && (m.FinishFailed? || m.PersistRefusal? || m.FinishWithoutVerifier?)
    ensures Serves(c, DoMonitor(c, p, m).core, AskedByMonitor(c, p, m))
  {
  }

  lemma ReceiptIsServed(c: Core, p: Proc, m: MonitorStep)
    requires CanMonitor(c, p, m) && (m.Attest? || m.Bound?)
    ensures Serves(c, DoMonitor(c, p, m).core, AskedByMonitor(c, p, m))
  {
  }

  lemma MonitorIsServed(c: Core, p: Proc, m: MonitorStep)
    requires CanMonitor(c, p, m) && PcOk(c, p)
    ensures Serves(c, DoMonitor(c, p, m).core, AskedByMonitor(c, p, m))
  {
    if m.FinishFailed? || m.PersistRefusal? || m.FinishWithoutVerifier? {
      FinishingIsServed(c, p, m);
    } else if m.Attest? || m.Bound? {
      ReceiptIsServed(c, p, m);
    }
  }

  lemma ReviewIsServed(c: Core, p: Proc, v: VerifyStep)
    requires CanVerify(c, p, v) && (v.BoundAfter? || v.BoundDurable?)
    ensures Serves(c, DoVerify(c, p, v).core, AskedByVerify(c, p, v))
  {
  }

  lemma VerifyIsServed(c: Core, p: Proc, v: VerifyStep)
    requires CanVerify(c, p, v)
    ensures Serves(c, DoVerify(c, p, v).core, AskedByVerify(c, p, v))
  {
    if v.BoundAfter? || v.BoundDurable? { ReviewIsServed(c, p, v); }
  }

  function AskedBy(w: World, s: Step): Asked
    requires Enabled(w, s) && !s.Ambient? && !s.Read?
  {
    var c, p := w.core, w.procs[s.i];
    match s
    case Execute(_, x) => AskedByExecute(c, p, x)
    case Recover(_, r) => AskedByRecover(c, p, r)
    case Close(_, x) => AskedByClose(c, p, x)
    case Monitor(_, m) => AskedByMonitor(c, p, m)
    case Verify(_, v) => AskedByVerify(c, p, v)
  }

  /** In every world the invariant covers, every step of every process changes
      the row and its events as one store request does, or not at all. */
  lemma StepsAreServed(w: World, s: Step)
    requires Inv(w) && Enabled(w, s) && !s.Ambient? && !s.Read?
    ensures Serves(w.core, Apply(w, s).core, AskedBy(w, s))
  {
    var c, p := w.core, w.procs[s.i];
    assert ProcOk(c, p);
    match s
    case Execute(_, x) => ExecuteIsServed(c, p, x);
    case Recover(_, r) => RecoverIsServed(c, p, r);
    case Close(_, x) => CloseIsServed(c, p, x);
    case Monitor(_, m) => MonitorIsServed(c, p, m);
    case Verify(_, v) => VerifyIsServed(c, p, v);
  }

  /** DecideAdmission, on an accepted run of a known job whose snapshot decodes,
      does to the row what an admission step of a process that just read it does. */
  lemma DecisionIsAdmissionStep(db: Ledger.Db, id: nat, owner: Token, limits: Admission.Limits, probe: Admission.Probe,
                                detail: Token, c: Core)
    requires id < |db.runs| && db.runs[id].about.job in db.jobs && db.runs[id].about.definition.Snapshot?
    requires db.runs[id].state.Accepted? && owner != 0 && c.row == db.runs[id]
    ensures var ruling := Ledger.RulingFor(db, id, limits, probe, detail);
      var step := ExecuteStep.Admission(ruling, if probe.Probed? then probe.device else 0, c.row.about.definition.reserve);
      var p := Proc(owner, c.row, Fresh);
      CanExecute(c, p, step) &&
      DoExecute(c, p, step).core.row ==
        Ledger.DecideAdmission(db, id, owner, limits, probe, detail, c.now, c.now + ProvisioningLease).db.runs[id]
  {
  }
}
