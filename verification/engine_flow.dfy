/** What a process does next: it goes on exactly when the write it depends on landed,
    and otherwise stops, saves what it holds late, or tries again. */
module EngineFlow {
  import opened Options
  import opened Rows
  import opened Engine
  import opened EngineStore
  import opened EngineFencing

  /** The receipt of staged inputs is there, or none was needed. */
  predicate Staged(row: Row, receipt: Option<Token>) {
    receipt.Some? ==> receipt.value != 0 && !Terminal(row.state) && row.receipts.input == receipt.value
  }

  /** The executor, from admission to the confirmed start. */
  lemma ExecutorGoesOnExactly(c: Core, p: Proc, x: ExecuteStep)
    requires CanExecute(c, p, x)
    ensures var d, q, landed := DoExecute(c, p, x).core, DoExecute(c, p, x).proc, Landed(c, AskedByExecute(c, p, x));
      match x
      case Admission(ruling, _, _) => q.pc == if landed && ruling.Admit? then ProbeRenew else Done
      case RenewClaim =>
        if !landed then q.pc == Done
        else if p.pc == ProbeRenew then q.pc == Probe
        else q.pc == if p.pc == PlanRenew then Plan(d.row.lease.until) else CallingStart(d.row.lease.until)
      case FailClaim(_) => q.pc == Done
      case ProbePasses => q.pc == PlanRenew
      case PersistSource(_) => q == p
      case PersistPlan(branch) => q.pc == if landed then CallingProvision(branch, p.pc.until) else Done
      case CallProvision => q.pc == Provisioned(p.pc.branch)
      case ProvisionFails => q.pc == Done
      case ProvisionReturns(pane, path, partial) =>
        var place := Place(c.env.ws, pane, p.pc.branch, path);
        q.pc == if partial then SavingPartial(place) else SavingReceipt(place)
      case PersistPartial(fault) => q.pc == if landed && fault == NoFault then Done else SavingLate(p.pc.place)
      case PersistReceipt(_, fault) => q.pc == if landed && fault == NoFault then Staging else SavingLate(p.pc.place)
      case PersistLate(claim, _) =>
        if landed then
          q.pc.CallingClose? && q.pc.claim == claim && q.pc.from == c.row.state && q.snap == d.row &&
          d.row.effect.receipt == CloseIntent(q.pc.intent)
        else q.pc == Done
      case StageInputs(receipt) => q.pc == if Staged(d.row, receipt) then StartRenew else Staging
      case CallStart => q.pc == Started
      case StartFails => q.pc == Done
      case ConfirmStart(_) => if landed then q.pc == Fresh && q.snap == d.row else q.pc == Done
  {
  }

  /** A reconciler works on with the row it changed, and stops when it changed none. */
  lemma RecoveryGoesOnExactly(c: Core, p: Proc, x: RecoverStep)
    requires CanRecover(c, p, x)
    ensures var d, q, landed := DoRecover(c, p, x).core, DoRecover(c, p, x).proc, Landed(c, AskedByRecover(c, p, x));
      match x
      case FindWorkspace(_, _) => if landed then q.pc == Fresh && q.snap == d.row else q.pc == Done
      case ConfirmByMarker(_, _) => if landed then q.pc == Fresh && q.snap == d.row else q.pc == Done
      case LookForBranch(t) => q.pc == Retiring(t)
      case _ => q.pc == Done
  {
  }

  /** The outcome a recovered close goes by: the saved one when it is an end, else an
      interruption. */
  predicate SavedOr(snap: Row, i: Intent) {
    if snap.effect.receipt.CloseIntent? && Terminal(snap.effect.receipt.intent.state) then i == snap.effect.receipt.intent
    else i == Intent(Interrupted, Result(InfraUncertain, AgentUnknown, Unverified, CloseUnverified, 0))
  }

  /** Closing goes on from claim to call to finish, and a recovered close from a seen
      absence to reclaim to finish; an unknown answer leaves it to others. */
  lemma CloseGoesOnExactly(c: Core, p: Proc, x: CloseStep)
    requires CanClose(c, p, x)
    ensures var d, pc, landed := DoClose(c, p, x).core, DoClose(c, p, x).proc.pc, Landed(c, AskedByClose(c, p, x));
      match x
      case StartClose(intent, claim, _) => pc == if landed then CallingClose(claim, p.snap.state, intent) else Done
      case CallClose => pc == Closing(p.pc.claim, p.pc.from, p.pc.intent)
      case CloseAcked => d.env.acked && pc == FinishingClose(p.pc.claim, p.pc.from, p.pc.intent)
      case CloseSeenAbsent => d.env.sawGone && pc == FinishingClose(p.pc.claim, p.pc.from, p.pc.intent)
      case CloseUnknown => pc == Done && d == c
      case ObserveGone(_) => d.env.sawGone && pc.Reclaiming? && SavedOr(p.snap, pc.intent)
      case ReclaimClose(claim, _) => pc == if landed then FinishingClose(claim, p.snap.state, p.pc.intent) else Done
      case PersistClose => pc == Done && (landed ==> d.env.closed)
  {
  }

  /** Only a result file that was written counts as published. */
  predicate Publishes(a: map<Token, int>, b: map<Token, int>, claim: Token, result: VerifierResult) {
    match result
    case Published(exit) => b == a[claim := exit]
    case ProtocolError(leaked) => b == if leaked.Some? then a[claim := leaked.value] else a
    case RunError => b == a
  }

  /** A verifier goes from its claim to its run, its end, the boundary and the verdict. */
  lemma VerifierGoesOnExactly(c: Core, p: Proc, v: VerifyStep)
    requires CanVerify(c, p, v)
    ensures var d, pc := DoVerify(c, p, v).core, DoVerify(c, p, v).proc.pc;
      match v
      case RunVerifier => pc == VerifierRunning(p.pc.claim) && d.env.verifierRuns == c.env.verifierRuns + 1
      case VerifierEnds(result) =>
        pc == VerifierEnded(p.pc.claim, result) &&
        Publishes(c.env.published, d.env.published, p.pc.claim, result)
      case BoundAfter(_, _) => pc.FinishingVerifier? && pc.claim == p.pc.claim
      case BoundDurable(_, _) => pc.FinishingExpired?
      case PersistVerdict => pc == Done
      case PersistExpired(_) => pc == Done
      case _ => true
  {
  }
}
