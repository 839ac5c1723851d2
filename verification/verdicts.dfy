/** How a run ends: which outcome each way of finishing it leaves on the row, in any
    history, and above all what a verifier's verdict is made of. */
module Verdicts {
  import opened Options
  import opened Rows
  import opened Engine
  import opened EngineInvariant
  import opened EngineTheorems

  /** The row is over with exactly this outcome. */
  predicate EndedAs(r: Row, state: State, infra: Infra, agent: Agent, verdict: Verdict, code: Code, detail: Token) {
    r.state == state && r.result == Result(infra, agent, verdict, code, detail)
  }

  /** A run that has succeeded has passed its verifier, if it ever claimed one, and
      otherwise has none configured and is unverified. */
  lemma SucceededRunsPassed(ws: seq<World>, ss: seq<Step>, k: nat)
    requires History(ws, ss) && k < |ws| && ws[k].core.row.state == Succeeded
    ensures var r := ws[k].core.row;
      r.about.definition.Snapshot? &&
      if ws[k].core.env.verifierClaim.Some? then r.result.verdict == Passed
      else r.result.verdict == Unverified && r.about.definition.verifier == NoVerifier
  {
    Reachable(ws, ss, k);
  }

  // --- The boundary proof -----------------------------------------------

  /** The run has a boundary to prove: a write scope, or staged inputs. */
  predicate NeedsProof(snap: Row) {
    snap.about.definition.Snapshot? &&
    (snap.about.definition.scoped || (snap.about.definition.inputs && snap.receipts.input != 0))
  }

  /** Proving the boundary left the row as it is now: nothing to prove, or it was
      observed intact and, for a scoped run that is not over, the observation is the
      run's change receipt. */
  predicate Proven(row: Row, snap: Row, seen: Option<Observation>) {
    NeedsProof(snap) ==>
      seen.Some? && seen.value.Saw? &&
      (snap.about.definition.scoped ==>
        seen.value.payload != 0 && !Terminal(row.state) && row.receipts.change == seen.value.payload)
  }

  // --- From the proof to the verdict ------------------------------------

  /** Process i waits to write its verdict, or has stopped. */
  predicate Waits(w: World, i: nat, p: Proc) {
    At(w, i) && (w.procs[i] == p || w.procs[i].pc.Done?)
  }

  lemma WaitingStep(w: World, s: Step, i: nat, p: Proc)
    requires Enabled(w, s) && Waits(w, i, p) && (p.pc.FinishingVerifier? || p.pc.FinishingExpired?)
    ensures Waits(Apply(w, s), i, p)
  {
    if !s.Ambient? && !s.Read? && s.i == i && w.procs[i] == p { OnlyPersists(w.core, p, s); }
  }

  /** Such a process can do nothing but write. */
  lemma OnlyPersists(c: Core, p: Proc, s: Step)
    requires p.pc.FinishingVerifier? || p.pc.FinishingExpired?
    ensures s.Execute? ==> !CanExecute(c, p, s.x)
    ensures s.Recover? ==> !CanRecover(c, p, s.r)
    ensures s.Close? ==> !CanClose(c, p, s.c)
    ensures s.Monitor? ==> !CanMonitor(c, p, s.m)
    ensures s.Verify? && CanVerify(c, p, s.v) ==> DoVerify(c, p, s.v).proc.pc.Done?
  {
  }

  ghost predicate Waiting(ws: seq<World>, i: nat, p: Proc) {
    forall m :: 0 < m < |ws| && Waits(ws[m - 1], i, p) ==> Waits(ws[m], i, p)
  }

  lemma {:induction false} WaitingSince(ws: seq<World>, j: nat, k: nat, i: nat, p: Proc)
    requires Waiting(ws, i, p) && j <= k < |ws| && Waits(ws[j], i, p)
    ensures Waits(ws[k], i, p)
    decreases k - j
  {
    if j < k { WaitingSince(ws, j, k - 1, i, p); }
  }

  /** Whatever others do in between, the verdict is written as it was formed. */
  lemma StillAsFormed(ws: seq<World>, ss: seq<Step>, j: nat, k: nat, i: nat)
    requires History(ws, ss) && j <= k < |ss| && At(ws[j], i)
    requires ws[j].procs[i].pc.FinishingVerifier? || ws[j].procs[i].pc.FinishingExpired?
    requires ss[k].Verify? && ss[k].i == i && (ss[k].v.PersistVerdict? || ss[k].v.PersistExpired?)
    ensures ws[k].procs[i] == ws[j].procs[i]
  {
    var p := ws[j].procs[i];
    forall m | 0 < m < |ws| && Waits(ws[m - 1], i, p) ensures Waits(ws[m], i, p) { WaitingStep(ws[m - 1], ss[m - 1], i, p); }
    WaitingSince(ws, j, k, i, p);
  }

  /** A verdict that lands is the row's outcome. */
  lemma VerdictLands(c: Core, p: Proc, v: VerifyStep)
    requires CanVerify(c, p, v) && (v.PersistVerdict? || v.PersistExpired?)
    ensures var r := DoVerify(c, p, v).core.row;
      r != c.row ==> r.state == p.pc.intent.state && r.result == p.pc.intent.result
  {
  }

  lemma LandsAsFormed(ws: seq<World>, ss: seq<Step>, j: nat, k: nat, i: nat)
    requires History(ws, ss) && j <= k < |ss| && At(ws[j], i)
    requires ws[j].procs[i].pc.FinishingVerifier? || ws[j].procs[i].pc.FinishingExpired?
    requires ss[k].Verify? && ss[k].i == i && (ss[k].v.PersistVerdict? || ss[k].v.PersistExpired?)
    requires ws[k + 1].core.row != ws[k].core.row
    ensures ws[k + 1].core.row.state == ws[j].procs[i].pc.intent.state
    ensures ws[k + 1].core.row.result == ws[j].procs[i].pc.intent.result
  {
    StillAsFormed(ws, ss, j, k, i);
    VerdictLands(ws[k].core, ws[k].procs[i], ss[k].v);
  }

  /** The verdict of a verifier whose end its owner saw. */
  predicate OwnerVerdict(r: Row, result: VerifierResult, proven: bool, detail: Token) {
    if !proven then EndedAs(r, Failed, InfraCompleted, AgentCompleted, Unverified, BoundedReviewFailed, detail)
    else if result == Published(0) then EndedAs(r, Succeeded, InfraCompleted, AgentCompleted, Passed, NoCode, detail)
    else if result.ProtocolError? then
      EndedAs(r, Failed, InfraCompleted, AgentCompleted, Unverified, VerifierReceiptFailed, detail)
    else EndedAs(r, Failed, InfraCompleted, AgentCompleted, Rejected, VerifierFailed, detail)
  }

  predicate Intended(i: Intent, r: Row) {
    i.state == r.state && i.result == r.result
  }

  lemma OwnerForms(c: Core, p: Proc, seen: Option<Observation>, detail: Token, r: Row)
    requires CanVerify(c, p, BoundAfter(seen, detail))
    ensures var m := DoVerify(c, p, BoundAfter(seen, detail));
      m.proc.pc.FinishingVerifier? &&
      (Intended(m.proc.pc.intent, r) ==> OwnerVerdict(r, p.pc.result, Proven(m.core.row, p.snap, seen), detail))
  {
  }

  /** In any history, when the verdict of a verifier's owner lands: the run has passed
      exactly when the result was properly published as 0 within a proven boundary;
      otherwise it has failed, rejected for a nonzero exit or a run error, unverified
      for a protocol error or an unproven boundary. */
  lemma OwnerVerdictExactly(ws: seq<World>, ss: seq<Step>, j: nat, k: nat, i: nat, seen: Option<Observation>, detail: Token)
    requires History(ws, ss) && j < k < |ss| && ss[j] == Verify(i, BoundAfter(seen, detail))
    requires ss[k] == Verify(i, PersistVerdict) && ws[k + 1].core.row != ws[k].core.row
    ensures OwnerVerdict(ws[k + 1].core.row, ws[j].procs[i].pc.result,
                         Proven(ws[j + 1].core.row, ws[j].procs[i].snap, seen), detail)
  {
    OwnerForms(ws[j].core, ws[j].procs[i], seen, detail, ws[k + 1].core.row);
    LandsAsFormed(ws, ss, j + 1, k, i);
  }

  /** The verdict a reconciler forms from a durable result. */
  predicate ReconciledVerdict(r: Row, exit: int, proven: bool, detail: Token) {
    if !proven then EndedAs(r, Failed, InfraCompleted, AgentCompleted, Unverified, BoundedReviewFailed, detail)
    else if exit == 0 then EndedAs(r, Succeeded, InfraCompleted, AgentCompleted, Passed, NoCode, detail)
    else EndedAs(r, Failed, InfraCompleted, AgentCompleted, Rejected, VerifierFailed, detail)
  }

  lemma ReconcilerForms(c: Core, p: Proc, seen: Option<Observation>, detail: Token, r: Row)
    requires CanVerify(c, p, BoundDurable(seen, detail))
    ensures var m := DoVerify(c, p, BoundDurable(seen, detail));
      m.proc.pc.FinishingExpired? &&
      (Intended(m.proc.pc.intent, r) ==> ReconciledVerdict(r, p.pc.exit, Proven(m.core.row, p.snap, seen), detail))
  {
  }

  /** The same for a reconciler that read a durable result: and that result is the one
      published under the run's only verifier claim. */
  lemma ReconciledVerdictExactly(ws: seq<World>, ss: seq<Step>, j: nat, k: nat, i: nat, seen: Option<Observation>,
                                 detail: Token, t: Time)
    requires History(ws, ss) && j < k < |ss| && ss[j] == Verify(i, BoundDurable(seen, detail))
    requires ss[k] == Verify(i, PersistExpired(t)) && ws[k + 1].core.row != ws[k].core.row
    ensures var e, exit := ws[k].core.env, ws[j].procs[i].pc.exit;
      e.verifierClaim.Some? && e.verifierClaim.value in e.published && e.published[e.verifierClaim.value] == exit &&
      ReconciledVerdict(ws[k + 1].core.row, exit, Proven(ws[j + 1].core.row, ws[j].procs[i].snap, seen), detail)
  {
    ReconcilerForms(ws[j].core, ws[j].procs[i], seen, detail, ws[k + 1].core.row);
    LandsAsFormed(ws, ss, j + 1, k, i);
    Reachable(ws, ss, j);
    SameRead(ws[j].core, ws[j].procs[i]);
    Onward(ws, ss, j, k);
  }

  /** What a reconciler writes when there is no durable result. */
  predicate NoResultVerdict(r: Row, read: ReceiptRead, detail: Token) {
    EndedAs(r, Interrupted, InfraUncertain, AgentCompleted, Unverified,
            if read.NoPath? then MissingVerifierReceipt
            else if read.Absent? then RestartDuringVerifier
            else InvalidVerifierReceipt, detail)
  }

  lemma ReaderForms(c: Core, p: Proc, read: ReceiptRead, detail: Token, t: Time, r: Row)
    requires CanVerify(c, p, ReadResult(read, detail, t))
    ensures var m := DoVerify(c, p, ReadResult(read, detail, t));
      if read.Durable? then m.proc.pc == ReadDurable(read.exit)
      else m.proc.pc.FinishingExpired? && (Intended(m.proc.pc.intent, r) ==> NoResultVerdict(r, read, detail))
  {
  }

  lemma NoResultVerdictExactly(ws: seq<World>, ss: seq<Step>, j: nat, k: nat, i: nat, read: ReceiptRead, detail: Token,
                               u: Time, t: Time)
    requires History(ws, ss) && j < k < |ss| && ss[j] == Verify(i, ReadResult(read, detail, u)) && !read.Durable?
    requires ss[k] == Verify(i, PersistExpired(t)) && ws[k + 1].core.row != ws[k].core.row
    ensures NoResultVerdict(ws[k + 1].core.row, read, detail)
  {
    ReaderForms(ws[j].core, ws[j].procs[i], read, detail, u, ws[k + 1].core.row);
    LandsAsFormed(ws, ss, j + 1, k, i);
  }

  lemma UnpreparedForms(c: Core, p: Proc, detail: Token, r: Row)
    requires CanVerify(c, p, PrepareFails(detail))
    ensures var m := DoVerify(c, p, PrepareFails(detail));
      m.proc.pc.FinishingVerifier? &&
      (Intended(m.proc.pc.intent, r) ==>
        EndedAs(r, Failed, InfraFailed, AgentCompleted, Unverified, VerifierReceiptFailed, detail))
  {
  }

  /** A verifier that could not be prepared is not run, and the run fails unverified. */
  lemma UnpreparedVerdictExactly(ws: seq<World>, ss: seq<Step>, j: nat, k: nat, i: nat, detail: Token)
    requires History(ws, ss) && j < k < |ss| && ss[j] == Verify(i, PrepareFails(detail))
    requires ss[k] == Verify(i, PersistVerdict) && ws[k + 1].core.row != ws[k].core.row
    ensures EndedAs(ws[k + 1].core.row, Failed, InfraFailed, AgentCompleted, Unverified, VerifierReceiptFailed, detail)
  {
    UnpreparedForms(ws[j].core, ws[j].procs[i], detail, ws[k + 1].core.row);
    LandsAsFormed(ws, ss, j + 1, k, i);
  }

  // --- Up to the verifier -----------------------------------------------

  /** The attestation this step was given is the run's, or was before. */
  predicate Attested(row: Row, receipt: Option<Token>) {
    receipt.Some? && receipt.value != 0 && !Terminal(row.state) && row.receipts.attestation == receipt.value
  }

  /** A completed command goes on to its verifier exactly past an attestation, when
      one is required and not there yet, and a proven boundary. */
  lemma CompletionGoesOnExactly(c: Core, p: Proc, m: MonitorStep)
    requires CanMonitor(c, p, m) && (m.BeginMonitor? || m.Attest? || m.Bound? || m.Settle?)
    ensures var d, pc := DoMonitor(c, p, m).core, DoMonitor(c, p, m).proc.pc;
      match m
      case BeginMonitor =>
        if p.snap.state == Running && p.snap.about.definition.Snapshot? && p.snap.about.definition.attested &&
           p.snap.receipts.attestation == 0
        then pc == Attesting else pc == Bounding
      case Attest(receipt) => if Attested(d.row, receipt) then pc == Bounding else pc == Refusing(AttestationFailed)
      case Bound(seen) => if Proven(d.row, p.snap, seen) then pc.Settling? else pc == Refusing(BoundedReviewFailed)
      case Settle =>
        if p.snap.state == Settled || d.row != c.row then pc.Claiming? else pc == Done
      case _ => true
  {
  }

  // --- Every way to end -------------------------------------------------

  /** The run ends with this step. */
  predicate Ends(w: World, s: Step)
    requires Enabled(w, s)
  {
    !Terminal(w.core.row.state) && Terminal(Apply(w, s).core.row.state)
  }

  /** What the monitor finishes a run with. */
  predicate MonitorEnding(r: Row, p: Proc, m: MonitorStep) {
    match m
    case FinishFailed(code, detail) => EndedAs(r, Failed, InfraCompleted, AgentFailed, Unverified, code, detail)
    case PersistRefusal(detail) =>
      p.pc.Refusing? &&
      EndedAs(r, Failed, InfraCompleted, if p.snap.state == Settled then AgentCompleted else AgentFailed, Unverified,
              p.pc.code, detail)
    case FinishWithoutVerifier => EndedAs(r, Succeeded, InfraCompleted, AgentCompleted, Unverified, NoCode, 0)
    case _ => false
  }

  predicate RecoveryEnding(r: Row, x: RecoverStep) {
    match x
    case FinishUnstarted(intent) => Intended(intent, r)
    case InterruptStuck(detail, _) =>
      EndedAs(r, Interrupted, InfraUncertain, AgentNotStarted, Unverified, RestartDuringProvisioning, detail)
    case RetireByHand => EndedAs(r, Interrupted, InfraUncertain, AgentNotStarted, Unverified, ExplicitRecovery, 0)
    case _ => false
  }

  predicate ExecuteEnding(r: Row, x: ExecuteStep) {
    match x
    case Admission(ruling, _, _) => ruling.Finish? && Intended(ruling.intent, r)
    case FailClaim(intent) => Intended(intent, r)
    case _ => false
  }

  lemma MonitorEnds(c: Core, p: Proc, m: MonitorStep)
    requires CanMonitor(c, p, m) && !Terminal(c.row.state) && Terminal(DoMonitor(c, p, m).core.row.state)
    ensures MonitorEnding(DoMonitor(c, p, m).core.row, p, m)
  {
  }

  lemma RecoveryEnds(c: Core, p: Proc, x: RecoverStep)
    requires CanRecover(c, p, x) && !Terminal(c.row.state) && Terminal(DoRecover(c, p, x).core.row.state)
    ensures RecoveryEnding(DoRecover(c, p, x).core.row, x)
  {
  }

  lemma ExecuteEnds(c: Core, p: Proc, x: ExecuteStep)
    requires CanExecute(c, p, x) && !Terminal(c.row.state) && Terminal(DoExecute(c, p, x).core.row.state)
    ensures ExecuteEnding(DoExecute(c, p, x).core.row, x)
  {
  }

  lemma CloseEnds(c: Core, p: Proc, x: CloseStep)
    requires RowOk(c) && ProcOk(c, p)
    requires CanClose(c, p, x) && !Terminal(c.row.state) && Terminal(DoClose(c, p, x).core.row.state)
    ensures x.PersistClose? && c.env.intent.Some? && Intended(c.env.intent.value, DoClose(c, p, x).core.row)
  {
  }

  lemma VerifyEnds(c: Core, p: Proc, v: VerifyStep)
    requires CanVerify(c, p, v) && !Terminal(c.row.state) && Terminal(DoVerify(c, p, v).core.row.state)
    ensures (v.PersistVerdict? || v.PersistExpired?) && Intended(p.pc.intent, DoVerify(c, p, v).core.row)
  {
  }

  lemma AmbientEndsNothing(c: Core, a: AmbientStep)
    requires CanAmbient(c, a)
    ensures DoAmbient(c, a).row.state == c.row.state
  {
  }

  /** Every way a run can end, in any history, and its outcome: none but these steps
      ends it. A close ends it with the intent the first close claim saved. */
  lemma RunsEndAs(ws: seq<World>, ss: seq<Step>, k: nat)
    requires History(ws, ss) && k < |ss| && Ends(ws[k], ss[k])
    ensures var r := ws[k + 1].core.row;
      match ss[k]
      case Execute(_, x) => ExecuteEnding(r, x)
      case Recover(_, x) => RecoveryEnding(r, x)
      case Close(_, x) => x.PersistClose? && ws[k].core.env.intent.Some? && Intended(ws[k].core.env.intent.value, r)
      case Monitor(i, m) => MonitorEnding(r, ws[k].procs[i], m)
      case Verify(i, v) => (v.PersistVerdict? || v.PersistExpired?) && Intended(ws[k].procs[i].pc.intent, r)
      case _ => false
  {
    Reachable(ws, ss, k);
    var c := ws[k].core;
    match ss[k]
    case Ambient(a) => AmbientEndsNothing(c, a);
    case Read(_) =>
    case Execute(i, x) => ExecuteEnds(c, ws[k].procs[i], x);
    case Recover(i, x) => RecoveryEnds(c, ws[k].procs[i], x);
    case Close(i, x) =>
      assert ProcOk(c, ws[k].procs[i]);
      CloseEnds(c, ws[k].procs[i], x);
    case Monitor(i, m) => MonitorEnds(c, ws[k].procs[i], m);
    case Verify(i, v) => VerifyEnds(c, ws[k].procs[i], v);
  }

  /** The intent a close claim saves: the one asked for, or, for a workspace that came
      back late, that the receipt was not persisted, unless the run was over. */
  lemma CloseIntentsAre(c: Core, p: Proc, s: Step)
    requires c.env.intent.None?
    requires s.Execute? ==> CanExecute(c, p, s.x)
    requires s.Close? ==> CanClose(c, p, s.c)
    ensures s.Execute? && DoExecute(c, p, s.x).core.env.intent.Some? ==>
      var i := DoExecute(c, p, s.x).core.env.intent.value;
      s.x.PersistLate? &&
      if Terminal(c.row.state) then Intended(i, c.row)
      else i == Intent(Interrupted, Result(InfraUncertain, AgentNotStarted, Unverified, ReceiptNotPersisted, s.x.detail))
    ensures s.Close? && DoClose(c, p, s.c).core.env.intent.Some? ==>
      s.c.StartClose? && DoClose(c, p, s.c).core.env.intent == Some(s.c.intent)
  {
  }
}
