/** The engine as any number of processes interleaving over one run's row.

    A process is a goroutine or a command: it reads the row once, keeps that
    snapshot, and then moves from one program counter to the next, one atomic
    store write or one external call at a time. A process that is never
    scheduled again has crashed. A step that must own a claim uses a clock
    reading that is current when it commits; a recovery step carries the reading
    it took before its external lookups, however old that is. */
module Engine {
  import opened Options
  import opened Rows
  import opened RowWrites

  const ProvisioningLease: nat := 60_000_000_000
  const CloseLease: nat := 60_000_000_000
  const VerifierLease: nat := 360_000_000_000

  datatype VerifierResult = Published(exit: int) | ProtocolError(leaked: Option<int>) | RunError

  datatype Pc =
    | Fresh
    // execute, from admission to the confirmed start of the command
    | ProbeRenew | Probe | PlanRenew | Plan(until: Time) | CallingProvision(branch: Token, until: Time)
    | Provisioned(branch: Token) | SavingPartial(place: Place) | SavingReceipt(place: Place) | SavingLate(place: Place)
    | Staging | StartRenew | CallingStart(until: Time) | Started
    // explicit recovery, after the branch was seen to name nothing
    | Retiring(at: Time)
    // closing a workspace, and recovering an expired close
    | CallingClose(claim: Token, from: State, intent: Intent)
    | Closing(claim: Token, from: State, intent: Intent)
    | FinishingClose(claim: Token, from: State, intent: Intent)
    | Reclaiming(intent: Intent)
    // monitor, up to the verifier claim
    | Attesting | Bounding | Refusing(code: Code) | Settling(pre: Option<Token>) | Claiming(pre: Option<Token>)
    // the owner of a verifier claim
    | VerifierReady(claim: Token) | VerifierRunning(claim: Token) | VerifierEnded(claim: Token, result: VerifierResult)
    | FinishingVerifier(claim: Token, intent: Intent, post: Option<Token>)
    // reconciling an expired verifier
    | ReadDurable(exit: int) | FinishingExpired(intent: Intent, post: Option<Token>)
    | Done

  datatype Proc = Proc(owner: Token, snap: Row, pc: Pc)

  /** The outside world, and what the run has asked of it. */
  datatype Env = Env(
    provisionCalls: nat, startCalls: nat, verifierRuns: nat, closeCalls: nat,
    ws: Token,                     // the workspace the Provision call created, 0 before
    live: bool,                    // and whether it still exists
    exit: Option<int>,             // the last status the command's pane shows
    published: map<Token, int>,    // verifier results durably published, by claim
    executor: Token,               // the owner the run was admitted for, 0 before
    acked: bool, sawGone: bool,    // a close was acknowledged; absence was observed
    intent: Option<Intent>,        // the intent saved by the first close claim
    closed: bool,                  // some close effect was finished
    verifierClaim: Option<Token>,
    pre: Option<Token>,            // the change observation made before the verifier claim
    post: Option<Token>)           // the one behind the persisted verifier verdict

  /** Everything but the processes: the clock, the row, its events, the world. */
  datatype Core = Core(now: Time, row: Row, log: seq<Entry>, env: Env)

  datatype World = World(core: Core, procs: seq<Proc>)

  /** What one step of one process does to the core and to the process. */
  datatype Move = Move(core: Core, proc: Proc)

  const QuietEnv := Env(0, 0, 0, 0, 0, false, None, map[], 0, false, false, None, false, None, None, None)

  /** A row as acceptance leaves it: unowned, unprovisioned, one event. */
  ghost predicate Start(w: World) {
    exists about: About, source, detail ::
      about.definition.Snapshot? &&
      w == World(Core(about.acceptedAt, NewRow(about, source),
                      [Entry(New, Accepted, about.acceptedAt, NoCode, detail)], QuietEnv), [])
  }

  datatype Fault = NoFault | BeforeCommit | AfterCommit

  datatype Observation = Refusal | Saw(payload: Token)

  datatype ReceiptRead = NoPath | Absent | Invalid | Durable(exit: int)

  datatype AmbientStep =
    | Tick(now: Time)
    | Evidence(code: Code, detail: Token)
    | Inbox
    | EnvCreate(ws: Token) | EnvVanish | EnvExit(exit: int)

  datatype ExecuteStep =
    | Admission(ruling: Ruling, device: Token, reserve: real)
    | RenewClaim
    | FailClaim(intent: Intent)
    | ProbePasses
    | PersistSource(source: Token)
    | PersistPlan(branch: Token)
    | CallProvision
    | ProvisionFails
    | ProvisionReturns(pane: Token, path: Token, partial: bool)
    | PersistPartial(fault: Fault)
    | PersistReceipt(marker: Token, fault: Fault)
    | PersistLate(claim: Token, detail: Token)
    | StageInputs(receipt: Option<Token>)
    | CallStart
    | StartFails
    | ConfirmStart(detail: Token)

  datatype RecoverStep =
    | FinishUnstarted(intent: Intent)
    | FindWorkspace(path: Token, t: Time)
    | InterruptStuck(detail: Token, t: Time)
    | LookForBranch(t: Time)
    | RetireByHand
    | ConfirmByMarker(detail: Token, t: Time)

  datatype CloseStep =
    | StartClose(intent: Intent, claim: Token, t: Time)
    | CallClose
    | CloseAcked
    | CloseSeenAbsent
    | CloseUnknown
    | ObserveGone(t: Time)
    | ReclaimClose(claim: Token, t: Time)
    | PersistClose

  datatype MonitorStep =
    | FinishFailed(code: Code, detail: Token)
    | BeginMonitor
    | Attest(receipt: Option<Token>)
    | Bound(seen: Option<Observation>)
    | PersistRefusal(detail: Token)
    | Settle
    | FinishWithoutVerifier
    | TakeVerifier(claim: Token)

  datatype VerifyStep =
    | PrepareFails(detail: Token)
    | RunVerifier
    | VerifierEnds(result: VerifierResult)
    | BoundAfter(seen: Option<Observation>, detail: Token)
    | PersistVerdict
    | ReadResult(read: ReceiptRead, detail: Token, t: Time)
    | BoundDurable(seen: Option<Observation>, detail: Token)
    | PersistExpired(t: Time)

  datatype Step =
    | Ambient(a: AmbientStep)
    | Read(owner: Token)
    | Execute(i: nat, x: ExecuteStep)
    | Recover(i: nat, r: RecoverStep)
    | Close(i: nat, c: CloseStep)
    | Monitor(i: nat, m: MonitorStep)
    | Verify(i: nat, v: VerifyStep)

  // --- What the engine writes -------------------------------------------

  /** The outcomes DecideAdmission terminalizes a candidate with. */
  predicate AdmissionOutcome(i: Intent) {
    (i.state.Blocked? || i.state.Failed?) && i.result.agent.AgentNotStarted? && i.result.verdict.Unverified? &&
    (i.result.code.JobDisabled? || i.result.code.JobPaused? || i.result.code.GloballyPaused? ||
     i.result.code.SnapshotInvalid? || i.result.code.OverlapHold? || i.result.code.CapacityHold? ||
     i.result.code.DiskHold? || i.result.code.AdmissionHold? || i.result.code.CapacityProbeFailed?)
  }

  /** The outcomes of failProvisioning and failStarting. */
  predicate ClaimFailure(i: Intent) {
    i.state.Failed? && i.result.infra.InfraFailed? && i.result.verdict.Unverified? &&
    (i.result.code.SnapshotInvalid? || i.result.code.RouteUnavailable? || i.result.code.RouteInvalid? ||
     i.result.code.SourceContextFailed? || i.result.code.InputStagingFailed? || i.result.code.PromptFileFailed?)
  }

  /** The outcomes closeAndFinish is called with, by the state it was read in. */
  predicate CloseReason(from: State, i: Intent) {
    i.result.verdict.Unverified? &&
    match i.state
    case Interrupted =>
      !Terminal(from) && !from.Accepted? && i.result.infra.InfraUncertain? &&
      (i.result.code.RestartDuringProvisioning? || i.result.code.RestartDuringStart? || i.result.code.ReconcileFailed?)
    case Cancelled => (from.Starting? || from.Running? || from.Settled? || from.Verifying?) && i.result.code.UserCancelled?
    case TimedOut => from.Running? && i.result.code.CommandTimeout?
    case _ => false
  }

  function LateOutcome(detail: Token): Intent {
    Intent(Interrupted, Result(InfraUncertain, AgentNotStarted, Unverified, ReceiptNotPersisted, detail))
  }

  function CompletedFailure(from: State, code: Code, detail: Token): Intent {
    Intent(Failed, Result(InfraCompleted, if from.Settled? then AgentCompleted else AgentFailed, Unverified, code, detail))
  }

  const SucceededUnverified := Intent(Succeeded, Result(InfraCompleted, AgentCompleted, Unverified, NoCode, 0))

  function BoundaryBroken(detail: Token): Intent {
    Intent(Failed, Result(InfraCompleted, AgentCompleted, Unverified, BoundedReviewFailed, detail))
  }

  function ExitOutcome(exit: int, detail: Token): Intent {
    if exit == 0 then Intent(Succeeded, Result(InfraCompleted, AgentCompleted, Passed, NoCode, detail))
    else Intent(Failed, Result(InfraCompleted, AgentCompleted, Rejected, VerifierFailed, detail))
  }

  /** The outcome the owner of a verifier claim persists. */
  function OwnerOutcome(result: VerifierResult, bounded: bool, detail: Token): Intent {
    if !bounded then BoundaryBroken(detail)
    else match result
      case Published(exit) => ExitOutcome(exit, detail)
      case ProtocolError(_) =>
        Intent(Failed, Result(InfraCompleted, AgentCompleted, Unverified, VerifierReceiptFailed, detail))
      case RunError => Intent(Failed, Result(InfraCompleted, AgentCompleted, Rejected, VerifierFailed, detail))
  }

  /** The outcome reconciliation persists for an expired verifier. */
  function ReconciledOutcome(read: ReceiptRead, bounded: bool, detail: Token): Intent {
    match read
    case NoPath => Intent(Interrupted, Result(InfraUncertain, AgentCompleted, Unverified, MissingVerifierReceipt, detail))
    case Absent => Intent(Interrupted, Result(InfraUncertain, AgentCompleted, Unverified, RestartDuringVerifier, detail))
    case Invalid => Intent(Interrupted, Result(InfraUncertain, AgentCompleted, Unverified, InvalidVerifierReceipt, detail))
    case Durable(exit) => if bounded then ExitOutcome(exit, detail) else BoundaryBroken(detail)
  }

  predicate Scoped(r: Row) {
    r.about.definition.Snapshot? && r.about.definition.scoped
  }

  /** verifyBoundedReview has a boundary to prove. */
  predicate HasBoundary(r: Row) {
    Scoped(r) || (r.about.definition.Snapshot? && r.about.definition.inputs && r.receipts.input != 0)
  }

  /** verifyBoundedReview: what is written, and whether the boundary held. */
  function BoundaryWrite(r: Row, snap: Row, seen: Option<Observation>, now: Time): Write {
    if HasBoundary(snap) && seen.Some? && seen.value.Saw? && Scoped(snap)
    then SetReceiptOnce(r, ChangeReceipt, seen.value.payload, now)
    else Lost
  }

  predicate BoundaryHolds(r: Row, snap: Row, seen: Option<Observation>, now: Time) {
    !HasBoundary(snap) ||
    (seen.Some? && seen.value.Saw? &&
     (!Scoped(snap) || BoundaryWrite(r, snap, seen, now).Wrote? || BoundaryWrite(r, snap, seen, now).Kept?))
  }

  function Payload(snap: Row, seen: Option<Observation>): Option<Token> {
    if Scoped(snap) && seen.Some? && seen.value.Saw? then Some(seen.value.payload) else None
  }

  // --- Steps ------------------------------------------------------------

  function Last(log: seq<Entry>): Option<Entry> {
    if log == [] then None else Some(log[|log| - 1])
  }

  function Commit(c: Core, wr: Write): Core {
    if wr.Wrote? then c.(row := wr.row, log := c.log + wr.log) else c
  }

  function Goto(c: Core, p: Proc, pc: Pc): Move {
    Move(c, p.(pc := pc))
  }

  /** Goto, with the row as this process now knows it. */
  function Reread(c: Core, p: Proc, pc: Pc): Move {
    Move(c, p.(pc := pc, snap := c.row))
  }

  /** A snapshot's provisioning claim has lapsed by t, and t is no later than now. */
  predicate LapsedBy(c: Core, snap: Row, t: Time) {
    t <= c.now && (snap.lease.owner == 0 || snap.lease.until <= t)
  }

  predicate EffectLapsedBy(c: Core, snap: Row, t: Time) {
    t <= c.now && (snap.effect.owner == 0 || snap.effect.until <= t)
  }

  /** The workspace `ws` does not exist at this moment. */
  predicate Gone(c: Core, ws: Token) {
    !(c.env.live && c.env.ws == ws)
  }

  predicate EvidenceCode(c: Code) {
    c.ProvisionUncertain? || c.StartUncertain? || c.WorktreeUnowned? || c.CloseFailed? || c.CloseUnverified? ||
    c.BackgroundStoreError?
  }

  /** Process i has just read the row in state s. */
  predicate FreshIn(p: Proc, s: State) {
    p.pc.Fresh? && p.snap.state == s
  }

  // Ambient steps: time, new readers, evidence, the inbox, the outside world.

  predicate CanAmbient(c: Core, a: AmbientStep) {
    match a
    case Tick(now) => now > c.now
    case Evidence(code, _) => EvidenceCode(code)
    case Inbox => true
    case EnvCreate(ws) => c.env.provisionCalls > 0 && c.env.ws == 0 && ws != 0
    case EnvVanish => c.env.live
    case EnvExit(_) => c.env.startCalls > 0
  }

  function DoAmbient(c: Core, a: AmbientStep): Core {
    match a
    case Tick(now) => c.(now := now)
    case Evidence(code, detail) => Commit(c, RecordEvent(c.row, Last(c.log), code, detail, c.now))
    case Inbox => Commit(c, MarkRead(c.row))
    case EnvCreate(ws) => c.(env := c.env.(ws := ws, live := true))
    case EnvVanish => c.(env := c.env.(live := false))
    case EnvExit(exit) => c.(env := c.env.(exit := Some(exit)))
  }

  // dispatch and execute

  /** The receipt is saved and the command not yet started. */
  predicate HasReceipt(pc: Pc) {
    pc.Staging? || pc.StartRenew?
  }

  predicate CanExecute(c: Core, p: Proc, x: ExecuteStep) {
    match x
    case Admission(ruling, _, _) =>
      FreshIn(p, Accepted) && (ruling.Finish? ==> AdmissionOutcome(ruling.intent))
    case RenewClaim => p.pc.ProbeRenew? || p.pc.PlanRenew? || p.pc.StartRenew?
    case FailClaim(intent) =>
      (p.pc.ProbeRenew? || p.pc.Probe? || HasReceipt(p.pc)) && ClaimFailure(intent)
    case ProbePasses => p.pc.Probe?
    case PersistSource(_) => p.pc.Probe?
    case PersistPlan(branch) => p.pc.Plan? && branch != 0
    case CallProvision => p.pc.CallingProvision? && c.now < p.pc.until
    case ProvisionFails => p.pc.CallingProvision? || p.pc.Provisioned?
    case ProvisionReturns(pane, _, _) => p.pc.Provisioned? && c.env.ws != 0 && pane != 0
    case PersistPartial(_) => p.pc.SavingPartial?
    case PersistReceipt(_, _) => p.pc.SavingReceipt?
    case PersistLate(claim, _) => p.pc.SavingLate? && claim != 0
    case StageInputs(_) => p.pc.Staging?
    case CallStart => p.pc.CallingStart? && c.now < p.pc.until
    case StartFails => p.pc.CallingStart? || p.pc.Started?
    case ConfirmStart(_) => p.pc.Started?
  }

  /** After a provisioning renewal: which operation the fresh lease covers. */
  function Renewed(pc: Pc, until: Time): Pc {
    match pc
    case ProbeRenew => Probe
    case PlanRenew => Plan(until)
    case _ => CallingStart(until)
  }

  function Faulted(c: Core, wr: Write, fault: Fault): Core {
    if fault.BeforeCommit? then c else Commit(c, wr)
  }

  function AfterAdmission(c: Core, p: Proc, ruling: Ruling, device: Token, reserve: real): Move {
    var owner := p.owner;
    var wr := Decide(c.row, owner, ruling, device, reserve, c.now, c.now + ProvisioningLease);
    if wr.Wrote? && ruling.Admit? then
      Goto(Commit(c, wr).(env := c.env.(executor := owner)), p, ProbeRenew)
    else Goto(Commit(c, wr), p, Done)
  }

  function AfterRenewClaim(c: Core, p: Proc): Move {
    var wr := RowWrites.Renew(c.row, p.owner, c.now, c.now + ProvisioningLease);
    Goto(Commit(c, wr), p, if wr.Wrote? then Renewed(p.pc, c.now + ProvisioningLease) else Done)
  }

  function AfterPersistReceipt(c: Core, p: Proc, marker: Token, fault: Fault): Move
    requires p.pc.SavingReceipt?
  {
    var wr := RowWrites.SaveReceipt(c.row, p.owner, p.pc.place, marker, c.now);
    Goto(Faulted(c, wr, fault), p, if fault.NoFault? && wr.Wrote? then Staging else SavingLate(p.pc.place))
  }

  function AfterPersistPartial(c: Core, p: Proc, fault: Fault): Move
    requires p.pc.SavingPartial?
  {
    var place := p.pc.place;
    var wr := SavePartialReceipt(c.row, p.owner, place.ws, place.pane, place.branch, c.now);
    Goto(Faulted(c, wr, fault), p, if fault.NoFault? && wr.Wrote? then Done else SavingLate(place))
  }

  function FirstIntent(env: Env, intent: Intent): Env {
    if env.intent.None? then env.(intent := Some(intent)) else env
  }

  /** recoverUnsavedReceipt, up to the decision to close. */
  function AfterPersistLate(c: Core, p: Proc, claim: Token, detail: Token): Move
    requires p.pc.SavingLate?
  {
    var wr := ClaimLate(c.row, p.owner, claim, p.pc.place, LateOutcome(detail), c.now, c.now + CloseLease);
    var intent := LateIntent(c.row, LateOutcome(detail));
    if wr.Wrote? then
      Reread(Commit(c, wr).(env := FirstIntent(c.env, intent)), p, CallingClose(claim, c.row.state, intent))
    else Goto(c, p, Done)
  }

  function AfterFailClaim(c: Core, p: Proc, intent: Intent): Move {
    Goto(Commit(c, FinishClaim(c.row, if HasReceipt(p.pc) then Starting else Provisioning, p.owner, intent, c.now)), p, Done)
  }

  function AfterProbePasses(c: Core, p: Proc): Move {
    Goto(c, p, PlanRenew)
  }

  function AfterPersistSource(c: Core, p: Proc, source: Token): Move {
    Move(Commit(c, SaveSource(c.row, source, c.now)), p)
  }

  function AfterPersistPlan(c: Core, p: Proc, branch: Token): Move
    requires p.pc.Plan?
  {
    var wr := SavePlan(c.row, p.owner, branch, c.now);
    Goto(Commit(c, wr), p, if wr.Wrote? then CallingProvision(branch, p.pc.until) else Done)
  }

  function AfterCallProvision(c: Core, p: Proc): Move
    requires p.pc.CallingProvision?
  {
    Goto(c.(env := c.env.(provisionCalls := c.env.provisionCalls + 1)), p, Provisioned(p.pc.branch))
  }

  function AfterProvisionFails(c: Core, p: Proc): Move {
    Goto(c, p, Done)
  }

  function AfterProvisionReturns(c: Core, p: Proc, pane: Token, path: Token, partial: bool): Move
    requires p.pc.Provisioned?
  {
    var place := Place(c.env.ws, pane, p.pc.branch, path);
    Goto(c, p, if partial then SavingPartial(place) else SavingReceipt(place))
  }

  function AfterStageInputs(c: Core, p: Proc, receipt: Option<Token>): Move {
    var wr := if receipt.Some? then SetReceiptOnce(c.row, InputReceipt, receipt.value, c.now) else Kept;
    Goto(Commit(c, wr), p, if wr.Wrote? || wr.Kept? then StartRenew else Staging)
  }

  function AfterCallStart(c: Core, p: Proc): Move {
    Goto(c.(env := c.env.(startCalls := c.env.startCalls + 1)), p, Started)
  }

  function AfterStartFails(c: Core, p: Proc): Move {
    Goto(c, p, Done)
  }

  function AfterConfirmStart(c: Core, p: Proc, detail: Token): Move {
    var wr := ConfirmStarting(c.row, p.owner, detail, c.now);
    if wr.Wrote? then Reread(Commit(c, wr), p, Fresh) else Goto(c, p, Done)
  }

  function DoExecute(c: Core, p: Proc, x: ExecuteStep): Move
    requires CanExecute(c, p, x)
  {
    match x
    case Admission(ruling, device, reserve) => AfterAdmission(c, p, ruling, device, reserve)
    case RenewClaim => AfterRenewClaim(c, p)
    case FailClaim(intent) => AfterFailClaim(c, p, intent)
    case ProbePasses => AfterProbePasses(c, p)
    case PersistSource(source) => AfterPersistSource(c, p, source)
    case PersistPlan(branch) => AfterPersistPlan(c, p, branch)
    case CallProvision => AfterCallProvision(c, p)
    case ProvisionFails => AfterProvisionFails(c, p)
    case ProvisionReturns(pane, path, partial) => AfterProvisionReturns(c, p, pane, path, partial)
    case PersistPartial(fault) => AfterPersistPartial(c, p, fault)
    case PersistReceipt(marker, fault) => AfterPersistReceipt(c, p, marker, fault)
    case PersistLate(claim, detail) => AfterPersistLate(c, p, claim, detail)
    case StageInputs(receipt) => AfterStageInputs(c, p, receipt)
    case CallStart => AfterCallStart(c, p)
    case StartFails => AfterStartFails(c, p)
    case ConfirmStart(detail) => AfterConfirmStart(c, p, detail)
  }

  // Cancel of an accepted run, reconciliation of an expired claim, explicit recovery

  predicate CanRecover(c: Core, p: Proc, r: RecoverStep) {
    match r
    case FinishUnstarted(intent) =>
      FreshIn(p, Accepted) && intent.result.verdict.Unverified? && intent.result.infra.InfraNotStarted? &&
      ((intent.state.Cancelled? && intent.result.code.UserCancelled?) ||
       (intent.state.Failed? && intent.result.code.SnapshotInvalid?))
    case FindWorkspace(_, t) =>
      FreshIn(p, Provisioning) && LapsedBy(c, p.snap, t) && p.snap.place.ws == 0 && p.snap.place.branch != 0 && c.env.ws != 0
    case InterruptStuck(_, t) => FreshIn(p, Provisioning) && LapsedBy(c, p.snap, t) && p.snap.place.ws == 0
    case LookForBranch(t) =>
      FreshIn(p, Provisioning) && t <= c.now && RecoverableShape(p.snap, t) && p.snap.effect.until <= t &&
      p.snap.place.branch != 0 && !c.env.live &&
      p.snap.about.definition.Snapshot? && p.snap.about.definition.recoverable && p.snap.about.definition.job == p.snap.about.job
    case RetireByHand => p.pc.Retiring?
    case ConfirmByMarker(_, t) => FreshIn(p, Starting) && LapsedBy(c, p.snap, t) && c.env.exit.Some?
  }

  function AfterFinishUnstarted(c: Core, p: Proc, intent: Intent): Move {
    Goto(Commit(c, FinishRun(c.row, Accepted, intent, c.now)), p, Done)
  }

  function AfterFindWorkspace(c: Core, p: Proc, path: Token, t: Time): Move {
    var wr := RecoverWorkspace(c.row, p.snap.place.branch, c.env.ws, path, t);
    if wr.Wrote? then Reread(Commit(c, wr), p, Fresh) else Goto(c, p, Done)
  }

  function AfterInterruptStuck(c: Core, p: Proc, detail: Token, t: Time): Move {
    Goto(Commit(c, InterruptProvisioning(c.row, detail, t)), p, Done)
  }

  function AfterLookForBranch(c: Core, p: Proc, t: Time): Move {
    Goto(c, p, Retiring(t))
  }

  function AfterRetireByHand(c: Core, p: Proc): Move
    requires p.pc.Retiring?
  {
    Goto(Commit(c, InterruptRecovered(c.row, p.snap, p.pc.at)), p, Done)
  }

  function AfterConfirmByMarker(c: Core, p: Proc, detail: Token, t: Time): Move {
    var wr := ConfirmExpiredStart(c.row, detail, t);
    if wr.Wrote? then Reread(Commit(c, wr), p, Fresh) else Goto(c, p, Done)
  }

  function DoRecover(c: Core, p: Proc, r: RecoverStep): Move
    requires CanRecover(c, p, r)
  {
    match r
    case FinishUnstarted(intent) => AfterFinishUnstarted(c, p, intent)
    case FindWorkspace(path, t) => AfterFindWorkspace(c, p, path, t)
    case InterruptStuck(detail, t) => AfterInterruptStuck(c, p, detail, t)
    case LookForBranch(t) => AfterLookForBranch(c, p, t)
    case RetireByHand => AfterRetireByHand(c, p)
    case ConfirmByMarker(detail, t) => AfterConfirmByMarker(c, p, detail, t)
  }

  // closeAndFinish, executeWorkspaceClose and recoverExpiredWorkspaceClose

  predicate CanClose(c: Core, p: Proc, x: CloseStep) {
    match x
    case StartClose(intent, claim, t) =>
      p.pc.Fresh? && t <= c.now && claim != 0 && p.snap.place.ws != 0 && p.snap.effect.kind.NoKind? &&
      CloseReason(p.snap.state, intent)
    case CallClose => p.pc.CallingClose?
    case CloseAcked => p.pc.Closing? && Gone(c, p.snap.place.ws)
    case CloseSeenAbsent => p.pc.Closing? && Gone(c, p.snap.place.ws)
    case CloseUnknown => p.pc.Closing?
    case ObserveGone(t) =>
      p.pc.Fresh? && p.snap.effect.kind.CloseKind? && EffectLapsedBy(c, p.snap, t) && p.snap.place.ws != 0 &&
      Gone(c, p.snap.place.ws)
    case ReclaimClose(claim, t) => p.pc.Reclaiming? && claim != 0 && t <= c.now
    case PersistClose => p.pc.FinishingClose?
  }

  /** The intent a recovering process goes by: the saved one when it decodes to
      a terminal outcome, a plain interruption otherwise. */
  function SavedIntent(snap: Row): Intent {
    if snap.effect.receipt.CloseIntent? && Terminal(snap.effect.receipt.intent.state) then snap.effect.receipt.intent
    else Intent(Interrupted, Result(InfraUncertain, AgentUnknown, Unverified, CloseUnverified, 0))
  }

  function AfterStartClose(c: Core, p: Proc, intent: Intent, claim: Token, t: Time): Move {
    var wr := RowWrites.ClaimClose(c.row, p.snap.state, p.owner, claim, intent, t, t + CloseLease);
    if wr.Wrote? then
      Goto(Commit(c, wr).(env := FirstIntent(c.env, intent)), p, CallingClose(claim, p.snap.state, intent))
    else Goto(c, p, Done)
  }

  function AfterCallClose(c: Core, p: Proc): Move
    requires p.pc.CallingClose?
  {
    Goto(c.(env := c.env.(closeCalls := c.env.closeCalls + 1)), p, Closing(p.pc.claim, p.pc.from, p.pc.intent))
  }

  function AfterCloseAcked(c: Core, p: Proc): Move
    requires p.pc.Closing?
  {
    Goto(c.(env := c.env.(acked := true)), p, FinishingClose(p.pc.claim, p.pc.from, p.pc.intent))
  }

  function AfterCloseSeenAbsent(c: Core, p: Proc): Move
    requires p.pc.Closing?
  {
    Goto(c.(env := c.env.(sawGone := true)), p, FinishingClose(p.pc.claim, p.pc.from, p.pc.intent))
  }

  function AfterCloseUnknown(c: Core, p: Proc): Move {
    Goto(c, p, Done)
  }

  function AfterObserveGone(c: Core, p: Proc, t: Time): Move {
    Goto(c.(env := c.env.(sawGone := true)), p, Reclaiming(SavedIntent(p.snap)))
  }

  function AfterReclaimClose(c: Core, p: Proc, claim: Token, t: Time): Move
    requires p.pc.Reclaiming?
  {
    var wr := Reclaim(c.row, p.snap.state, CloseKind, p.owner, claim, t, t + CloseLease);
    Goto(Commit(c, wr), p, if wr.Wrote? then FinishingClose(claim, p.snap.state, p.pc.intent) else Done)
  }

  function AfterPersistClose(c: Core, p: Proc): Move
    requires p.pc.FinishingClose?
  {
    var wr := FinishEffect(c.row, p.pc.from, p.owner, p.pc.claim, CloseKind, p.pc.intent, c.now);
    Goto(Commit(c, wr).(env := c.env.(closed := c.env.closed || wr.Wrote?)), p, Done)
  }

  function DoClose(c: Core, p: Proc, x: CloseStep): Move
    requires CanClose(c, p, x)
  {
    match x
    case StartClose(intent, claim, t) => AfterStartClose(c, p, intent, claim, t)
    case CallClose => AfterCallClose(c, p)
    case CloseAcked => AfterCloseAcked(c, p)
    case CloseSeenAbsent => AfterCloseSeenAbsent(c, p)
    case CloseUnknown => AfterCloseUnknown(c, p)
    case ObserveGone(t) => AfterObserveGone(c, p, t)
    case ReclaimClose(claim, t) => AfterReclaimClose(c, p, claim, t)
    case PersistClose => AfterPersistClose(c, p)
  }

  // monitorCommand, completeCommand and monitor, up to the verifier claim

  predicate CanMonitor(c: Core, p: Proc, m: MonitorStep) {
    match m
    case FinishFailed(code, _) =>
      FreshIn(p, Running) && ((code.CommandFailed? && c.env.exit.Some? && c.env.exit != Some(0)) || code.SnapshotInvalid?)
    case BeginMonitor => (FreshIn(p, Running) && c.env.exit == Some(0)) || FreshIn(p, Settled)
    case Attest(_) => p.pc.Attesting?
    case Bound(_) => p.pc.Bounding?
    case PersistRefusal(_) => p.pc.Refusing?
    case Settle => p.pc.Settling?
    case FinishWithoutVerifier =>
      p.pc.Claiming? && p.snap.about.definition.Snapshot? && p.snap.about.definition.verifier.NoVerifier?
    case TakeVerifier(claim) =>
      p.pc.Claiming? && claim != 0 && p.snap.about.definition.Snapshot? && !p.snap.about.definition.verifier.NoVerifier?
  }

  function AfterFinishFailed(c: Core, p: Proc, code: Code, detail: Token): Move {
    Goto(Commit(c, FinishRun(c.row, Running, CompletedFailure(Running, code, detail), c.now)), p, Done)
  }

  function AfterBeginMonitor(c: Core, p: Proc): Move {
    Goto(c, p, if p.snap.state.Running? && p.snap.about.definition.Snapshot? && p.snap.about.definition.attested &&
                  p.snap.receipts.attestation == 0
               then Attesting else Bounding)
  }

  function AfterAttest(c: Core, p: Proc, receipt: Option<Token>): Move {
    var wr := if receipt.Some? then SetReceiptOnce(c.row, AttestationReceipt, receipt.value, c.now) else Lost;
    Goto(Commit(c, wr), p, if wr.Wrote? || wr.Kept? then Bounding else Refusing(AttestationFailed))
  }

  function AfterBound(c: Core, p: Proc, seen: Option<Observation>): Move {
    Goto(Commit(c, BoundaryWrite(c.row, p.snap, seen, c.now)), p,
         if BoundaryHolds(c.row, p.snap, seen, c.now) then Settling(Payload(p.snap, seen)) else Refusing(BoundedReviewFailed))
  }

  function AfterPersistRefusal(c: Core, p: Proc, detail: Token): Move
    requires p.pc.Refusing?
  {
    Goto(Commit(c, FinishRun(c.row, p.snap.state, CompletedFailure(p.snap.state, p.pc.code, detail), c.now)), p, Done)
  }

  function AfterSettle(c: Core, p: Proc): Move
    requires p.pc.Settling?
  {
    var wr := if p.snap.state.Settled? then Kept else Transition(c.row, p.snap.state, Settled, 0, c.now);
    Goto(Commit(c, wr), p, if wr.Wrote? || wr.Kept? then Claiming(p.pc.pre) else Done)
  }

  function AfterFinishWithoutVerifier(c: Core, p: Proc): Move {
    Goto(Commit(c, FinishRun(c.row, Settled, SucceededUnverified, c.now)), p, Done)
  }

  function AfterTakeVerifier(c: Core, p: Proc, claim: Token): Move
    requires p.pc.Claiming?
  {
    var wr := RowWrites.ClaimVerifier(c.row, p.owner, claim, c.now, c.now + VerifierLease);
    if wr.Wrote? then
      Goto(Commit(c, wr).(env := c.env.(verifierClaim := Some(claim), pre := p.pc.pre)), p, VerifierReady(claim))
    else Goto(c, p, Done)
  }

  function DoMonitor(c: Core, p: Proc, m: MonitorStep): Move
    requires CanMonitor(c, p, m)
  {
    match m
    case FinishFailed(code, detail) => AfterFinishFailed(c, p, code, detail)
    case BeginMonitor => AfterBeginMonitor(c, p)
    case Attest(receipt) => AfterAttest(c, p, receipt)
    case Bound(seen) => AfterBound(c, p, seen)
    case PersistRefusal(detail) => AfterPersistRefusal(c, p, detail)
    case Settle => AfterSettle(c, p)
    case FinishWithoutVerifier => AfterFinishWithoutVerifier(c, p)
    case TakeVerifier(claim) => AfterTakeVerifier(c, p, claim)
  }

  // The verifier claim's owner, and reconcileExpiredVerifier

  predicate CanVerify(c: Core, p: Proc, v: VerifyStep) {
    match v
    case PrepareFails(_) => p.pc.VerifierReady?
    case RunVerifier => p.pc.VerifierReady?
    case VerifierEnds(_) => p.pc.VerifierRunning?
    case BoundAfter(_, _) => p.pc.VerifierEnded?
    case PersistVerdict => p.pc.FinishingVerifier?
    case ReadResult(read, _, t) =>
      FreshIn(p, Verifying) && EffectLapsedBy(c, p.snap, t) &&
      (read.NoPath? <==> p.snap.effect.receipt.NoReceipt?) &&
      (read.Durable? ==> p.snap.effect.claim in c.env.published && c.env.published[p.snap.effect.claim] == read.exit)
    case BoundDurable(_, _) => p.pc.ReadDurable?
    case PersistExpired(t) => p.pc.FinishingExpired? && t <= c.now
  }

  /** The durable result file a finished verifier command leaves, if any. */
  function PublishedExit(result: VerifierResult): Option<int> {
    match result
    case Published(e) => Some(e)
    case ProtocolError(leaked) => leaked
    case RunError => None
  }

  function Publish(env: Env, claim: Token, exit: Option<int>): Env {
    if exit.Some? then env.(published := env.published[claim := exit.value]) else env
  }

  function AfterPrepareFails(c: Core, p: Proc, detail: Token): Move
    requires p.pc.VerifierReady?
  {
    Goto(c, p, FinishingVerifier(p.pc.claim,
      Intent(Failed, Result(InfraFailed, AgentCompleted, Unverified, VerifierReceiptFailed, detail)), None))
  }

  function AfterRunVerifier(c: Core, p: Proc): Move
    requires p.pc.VerifierReady?
  {
    Goto(c.(env := c.env.(verifierRuns := c.env.verifierRuns + 1)), p, VerifierRunning(p.pc.claim))
  }

  function AfterVerifierEnds(c: Core, p: Proc, result: VerifierResult): Move
    requires p.pc.VerifierRunning?
  {
    Goto(c.(env := Publish(c.env, p.pc.claim, PublishedExit(result))), p, VerifierEnded(p.pc.claim, result))
  }

  function AfterBoundAfter(c: Core, p: Proc, seen: Option<Observation>, detail: Token): Move
    requires p.pc.VerifierEnded?
  {
    Goto(Commit(c, BoundaryWrite(c.row, p.snap, seen, c.now)), p,
         FinishingVerifier(p.pc.claim, OwnerOutcome(p.pc.result, BoundaryHolds(c.row, p.snap, seen, c.now), detail),
                           Payload(p.snap, seen)))
  }

  function AfterPersistVerdict(c: Core, p: Proc): Move
    requires p.pc.FinishingVerifier?
  {
    var wr := FinishEffect(c.row, Verifying, p.owner, p.pc.claim, VerifierKind, p.pc.intent, c.now);
    Goto(Commit(c, wr).(env := if wr.Wrote? then c.env.(post := p.pc.post) else c.env), p, Done)
  }

  function AfterReadResult(c: Core, p: Proc, read: ReceiptRead, detail: Token, t: Time): Move {
    Goto(c, p, if read.Durable? then ReadDurable(read.exit) else FinishingExpired(ReconciledOutcome(read, true, detail), None))
  }

  function AfterBoundDurable(c: Core, p: Proc, seen: Option<Observation>, detail: Token): Move
    requires p.pc.ReadDurable?
  {
    Goto(Commit(c, BoundaryWrite(c.row, p.snap, seen, c.now)), p,
         FinishingExpired(ReconciledOutcome(Durable(p.pc.exit), BoundaryHolds(c.row, p.snap, seen, c.now), detail),
                          Payload(p.snap, seen)))
  }

  function AfterPersistExpired(c: Core, p: Proc, t: Time): Move
    requires p.pc.FinishingExpired?
  {
    var wr := FinishExpiredVerifier(c.row, p.pc.intent, t);
    Goto(Commit(c, wr).(env := if wr.Wrote? then c.env.(post := p.pc.post) else c.env), p, Done)
  }

  function DoVerify(c: Core, p: Proc, v: VerifyStep): Move
    requires CanVerify(c, p, v)
  {
    match v
    case PrepareFails(detail) => AfterPrepareFails(c, p, detail)
    case RunVerifier => AfterRunVerifier(c, p)
    case VerifierEnds(result) => AfterVerifierEnds(c, p, result)
    case BoundAfter(seen, detail) => AfterBoundAfter(c, p, seen, detail)
    case PersistVerdict => AfterPersistVerdict(c, p)
    case ReadResult(read, detail, t) => AfterReadResult(c, p, read, detail, t)
    case BoundDurable(seen, detail) => AfterBoundDurable(c, p, seen, detail)
    case PersistExpired(t) => AfterPersistExpired(c, p, t)
  }

  /** Process i exists. */
  predicate At(w: World, i: nat) {
    i < |w.procs|
  }

  predicate Enabled(w: World, s: Step) {
    match s
    case Ambient(a) => CanAmbient(w.core, a)
    case Read(owner) => owner != 0
    case Execute(i, x) => At(w, i) && CanExecute(w.core, w.procs[i], x)
    case Recover(i, r) => At(w, i) && CanRecover(w.core, w.procs[i], r)
    case Close(i, c) => At(w, i) && CanClose(w.core, w.procs[i], c)
    case Monitor(i, m) => At(w, i) && CanMonitor(w.core, w.procs[i], m)
    case Verify(i, v) => At(w, i) && CanVerify(w.core, w.procs[i], v)
  }

  function Moved(w: World, i: nat, m: Move): World
    requires At(w, i)
  {
    World(m.core, w.procs[i := m.proc])
  }

  /** What the process a step belongs to does. */
  function MoveOf(w: World, s: Step): Move
    requires Enabled(w, s) && !s.Ambient? && !s.Read?
  {
    match s
    case Execute(i, x) => DoExecute(w.core, w.procs[i], x)
    case Recover(i, r) => DoRecover(w.core, w.procs[i], r)
    case Close(i, c) => DoClose(w.core, w.procs[i], c)
    case Monitor(i, m) => DoMonitor(w.core, w.procs[i], m)
    case Verify(i, v) => DoVerify(w.core, w.procs[i], v)
  }

  function Apply(w: World, s: Step): World
    requires Enabled(w, s)
  {
    match s
    case Ambient(a) => w.(core := DoAmbient(w.core, a))
    case Read(owner) => w.(procs := w.procs + [Proc(owner, w.core.row, Fresh)])
    case _ => Moved(w, s.i, MoveOf(w, s))
  }
}
