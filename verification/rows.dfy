/** One row of the runs table, and what it means for a run to be over.

    Text columns are opaque tokens: the protocol only ever compares them, and
    compares them with the empty string, which is token 0. Times are nanoseconds
    and the zero time is 0. A job snapshot is the value its JSON decodes to. */
module Rows {

  type Token = nat
  type Time = nat

  datatype State =
    | Accepted | Provisioning | Starting | Running | Settled | Verifying
    | Succeeded | Failed | Blocked | TimedOut | Cancelled | Interrupted

  predicate Terminal(s: State) {
    s.Succeeded? || s.Failed? || s.Blocked? || s.TimedOut? || s.Cancelled? || s.Interrupted?
  }

  /** The states the admission allocator counts. */
  predicate Active(s: State) {
    s.Provisioning? || s.Starting? || s.Running? || s.Settled? || s.Verifying?
  }

  /** How far along a state is; no engine step ever takes a run back. */
  function Rank(s: State): nat {
    match s
    case Accepted => 0
    case Provisioning => 1
    case Starting => 2
    case Running => 3
    case Settled => 4
    case Verifying => 5
    case _ => 6
  }

  datatype Infra = InfraNone | InfraNotStarted | InfraFailed | InfraCompleted | InfraUncertain

  datatype Agent =
    | AgentNone | AgentNotStarted | AgentStartFailed | AgentFailed
    | AgentCompleted | AgentCancelled | AgentTimedOut | AgentUnknown

  datatype Verdict = Unverified | Passed | Rejected

  datatype Code =
    | NoCode
    | JobDisabled | JobPaused | GloballyPaused | SnapshotInvalid | OverlapHold | CapacityHold
    | DiskHold | AdmissionHold | CapacityProbeFailed
    | UserCancelled | RouteUnavailable | RouteInvalid | SourceContextFailed | InputStagingFailed | PromptFileFailed
    | ProvisionUncertain | StartUncertain | ReceiptNotPersisted | LateCleanupClaimed
    | RestartDuringProvisioning | RestartDuringStart | ReconcileFailed | WorktreeUnowned
    | ExplicitRecovery | CloseFailed | CloseUnverified | BackgroundStoreError
    | CommandTimeout | CommandFailed | AttestationFailed | BoundedReviewFailed
    | VerifierFailed | VerifierReceiptFailed | RestartDuringVerifier
    | MissingVerifierReceipt | InvalidVerifierReceipt

  datatype Result = Result(infra: Infra, agent: Agent, verdict: Verdict, code: Code, detail: Token)

  const NoResult := Result(InfraNone, AgentNone, Unverified, NoCode, 0)

  /** The outcome tuple a finishing call asks for, and a close claim saves. */
  datatype Intent = Intent(state: State, result: Result)

  datatype Overlap = Forbid | QueueOne | Allow

  datatype Acceptance =
    | NoAcceptance | MandatoryMode | AutoMode(percent: int) | SampleMode(percent: int) | UnknownMode

  datatype Verifier = NoVerifier | BlankCommand | Command

  datatype Definition =
    | Corrupt(text: Token)
    | Snapshot(job: Token, overlap: Overlap, reserve: real, verifier: Verifier, scoped: bool,
               inputs: bool, attested: bool, acceptance: Acceptance, recoverable: bool)

  datatype Lane = NoLane | MandatoryLane | AutoLane | SampleLane

  datatype Reason =
    | NoReason | ReasonVerifierFailed | ReasonState(state: State) | ReasonNonterminal | ReasonUnverified
    | ReasonSnapshotInvalid | ReasonAcceptanceInvalid | ReasonVerifierMissing | ReasonVerifierPassed
    | ReasonSampled | ReasonUnsampled | ReasonAcceptanceMissing | ReasonModeMandatory
    | ReasonAcceptanceUnknown | ReasonLegacyVerifier

  datatype Review = Review(lane: Lane, reason: Reason)

  datatype Trigger = Cron | Once | CatchUp | Event | Manual | Canary

  datatype Place = Place(ws: Token, pane: Token, branch: Token, path: Token)

  datatype Lease = Lease(owner: Token, until: Time)

  const NoLease := Lease(0, 0)

  datatype EffectKind = NoKind | VerifierKind | CloseKind

  /** The effect_receipt column: empty, the JSON of a close intent, or the
      result path derived from a verifier claim. */
  datatype EffectReceipt = NoReceipt | CloseIntent(intent: Intent) | ResultPath(claim: Token)

  datatype Effect = Effect(owner: Token, claim: Token, kind: EffectKind, until: Time, receipt: EffectReceipt)

  const NoEffect := Effect(0, 0, NoKind, 0, NoReceipt)

  datatype Receipts = Receipts(attestation: Token, input: Token, change: Token)

  /** What a run is, as opposed to how far it has got. The bucket is its id's
      sampling bucket, a function of the id that is not computed here. */
  datatype About = About(
    job: Token, revision: Token, definition: Definition, trigger: Trigger, acceptedAt: Time, bucket: nat)

  /** The probed device and disk reserve a durable admission claim carries. */
  datatype Disk = Disk(device: Token, reserve: real)

  datatype Row = Row(
    about: About,
    state: State, result: Result, review: Review, unread: bool,
    place: Place, lease: Lease, effect: Effect, disk: Disk,
    source: Token, marker: Token, receipts: Receipts, updatedAt: Time)

  predicate SameOutcome(a: Row, b: Row) {
    a.state == b.state && a.result == b.result && a.review == b.review
  }

  /** A column that is written at most once. */
  predicate OnceSet(a: Token, b: Token) {
    a != 0 ==> b == a
  }

  predicate ReceiptsEvolve(a: Row, b: Row) {
    OnceSet(a.receipts.attestation, b.receipts.attestation) && OnceSet(a.receipts.input, b.receipts.input) &&
    OnceSet(a.receipts.change, b.receipts.change) && (Terminal(a.state) ==> b.receipts == a.receipts)
  }

  function OutcomeOf(r: Row): Intent {
    Intent(r.state, r.result)
  }

  function NewRow(about: About, source: Token): Row {
    Row(about, Accepted, NoResult, Review(NoLane, NoReason), true,
        Place(0, 0, 0, 0), NoLease, NoEffect, Disk(0, 0.0), source, 0, Receipts(0, 0, 0), about.acceptedAt)
  }

  datatype Classified = Classified(lane: Lane, reason: Reason, unread: bool)

  /** acceptanceSampled, over the run id's SHA-256 bucket. */
  predicate Sampled(bucket: nat, percent: int) {
    percent > 0 && (percent >= 100 || bucket < percent)
  }

  function ClassifyVerified(d: Definition, bucket: nat): Classified {
    match d
    case Corrupt(_) => Classified(MandatoryLane, ReasonSnapshotInvalid, true)
    case Snapshot(_, _, _, verifier, _, _, _, acceptance, _) =>
      match acceptance
      case AutoMode(percent) =>
        if percent != 0 then Classified(MandatoryLane, ReasonAcceptanceInvalid, true)
        else if !verifier.Command? then Classified(MandatoryLane, ReasonVerifierMissing, true)
        else Classified(AutoLane, ReasonVerifierPassed, false)
      case SampleMode(percent) =>
        if percent < 1 || percent > 100 then Classified(MandatoryLane, ReasonAcceptanceInvalid, true)
        else if !verifier.Command? then Classified(MandatoryLane, ReasonVerifierMissing, true)
        else if Sampled(bucket, percent) then Classified(SampleLane, ReasonSampled, true)
        else Classified(AutoLane, ReasonUnsampled, false)
      case NoAcceptance => Classified(MandatoryLane, ReasonAcceptanceMissing, true)
      case MandatoryMode => Classified(MandatoryLane, ReasonModeMandatory, true)
      case UnknownMode => Classified(MandatoryLane, ReasonAcceptanceUnknown, true)
  }

  /** A run is filed as already read only when it succeeded with a passed verdict. */
  function Classify(d: Definition, bucket: nat, state: State, verdict: Verdict): (c: Classified)
    ensures !c.unread ==> state.Succeeded? && verdict.Passed? && c.lane.AutoLane?
    ensures c.lane.AutoLane? || c.lane.SampleLane? ==> d.Snapshot? && d.verifier.Command? && verdict.Passed?
  {
    if verdict.Rejected? then Classified(MandatoryLane, ReasonVerifierFailed, true)
    else if !state.Succeeded? then
      Classified(MandatoryLane, if Terminal(state) then ReasonState(state) else ReasonNonterminal, true)
    else if !verdict.Passed? then Classified(MandatoryLane, ReasonUnverified, true)
    else ClassifyVerified(d, bucket)
  }
}
