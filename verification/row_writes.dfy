/** The store's compare-and-set writes on one run row, as functions.

    Every write either is rejected for its arguments, loses its compare-and-set,
    finds its value already there, or replaces the row and appends the events it
    documents. The Store class in store.dfy carries the same writes out in place
    and is proved equal to these. */
module RowWrites {
  import opened Options
  import opened Rows

  datatype Origin = New | Was(state: State)

  datatype Entry = Entry(from: Origin, to: State, at: Time, code: Code, detail: Token)

  datatype Write = Refused | Lost | Kept | Wrote(row: Row, log: seq<Entry>)

  const MaxProvisioningLease: nat := 120_000_000_000
  const MaxEffectLease: nat := 600_000_000_000

  predicate ValidProvisioningLease(owner: Token, now: Time, until: Time) {
    owner != 0 && until > now && until - now <= MaxProvisioningLease
  }

  predicate ValidEffectLease(owner: Token, now: Time, until: Time) {
    owner != 0 && until > now && until - now <= MaxEffectLease
  }

  /** The provisioning claim is held by owner and has not expired. */
  predicate Owns(r: Row, owner: Token, now: Time) {
    r.lease.owner == owner && r.lease.until > now
  }

  /** The provisioning claim is absent or expired. */
  predicate Unowned(r: Row, now: Time) {
    r.lease.owner == 0 || r.lease.until <= now
  }

  predicate NoEffectFields(r: Row) {
    r.effect.owner == 0 && r.effect.claim == 0 && r.effect.kind.NoKind? && r.effect.receipt.NoReceipt?
  }

  predicate HoldsEffect(r: Row, owner: Token, claim: Token, kind: EffectKind, now: Time) {
    r.effect.owner == owner && r.effect.claim == claim && r.effect.kind == kind && r.effect.until > now
  }

  /** State, results and review class of a finished run; claims are cleared by
      each write that clears them. */
  function Retired(r: Row, i: Intent, now: Time): Row {
    var c := Classify(r.about.definition, r.about.bucket, i.state, i.result.verdict);
    r.(state := i.state, result := i.result, review := Review(c.lane, c.reason), unread := c.unread,
       updatedAt := now)
  }

  function Ended(r: Row, i: Intent, now: Time, code: Code): Entry {
    Entry(Was(r.state), i.state, now, code, i.result.detail)
  }

  /** What DecideAdmission concluded about an accepted candidate. */
  datatype Ruling = Admit | Hold | Finish(intent: Intent)

  function Decide(r: Row, owner: Token, ruling: Ruling, device: Token, reserve: real, now: Time, until: Time): Write {
    if !ValidProvisioningLease(owner, now, until) then Refused
    else if !r.state.Accepted? || ruling.Hold? then Lost
    else if ruling.Finish? then
      if !Terminal(ruling.intent.state) then Refused
      else Wrote(Retired(r, ruling.intent, now), [Ended(r, ruling.intent, now, ruling.intent.result.code)])
    else Wrote(r.(state := Provisioning, lease := Lease(owner, until), disk := Disk(device, reserve),
                  updatedAt := now),
               [Entry(Was(Accepted), Provisioning, now, NoCode, 0)])
  }

  function Renew(r: Row, owner: Token, now: Time, until: Time): Write {
    if !ValidProvisioningLease(owner, now, until) then Refused
    else if (r.state.Provisioning? || r.state.Starting?) && Owns(r, owner, now) then
      Wrote(r.(lease := Lease(owner, until), updatedAt := now), [])
    else Lost
  }

  function SavePlan(r: Row, owner: Token, branch: Token, now: Time): Write {
    if owner == 0 || branch == 0 then Refused
    else if r.state.Provisioning? && Owns(r, owner, now) then
      Wrote(r.(place := r.place.(branch := branch), updatedAt := now), [])
    else Lost
  }

  function SaveSource(r: Row, source: Token, now: Time): Write {
    if r.state.Accepted? || r.state.Provisioning? then Wrote(r.(source := source, updatedAt := now), [])
    else Lost
  }

  function SavePartialReceipt(r: Row, owner: Token, ws: Token, pane: Token, branch: Token, now: Time): Write {
    if owner == 0 || ws == 0 || branch == 0 then Refused
    else if r.state.Provisioning? && Owns(r, owner, now) then
      Wrote(r.(place := r.place.(ws := ws, pane := pane, branch := branch), updatedAt := now), [])
    else Lost
  }

  function SaveReceipt(r: Row, owner: Token, place: Place, marker: Token, now: Time): Write {
    if owner == 0 then Refused
    else if r.state.Provisioning? && Owns(r, owner, now) then
      Wrote(r.(state := Starting, place := place, marker := marker, updatedAt := now),
            [Entry(Was(Provisioning), Starting, now, NoCode, 0)])
    else Lost
  }

  function RecoverWorkspace(r: Row, branch: Token, ws: Token, path: Token, now: Time): Write {
    if branch == 0 || ws == 0 then Refused
    else if r.state.Provisioning? && r.place.branch == branch && Unowned(r, now) && r.effect.owner == 0 then
      Wrote(r.(place := r.place.(ws := ws, path := path), updatedAt := now), [])
    else Lost
  }

  function ConfirmStarting(r: Row, owner: Token, detail: Token, now: Time): Write {
    if owner == 0 then Refused
    else if r.state.Starting? && Owns(r, owner, now) && r.effect.owner == 0 then
      Wrote(r.(state := Running, lease := NoLease, updatedAt := now),
            [Entry(Was(Starting), Running, now, NoCode, detail)])
    else Lost
  }

  function ConfirmExpiredStart(r: Row, detail: Token, now: Time): Write {
    if r.state.Starting? && Unowned(r, now) && r.effect.owner == 0 then
      Wrote(r.(state := Running, lease := NoLease, updatedAt := now),
            [Entry(Was(Starting), Running, now, NoCode, detail)])
    else Lost
  }

  /** FinishProvisioningClaim and FinishStartingClaim, told apart by `from`. */
  function FinishClaim(r: Row, from: State, owner: Token, i: Intent, now: Time): Write {
    if owner == 0 || !Terminal(i.state) || !(from.Provisioning? || from.Starting?) then Refused
    else if r.state == from && Owns(r, owner, now) then
      Wrote(Retired(r, i, now).(lease := NoLease),
            [Ended(r, i, now, if from.Starting? then i.result.code else NoCode)])
    else Lost
  }

  function LostProvisioning(detail: Token): Intent {
    Intent(Interrupted, Result(InfraUncertain, AgentNotStarted, Unverified, RestartDuringProvisioning, detail))
  }

  function InterruptProvisioning(r: Row, detail: Token, now: Time): Write {
    if r.state.Provisioning? && r.place.ws == 0 && Unowned(r, now) && r.effect.owner == 0 then
      Wrote(Retired(r, LostProvisioning(detail), now).(lease := NoLease),
            [Ended(r, LostProvisioning(detail), now, NoCode)])
    else Lost
  }

  function InterruptStarting(r: Row, code: Code, detail: Token, now: Time): Write {
    var i := Intent(Interrupted, Result(InfraUncertain, AgentNotStarted, Unverified, code, detail));
    if r.state.Starting? && Unowned(r, now) && r.effect.owner == 0 then
      Wrote(Retired(r, i, now).(lease := NoLease), [Ended(r, i, now, code)])
    else Lost
  }

  function RecoveredByHand(): Intent {
    Intent(Interrupted, Result(InfraUncertain, AgentNotStarted, Unverified, ExplicitRecovery, 0))
  }

  /** The columns the explicit-recovery compare-and-set binds. */
  predicate SameBoundFields(a: Row, b: Row) {
    a.state == b.state && a.place == b.place && a.about.definition == b.about.definition && a.updatedAt == b.updatedAt &&
    a.lease == b.lease && a.effect == b.effect
  }

  predicate RecoverableShape(r: Row, now: Time) {
    r.state.Provisioning? && r.place.ws == 0 && r.place.pane == 0 && r.place.path == 0 && NoEffectFields(r) &&
    r.lease.until <= now
  }

  function InterruptRecovered(r: Row, observed: Row, now: Time): Write {
    if !RecoverableShape(observed, now) || observed.effect.until > now then Refused
    else if SameBoundFields(r, observed) && RecoverableShape(r, now) then
      Wrote(Retired(r, RecoveredByHand(), now).(lease := NoLease),
            [Ended(r, RecoveredByHand(), now, ExplicitRecovery)])
    else Lost
  }

  function Transition(r: Row, from: State, to: State, detail: Token, now: Time): Write {
    if Terminal(from) || Terminal(to) then Refused
    else if r.state == from && r.effect.owner == 0 then
      Wrote(r.(state := to, updatedAt := now), [Entry(Was(from), to, now, NoCode, detail)])
    else Lost
  }

  function FinishRun(r: Row, from: State, i: Intent, now: Time): Write {
    if !Terminal(i.state) || Terminal(from) then Refused
    else if r.state == from && r.effect.owner == 0 then
      Wrote(Retired(r, i, now).(lease := NoLease, effect := NoEffect), [Ended(r, i, now, NoCode)])
    else Lost
  }

  function ClaimClose(r: Row, from: State, owner: Token, claim: Token, intent: Intent, now: Time, until: Time): Write {
    if Terminal(from) || !ValidEffectLease(owner, now, until) then Refused
    else if r.state == from && NoEffectFields(r) && Unowned(r, now) then
      Wrote(r.(effect := Effect(owner, claim, CloseKind, until, CloseIntent(intent)), updatedAt := now), [])
    else Lost
  }

  predicate LateEligible(r: Row, owner: Token, now: Time) {
    Terminal(r.state) || (r.state.Provisioning? && (r.lease.owner == owner || r.lease.until <= now))
  }

  /** The intent a late cleanup saves: a terminal row keeps its own outcome. */
  function LateIntent(r: Row, intent: Intent): Intent {
    if Terminal(r.state) then OutcomeOf(r) else intent
  }

  function ClaimLate(r: Row, owner: Token, claim: Token, place: Place, intent: Intent, now: Time, until: Time): Write {
    if place.ws == 0 || place.branch == 0 || !ValidEffectLease(owner, now, until) then Refused
    else if r.place.ws != 0 || !r.effect.kind.NoKind? || !LateEligible(r, owner, now) || !NoEffectFields(r) then Lost
    else Wrote(r.(place := place, unread := true, updatedAt := now,
                  effect := Effect(owner, claim, CloseKind, until, CloseIntent(LateIntent(r, intent)))),
               [Entry(Was(r.state), r.state, now, LateCleanupClaimed, 0)])
  }

  function Reclaim(r: Row, from: State, kind: EffectKind, owner: Token, claim: Token, now: Time, until: Time): Write {
    if !kind.CloseKind? || !ValidEffectLease(owner, now, until) then Refused
    else if r.state == from && r.effect.owner != 0 && r.effect.kind.CloseKind? && r.effect.until <= now && Unowned(r, now) then
      Wrote(r.(effect := r.effect.(owner := owner, claim := claim, until := until), updatedAt := now), [])
    else Lost
  }

  function ClaimVerifier(r: Row, owner: Token, claim: Token, now: Time, until: Time): Write {
    if !ValidEffectLease(owner, now, until) then Refused
    else if r.state.Settled? && NoEffectFields(r) then
      Wrote(r.(state := Verifying, effect := Effect(owner, claim, VerifierKind, until, ResultPath(claim)),
               updatedAt := now),
            [Entry(Was(Settled), Verifying, now, NoCode, 0)])
    else Lost
  }

  function FinishEffect(r: Row, from: State, owner: Token, claim: Token, kind: EffectKind, i: Intent, now: Time): Write {
    if claim == 0 || !Terminal(i.state) then Refused
    else if Terminal(from) && (!kind.CloseKind? || i.state != from) then Refused
    else if r.state != from || !HoldsEffect(r, owner, claim, kind, now) then Lost
    else if Terminal(from) then
      Wrote(r.(lease := NoLease, effect := NoEffect, updatedAt := now), [Ended(r, i, now, i.result.code)])
    else Wrote(Retired(r, i, now).(lease := NoLease, effect := NoEffect), [Ended(r, i, now, i.result.code)])
  }

  function FinishExpiredVerifier(r: Row, i: Intent, now: Time): Write {
    if !Terminal(i.state) then Refused
    else if r.state.Verifying? &&
            ((r.effect.kind.VerifierKind? && r.effect.until <= now) || (r.effect.owner == 0 && r.effect.kind.NoKind?)) then
      var done := Retired(r, i, now).(effect := NoEffect);
      Wrote(if r.effect.kind.VerifierKind? then done
            else done.(review := Review(MandatoryLane, ReasonLegacyVerifier), unread := true),
            [Ended(r, i, now, i.result.code)])
    else Lost
  }

  datatype ReceiptKind = AttestationReceipt | InputReceipt | ChangeReceipt

  function ReceiptOf(r: Row, kind: ReceiptKind): Token {
    match kind
    case AttestationReceipt => r.receipts.attestation
    case InputReceipt => r.receipts.input
    case ChangeReceipt => r.receipts.change
  }

  /** SetModelAttestation, SetInputReceipt and SetChangeReceipt. */
  function SetReceiptOnce(r: Row, kind: ReceiptKind, receipt: Token, now: Time): Write {
    if receipt == 0 then Refused
    else if Terminal(r.state) then Lost
    else if ReceiptOf(r, kind) == receipt then Kept
    else if ReceiptOf(r, kind) != 0 then Lost
    else
      var receipts := match kind
        case AttestationReceipt => r.receipts.(attestation := receipt)
        case InputReceipt => r.receipts.(input := receipt)
        case ChangeReceipt => r.receipts.(change := receipt);
      Wrote(r.(receipts := receipts, updatedAt := now), [])
  }

  function RecordEvent(r: Row, last: Option<Entry>, code: Code, detail: Token, now: Time): Write {
    if code.NoCode? then Refused
    else if last.Some? && last.value.code == code && last.value.detail == detail then Kept
    else Wrote(r.(unread := true, updatedAt := now), [Entry(Was(r.state), r.state, now, code, detail)])
  }

  function MarkRead(r: Row): Write {
    Wrote(r.(unread := false), [])
  }

  datatype Request =
    | DoDecide(owner: Token, ruling: Ruling, device: Token, reserve: real, until: Time)
    | DoRenew(owner: Token, until: Time)
    | DoSavePlan(owner: Token, branch: Token)
    | DoSaveSource(source: Token)
    | DoSavePartialReceipt(owner: Token, ws: Token, pane: Token, branch: Token)
    | DoSaveReceipt(owner: Token, place: Place, marker: Token)
    | DoRecoverWorkspace(branch: Token, ws: Token, path: Token)
    | DoConfirmStarting(owner: Token, detail: Token)
    | DoConfirmExpiredStart(detail: Token)
    | DoFinishClaim(from: State, owner: Token, intent: Intent)
    | DoInterruptProvisioning(detail: Token)
    | DoInterruptStarting(code: Code, detail: Token)
    | DoInterruptRecovered(observed: Row)
    | DoTransition(from: State, to: State, detail: Token)
    | DoFinishRun(from: State, intent: Intent)
    | DoClaimClose(from: State, owner: Token, claim: Token, intent: Intent, until: Time)
    | DoClaimLate(owner: Token, claim: Token, place: Place, intent: Intent, until: Time)
    | DoReclaim(from: State, kind: EffectKind, owner: Token, claim: Token, until: Time)
    | DoClaimVerifier(owner: Token, claim: Token, until: Time)
    | DoFinishEffect(from: State, owner: Token, claim: Token, kind: EffectKind, intent: Intent)
    | DoFinishExpiredVerifier(intent: Intent)
    | DoSetReceiptOnce(slot: ReceiptKind, receipt: Token)
    | DoRecordEvent(code: Code, detail: Token)
    | DoMarkRead

  /** Any write to an existing row, at clock reading `now`, given its last event. */
  function Serve(r: Row, last: Option<Entry>, q: Request, now: Time): Write {
    match q
    case DoDecide(owner, ruling, device, reserve, until) => Decide(r, owner, ruling, device, reserve, now, until)
    case DoRenew(owner, until) => Renew(r, owner, now, until)
    case DoSavePlan(owner, branch) => SavePlan(r, owner, branch, now)
    case DoSaveSource(source) => SaveSource(r, source, now)
    case DoSavePartialReceipt(owner, ws, pane, branch) => SavePartialReceipt(r, owner, ws, pane, branch, now)
    case DoSaveReceipt(owner, place, marker) => SaveReceipt(r, owner, place, marker, now)
    case DoRecoverWorkspace(branch, ws, path) => RecoverWorkspace(r, branch, ws, path, now)
    case DoConfirmStarting(owner, detail) => ConfirmStarting(r, owner, detail, now)
    case DoConfirmExpiredStart(detail) => ConfirmExpiredStart(r, detail, now)
    case DoFinishClaim(from, owner, intent) => FinishClaim(r, from, owner, intent, now)
    case DoInterruptProvisioning(detail) => InterruptProvisioning(r, detail, now)
    case DoInterruptStarting(code, detail) => InterruptStarting(r, code, detail, now)
    case DoInterruptRecovered(observed) => InterruptRecovered(r, observed, now)
    case DoTransition(from, to, detail) => Transition(r, from, to, detail, now)
    case DoFinishRun(from, intent) => FinishRun(r, from, intent, now)
    case DoClaimClose(from, owner, claim, intent, until) => ClaimClose(r, from, owner, claim, intent, now, until)
    case DoClaimLate(owner, claim, place, intent, until) => ClaimLate(r, owner, claim, place, intent, now, until)
    case DoReclaim(from, kind, owner, claim, until) => Reclaim(r, from, kind, owner, claim, now, until)
    case DoClaimVerifier(owner, claim, until) => ClaimVerifier(r, owner, claim, now, until)
    case DoFinishEffect(from, owner, claim, kind, intent) => FinishEffect(r, from, owner, claim, kind, intent, now)
    case DoFinishExpiredVerifier(intent) => FinishExpiredVerifier(r, intent, now)
    case DoSetReceiptOnce(kind, receipt) => SetReceiptOnce(r, kind, receipt, now)
    case DoRecordEvent(code, detail) => RecordEvent(r, last, code, detail, now)
    case DoMarkRead => MarkRead(r)
  }

  /** Writing a row whose log entries continue its history. */
  predicate Documents(r: Row, wr: Write) {
    wr.Wrote? ==>
      (wr.log == [] && wr.row.state == r.state) ||
      (|wr.log| == 1 && wr.log[0].from == Was(r.state) && wr.log[0].to == wr.row.state)
  }

  datatype Answer = BadRequest | Conflict | Unchanged | Applied

  /** What the caller of a write is told. */
  function AnswerOf(wr: Write): Answer {
    match wr
    case Refused => BadRequest
    case Lost => Conflict
    case Kept => Unchanged
    case Wrote(_, _) => Applied
  }
}
