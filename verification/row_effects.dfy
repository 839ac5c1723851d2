/** Every write on a run row as its statement in SQL: when its arguments are accepted,
    which row it finds, which columns it sets, and which event it adds. */
module RowEffects {
  import opened Options
  import opened Rows
  import opened RowWrites

  predicate Held(r: Row, owner: Token, now: Time) {
    r.lease.owner == owner && now < r.lease.until
  }

  predicate Lapsed(r: Row, now: Time) {
    r.lease.owner == 0 || r.lease.until <= now
  }

  predicate NoEffectAtAll(r: Row) {
    r.effect.owner == 0 && r.effect.claim == 0 && r.effect.kind == NoKind && r.effect.receipt == NoReceipt
  }

  predicate LeaseInReason(owner: Token, now: Time, until: Time, seconds: nat) {
    owner != 0 && now < until <= now + seconds * 1_000_000_000
  }

  /** A row that provisioning by hand may be abandoned on. */
  predicate Abandonable(r: Row, now: Time) {
    r.state == Provisioning && r.place.ws == 0 && r.place.pane == 0 && r.place.path == 0 && NoEffectAtAll(r) &&
    r.lease.until <= now
  }

  // --- Arguments --------------------------------------------------------

  predicate Accepted(q: Request, now: Time) {
    match q
    case DoDecide(owner, _, _, _, until) => LeaseInReason(owner, now, until, 120)
    case DoRenew(owner, until) => LeaseInReason(owner, now, until, 120)
    case DoSavePlan(owner, branch) => owner != 0 && branch != 0
    case DoSavePartialReceipt(owner, ws, _, branch) => owner != 0 && ws != 0 && branch != 0
    case DoSaveReceipt(owner, _, _) => owner != 0
    case DoRecoverWorkspace(branch, ws, _) => branch != 0 && ws != 0
    case DoConfirmStarting(owner, _) => owner != 0
    case DoFinishClaim(from, owner, intent) => owner != 0 && Terminal(intent.state) && (from == Provisioning || from == Starting)
    case DoInterruptRecovered(observed) => Abandonable(observed, now) && observed.effect.until <= now
    case DoTransition(from, to, _) => !Terminal(from) && !Terminal(to)
    case DoFinishRun(from, intent) => !Terminal(from) && Terminal(intent.state)
    case DoClaimClose(from, owner, _, _, until) => !Terminal(from) && LeaseInReason(owner, now, until, 600)
    case DoClaimLate(owner, _, place, _, until) => place.ws != 0 && place.branch != 0 && LeaseInReason(owner, now, until, 600)
    case DoReclaim(_, kind, owner, _, until) => kind == CloseKind && LeaseInReason(owner, now, until, 600)
    case DoClaimVerifier(owner, _, until) => LeaseInReason(owner, now, until, 600)
    case DoFinishEffect(from, _, claim, kind, intent) =>
      claim != 0 && Terminal(intent.state) && (Terminal(from) ==> kind == CloseKind && intent.state == from)
    case DoFinishExpiredVerifier(intent) => Terminal(intent.state)
    case DoSetReceiptOnce(_, receipt) => receipt != 0
    case DoRecordEvent(code, _) => code != NoCode
    case _ => true
  }

  // --- Rows -------------------------------------------------------------

  function Receipt(r: Row, slot: ReceiptKind): Token {
    match slot
    case AttestationReceipt => r.receipts.attestation
    case InputReceipt => r.receipts.input
    case ChangeReceipt => r.receipts.change
  }

  /** The value is there already, and nothing is written. */
  predicate AlreadyThere(r: Row, last: Option<Entry>, q: Request) {
    match q
    case DoSetReceiptOnce(slot, receipt) => !Terminal(r.state) && Receipt(r, slot) == receipt
    case DoRecordEvent(code, detail) => last.Some? && last.value.code == code && last.value.detail == detail
    case _ => false
  }

  /** The row the write looks for. */
  predicate Finds(r: Row, q: Request, now: Time) {
    match q
    case DoDecide(_, ruling, _, _, _) => r.state == State.Accepted && ruling != Hold
    case DoRenew(owner, _) => (r.state == Provisioning || r.state == Starting) && Held(r, owner, now)
    case DoSavePlan(owner, _) => r.state == Provisioning && Held(r, owner, now)
    case DoSaveSource(_) => r.state == State.Accepted || r.state == Provisioning
    case DoSavePartialReceipt(owner, _, _, _) => r.state == Provisioning && Held(r, owner, now)
    case DoSaveReceipt(owner, _, _) => r.state == Provisioning && Held(r, owner, now)
    case DoRecoverWorkspace(branch, _, _) =>
      r.state == Provisioning && r.place.branch == branch && Lapsed(r, now) && r.effect.owner == 0
    case DoConfirmStarting(owner, _) => r.state == Starting && Held(r, owner, now) && r.effect.owner == 0
    case DoConfirmExpiredStart(_) => r.state == Starting && Lapsed(r, now) && r.effect.owner == 0
    case DoFinishClaim(from, owner, _) => r.state == from && Held(r, owner, now)
    case DoInterruptProvisioning(_) => r.state == Provisioning && r.place.ws == 0 && Lapsed(r, now) && r.effect.owner == 0
    case DoInterruptStarting(_, _) => r.state == Starting && Lapsed(r, now) && r.effect.owner == 0
    case DoInterruptRecovered(o) =>
      Abandonable(r, now) && r.state == o.state && r.place == o.place && r.about.definition == o.about.definition &&
      r.updatedAt == o.updatedAt && r.lease == o.lease && r.effect == o.effect
    case DoTransition(from, _, _) => r.state == from && r.effect.owner == 0
    case DoFinishRun(from, _) => r.state == from && r.effect.owner == 0
    case DoClaimClose(from, _, _, _, _) => r.state == from && NoEffectAtAll(r) && Lapsed(r, now)
    case DoClaimLate(owner, _, _, _, _) =>
      r.place.ws == 0 && NoEffectAtAll(r) &&
      (Terminal(r.state) || (r.state == Provisioning && (r.lease.owner == owner || r.lease.until <= now)))
    case DoReclaim(from, _, _, _, _) =>
      r.state == from && r.effect.owner != 0 && r.effect.kind == CloseKind && r.effect.until <= now && Lapsed(r, now)
    case DoClaimVerifier(_, _, _) => r.state == Settled && NoEffectAtAll(r)
    case DoFinishEffect(from, owner, claim, kind, _) =>
      r.state == from && r.effect.owner == owner && r.effect.claim == claim && r.effect.kind == kind && now < r.effect.until
    case DoFinishExpiredVerifier(_) =>
      r.state == Verifying &&
      ((r.effect.kind == VerifierKind && r.effect.until <= now) || (r.effect.kind == NoKind && r.effect.owner == 0))
    case DoSetReceiptOnce(slot, _) => !Terminal(r.state) && Receipt(r, slot) == 0
    case DoRecordEvent(_, _) => true
    case DoMarkRead => true
  }

  predicate Exactly(r: Row, last: Option<Entry>, q: Request, now: Time) {
    var w := Serve(r, last, q, now);
    (w == Refused <==> !Accepted(q, now)) &&
    (w == Kept <==> Accepted(q, now) && AlreadyThere(r, last, q)) &&
    (w.Wrote? <==> Accepted(q, now) && !AlreadyThere(r, last, q) && Finds(r, q, now))
  }

  /** The requests that finish a run or its effect. */
  predicate Ending(q: Request) {
    q.DoFinishClaim? || q.DoInterruptProvisioning? || q.DoInterruptStarting? || q.DoInterruptRecovered? || q.DoFinishRun? ||
    q.DoFinishEffect? || q.DoFinishExpiredVerifier?
  }

  lemma EndingLandsExactly(r: Row, last: Option<Entry>, q: Request, now: Time)
    requires Ending(q)
    ensures Exactly(r, last, q, now)
  {
  }

  /** The requests that claim, release or move an effect. */
  predicate Claiming(q: Request) {
    q.DoClaimClose? || q.DoClaimLate? || q.DoReclaim? || q.DoClaimVerifier? || q.DoSetReceiptOnce? || q.DoRecordEvent?
  }

  lemma ClaimingLandsExactly(r: Row, last: Option<Entry>, q: Request, now: Time)
    requires Claiming(q)
    ensures Exactly(r, last, q, now)
  {
  }

  /** A write lands exactly when its arguments are accepted, its value is not there
      yet, and it finds its row; otherwise it says which of these failed. A decision
      to finish a run names a state that is an end. */
  lemma LandsExactly(r: Row, last: Option<Entry>, q: Request, now: Time)
    requires q.DoDecide? && q.ruling.Finish? ==> Terminal(q.ruling.intent.state)
    ensures var w := Serve(r, last, q, now);
      (w == Refused <==> !Accepted(q, now)) &&
      (w == Kept <==> Accepted(q, now) && AlreadyThere(r, last, q)) &&
      (w.Wrote? <==> Accepted(q, now) && !AlreadyThere(r, last, q) && Finds(r, q, now))
  {
    if Ending(q) { EndingLandsExactly(r, last, q, now); } else if Claiming(q) { ClaimingLandsExactly(r, last, q, now); }
  }

  // --- Columns ----------------------------------------------------------

  /** Nothing but these groups of columns differs. */
  predicate Only(a: Row, b: Row, place: bool, lease: bool, effect: bool, outcome: bool) {
    b.about == a.about && b.source == a.source && b.marker == a.marker && b.disk == a.disk &&
    (place || b.place == a.place) && (lease || b.lease == a.lease) && (effect || b.effect == a.effect) &&
    (outcome || (b.state == a.state && b.result == a.result && b.review == a.review))
  }

  predicate Finished(a: Row, b: Row, i: Intent) {
    b.state == i.state && b.result == i.result
  }

  /** The columns a claim, a receipt or a plan sets. */
  predicate SetsClaims(a: Row, b: Row, q: Request, now: Time) {
    match q
    case DoRenew(owner, until) => b == a.(lease := Lease(owner, until), updatedAt := now)
    case DoSavePlan(_, branch) => b == a.(place := a.place.(branch := branch), updatedAt := now)
    case DoSaveSource(source) => b == a.(source := source, updatedAt := now)
    case DoSavePartialReceipt(_, ws, pane, branch) => b == a.(place := Place(ws, pane, branch, a.place.path), updatedAt := now)
    case DoSaveReceipt(_, place, marker) => b == a.(state := Starting, place := place, marker := marker, updatedAt := now)
    case DoRecoverWorkspace(_, ws, path) => b == a.(place := Place(ws, a.place.pane, a.place.branch, path), updatedAt := now)
    case DoConfirmStarting(_, _) => b == a.(state := Running, lease := Lease(0, 0), updatedAt := now)
    case DoConfirmExpiredStart(_) => b == a.(state := Running, lease := Lease(0, 0), updatedAt := now)
    case DoTransition(_, to, _) => b == a.(state := to, updatedAt := now)
    case DoClaimClose(_, owner, claim, intent, until) =>
      b == a.(effect := Effect(owner, claim, CloseKind, until, CloseIntent(intent)), updatedAt := now)
    case DoClaimLate(owner, claim, place, intent, until) =>
      var saved := if Terminal(a.state) then Intent(a.state, a.result) else intent;
      b == a.(place := place, unread := true, updatedAt := now,
        effect := Effect(owner, claim, CloseKind, until, CloseIntent(saved)))
    case DoReclaim(_, _, owner, claim, until) =>
      b == a.(effect := Effect(owner, claim, CloseKind, until, a.effect.receipt), updatedAt := now)
    case DoClaimVerifier(owner, claim, until) =>
      b == a.(state := Verifying, effect := Effect(owner, claim, VerifierKind, until, ResultPath(claim)), updatedAt := now)
    case DoSetReceiptOnce(slot, receipt) =>
      Only(a, b, false, false, false, false) && Receipt(b, slot) == receipt &&
      forall s :: s != slot ==> Receipt(b, s) == Receipt(a, s)
    case DoRecordEvent(_, _) => b == a.(unread := true, updatedAt := now)
    case DoMarkRead => b == a.(unread := false)
    case _ => true
  }

  /** What a finishing write sets besides the review: the outcome asked for, and the
      claims it clears. A late close leaves a finished run's outcome alone. */
  predicate SetsOutcome(a: Row, b: Row, q: Request, now: Time) {
    match q
    case DoDecide(owner, ruling, device, reserve, until) =>
      if ruling.Finish? then Only(a, b, false, false, false, true) && Finished(a, b, ruling.intent)
      else b == a.(state := Provisioning, lease := Lease(owner, until), disk := Disk(device, reserve), updatedAt := now)
    case DoFinishClaim(_, _, intent) =>
      Only(a, b, false, true, false, true) && Finished(a, b, intent) && b.lease == Lease(0, 0)
    case DoInterruptProvisioning(detail) =>
      Only(a, b, false, true, false, true) && b.lease == Lease(0, 0) &&
      Finished(a, b, Intent(Interrupted, Result(InfraUncertain, AgentNotStarted, Unverified, RestartDuringProvisioning, detail)))
    case DoInterruptStarting(code, detail) =>
      Only(a, b, false, true, false, true) && b.lease == Lease(0, 0) &&
      Finished(a, b, Intent(Interrupted, Result(InfraUncertain, AgentNotStarted, Unverified, code, detail)))
    case DoInterruptRecovered(_) =>
      Only(a, b, false, true, false, true) && b.lease == Lease(0, 0) &&
      Finished(a, b, Intent(Interrupted, Result(InfraUncertain, AgentNotStarted, Unverified, ExplicitRecovery, 0)))
    case DoFinishRun(_, intent) =>
      Only(a, b, false, true, true, true) && b.lease == Lease(0, 0) && NoEffectAtAll(b) && Finished(a, b, intent)
    case DoFinishEffect(from, _, _, _, intent) =>
      b.lease == Lease(0, 0) && NoEffectAtAll(b) &&
      if Terminal(from) then Only(a, b, false, true, true, false) && b.unread == a.unread
      else Only(a, b, false, true, true, true) && Finished(a, b, intent)
    case DoFinishExpiredVerifier(intent) => Only(a, b, false, false, true, true) && NoEffectAtAll(b) && Finished(a, b, intent)
    case _ => true
  }

  lemma SetsExactly(r: Row, last: Option<Entry>, q: Request, now: Time)
    requires Serve(r, last, q, now).Wrote?
    ensures var b := Serve(r, last, q, now).row; SetsClaims(r, b, q, now) && SetsOutcome(r, b, q, now)
    ensures q.DoSetReceiptOnce? || Serve(r, last, q, now).row.receipts == r.receipts
    ensures Serve(r, last, q, now).row.updatedAt == if q.DoMarkRead? then r.updatedAt else now
  {
  }

  // --- Events -----------------------------------------------------------

  /** The code of the one event a write adds; some add none. */
  predicate Adds(a: Row, log: seq<Entry>, q: Request, now: Time) {
    match q
    case DoRenew(_, _) => log == []
    case DoSavePlan(_, _) => log == []
    case DoSaveSource(_) => log == []
    case DoSavePartialReceipt(_, _, _, _) => log == []
    case DoRecoverWorkspace(_, _, _) => log == []
    case DoClaimClose(_, _, _, _, _) => log == []
    case DoReclaim(_, _, _, _, _) => log == []
    case DoSetReceiptOnce(_, _) => log == []
    case DoMarkRead => log == []
    case DoRecordEvent(code, detail) => log == [Entry(Was(a.state), a.state, now, code, detail)]
    case DoClaimLate(_, _, _, _, _) => log == [Entry(Was(a.state), a.state, now, LateCleanupClaimed, 0)]
    case DoFinishEffect(_, _, _, _, intent) =>
      log == [Entry(Was(a.state), intent.state, now, intent.result.code, intent.result.detail)]
    case DoFinishExpiredVerifier(intent) =>
      log == [Entry(Was(a.state), intent.state, now, intent.result.code, intent.result.detail)]
    case DoFinishRun(_, intent) => log == [Entry(Was(a.state), intent.state, now, NoCode, intent.result.detail)]
    case DoFinishClaim(from, _, intent) =>
      var code := if from == Starting then intent.result.code else NoCode;
      log == [Entry(Was(a.state), intent.state, now, code, intent.result.detail)]
    case DoInterruptRecovered(_) => log == [Entry(Was(a.state), Interrupted, now, ExplicitRecovery, 0)]
    case DoInterruptProvisioning(detail) => log == [Entry(Was(a.state), Interrupted, now, NoCode, detail)]
    case DoInterruptStarting(code, detail) => log == [Entry(Was(a.state), Interrupted, now, code, detail)]
    case DoConfirmStarting(_, detail) => log == [Entry(Was(Starting), Running, now, NoCode, detail)]
    case DoConfirmExpiredStart(detail) => log == [Entry(Was(Starting), Running, now, NoCode, detail)]
    case DoTransition(from, to, detail) => log == [Entry(Was(from), to, now, NoCode, detail)]
    case DoSaveReceipt(_, _, _) => log == [Entry(Was(Provisioning), Starting, now, NoCode, 0)]
    case DoClaimVerifier(_, _, _) => log == [Entry(Was(Settled), Verifying, now, NoCode, 0)]
    case DoDecide(_, ruling, _, _, _) =>
      if ruling.Finish? then
        log == [Entry(Was(State.Accepted), ruling.intent.state, now, ruling.intent.result.code, ruling.intent.result.detail)]
      else log == [Entry(Was(State.Accepted), Provisioning, now, NoCode, 0)]
  }

  lemma AddsExactly(r: Row, last: Option<Entry>, q: Request, now: Time)
    requires Serve(r, last, q, now).Wrote?
    ensures Adds(r, Serve(r, last, q, now).log, q, now)
  {
  }
}
