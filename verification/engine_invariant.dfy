/** What every reachable world of the run protocol satisfies.

    The invariant has a part about the row and the outside world, a part about
    each process, and three uniqueness clauses. A step is checked against the
    process that takes it; every other process is carried along by `Evolves` and
    by the stronger promises its own program counter relies on. */
module EngineInvariant {
  import opened Options
  import opened Rows
  import opened RowWrites
  import opened EventLog
  import opened Engine

  predicate BeforeProvision(pc: Pc) {
    pc.ProbeRenew? || pc.Probe? || pc.PlanRenew? || pc.Plan? || pc.CallingProvision?
  }

  predicate HoldsReceipt(pc: Pc) {
    pc.SavingPartial? || pc.SavingReceipt? || pc.SavingLate?
  }

  predicate BeforeStart(pc: Pc) {
    BeforeProvision(pc) || pc.Provisioned? || HoldsReceipt(pc) || pc.Staging? || pc.StartRenew? || pc.CallingStart?
  }

  predicate Executing(pc: Pc) {
    BeforeStart(pc) || pc.Started?
  }

  predicate OwnsVerifier(pc: Pc) {
    pc.VerifierReady? || pc.VerifierRunning?
  }

  /** Claimable: the states a provisioning claim covers. */
  predicate Claimed(s: State) {
    s.Provisioning? || s.Starting?
  }

  /** The states in which a workspace receipt has been persisted. */
  predicate PastReceipt(s: State) {
    s.Starting? || s.Running? || s.Settled? || s.Verifying?
  }

  predicate PastStart(s: State) {
    s.Running? || s.Settled? || s.Verifying?
  }

  // --- The row and the world --------------------------------------------

  predicate EffectOk(r: Row, e: Env) {
    match r.effect.kind
    case NoKind => r.effect == NoEffect && !r.state.Verifying?
    case CloseKind =>
      r.effect.owner != 0 && r.effect.claim != 0 && r.place.ws != 0 && !r.state.Accepted? && !r.state.Verifying? &&
      e.intent.Some? && r.effect.receipt == CloseIntent(e.intent.value)
    case VerifierKind =>
      r.state.Verifying? && r.effect.owner != 0 && r.effect.claim != 0 &&
      r.effect.receipt == ResultPath(r.effect.claim) && e.verifierClaim == Some(r.effect.claim)
  }

  predicate CloseOk(r: Row, e: Env) {
    (e.intent.None? ==> e.closeCalls == 0 && !e.closed && !r.effect.kind.CloseKind?) &&
    (e.intent.Some? ==>
      r.place.ws != 0 && Terminal(e.intent.value.state) && (r.effect.kind.CloseKind? || e.closed) &&
      (Terminal(r.state) ==> OutcomeOf(r) == e.intent.value) &&
      (!Terminal(r.state) ==>
        !e.intent.value.result.code.ExplicitRecovery? && !e.intent.value.state.Succeeded?) &&
      !e.intent.value.result.verdict.Passed?) &&
    (e.closed ==> Terminal(r.state) && r.effect.kind.NoKind? && (e.acked || e.sawGone)) &&
    (e.acked || e.sawGone ==> e.ws != 0 && !e.live) &&
    (e.acked ==> e.closeCalls == 1) &&
    (r.state.TimedOut? ==> e.closed) &&
    (r.state.Cancelled? ==> e.closed || e.executor == 0)
  }

  predicate Verified(r: Row, e: Env) {
    e.verifierClaim.Some? && e.verifierClaim.value in e.published && e.published[e.verifierClaim.value] == 0 &&
    (Scoped(r) ==> e.pre.Some? && e.post == e.pre && r.receipts.change == e.pre.value)
  }

  predicate VerifierOk(r: Row, e: Env) {
    (e.verifierClaim.None? ==> e.verifierRuns == 0) && (e.published != map[] ==> e.verifierRuns == 1) &&
    (e.verifierClaim.Some? ==>
      (r.state.Verifying? || Terminal(r.state)) && r.place.ws != 0 && e.startCalls == 1 &&
      r.about.definition.Snapshot? && !r.about.definition.verifier.NoVerifier? &&
      e.published.Keys <= {e.verifierClaim.value} &&
      (Scoped(r) ==> e.pre.Some? && e.pre.value != 0 && r.receipts.change == e.pre.value)) &&
    (r.result.verdict.Passed? ==> r.state.Succeeded? && Verified(r, e)) &&
    (r.state.Succeeded? ==> SucceededRightly(r, e))
  }

  /** With a verifier a run succeeds by passing; without one it is not verified. */
  predicate SucceededRightly(r: Row, e: Env) {
    if e.verifierClaim.Some? then r.result.verdict.Passed?
    else r.result.verdict.Unverified? && r.about.definition.Snapshot? && r.about.definition.verifier.NoVerifier?
  }

  /** Entries carrying the explicit-recovery code: the retirement itself, and
      one more when a late close later finished on the retired row. */
  function RecoveryEntries(r: Row, e: Env): nat {
    if !r.result.code.ExplicitRecovery? then 0 else if e.closed then 2 else 1
  }

  predicate RowOk(c: Core) {
    var r, e := c.row, c.env;
    r.about.definition.Snapshot? &&
    (r.state.Accepted? ==> e.executor == 0) &&
    (e.executor == 0 ==> e.provisionCalls == 0 && e.startCalls == 0) &&
    (Claimed(r.state) ==> e.executor != 0 && r.lease.owner == e.executor) &&
    e.provisionCalls <= 1 && e.startCalls <= 1 && e.verifierRuns <= 1 && e.closeCalls <= 1 &&
    (e.ws != 0 ==> e.provisionCalls == 1) &&
    (e.live ==> e.ws != 0) &&
    (r.place.ws != 0 ==> r.place.ws == e.ws) &&
    (PastReceipt(r.state) ==> r.place.ws != 0 && r.place.pane != 0) &&
    (PastStart(r.state) ==> e.startCalls == 1) &&
    (e.exit.Some? ==> e.startCalls == 1) &&
    (!Terminal(r.state) ==> r.result == NoResult) &&
    Filed(r) &&
    EffectOk(r, e) && CloseOk(r, e) && VerifierOk(r, e)
  }

  /** Only a passed run is filed for automatic or sampled review. */
  predicate Filed(r: Row) {
    r.review.lane.AutoLane? || r.review.lane.SampleLane? ==> r.result.verdict.Passed?
  }

  predicate LogOk(c: Core) {
    Replays(c.log, c.row.state) && CountCode(c.log, ExplicitRecovery) == RecoveryEntries(c.row, c.env)
  }

  // --- Snapshots and processes ------------------------------------------

  predicate SnapOk(c: Core, s: Row) {
    var r, e := c.row, c.env;
    s.about == r.about && Rank(s.state) <= Rank(r.state) &&
    (s.place.ws != 0 ==> r.place.ws == s.place.ws) &&
    (PastReceipt(s.state) ==> s.place.ws != 0) &&
    (PastStart(s.state) ==> e.startCalls == 1) &&
    (Terminal(s.state) ==> SameOutcome(s, r)) &&
    (s.effect.kind.CloseKind? ==>
      s.place.ws != 0 && e.intent.Some? && s.effect.receipt == CloseIntent(e.intent.value)) &&
    (s.effect.kind.VerifierKind? ==> e.verifierClaim == Some(s.effect.claim)) &&
    (s.state.Verifying? <==> s.effect.kind.VerifierKind?)
  }

  /** A verifier outcome that may be persisted: a pass is a real pass. */
  predicate VerdictOk(c: Core, i: Intent, post: Option<Token>) {
    (i.state.Succeeded? || i.state.Failed? || i.state.Interrupted?) && !i.result.code.ExplicitRecovery? &&
    (i.state.Succeeded? <==> i.result.verdict.Passed?) &&
    (i.result.verdict.Passed? ==> Verified(c.row, c.env.(post := post)))
  }

  /** While the lease this counter was issued under is live, the row is still ours. */
  predicate UnderLease(c: Core, p: Proc, s: State, until: Time) {
    c.now < until ==> c.row.state == s && c.row.lease == Lease(p.owner, until) && c.row.effect.kind.NoKind?
  }

  predicate ReceiptHeld(c: Core, place: Place) {
    c.env.ws != 0 && place.ws == c.env.ws && place.branch != 0 && place.pane != 0
  }

  predicate ExecutorOk(c: Core, p: Proc) {
    c.env.executor == p.owner && !c.row.state.Accepted? &&
    (c.row.effect.kind.CloseKind? && Claimed(c.row.state) ==> c.row.lease.until <= c.now) &&
    (BeforeProvision(p.pc) ==> c.env.provisionCalls == 0) &&
    (BeforeStart(p.pc) ==> c.env.startCalls == 0)
  }

  predicate PcOk(c: Core, p: Proc) {
    match p.pc
    case Plan(until) => UnderLease(c, p, Provisioning, until)
    case CallingProvision(branch, until) =>
      branch != 0 && UnderLease(c, p, Provisioning, until) && (c.now < until ==> c.row.place.branch == branch)
    case Provisioned(branch) => branch != 0 && c.env.provisionCalls == 1
    case SavingPartial(place) => ReceiptHeld(c, place)
    case SavingReceipt(place) => ReceiptHeld(c, place)
    case SavingLate(place) => ReceiptHeld(c, place)
    case Staging => c.row.place.ws != 0 && !c.row.state.Provisioning?
    case StartRenew => c.row.place.ws != 0 && !c.row.state.Provisioning?
    case CallingStart(until) => c.row.place.ws != 0 && UnderLease(c, p, Starting, until)
    case Started => c.env.startCalls == 1
    case Retiring(at) => at <= c.now && RecoverableShape(p.snap, at) && p.snap.effect.until <= at
    case CallingClose(_, _, intent) =>
      c.env.intent == Some(intent) && c.env.closeCalls == 0 && c.env.ws != 0 && p.snap.place.ws == c.env.ws
    case Closing(_, _, intent) =>
      c.env.intent == Some(intent) && c.env.closeCalls == 1 && c.env.ws != 0 && p.snap.place.ws == c.env.ws
    case FinishingClose(_, _, intent) => c.env.intent == Some(intent) && (c.env.acked || c.env.sawGone)
    case Reclaiming(intent) => c.env.intent == Some(intent) && c.env.sawGone
    case Attesting => p.snap.state.Running?
    case Bounding => p.snap.state.Running? || p.snap.state.Settled?
    case Refusing(code) => (p.snap.state.Running? || p.snap.state.Settled?) && !code.ExplicitRecovery?
    case Settling(pre) => (p.snap.state.Running? || p.snap.state.Settled?) && ObservedBefore(c, pre)
    case Claiming(pre) => ObservedBefore(c, pre)
    case VerifierReady(claim) => c.env.verifierClaim == Some(claim) && c.env.verifierRuns == 0 && c.env.published == map[]
    case VerifierRunning(claim) => c.env.verifierClaim == Some(claim) && c.env.verifierRuns == 1 && c.env.published == map[]
    case VerifierEnded(claim, result) =>
      c.env.verifierClaim == Some(claim) &&
      (PublishedExit(result).Some? ==>
        claim in c.env.published && c.env.published[claim] == PublishedExit(result).value)
    case FinishingVerifier(_, intent, post) => VerdictOk(c, intent, post)
    case ReadDurable(exit) =>
      c.env.verifierClaim.Some? && c.env.verifierClaim.value in c.env.published &&
      c.env.published[c.env.verifierClaim.value] == exit
    case FinishingExpired(intent, post) => VerdictOk(c, intent, post)
    case _ => true
  }

  /** A scoped run's change receipt is the observation this process made. */
  predicate ObservedBefore(c: Core, pre: Option<Token>) {
    Scoped(c.row) ==> pre.Some? && pre.value != 0 && c.row.receipts.change == pre.value
  }

  predicate ProcOk(c: Core, p: Proc) {
    p.owner != 0 && SnapOk(c, p.snap) && (Executing(p.pc) ==> ExecutorOk(c, p)) && PcOk(c, p)
  }

  ghost predicate Unique(ps: seq<Proc>) {
    (forall i, j :: 0 <= i < |ps| && 0 <= j < |ps| && Executing(ps[i].pc) && Executing(ps[j].pc) ==> i == j) &&
    (forall i, j :: 0 <= i < |ps| && 0 <= j < |ps| && ps[i].pc.CallingClose? && ps[j].pc.CallingClose? ==> i == j) &&
    (forall i, j :: 0 <= i < |ps| && 0 <= j < |ps| && OwnsVerifier(ps[i].pc) && OwnsVerifier(ps[j].pc) ==> i == j)
  }

  ghost predicate Inv(w: World) {
    RowOk(w.core) && LogOk(w.core) && Unique(w.procs) && forall i :: 0 <= i < |w.procs| ==> ProcOk(w.core, w.procs[i])
  }

  // --- What one step keeps ----------------------------------------------

  predicate RowEvolves(a: Row, b: Row) {
    a.about == b.about && Rank(a.state) <= Rank(b.state) && (Terminal(a.state) ==> SameOutcome(a, b)) &&
    OnceSet(a.place.ws, b.place.ws) && ReceiptsEvolve(a, b)
  }

  predicate EnvEvolves(a: Env, b: Env) {
    a.provisionCalls <= b.provisionCalls && a.startCalls <= b.startCalls &&
    a.verifierRuns <= b.verifierRuns && a.closeCalls <= b.closeCalls &&
    OnceSet(a.ws, b.ws) && OnceSet(a.executor, b.executor) && (a.ws != 0 && !a.live ==> !b.live) &&
    (a.exit.Some? ==> b.exit.Some?) && (a.acked ==> b.acked) && (a.sawGone ==> b.sawGone) &&
    (a.intent.Some? ==> b.intent == a.intent) && (a.closed ==> b.closed) &&
    (a.verifierClaim.Some? ==> b.verifierClaim == a.verifierClaim && b.pre == a.pre) &&
    (a.published != map[] ==> b.published == a.published)
  }

  /** The run was admitted, and its provisioning claim is over or has expired. */
  predicate Fenced(c: Core) {
    c.env.executor != 0 && !c.row.state.Accepted? && (Claimed(c.row.state) ==> c.row.lease.until <= c.now)
  }

  predicate Evolves(a: Core, b: Core) {
    a.now <= b.now && RowEvolves(a.row, b.row) && EnvEvolves(a.env, b.env) && a.log <= b.log && (Fenced(a) ==> Fenced(b))
  }

  /** What the executor relies on every other process to leave alone. */
  predicate ExecutorRely(a: Core, b: Core) {
    b.env.provisionCalls == a.env.provisionCalls && b.env.startCalls == a.env.startCalls &&
    b.env.executor == a.env.executor &&
    (Claimed(a.row.state) && b.now < a.row.lease.until && !a.row.effect.kind.CloseKind? ==>
      b.row.state == a.row.state && b.row.lease == a.row.lease && b.row.effect.kind == a.row.effect.kind &&
      b.row.place.branch == a.row.place.branch) &&
    (b.row.effect.kind.CloseKind? && Claimed(b.row.state) ==>
      b.row.lease.until <= b.now || (a.row.effect.kind.CloseKind? && Claimed(a.row.state) && b.row.lease == a.row.lease))
  }

  lemma SnapStable(a: Core, b: Core, s: Row)
    requires RowOk(a) && SnapOk(a, s) && Evolves(a, b)
    requires b.env.startCalls <= 1
    ensures SnapOk(b, s)
  {
  }

  lemma VerdictStable(a: Core, b: Core, i: Intent, post: Option<Token>)
    requires RowOk(a) && VerdictOk(a, i, post) && Evolves(a, b)
    ensures VerdictOk(b, i, post)
  {
  }

  lemma ExecutorStable(a: Core, b: Core, p: Proc)
    requires RowOk(a) && ExecutorOk(a, p) && Executing(p.pc) && PcOk(a, p) && Evolves(a, b) && ExecutorRely(a, b)
    requires b.env.provisionCalls <= 1 && b.env.startCalls <= 1
    ensures ExecutorOk(b, p) && PcOk(b, p)
  {
  }

  lemma PcStable(a: Core, b: Core, p: Proc)
    requires RowOk(a) && RowOk(b) && PcOk(a, p) && Evolves(a, b) && !Executing(p.pc)
    requires p.pc.CallingClose? ==> b.env.closeCalls == a.env.closeCalls
    requires OwnsVerifier(p.pc) ==> b.env.verifierRuns == a.env.verifierRuns && b.env.published == a.env.published
    ensures PcOk(b, p)
  {
    match p.pc
    case FinishingVerifier(_, intent, post) => VerdictStable(a, b, intent, post);
    case FinishingExpired(intent, post) => VerdictStable(a, b, intent, post);
    case _ =>
  }

  lemma Stable(a: Core, b: Core, p: Proc)
    requires RowOk(a) && RowOk(b) && ProcOk(a, p) && Evolves(a, b)
    requires Executing(p.pc) ==> ExecutorRely(a, b)
    requires p.pc.CallingClose? ==> b.env.closeCalls == a.env.closeCalls
    requires OwnsVerifier(p.pc) ==> b.env.verifierRuns == a.env.verifierRuns && b.env.published == a.env.published
    ensures ProcOk(b, p)
  {
    SnapStable(a, b, p.snap);
    if Executing(p.pc) { ExecutorStable(a, b, p); } else { PcStable(a, b, p); }
  }
}
