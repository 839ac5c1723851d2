/** What holds of every history of one run, whatever the interleaving, wherever
    processes stop, whatever expires and however late a reply comes. */
module EngineTheorems {
  import opened Options
  import opened Rows
  import opened RowWrites
  import opened EventLog
  import opened Engine
  import opened EngineInvariant
  import opened EngineSteps
  import opened EngineLog

  /** A history: worlds ws, with step ss[k] leading from ws[k] to ws[k + 1]. */
  ghost predicate History(ws: seq<World>, ss: seq<Step>) {
    |ws| == |ss| + 1 && Start(ws[0]) &&
    forall k :: 0 <= k < |ss| ==> Enabled(ws[k], ss[k]) && ws[k + 1] == Apply(ws[k], ss[k])
  }

  lemma StartInv(w: World)
    requires Start(w)
    ensures Inv(w)
  {
  }

  lemma MoveKeeps(w: World, i: nat, m: Move)
    requires Inv(w) && At(w, i) && Fits(w.core, w.procs[i], m) && LogOk(m.core)
    ensures Inv(Moved(w, i, m)) && Evolves(w.core, m.core)
  {
    FitsKeeps(w, i, m);
  }

  lemma ProcStepFits(w: World, s: Step)
    requires Inv(w) && Enabled(w, s) && !s.Ambient? && !s.Read?
    ensures var m := MoveOf(w, s); Fits(w.core, w.procs[s.i], m) && LogOk(m.core)
  {
    var c, p := w.core, w.procs[s.i];
    assert ProcOk(c, p);
    match s
    case Execute(_, x) => ExecuteFits(c, p, x); ExecuteLogs(c, p, x);
    case Recover(_, r) => RecoverFits(c, p, r); RecoverLogs(c, p, r);
    case Close(_, x) => CloseFits(c, p, x); CloseLogs(c, p, x);
    case Monitor(_, m) => MonitorFits(c, p, m); MonitorLogs(c, p, m);
    case Verify(_, v) => VerifyFits(c, p, v); VerifyLogs(c, p, v);
  }

  lemma AmbientStepKeeps(w: World, a: AmbientStep)
    requires Inv(w) && CanAmbient(w.core, a)
    ensures Inv(w.(core := DoAmbient(w.core, a))) && Evolves(w.core, DoAmbient(w.core, a))
  {
    AmbientLogs(w.core, a);
    AmbientFits(w.core, a);
    AmbientKeeps(w, a);
  }

  lemma ProcStepKeeps(w: World, s: Step)
    requires Inv(w) && Enabled(w, s) && !s.Ambient? && !s.Read?
    ensures Inv(Apply(w, s)) && Evolves(w.core, Apply(w, s).core)
  {
    ProcStepFits(w, s);
    MoveKeeps(w, s.i, MoveOf(w, s));
  }

  lemma StepKeeps(w: World, s: Step)
    requires Inv(w) && Enabled(w, s)
    ensures Inv(Apply(w, s)) && Evolves(w.core, Apply(w, s).core)
  {
    match s
    case Ambient(a) => AmbientStepKeeps(w, a);
    case Read(owner) => ReadKeeps(w, owner);
    case _ => ProcStepKeeps(w, s);
  }

  lemma {:induction false} Reachable(ws: seq<World>, ss: seq<Step>, k: nat)
    requires History(ws, ss) && k < |ws|
    ensures Inv(ws[k])
  {
    if k == 0 {
      StartInv(ws[0]);
    } else {
      Reachable(ws, ss, k - 1);
      StepKeeps(ws[k - 1], ss[k - 1]);
    }
  }

  lemma EvolvesTransitive(a: Core, b: Core, c: Core)
    requires Evolves(a, b) && Evolves(b, c)
    ensures Evolves(a, c)
  {
  }

  ghost predicate Evolving(ws: seq<World>) {
    forall k :: 0 < k < |ws| ==> Evolves(ws[k - 1].core, ws[k].core)
  }

  lemma {:induction false} EvolvedSince(ws: seq<World>, i: nat, j: nat)
    requires Evolving(ws) && i <= j < |ws|
    ensures Evolves(ws[i].core, ws[j].core)
    decreases j - i
  {
    if i < j {
      EvolvedSince(ws, i, j - 1);
      EvolvesTransitive(ws[i].core, ws[j - 1].core, ws[j].core);
    }
  }

  /** What one step keeps is kept all along a history. */
  lemma Onward(ws: seq<World>, ss: seq<Step>, i: nat, j: nat)
    requires History(ws, ss) && i <= j < |ws|
    ensures Evolves(ws[i].core, ws[j].core)
  {
    forall k | 0 < k < |ws| ensures Evolves(ws[k - 1].core, ws[k].core) {
      Reachable(ws, ss, k - 1);
      StepKeeps(ws[k - 1], ss[k - 1]);
    }
    EvolvedSince(ws, i, j);
  }

  // --- External effects happen at most once -----------------------------

  predicate CallsProvision(s: Step) { s.Execute? && s.x.CallProvision? }
  predicate CallsStart(s: Step) { s.Execute? && s.x.CallStart? }
  predicate CallsClose(s: Step) { s.Close? && s.c.CallClose? }
  predicate CallsVerifier(s: Step) { s.Verify? && s.v.RunVerifier? }

  predicate SameCall(s: Step, t: Step) {
    (CallsProvision(s) && CallsProvision(t)) || (CallsStart(s) && CallsStart(t)) ||
    (CallsClose(s) && CallsClose(t)) || (CallsVerifier(s) && CallsVerifier(t))
  }

  lemma CallCounts(w: World, s: Step)
    requires Inv(w) && Enabled(w, s)
    ensures var e, d := w.core.env, Apply(w, s).core.env;
      (CallsProvision(s) ==> d.provisionCalls == e.provisionCalls + 1) &&
      (CallsStart(s) ==> d.startCalls == e.startCalls + 1) &&
      (CallsClose(s) ==> d.closeCalls == e.closeCalls + 1) &&
      (CallsVerifier(s) ==> d.verifierRuns == e.verifierRuns + 1)
  {
  }

  /** Over any interleaving, crashes, expiries and late replies included, no two
      steps of a history are both a Provision call, both a StartCommand, both a
      CloseWorkspace or both a verifier execution, whoever makes them. */
  lemma EffectsAtMostOnce(ws: seq<World>, ss: seq<Step>, j: nat, k: nat)
    requires History(ws, ss) && j < k < |ss|
    ensures !SameCall(ss[j], ss[k])
  {
    Reachable(ws, ss, j);
    Reachable(ws, ss, k);
    Reachable(ws, ss, k + 1);
    CallCounts(ws[j], ss[j]);
    CallCounts(ws[k], ss[k]);
    Onward(ws, ss, j + 1, k);
  }

  /** The row under which a Provision call may be made: claimed, live, planned. */
  predicate MayProvision(c: Core, p: Proc) {
    p.pc.CallingProvision? && c.row.state.Provisioning? && Owns(c.row, p.owner, c.now) && c.row.effect == NoEffect &&
    c.row.place.branch == p.pc.branch && p.pc.branch != 0 && c.row.place.ws == 0
  }

  /** ... a StartCommand call: a live claim on a workspace nobody may close. */
  predicate MayStart(c: Core, p: Proc) {
    c.row.state.Starting? && Owns(c.row, p.owner, c.now) && c.row.effect == NoEffect && c.row.place.ws == c.env.ws != 0
  }

  /** ... a CloseWorkspace call: the intent is saved, the workspace is the run's,
      and the close is still claimed or already finished with that intent. */
  predicate MayClose(c: Core, p: Proc) {
    p.pc.CallingClose? && c.env.intent == Some(p.pc.intent) && p.snap.place.ws == c.row.place.ws == c.env.ws != 0 &&
    (c.row.effect.kind.CloseKind? || (Terminal(c.row.state) && c.env.closed))
  }

  /** ... a verifier execution: its claim was taken, nobody else's was, and it
      stands unless the run is over. */
  predicate MayVerify(c: Core, p: Proc) {
    p.pc.VerifierReady? && c.env.verifierClaim == Some(p.pc.claim) &&
    (Terminal(c.row.state) || (c.row.state.Verifying? && c.row.effect.claim == p.pc.claim))
  }

  lemma AuthorityHeld(c: Core, p: Proc)
    requires RowOk(c) && ProcOk(c, p)
    ensures p.pc.CallingProvision? && c.now < p.pc.until ==> MayProvision(c, p)
    ensures p.pc.CallingStart? && c.now < p.pc.until ==> MayStart(c, p)
    ensures p.pc.CallingClose? ==> MayClose(c, p)
    ensures p.pc.VerifierReady? ==> MayVerify(c, p)
  {
  }

  /** Each external call is made only after its durable claim or plan was taken. A
      provisioning or start call is made while the claim still stands; a close or
      verifier call may come after another process has recovered the claim, and
      EngineClaims says exactly when it does. */
  lemma CallsFollowClaims(ws: seq<World>, ss: seq<Step>, k: nat)
    requires History(ws, ss) && k < |ss| && !ss[k].Ambient? && !ss[k].Read?
    ensures var c, p := ws[k].core, ws[k].procs[ss[k].i];
      (CallsProvision(ss[k]) ==> MayProvision(c, p)) && (CallsStart(ss[k]) ==> MayStart(c, p)) &&
      (CallsClose(ss[k]) ==> MayClose(c, p)) && (CallsVerifier(ss[k]) ==> MayVerify(c, p))
  {
    Reachable(ws, ss, k);
    assert ProcOk(ws[k].core, ws[k].procs[ss[k].i]);
    AuthorityHeld(ws[k].core, ws[k].procs[ss[k].i]);
  }

  /** A run past Starting has had its command started exactly once, and its row
      names the workspace and pane the command runs in. */
  lemma StartedRunsHaveStarted(ws: seq<World>, ss: seq<Step>, k: nat)
    requires History(ws, ss) && k < |ws|
    ensures var r, e := ws[k].core.row, ws[k].core.env;
      (PastStart(r.state) ==> e.provisionCalls == e.startCalls == 1) &&
      (PastReceipt(r.state) ==> r.place.ws == e.ws != 0 && r.place.pane != 0) &&
      (r.effect.kind.CloseKind? ==> r.place.ws == e.ws != 0)
  {
    Reachable(ws, ss, k);
  }

  // --- No returned workspace is lost ------------------------------------

  /** The late-cleanup claim succeeds unless the row names the workspace already. */
  lemma LateClaimIsNeverDropped(c: Core, p: Proc, claim: Token, detail: Token)
    requires RowOk(c) && ProcOk(c, p) && p.pc.SavingLate? && claim != 0
    ensures var wr := ClaimLate(c.row, p.owner, claim, p.pc.place, LateOutcome(detail), c.now, c.now + CloseLease);
      if c.row.place.ws == 0 then wr.Wrote? && wr.row.place.ws == p.pc.place.ws
      else wr.Lost? && c.row.place.ws == p.pc.place.ws
  {
  }

  function PlaceHeld(pc: Pc): Place
    requires HoldsReceipt(pc)
  {
    pc.place
  }

  /** Process i still carries the identity Provision returned, or the row has it. */
  predicate Kept(w: World, i: nat, identity: Token) {
    At(w, i) && identity != 0 &&
    (w.core.row.place.ws == identity ||
     (HoldsReceipt(w.procs[i].pc) && PlaceHeld(w.procs[i].pc).ws == identity))
  }

  /** A process holding a returned identity still holds it or has saved it. */
  lemma ReceiptMove(c: Core, p: Proc, x: ExecuteStep)
    requires RowOk(c) && ProcOk(c, p) && CanExecute(c, p, x) && HoldsReceipt(p.pc)
    ensures var m, ws := DoExecute(c, p, x), PlaceHeld(p.pc).ws;
      m.core.row.place.ws == ws || (HoldsReceipt(m.proc.pc) && PlaceHeld(m.proc.pc).ws == ws)
  {
    if x.PersistLate? { LateClaimIsNeverDropped(c, p, x.claim, x.detail); }
  }

  lemma ReceiptStep(w: World, i: nat, x: ExecuteStep)
    requires Inv(w) && Enabled(w, Execute(i, x)) && HoldsReceipt(w.procs[i].pc)
    ensures var v := Apply(w, Execute(i, x)); Kept(v, i, PlaceHeld(w.procs[i].pc).ws)
  {
    assert ProcOk(w.core, w.procs[i]);
    ReceiptMove(w.core, w.procs[i], x);
  }

  lemma OthersStay(w: World, s: Step, i: nat)
    requires Enabled(w, s) && At(w, i) && (s.Ambient? || s.Read? || s.i != i)
    ensures At(Apply(w, s), i) && Apply(w, s).procs[i] == w.procs[i]
  {
  }

  lemma OwnStepKeeps(w: World, s: Step, i: nat, identity: Token)
    requires Inv(w) && Enabled(w, s) && !s.Ambient? && !s.Read? && s.i == i
    requires Kept(w, i, identity) && w.core.row.place.ws != identity
    ensures Kept(Apply(w, s), i, identity)
  {
    ReceiptStep(w, i, s.x);
  }

  lemma KeptStep(w: World, s: Step, i: nat, identity: Token)
    requires Inv(w) && Enabled(w, s) && Kept(w, i, identity)
    requires OnceSet(w.core.row.place.ws, Apply(w, s).core.row.place.ws)
    ensures Kept(Apply(w, s), i, identity)
  {
    if s.Ambient? || s.Read? || s.i != i {
      OthersStay(w, s, i);
    } else if w.core.row.place.ws != identity {
      OwnStepKeeps(w, s, i, identity);
    }
  }

  ghost predicate Carried(ws: seq<World>, i: nat, identity: Token) {
    forall k :: 0 < k < |ws| && Kept(ws[k - 1], i, identity) ==> Kept(ws[k], i, identity)
  }

  lemma {:induction false} CarriedSince(ws: seq<World>, j: nat, k: nat, i: nat, identity: Token)
    requires Carried(ws, i, identity) && j <= k < |ws| && Kept(ws[j], i, identity)
    ensures Kept(ws[k], i, identity)
    decreases k - j
  {
    if j < k { CarriedSince(ws, j, k - 1, i, identity); }
  }

  lemma KeptOnward(ws: seq<World>, ss: seq<Step>, j: nat, k: nat, i: nat, identity: Token)
    requires History(ws, ss) && j <= k < |ws| && Kept(ws[j], i, identity)
    ensures Kept(ws[k], i, identity)
  {
    forall m | 0 < m < |ws| && Kept(ws[m - 1], i, identity) ensures Kept(ws[m], i, identity) {
      Reachable(ws, ss, m - 1);
      StepKeeps(ws[m - 1], ss[m - 1]);
      KeptStep(ws[m - 1], ss[m - 1], i, identity);
    }
    CarriedSince(ws, j, k, i, identity);
  }

  /** Once Provision has returned an identity to process i, then as soon as i is
      no longer busy saving it the row names exactly that workspace: through the
      receipt, an earlier recovery or the one cleanup claim, even if the row had
      been interrupted or retired by hand before the reply. */
  lemma NoReturnedWorkspaceIsLost(ws: seq<World>, ss: seq<Step>, j: nat, k: nat, i: nat)
    requires History(ws, ss) && j <= k < |ws| && At(ws[j], i) && HoldsReceipt(ws[j].procs[i].pc)
    ensures At(ws[k], i)
    ensures !HoldsReceipt(ws[k].procs[i].pc) ==> ws[k].core.row.place.ws == PlaceHeld(ws[j].procs[i].pc).ws == ws[k].core.env.ws != 0
  {
    Reachable(ws, ss, j);
    assert ProcOk(ws[j].core, ws[j].procs[i]);
    KeptOnward(ws, ss, j, k, i, PlaceHeld(ws[j].procs[i].pc).ws);
    Reachable(ws, ss, k);
  }

  // --- Closing ----------------------------------------------------------

  /** A run that finished a close effect has had its close acknowledged or its
      workspace seen absent, the workspace is gone, and the persisted outcome is
      the intent the first claim saved, whatever expired and was reclaimed since. */
  lemma CloseBeforeTerminal(ws: seq<World>, ss: seq<Step>, j: nat, k: nat)
    requires History(ws, ss) && j <= k < |ws|
    ensures var r, e := ws[k].core.row, ws[k].core.env;
      (e.closed ==> (e.acked || e.sawGone) && !e.live && Terminal(r.state) && e.intent == Some(OutcomeOf(r))) &&
      (ws[j].core.env.intent.Some? ==> e.intent == ws[j].core.env.intent) &&
      (ws[j].core.env.closed ==> e.closed)
  {
    Reachable(ws, ss, k);
    Onward(ws, ss, j, k);
  }

  /** A timed-out or cancelled run never has a live workspace, then or later. */
  lemma TimedOutRunsAreClosed(ws: seq<World>, ss: seq<Step>, j: nat, k: nat)
    requires History(ws, ss) && j <= k < |ws|
    requires ws[j].core.row.state.TimedOut? || ws[j].core.row.state.Cancelled?
    ensures !ws[k].core.env.live
    ensures ws[j].core.row.state.TimedOut? ==> ws[k].core.env.closed && ws[k].core.row.place.ws != 0
  {
    Reachable(ws, ss, k);
    Onward(ws, ss, j, k);
  }

  // --- Terminal outcomes ------------------------------------------------

  /** After a run first becomes terminal nothing changes its state, results,
      lane, reason or receipts, not even a late cleanup claiming and finishing on
      the row; and before that each receipt is written at most once. */
  lemma TerminalOutcomesAreFinal(ws: seq<World>, ss: seq<Step>, j: nat, k: nat)
    requires History(ws, ss) && j <= k < |ws|
    ensures Terminal(ws[j].core.row.state) ==> SameOutcome(ws[j].core.row, ws[k].core.row)
    ensures ReceiptsEvolve(ws[j].core.row, ws[k].core.row)
    ensures Rank(ws[j].core.row.state) <= Rank(ws[k].core.row.state)
  {
    Onward(ws, ss, j, k);
  }

  // --- A passed run is verified -----------------------------------------

  /** A passed run succeeded, its single verifier claim has a published result
      with exit code 0, and for a scoped run the change observation made before
      the verifier, the one made after it and the receipt are the same bytes. */
  lemma PassedRunsAreVerified(ws: seq<World>, ss: seq<Step>, k: nat)
    requires History(ws, ss) && k < |ws| && ws[k].core.row.result.verdict.Passed?
    ensures ws[k].core.row.state.Succeeded? && Verified(ws[k].core.row, ws[k].core.env)
    ensures ws[k].core.env.startCalls == ws[k].core.env.verifierRuns == 1
  {
    Reachable(ws, ss, k);
  }

  /** A run filed for automatic or sampled review, the only ones that can start
      out read, is a verified one. */
  lemma FiledRunsAreVerified(ws: seq<World>, ss: seq<Step>, k: nat)
    requires History(ws, ss) && k < |ws|
    requires ws[k].core.row.review.lane.AutoLane? || ws[k].core.row.review.lane.SampleLane?
    ensures Verified(ws[k].core.row, ws[k].core.env)
  {
    Reachable(ws, ss, k);
  }

  /** What the owner of a verifier claim found and what the reconciler later read
      are the same durable result, in any history; so, given equal boundary
      results, they persist the same outcome if and only if the result was
      properly published or the boundary was broken anyway. */
  lemma OwnerAndReconcilerAgree(ws: seq<World>, ss: seq<Step>, j: nat, k: nat, i: nat, l: nat, bounded: bool, detail: Token)
    requires History(ws, ss) && j < |ws| && k < |ws| && At(ws[j], i) && At(ws[k], l)
    requires ws[j].procs[i].pc.VerifierEnded? && PublishedExit(ws[j].procs[i].pc.result).Some?
    requires ws[k].procs[l].pc.ReadDurable?
    ensures PublishedExit(ws[j].procs[i].pc.result) == Some(ws[k].procs[l].pc.exit)
    ensures SameOutcomes(ws[j].procs[i].pc.result, ws[k].procs[l].pc.exit, bounded, detail) <==>
            ws[j].procs[i].pc.result.Published? || !bounded
  {
    OwnerAndReconcilerRead(ws, ss, j, k, i, l);
    SameOutcomesExactly(ws[j].procs[i].pc.result, ws[k].procs[l].pc.exit, bounded, detail);
  }

  predicate SameOutcomes(result: VerifierResult, exit: int, bounded: bool, detail: Token) {
    OwnerOutcome(result, bounded, detail) == ReconciledOutcome(Durable(exit), bounded, detail)
  }

  lemma SameOutcomesExactly(result: VerifierResult, exit: int, bounded: bool, detail: Token)
    requires PublishedExit(result) == Some(exit)
    ensures SameOutcomes(result, exit, bounded, detail) <==> result.Published? || !bounded
  {
  }

  lemma OwnerAndReconcilerRead(ws: seq<World>, ss: seq<Step>, j: nat, k: nat, i: nat, l: nat)
    requires History(ws, ss) && j < |ws| && k < |ws| && At(ws[j], i) && At(ws[k], l)
    requires ws[j].procs[i].pc.VerifierEnded? && PublishedExit(ws[j].procs[i].pc.result).Some?
    requires ws[k].procs[l].pc.ReadDurable?
    ensures PublishedExit(ws[j].procs[i].pc.result) == Some(ws[k].procs[l].pc.exit)
  {
    Reachable(ws, ss, j);
    Reachable(ws, ss, k);
    SameResult(ws[j].core, ws[j].procs[i]);
    SameRead(ws[k].core, ws[k].procs[l]);
    if j <= k {
      Onward(ws, ss, j, k);
      PublishedStays(ws[j].core.env, ws[k].core.env);
    } else {
      Onward(ws, ss, k, j);
      PublishedStays(ws[k].core.env, ws[j].core.env);
    }
  }

  lemma PublishedStays(a: Env, b: Env)
    requires EnvEvolves(a, b) && a.published != map[] && a.verifierClaim.Some?
    ensures b.published == a.published && b.verifierClaim == a.verifierClaim
  {
  }

  lemma SameResult(c: Core, p: Proc)
    requires RowOk(c) && ProcOk(c, p) && p.pc.VerifierEnded? && PublishedExit(p.pc.result).Some?
    ensures c.env.verifierClaim.Some? && c.env.verifierClaim.value in c.env.published
    ensures c.env.published[c.env.verifierClaim.value] == PublishedExit(p.pc.result).value
  {
  }

  lemma SameRead(c: Core, p: Proc)
    requires RowOk(c) && ProcOk(c, p) && p.pc.ReadDurable?
    ensures c.env.verifierClaim.Some? && c.env.verifierClaim.value in c.env.published
    ensures c.env.published[c.env.verifierClaim.value] == p.pc.exit
  {
  }

  // --- Lease fencing ----------------------------------------------------

  /** No write that needs the claim can land on a fenced row, now or later. */
  lemma FencedWritesAreRefused(c: Core, now: Time, owner: Token, until: Time, branch: Token, place: Place, marker: Token,
                               detail: Token, from: State, i: Intent)
    requires Fenced(c) && c.now <= now && owner != 0
    ensures !Renew(c.row, owner, now, until).Wrote? && !SavePlan(c.row, owner, branch, now).Wrote? &&
            !SavePartialReceipt(c.row, owner, place.ws, place.pane, branch, now).Wrote? &&
            !SaveReceipt(c.row, owner, place, marker, now).Wrote? &&
            !ConfirmStarting(c.row, owner, detail, now).Wrote? && !FinishClaim(c.row, from, owner, i, now).Wrote?
  {
  }

  /** Fencing is permanent: once a run's provisioning claim has expired or ended,
      no renewal, plan, receipt, confirmation or failure by any owner succeeds
      again, in any later world. */
  lemma FencingIsPermanent(ws: seq<World>, ss: seq<Step>, j: nat, k: nat)
    requires History(ws, ss) && j <= k < |ws| && Fenced(ws[j].core)
    ensures Fenced(ws[k].core)
  {
    Onward(ws, ss, j, k);
  }

  // --- The event log ----------------------------------------------------

  /** Replaying a run's events from nothing ends in the row's state, and no event
      is ever rewritten. */
  lemma EventLogReplays(ws: seq<World>, ss: seq<Step>, j: nat, k: nat)
    requires History(ws, ss) && j <= k < |ws|
    ensures Chained(ws[k].core.log, ws[k].core.row.state) && ws[j].core.log <= ws[k].core.log
  {
    Reachable(ws, ss, k);
    ReplaysIsChained(ws[k].core.log, ws[k].core.row.state);
    Onward(ws, ss, j, k);
  }

  // --- Explicit recovery ------------------------------------------------

  lemma RetireFailsClosed(c: Core, p: Proc, d: Core)
    requires RowOk(c) && ProcOk(c, p) && LogOk(c) && p.pc.Retiring? && d == DoRecover(c, p, RetireByHand).core
    ensures if SameBoundFields(c.row, p.snap) then
        OutcomeOf(d.row) == RecoveredByHand() && |d.log| == |c.log| + 1 && Fenced(c) &&
        CountCode(c.log, ExplicitRecovery) == 0 && c.row.place.ws == 0 && NoEffectFields(c.row) && !c.env.closed
      else d == c
  {
  }

  lemma RetiringOnce(w: World, i: nat)
    requires Inv(w) && Enabled(w, Recover(i, RetireByHand)) && Inv(Apply(w, Recover(i, RetireByHand)))
    ensures var before, after, snap := w.core, Apply(w, Recover(i, RetireByHand)).core, w.procs[i].snap;
      if SameBoundFields(before.row, snap) then
        OutcomeOf(after.row) == RecoveredByHand() && |after.log| == |before.log| + 1 && Fenced(before) &&
        CountCode(before.log, ExplicitRecovery) == 0 && CountCode(after.log, ExplicitRecovery) == 1 &&
        before.row.place.ws == 0 && NoEffectFields(before.row)
      else after == before
  {
    assert ProcOk(w.core, w.procs[i]);
    RetireFailsClosed(w.core, w.procs[i], Apply(w, Recover(i, RetireByHand)).core);
  }

  /** Retiring a run by hand lands exactly when every bound column still equals
      the observed row: then it retires the run with one entry, and otherwise it
      changes neither the row nor the log. */
  lemma ExplicitRecoveryFailsClosed(ws: seq<World>, ss: seq<Step>, k: nat, i: nat)
    requires History(ws, ss) && k < |ss| && ss[k] == Recover(i, RetireByHand)
    ensures var before, after, snap := ws[k].core, ws[k + 1].core, ws[k].procs[i].snap;
      if SameBoundFields(before.row, snap) then
        OutcomeOf(after.row) == RecoveredByHand() && |after.log| == |before.log| + 1 && Fenced(before) &&
        CountCode(before.log, ExplicitRecovery) == 0 && CountCode(after.log, ExplicitRecovery) == 1 &&
        before.row.place.ws == 0 && NoEffectFields(before.row)
      else after == before
  {
    Reachable(ws, ss, k);
    Reachable(ws, ss, k + 1);
    RetiringOnce(ws[k], i);
  }

  /** A run retired by hand stays interrupted by hand; its log carries the
      recovery code exactly once until a late close finishes on the row, and
      exactly twice from then on, because finishing a late close on a terminal
      row logs the row's own code again. */
  lemma RecoveryEntriesCounted(ws: seq<World>, ss: seq<Step>, j: nat, k: nat)
    requires History(ws, ss) && j <= k < |ws| && OutcomeOf(ws[j].core.row) == RecoveredByHand()
    ensures OutcomeOf(ws[k].core.row) == RecoveredByHand()
    ensures CountCode(ws[k].core.log, ExplicitRecovery) == if ws[k].core.env.closed then 2 else 1
  {
    Onward(ws, ss, j, k);
    Reachable(ws, ss, k);
  }
}
