/** Whether the claim behind a close or a verifier call still stands when the call
    is made: other processes may have recovered it in the meantime. */
module EngineClaims {
  import opened Rows
  import opened Engine
  import opened EngineInvariant
  import opened EngineSteps
  import opened EngineTheorems

  // --- The verifier claim -----------------------------------------------

  /** The row still carries the claim. */
  predicate VerifierClaimStands(r: Row, claim: Token) {
    r.effect.kind.VerifierKind? && r.effect.claim == claim
  }

  /** When a verifier is executed its claim still stands if and only if the run
      is not over. */
  lemma VerifierClaimStandsExactly(ws: seq<World>, ss: seq<Step>, k: nat)
    requires History(ws, ss) && k < |ss| && CallsVerifier(ss[k])
    ensures ws[k].procs[ss[k].i].pc.VerifierReady?
    ensures VerifierClaimStands(ws[k].core.row, ws[k].procs[ss[k].i].pc.claim) <==> !Terminal(ws[k].core.row.state)
  {
    Reachable(ws, ss, k);
    assert ProcOk(ws[k].core, ws[k].procs[ss[k].i]);
  }

  // --- The close claim --------------------------------------------------

  predicate CloseClaimAt(w: World, i: nat) {
    At(w, i) && w.procs[i].pc.CallingClose?
  }

  /** The step by which process i takes a close claim. */
  predicate TakesClose(w: World, s: Step, i: nat)
    requires Enabled(w, s)
  {
    !CloseClaimAt(w, i) && CloseClaimAt(Apply(w, s), i)
  }

  /** A step that reclaims an expired close from whoever held it. */
  predicate ReclaimLands(w: World, s: Step)
    requires Enabled(w, s)
  {
    s.Close? && s.c.ReclaimClose? && Apply(w, s).core.row != w.core.row
  }

  /** The claim e is untouched: i has yet to make its call, and nobody is about
      to finish a close. */
  ghost predicate Untouched(w: World, i: nat, e: Effect) {
    CloseClaimAt(w, i) && w.core.row.effect == e && e.kind.CloseKind? &&
    forall j :: 0 <= j < |w.procs| ==> !w.procs[j].pc.FinishingClose?
  }

  /** The claim e is gone: reclaimed for longer, or its close finished. */
  predicate Superseded(c: Core, e: Effect) {
    (c.row.effect.kind.CloseKind? && c.row.effect.until > e.until) || c.env.closed
  }

  /** A process still to make its close call has made none yet. */
  lemma CallerWaits(c: Core, p: Proc)
    requires RowOk(c) && ProcOk(c, p) && p.pc.CallingClose?
    ensures c.env.closeCalls == 0 && c.env.intent.Some?
  {
  }

  lemma NobodyFinishes(c: Core, p: Proc)
    requires RowOk(c) && ProcOk(c, p) && c.env.intent.None?
    ensures !p.pc.FinishingClose? && !p.pc.Closing? && !p.pc.Reclaiming?
  {
  }

  lemma LateTakerHolds(c: Core, p: Proc, x: ExecuteStep)
    requires RowOk(c) && ProcOk(c, p) && CanExecute(c, p, x) && DoExecute(c, p, x).proc.pc.CallingClose?
    ensures DoExecute(c, p, x).core.row.effect.kind.CloseKind? && c.env.intent.None?
  {
    ExecuteFits(c, p, x);
    assert x.PersistLate?;
  }

  lemma TakerHolds(c: Core, p: Proc, x: CloseStep)
    requires RowOk(c) && ProcOk(c, p) && CanClose(c, p, x) && DoClose(c, p, x).proc.pc.CallingClose?
    ensures DoClose(c, p, x).core.row.effect.kind.CloseKind? && c.env.intent.None?
  {
    CloseFits(c, p, x);
    assert x.StartClose?;
  }

  lemma OthersTakeNone(w: World, s: Step, i: nat)
    requires Enabled(w, s) && TakesClose(w, s, i)
    ensures s.i == i && (s.Execute? || s.Close?)
  {
  }

  /** Once a close claim is taken it is untouched: nobody is closing yet. */
  lemma TakingIsUntouched(w: World, s: Step, i: nat)
    requires Inv(w) && Enabled(w, s) && TakesClose(w, s, i)
    ensures Untouched(Apply(w, s), i, Apply(w, s).core.row.effect)
  {
    OthersTakeNone(w, s, i);
    var v := Apply(w, s);
    assert ProcOk(w.core, w.procs[i]);
    if s.Execute? { LateTakerHolds(w.core, w.procs[i], s.x); } else { TakerHolds(w.core, w.procs[i], s.c); }
    forall j | 0 <= j < |v.procs| ensures !v.procs[j].pc.FinishingClose? {
      if j != i { NobodyFinishes(w.core, w.procs[j]); }
    }
  }

  // --- What a step can do to a claimed close ----------------------------

  /** Besides reclaiming and finishing, nothing touches a claimed close, and only
      a reclaim or an answered call brings a process to finishing one. */
  predicate KeepsClose(c: Core, p: Proc, m: Move) {
    (m.core.row.effect == c.row.effect ||
     (p.pc.Reclaiming? && m.core.row.effect.kind.CloseKind? && m.core.row.effect.until > c.row.effect.until) ||
     (p.pc.FinishingClose? && m.core.env.closed)) &&
    (m.proc.pc.FinishingClose? ==> p.pc.Closing? || (p.pc.Reclaiming? && m.core.row.effect != c.row.effect))
  }

  lemma ExecuteKeepsClose(c: Core, p: Proc, x: ExecuteStep)
    requires RowOk(c) && ProcOk(c, p) && CanExecute(c, p, x) && c.row.effect.kind.CloseKind?
    ensures KeepsClose(c, p, DoExecute(c, p, x))
  {
  }

  lemma RecoverKeepsClose(c: Core, p: Proc, r: RecoverStep)
    requires RowOk(c) && ProcOk(c, p) && CanRecover(c, p, r) && c.row.effect.kind.CloseKind?
    ensures KeepsClose(c, p, DoRecover(c, p, r))
  {
  }

  lemma CloseKeepsClose(c: Core, p: Proc, x: CloseStep)
    requires RowOk(c) && ProcOk(c, p) && CanClose(c, p, x) && c.row.effect.kind.CloseKind?
    ensures KeepsClose(c, p, DoClose(c, p, x))
  {
  }

  lemma MonitorKeepsClose(c: Core, p: Proc, m: MonitorStep)
    requires RowOk(c) && ProcOk(c, p) && CanMonitor(c, p, m) && c.row.effect.kind.CloseKind?
    ensures KeepsClose(c, p, DoMonitor(c, p, m))
  {
  }

  lemma VerifyKeepsClose(c: Core, p: Proc, v: VerifyStep)
    requires RowOk(c) && ProcOk(c, p) && CanVerify(c, p, v) && c.row.effect.kind.CloseKind?
    ensures KeepsClose(c, p, DoVerify(c, p, v))
  {
  }

  lemma StepKeepsClose(w: World, s: Step)
    requires Inv(w) && Enabled(w, s) && !s.Ambient? && !s.Read? && w.core.row.effect.kind.CloseKind?
    ensures KeepsClose(w.core, w.procs[s.i], MoveOf(w, s))
  {
    var c, p := w.core, w.procs[s.i];
    assert ProcOk(c, p);
    match s
    case Execute(_, x) => ExecuteKeepsClose(c, p, x);
    case Recover(_, r) => RecoverKeepsClose(c, p, r);
    case Close(_, x) => CloseKeepsClose(c, p, x);
    case Monitor(_, m) => MonitorKeepsClose(c, p, m);
    case Verify(_, v) => VerifyKeepsClose(c, p, v);
  }

  lemma AmbientKeepsEffect(c: Core, a: AmbientStep)
    requires CanAmbient(c, a)
    ensures DoAmbient(c, a).row.effect == c.row.effect
  {
  }

  /** A superseded claim stays superseded. */
  lemma SupersededStays(w: World, s: Step, e: Effect)
    requires Inv(w) && Enabled(w, s) && Superseded(w.core, e)
    ensures Superseded(Apply(w, s).core, e)
  {
    StepKeeps(w, s);
    match s
    case Ambient(a) => AmbientKeepsEffect(w.core, a);
    case Read(_) =>
    case _ => if !w.core.env.closed { StepKeepsClose(w, s); }
  }

  lemma QuietStep(w: World, s: Step, i: nat, e: Effect)
    requires Enabled(w, s) && Untouched(w, i, e) && (s.Ambient? || s.Read?)
    ensures Untouched(Apply(w, s), i, e) && !ReclaimLands(w, s)
  {
    if s.Ambient? { AmbientKeepsEffect(w.core, s.a); }
  }

  /** What a step by anyone does to an untouched claim. */
  lemma MovedClaim(w: World, s: Step, i: nat, e: Effect)
    requires Inv(w) && Enabled(w, s) && Untouched(w, i, e) && !s.Ambient? && !s.Read?
    ensures ReclaimLands(w, s) ==> Superseded(Apply(w, s).core, e)
    ensures !ReclaimLands(w, s) ==> Apply(w, s).core.row.effect == e && !MoveOf(w, s).proc.pc.FinishingClose?
  {
    CallerWaits(w.core, w.procs[i]);
    StepKeepsClose(w, s);
    ReclaimIsSeen(w, s);
  }

  lemma MovingStep(w: World, s: Step, i: nat, e: Effect)
    requires Inv(w) && Enabled(w, s) && Untouched(w, i, e) && CloseClaimAt(Apply(w, s), i) && !s.Ambient? && !s.Read?
    ensures if ReclaimLands(w, s) then Superseded(Apply(w, s).core, e) else Untouched(Apply(w, s), i, e)
  {
    MovedClaim(w, s, i, e);
  }

  /** While its taker waits, a claim stays untouched but for a reclaim. */
  lemma UntouchedStep(w: World, s: Step, i: nat, e: Effect)
    requires Inv(w) && Enabled(w, s) && Untouched(w, i, e) && CloseClaimAt(Apply(w, s), i)
    ensures if ReclaimLands(w, s) then Superseded(Apply(w, s).core, e) else Untouched(Apply(w, s), i, e)
  {
    if s.Ambient? || s.Read? { QuietStep(w, s, i, e); } else { MovingStep(w, s, i, e); }
  }

  lemma OnlyReclaimFollows(w: World, s: Step)
    requires Enabled(w, s) && !s.Ambient? && !s.Read? && w.procs[s.i].pc.Reclaiming?
    ensures s.Close? && s.c.ReclaimClose?
  {
  }

  /** Reclaiming writes the row exactly when it changes the claim. */
  lemma ReclaimWrites(c: Core, p: Proc, x: CloseStep)
    requires CanClose(c, p, x) && x.ReclaimClose? && c.row.effect.kind.CloseKind?
    ensures DoClose(c, p, x).core.row != c.row <==> DoClose(c, p, x).core.row.effect != c.row.effect
  {
  }

  lemma NoAnswerYet(c: Core, p: Proc)
    requires RowOk(c) && ProcOk(c, p) && c.env.closeCalls == 0
    ensures !p.pc.Closing?
  {
  }

  /** With no call answered yet, a step that does not reclaim leaves the claim. */
  lemma OthersLeaveClaim(w: World, s: Step)
    requires Enabled(w, s) && !s.Ambient? && !s.Read? && !(s.Close? && s.c.ReclaimClose?)
    requires KeepsClose(w.core, w.procs[s.i], MoveOf(w, s)) && !w.procs[s.i].pc.FinishingClose? && !w.procs[s.i].pc.Closing?
    ensures MoveOf(w, s).core.row.effect == w.core.row.effect && !MoveOf(w, s).proc.pc.FinishingClose?
  {
    if w.procs[s.i].pc.Reclaiming? { OnlyReclaimFollows(w, s); }
  }

  /** With no call answered yet, the effect changes only when a reclaim lands. */
  lemma ReclaimIsSeen(w: World, s: Step)
    requires Inv(w) && Enabled(w, s) && !s.Ambient? && !s.Read? && w.core.row.effect.kind.CloseKind?
    requires w.core.env.closeCalls == 0 && !w.procs[s.i].pc.FinishingClose?
    ensures ReclaimLands(w, s) <==> Apply(w, s).core.row.effect != w.core.row.effect
    ensures MoveOf(w, s).proc.pc.FinishingClose? ==> ReclaimLands(w, s)
  {
    NoAnswerYet(w.core, w.procs[s.i]);
    StepKeepsClose(w, s);
    if s.Close? && s.c.ReclaimClose? { ReclaimWrites(w.core, w.procs[s.i], s.c); } else { OthersLeaveClaim(w, s); }
  }

  /** Process i waits from taking its claim until it makes its call. */
  lemma StillWaiting(ws: seq<World>, ss: seq<Step>, m: nat, k: nat, i: nat)
    requires History(ws, ss) && m < k < |ws| && CloseClaimAt(ws[m], i) && CloseClaimAt(ws[k], i)
    ensures CloseClaimAt(ws[m + 1], i)
  {
    Reachable(ws, ss, k);
    assert ProcOk(ws[k].core, ws[k].procs[i]);
    CallerWaits(ws[k].core, ws[k].procs[i]);
    Onward(ws, ss, m + 1, k);
    WaiterCalls(ws[m], ss[m], i);
  }

  lemma WaiterCalls(w: World, s: Step, i: nat)
    requires Enabled(w, s) && CloseClaimAt(w, i)
    ensures CloseClaimAt(Apply(w, s), i) || Apply(w, s).core.env.closeCalls > 0
  {
  }

  ghost predicate NoReclaim(ws: seq<World>, ss: seq<Step>, j: nat, k: nat)
    requires History(ws, ss) && k <= |ss|
  {
    forall m :: j < m < k ==> !ReclaimLands(ws[m], ss[m])
  }

  ghost predicate Waits(ws: seq<World>, j: nat, k: nat, i: nat)
    requires k < |ws|
  {
    forall m :: j < m <= k ==> CloseClaimAt(ws[m], i)
  }

  lemma {:induction false} WaitsThroughout(ws: seq<World>, ss: seq<Step>, j: nat, n: nat, k: nat, i: nat)
    requires History(ws, ss) && j < n <= k < |ws| && CloseClaimAt(ws[j + 1], i) && CloseClaimAt(ws[k], i)
    ensures Waits(ws, j, n, i)
  {
    if j + 1 < n {
      WaitsThroughout(ws, ss, j, n - 1, k, i);
      StillWaiting(ws, ss, n - 1, k, i);
    }
  }

  /** What each step does to the claim, when reclaims says which steps reclaim. */
  ghost predicate Steps(ws: seq<World>, reclaims: seq<bool>, j: nat, k: nat, i: nat, e: Effect)
    requires k < |ws| && |reclaims| + 1 == |ws|
  {
    forall m :: j < m < k ==>
      (Superseded(ws[m].core, e) ==> Superseded(ws[m + 1].core, e)) &&
      (Untouched(ws[m], i, e) ==> if reclaims[m] then Superseded(ws[m + 1].core, e) else Untouched(ws[m + 1], i, e))
  }

  lemma {:induction false} ClaimSince(ws: seq<World>, reclaims: seq<bool>, j: nat, k: nat, i: nat, e: Effect)
    requires j < k < |ws| && |reclaims| + 1 == |ws| && Steps(ws, reclaims, j, k, i, e) && Untouched(ws[j + 1], i, e)
    ensures if true in reclaims[j + 1..k] then Superseded(ws[k].core, e) else Untouched(ws[k], i, e)
  {
    if j + 1 < k {
      ClaimSince(ws, reclaims, j, k - 1, i, e);
      assert reclaims[j + 1..k] == reclaims[j + 1..k - 1] + [reclaims[k - 1]];
    }
  }

  ghost function Reclaims(ws: seq<World>, ss: seq<Step>): (reclaims: seq<bool>)
    requires History(ws, ss)
    ensures |reclaims| == |ss| && forall m :: 0 <= m < |ss| ==> reclaims[m] == ReclaimLands(ws[m], ss[m])
  {
    seq(|ss|, m requires 0 <= m < |ss| && Enabled(ws[m], ss[m]) => ReclaimLands(ws[m], ss[m]))
  }

  lemma HistoryStep(w: World, s: Step, i: nat, e: Effect)
    requires Inv(w) && Enabled(w, s) && CloseClaimAt(Apply(w, s), i)
    ensures Superseded(w.core, e) ==> Superseded(Apply(w, s).core, e)
    ensures Untouched(w, i, e) ==>
      if ReclaimLands(w, s) then Superseded(Apply(w, s).core, e) else Untouched(Apply(w, s), i, e)
  {
    if Superseded(w.core, e) { SupersededStays(w, s, e); }
    if Untouched(w, i, e) { UntouchedStep(w, s, i, e); }
  }

  lemma HistorySteps(ws: seq<World>, ss: seq<Step>, j: nat, k: nat, i: nat, e: Effect)
    requires History(ws, ss) && j < k < |ws| && Waits(ws, j, k, i)
    ensures Steps(ws, Reclaims(ws, ss), j, k, i, e)
  {
    forall m | j < m < k
      ensures Superseded(ws[m].core, e) ==> Superseded(ws[m + 1].core, e)
      ensures Untouched(ws[m], i, e) ==>
        if Reclaims(ws, ss)[m] then Superseded(ws[m + 1].core, e) else Untouched(ws[m + 1], i, e)
    {
      Reachable(ws, ss, m);
      assert CloseClaimAt(ws[m + 1], i);
      HistoryStep(ws[m], ss[m], i, e);
    }
  }

  lemma SupersededDiffers(c: Core, e: Effect)
    requires RowOk(c) && Superseded(c, e) && e.kind.CloseKind?
    ensures c.row.effect != e
  {
  }

  lemma NoneReclaims(ws: seq<World>, ss: seq<Step>, j: nat, k: nat)
    requires History(ws, ss) && j < k < |ws|
    ensures NoReclaim(ws, ss, j, k) <==> true !in Reclaims(ws, ss)[j + 1..k]
  {
    var part := Reclaims(ws, ss)[j + 1..k];
    forall m | j < m < k ensures part[m - j - 1] == ReclaimLands(ws[m], ss[m]) { }
    forall n | 0 <= n < |part| ensures part[n] == ReclaimLands(ws[j + 1 + n], ss[j + 1 + n]) { }
  }

  lemma ClaimUntilCalled(ws: seq<World>, ss: seq<Step>, j: nat, k: nat, i: nat)
    requires History(ws, ss) && j < k < |ss| && TakesClose(ws[j], ss[j], i) && Waits(ws, j, k, i)
    ensures var e := ws[j + 1].core.row.effect;
      e.kind.CloseKind? && if NoReclaim(ws, ss, j, k) then Untouched(ws[k], i, e) else Superseded(ws[k].core, e)
  {
    var e := ws[j + 1].core.row.effect;
    Reachable(ws, ss, j);
    TakingIsUntouched(ws[j], ss[j], i);
    HistorySteps(ws, ss, j, k, i, e);
    ClaimSince(ws, Reclaims(ws, ss), j, k, i, e);
    NoneReclaims(ws, ss, j, k);
  }

  /** When a workspace close is called, the claim its caller took still stands if
      and only if no other process has reclaimed the close since. */
  lemma CloseClaimStandsExactly(ws: seq<World>, ss: seq<Step>, j: nat, k: nat, i: nat)
    requires History(ws, ss) && j < k < |ss| && TakesClose(ws[j], ss[j], i)
    requires CallsClose(ss[k]) && ss[k].i == i
    ensures ws[k].core.row.effect == ws[j + 1].core.row.effect <==> NoReclaim(ws, ss, j, k)
  {
    var e := ws[j + 1].core.row.effect;
    WaitsThroughout(ws, ss, j, k, k, i);
    ClaimUntilCalled(ws, ss, j, k, i);
    Reachable(ws, ss, k);
    if Superseded(ws[k].core, e) { SupersededDiffers(ws[k].core, e); }
  }
}
