/** What a run's executor can still do once its provisioning claim has expired:
    exactly which of its steps land, before and after another process has
    recovered the run. */
module EngineFencing {
  import opened Rows
  import opened RowWrites
  import opened Engine
  import opened EngineInvariant
  import opened EngineTheorems
  import opened EngineStore

  /** The store request a step makes is carried out. */
  predicate Landed(c: Core, a: Asked) {
    a.Asks? && Serve(c.row, Last(c.log), a.q, a.at).Wrote?
  }

  /** The two writes expiry does not stop: the claim to clean up a workspace the
      row does not name yet, and a first staged-input receipt on a run that is
      not over. */
  predicate Unstoppable(r: Row, x: ExecuteStep) {
    (x.PersistLate? && r.place.ws == 0) ||
    (x.StageInputs? && x.receipt.Some? && x.receipt.value != 0 && r.receipts.input == 0 && !Terminal(r.state))
  }

  lemma FencedClaimWrites(c: Core, p: Proc, x: ExecuteStep)
    requires RowOk(c) && ProcOk(c, p) && Fenced(c) && CanExecute(c, p, x) && !Saves(x)
    ensures !Landed(c, AskedByExecute(c, p, x))
  {
  }

  lemma FencedSavingWrites(c: Core, p: Proc, x: ExecuteStep)
    requires RowOk(c) && ProcOk(c, p) && Fenced(c) && CanExecute(c, p, x) && Saves(x)
    ensures Landed(c, AskedByExecute(c, p, x)) <==>
      Unstoppable(c.row, x) || (x.PersistSource? && c.row.state.Provisioning?)
  {
  }

  /** Once the claim has expired, exactly these writes of its executor land; the
      one besides the unstoppable two is source context, while the row is still
      provisioning. */
  lemma FencedExecutorExactly(c: Core, p: Proc, x: ExecuteStep)
    requires RowOk(c) && ProcOk(c, p) && Fenced(c) && CanExecute(c, p, x)
    ensures Landed(c, AskedByExecute(c, p, x)) <==>
      Unstoppable(c.row, x) || (x.PersistSource? && c.row.state.Provisioning?)
  {
    if Saves(x) { FencedSavingWrites(c, p, x); } else { FencedClaimWrites(c, p, x); }
  }

  // --- After a recovery step --------------------------------------------

  /** A step that recovers an expired provisioning or starting claim, or an
      expired close on such a row, and lands. */
  predicate Recovers(w: World, s: Step)
    requires Enabled(w, s)
  {
    match s
    case Recover(i, r) => !r.FinishUnstarted? && Landed(w.core, AskedByRecover(w.core, w.procs[i], r))
    case Close(i, x) =>
      (x.StartClose? || x.ReclaimClose?) && Claimed(w.core.row.state) && Landed(w.core, AskedByClose(w.core, w.procs[i], x))
    case _ => false
  }

  /** The run is fenced, and either names a workspace or is past provisioning. */
  predicate Overtaken(c: Core) {
    Fenced(c) && (c.row.place.ws != 0 || Rank(c.row.state) > Rank(Provisioning))
  }

  lemma RecoverOvertakes(c: Core, p: Proc, r: RecoverStep)
    requires RowOk(c) && ProcOk(c, p) && CanRecover(c, p, r) && !r.FinishUnstarted?
    requires Landed(c, AskedByRecover(c, p, r))
    ensures Overtaken(DoRecover(c, p, r).core)
  {
  }

  lemma CloseOvertakes(c: Core, p: Proc, x: CloseStep)
    requires RowOk(c) && ProcOk(c, p) && CanClose(c, p, x) && (x.StartClose? || x.ReclaimClose?) && Claimed(c.row.state)
    requires Landed(c, AskedByClose(c, p, x))
    ensures Overtaken(DoClose(c, p, x).core)
  {
  }

  lemma RecoveryOvertakes(w: World, s: Step)
    requires Inv(w) && Enabled(w, s) && Recovers(w, s)
    ensures Overtaken(Apply(w, s).core)
  {
    assert ProcOk(w.core, w.procs[s.i]);
    if s.Recover? { RecoverOvertakes(w.core, w.procs[s.i], s.r); } else { CloseOvertakes(w.core, w.procs[s.i], s.c); }
  }

  lemma OvertakenStays(a: Core, b: Core)
    requires Overtaken(a) && Evolves(a, b)
    ensures Overtaken(b)
  {
  }

  /** Source context is saved before the plan, so never on a recovered run. */
  lemma SourceComesFirst(c: Core, p: Proc)
    requires RowOk(c) && ProcOk(c, p) && p.pc.Probe?
    ensures !(Overtaken(c) && c.row.state.Provisioning?)
  {
  }

  /** What landing means for the row. */
  lemma UnstoppableChanges(c: Core, p: Proc, x: ExecuteStep)
    requires RowOk(c) && ProcOk(c, p) && CanExecute(c, p, x) && Unstoppable(c.row, x) && Landed(c, AskedByExecute(c, p, x))
    ensures DoExecute(c, p, x).core.row != c.row
  {
  }

  /** After any recovery step that lands, whatever happens in between, a step of
      the run's executor changes the row if and only if it is the claim to clean
      up a workspace the row does not name, or a first staged-input receipt on a
      run that is not over. */
  lemma StaleExecutorExactly(ws: seq<World>, ss: seq<Step>, j: nat, k: nat)
    requires History(ws, ss) && j < k < |ss| && Recovers(ws[j], ss[j]) && ss[k].Execute?
    ensures ws[k + 1].core.row != ws[k].core.row <==> Unstoppable(ws[k].core.row, ss[k].x)
  {
    Reachable(ws, ss, j);
    Reachable(ws, ss, k);
    RecoveryOvertakes(ws[j], ss[j]);
    Onward(ws, ss, j + 1, k);
    OvertakenStays(ws[j + 1].core, ws[k].core);
    ExecutorStep(ws[k], ss[k].i, ss[k].x);
  }

  lemma ExecutorStep(w: World, i: nat, x: ExecuteStep)
    requires Inv(w) && Enabled(w, Execute(i, x)) && Overtaken(w.core)
    ensures Apply(w, Execute(i, x)).core.row != w.core.row <==> Unstoppable(w.core.row, x)
  {
    var c, p := w.core, w.procs[i];
    assert ProcOk(c, p);
    FencedExecutorExactly(c, p, x);
    ExecuteIsServed(c, p, x);
    if x.PersistSource? { SourceComesFirst(c, p); }
    if Unstoppable(c.row, x) { UnstoppableChanges(c, p, x); }
  }
}
