/** The store itself: tables that every call checks and updates in place. Each
    method is one transaction. It leaves what the same call on the store as a value
    leaves, so every event log goes on replaying to its row, every accepted
    occurrence keeps its own run, no finished outcome or written receipt changes and
    no job's authority or cursor goes back. */
module DurableStore {
  import opened Options
  import opened Rows
  import opened RowWrites
  import opened Admission
  import opened Ledger
  import opened LedgerLaws
  import opened LedgerTheorems

  /** Serving q on run id leads from a to b, and tells the caller `answer`. */
  ghost predicate Did(a: Db, id: nat, q: Request, now: Time, b: Db, answer: Answer) {
    WriteRow(a, id, q, now) == After(b, Told(answer))
  }

  /** What every call keeps, whoever makes it. */
  ghost predicate Keeps(a: Db, b: Db) {
    RunsKept(a, b) && AuthorityGrows(a, b)
  }

  ghost predicate Sound(db: Db) {
    LogsOk(db) && OccurrencesOk(db)
  }

  lemma CallIsLawful(db: Db, c: Call)
    requires Sound(db)
    ensures Sound(Perform(db, c).db) && Keeps(db, Perform(db, c).db)
  {
    CallKeepsLogs(db, c);
    CallKeepsOccurrences(db, c);
    CallKeepsRuns(db, c);
    CallGrows(db, c);
  }

  lemma AcceptTxKeepsRuns(db: Db, req: AcceptRequest)
    ensures RunsKept(db, AcceptTx(db, req).db)
  {
    AcceptTxAccepts(db, req);
  }

  lemma AcceptTxKeepsLogs(db: Db, req: AcceptRequest)
    requires LogsOk(db)
    ensures LogsOk(AcceptTx(db, req).db)
  {
    AcceptTxAccepts(db, req);
    if !Shows(db, AcceptTx(db, req).db, Same) {
      GrownKeepsLogs(db, AcceptTx(db, req).db, AboutOf(req, req.trigger), req.source);
    }
  }

  lemma AcceptIsLawful(db: Db, req: AcceptRequest)
    requires Sound(db)
    ensures Sound(AcceptTx(db, req).db) && Keeps(db, AcceptTx(db, req).db)
  {
    AcceptTxKeepsLogs(db, req);
    AcceptTxKeepsRuns(db, req);
    AcceptTxAdds(db, req);
    AddedKeepsOccurrences(db, AcceptTx(db, req).db, req);
    AcceptTxGrows(db, req);
  }

  class Store {
    var jobs: map<Token, Job>
    var occurrences: map<Key, Occurrence>
    var runs: seq<Row>
    var events: seq<Logged>
    var halted: bool

    ghost function Contents(): Db
      reads this
    {
      Db(jobs, occurrences, runs, events, halted)
    }

    /** Every log replays to its row, every accepted occurrence has its own run. */
    ghost predicate Valid()
      reads this
    {
      Sound(Contents())
    }

    constructor ()
      ensures Valid() && Contents() == EmptyDb
    {
      jobs, occurrences, runs, events, halted := map[], map[], [], [], false;
    }

    // --- Reading --------------------------------------------------------

    /** SELECT COUNT(*) FROM runs WHERE ... */
    method CountRuns(t: Test) returns (n: nat)
      ensures n == Count(runs, t)
    {
      n := 0;
      for i := 0 to |runs|
        invariant n == Count(runs[..i], t)
      {
        assert runs[..i + 1][..i] == runs[..i];
        if Meets(t, runs[i]) { n := n + 1; }
      }
      assert runs[..|runs|] == runs;
    }

    /** The rows the allocator counts. */
    method SelectActive() returns (active: seq<Row>)
      ensures active == ActiveRows(runs)
    {
      active := [];
      for i := 0 to |runs|
        invariant active == ActiveRows(runs[..i])
      {
        assert runs[..i + 1][..i] == runs[..i];
        if Active(runs[i].state) { active := active + [runs[i]]; }
      }
      assert runs[..|runs|] == runs;
    }

    /** The run's latest event, found from the end of the table. */
    method LastEvent(id: nat) returns (last: Option<Entry>)
      ensures last == LastOf(LogOf(events, id))
    {
      var n := |events|;
      assert events[..n] == events;
      while n > 0
        invariant n <= |events| && LastOf(LogOf(events[..n], id)) == LastOf(LogOf(events, id))
      {
        assert events[..n][..n - 1] == events[..n - 1];
        if events[n - 1].run == id { return Some(events[n - 1].entry); }
        n := n - 1;
      }
      last := None;
    }

    // --- Writing a row --------------------------------------------------

    method Save(id: nat, run: Row)
      requires id < |runs|
      modifies this
      ensures Contents() == Put(old(Contents()), id, Wrote(run, []))
    {
      runs := runs[id := run];
      assert events + Tagged(id, []) == events;
    }

    method SaveAndNote(id: nat, run: Row, entry: Entry)
      requires id < |runs|
      modifies this
      ensures Contents() == Put(old(Contents()), id, Wrote(run, [entry]))
    {
      runs := runs[id := run];
      assert Tagged(id, [entry]) == [Logged(id, entry)];
      events := events + [Logged(id, entry)];
    }

    method RenewProvisioningClaim(id: nat, owner: Token, now: Time, until: Time) returns (answer: Answer)
      requires Valid()
      modifies this
      ensures Did(old(Contents()), id, DoRenew(owner, until), now, Contents(), answer)
      ensures Valid() && Keeps(old(Contents()), Contents())
    {
      CallIsLawful(Contents(), Writing(id, DoRenew(owner, until), now));
      if id >= |runs| { return Conflict; }
      if !ValidProvisioningLease(owner, now, until) { return BadRequest; }
      var run := runs[id];
      if !(run.state.Provisioning? || run.state.Starting?) || run.lease.owner != owner || run.lease.until <= now {
        return Conflict;
      }
      Save(id, run.(lease := Lease(owner, until), updatedAt := now));
      answer := Applied;
    }

    method SetProvisionPlan(id: nat, owner: Token, branch: Token, now: Time) returns (answer: Answer)
      requires Valid()
      modifies this
      ensures Did(old(Contents()), id, DoSavePlan(owner, branch), now, Contents(), answer)
      ensures Valid() && Keeps(old(Contents()), Contents())
    {
      CallIsLawful(Contents(), Writing(id, DoSavePlan(owner, branch), now));
      if id >= |runs| { return Conflict; }
      if owner == 0 || branch == 0 { return BadRequest; }
      var run := runs[id];
      if !run.state.Provisioning? || run.lease.owner != owner || run.lease.until <= now { return Conflict; }
      Save(id, run.(place := run.place.(branch := branch), updatedAt := now));
      answer := Applied;
    }

    method SetSourceContext(id: nat, source: Token, now: Time) returns (answer: Answer)
      requires Valid()
      modifies this
      ensures Did(old(Contents()), id, DoSaveSource(source), now, Contents(), answer)
      ensures Valid() && Keeps(old(Contents()), Contents())
    {
      CallIsLawful(Contents(), Writing(id, DoSaveSource(source), now));
      if id >= |runs| { return Conflict; }
      var run := runs[id];
      if !run.state.Accepted? && !run.state.Provisioning? { return Conflict; }
      Save(id, run.(source := source, updatedAt := now));
      answer := Applied;
    }

    method SetPartialReceipt(id: nat, owner: Token, ws: Token, pane: Token, branch: Token, now: Time) returns (answer: Answer)
      requires Valid()
      modifies this
      ensures Did(old(Contents()), id, DoSavePartialReceipt(owner, ws, pane, branch), now, Contents(), answer)
      ensures Valid() && Keeps(old(Contents()), Contents())
    {
      CallIsLawful(Contents(), Writing(id, DoSavePartialReceipt(owner, ws, pane, branch), now));
      if id >= |runs| { return Conflict; }
      if owner == 0 || ws == 0 || branch == 0 { return BadRequest; }
      var run := runs[id];
      if !run.state.Provisioning? || run.lease.owner != owner || run.lease.until <= now { return Conflict; }
      Save(id, run.(place := run.place.(ws := ws, pane := pane, branch := branch), updatedAt := now));
      answer := Applied;
    }

    method SetReceipt(id: nat, owner: Token, place: Place, marker: Token, now: Time) returns (answer: Answer)
      requires Valid()
      modifies this
      ensures Did(old(Contents()), id, DoSaveReceipt(owner, place, marker), now, Contents(), answer)
      ensures Valid() && Keeps(old(Contents()), Contents())
    {
      CallIsLawful(Contents(), Writing(id, DoSaveReceipt(owner, place, marker), now));
      if id >= |runs| { return Conflict; }
      if owner == 0 { return BadRequest; }
      var run := runs[id];
      if !run.state.Provisioning? || run.lease.owner != owner || run.lease.until <= now { return Conflict; }
      SaveAndNote(id, run.(state := Starting, place := place, marker := marker, updatedAt := now),
                  Entry(Was(Provisioning), Starting, now, NoCode, 0));
      answer := Applied;
    }

    method RecoverProvisioningWorkspace(id: nat, branch: Token, ws: Token, path: Token, now: Time) returns (answer: Answer)
      requires Valid()
      modifies this
      ensures Did(old(Contents()), id, DoRecoverWorkspace(branch, ws, path), now, Contents(), answer)
      ensures Valid() && Keeps(old(Contents()), Contents())
    {
      CallIsLawful(Contents(), Writing(id, DoRecoverWorkspace(branch, ws, path), now));
      if id >= |runs| { return Conflict; }
      if branch == 0 || ws == 0 { return BadRequest; }
      var run := runs[id];
      if !run.state.Provisioning? || run.place.branch != branch || !Unowned(run, now) || run.effect.owner != 0 {
        return Conflict;
      }
      Save(id, run.(place := run.place.(ws := ws, path := path), updatedAt := now));
      answer := Applied;
    }

    method ConfirmStartingClaim(id: nat, owner: Token, detail: Token, now: Time) returns (answer: Answer)
      requires Valid()
      modifies this
      ensures Did(old(Contents()), id, DoConfirmStarting(owner, detail), now, Contents(), answer)
      ensures Valid() && Keeps(old(Contents()), Contents())
    {
      CallIsLawful(Contents(), Writing(id, DoConfirmStarting(owner, detail), now));
      if id >= |runs| { return Conflict; }
      if owner == 0 { return BadRequest; }
      var run := runs[id];
      if !run.state.Starting? || run.lease.owner != owner || run.lease.until <= now || run.effect.owner != 0 {
        return Conflict;
      }
      SaveAndNote(id, run.(state := Running, lease := NoLease, updatedAt := now),
                  Entry(Was(Starting), Running, now, NoCode, detail));
      answer := Applied;
    }

    method ConfirmExpiredStart(id: nat, detail: Token, now: Time) returns (answer: Answer)
      requires Valid()
      modifies this
      ensures Did(old(Contents()), id, DoConfirmExpiredStart(detail), now, Contents(), answer)
      ensures Valid() && Keeps(old(Contents()), Contents())
    {
      CallIsLawful(Contents(), Writing(id, DoConfirmExpiredStart(detail), now));
      if id >= |runs| { return Conflict; }
      var run := runs[id];
      if !run.state.Starting? || !Unowned(run, now) || run.effect.owner != 0 { return Conflict; }
      SaveAndNote(id, run.(state := Running, lease := NoLease, updatedAt := now),
                  Entry(Was(Starting), Running, now, NoCode, detail));
      answer := Applied;
    }

    /** Finishing a run whose claim is also given up, as several methods do. */
    method Retire(id: nat, intent: Intent, now: Time, code: Code)
      requires id < |runs|
      modifies this
      ensures Contents() == Put(old(Contents()), id, Wrote(Retired(old(runs)[id], intent, now).(lease := NoLease),
                                                           [Ended(old(runs)[id], intent, now, code)]))
    {
      var run := runs[id];
      SaveAndNote(id, Retired(run, intent, now).(lease := NoLease), Ended(run, intent, now, code));
    }

    method FinishClaim(id: nat, from: State, owner: Token, intent: Intent, now: Time) returns (answer: Answer)
      requires Valid()
      modifies this
      ensures Did(old(Contents()), id, DoFinishClaim(from, owner, intent), now, Contents(), answer)
      ensures Valid() && Keeps(old(Contents()), Contents())
    {
      CallIsLawful(Contents(), Writing(id, DoFinishClaim(from, owner, intent), now));
      if id >= |runs| { return Conflict; }
      if owner == 0 || !Terminal(intent.state) || !(from.Provisioning? || from.Starting?) { return BadRequest; }
      var run := runs[id];
      if run.state != from || run.lease.owner != owner || run.lease.until <= now { return Conflict; }
      Retire(id, intent, now, if from.Starting? then intent.result.code else NoCode);
      answer := Applied;
    }

    method InterruptExpiredProvisioning(id: nat, detail: Token, now: Time) returns (answer: Answer)
      requires Valid()
      modifies this
      ensures Did(old(Contents()), id, DoInterruptProvisioning(detail), now, Contents(), answer)
      ensures Valid() && Keeps(old(Contents()), Contents())
    {
      CallIsLawful(Contents(), Writing(id, DoInterruptProvisioning(detail), now));
      if id >= |runs| { return Conflict; }
      var run := runs[id];
      if !run.state.Provisioning? || run.place.ws != 0 || !Unowned(run, now) || run.effect.owner != 0 { return Conflict; }
      Retire(id, LostProvisioning(detail), now, NoCode);
      answer := Applied;
    }

    method InterruptExpiredStart(id: nat, code: Code, detail: Token, now: Time) returns (answer: Answer)
      requires Valid()
      modifies this
      ensures Did(old(Contents()), id, DoInterruptStarting(code, detail), now, Contents(), answer)
      ensures Valid() && Keeps(old(Contents()), Contents())
    {
      CallIsLawful(Contents(), Writing(id, DoInterruptStarting(code, detail), now));
      if id >= |runs| { return Conflict; }
      var run := runs[id];
      if !run.state.Starting? || !Unowned(run, now) || run.effect.owner != 0 { return Conflict; }
      Retire(id, Intent(Interrupted, Result(InfraUncertain, AgentNotStarted, Unverified, code, detail)), now, code);
      answer := Applied;
    }

    /** Explicit recovery: every bound column must still equal the observed row. */
    method InterruptRecoveredProvisioning(id: nat, observed: Row, now: Time) returns (answer: Answer)
      requires Valid()
      modifies this
      ensures Did(old(Contents()), id, DoInterruptRecovered(observed), now, Contents(), answer)
      ensures Valid() && Keeps(old(Contents()), Contents())
    {
      CallIsLawful(Contents(), Writing(id, DoInterruptRecovered(observed), now));
      if id >= |runs| { return Conflict; }
      if !RecoverableShape(observed, now) || observed.effect.until > now { return BadRequest; }
      var run := runs[id];
      if !SameBoundFields(run, observed) || !RecoverableShape(run, now) { return Conflict; }
      Retire(id, RecoveredByHand(), now, ExplicitRecovery);
      answer := Applied;
    }

    method Transition(id: nat, from: State, to: State, detail: Token, now: Time) returns (answer: Answer)
      requires Valid()
      modifies this
      ensures Did(old(Contents()), id, DoTransition(from, to, detail), now, Contents(), answer)
      ensures Valid() && Keeps(old(Contents()), Contents())
    {
      CallIsLawful(Contents(), Writing(id, DoTransition(from, to, detail), now));
      if id >= |runs| { return Conflict; }
      if Terminal(from) || Terminal(to) { return BadRequest; }
      var run := runs[id];
      if run.state != from || run.effect.owner != 0 { return Conflict; }
      SaveAndNote(id, run.(state := to, updatedAt := now), Entry(Was(from), to, now, NoCode, detail));
      answer := Applied;
    }

    method Finish(id: nat, from: State, intent: Intent, now: Time) returns (answer: Answer)
      requires Valid()
      modifies this
      ensures Did(old(Contents()), id, DoFinishRun(from, intent), now, Contents(), answer)
      ensures Valid() && Keeps(old(Contents()), Contents())
    {
      CallIsLawful(Contents(), Writing(id, DoFinishRun(from, intent), now));
      if id >= |runs| { return Conflict; }
      if !Terminal(intent.state) || Terminal(from) { return BadRequest; }
      var run := runs[id];
      if run.state != from || run.effect.owner != 0 { return Conflict; }
      SaveAndNote(id, Retired(run, intent, now).(lease := NoLease, effect := NoEffect), Ended(run, intent, now, NoCode));
      answer := Applied;
    }

    method ClaimWorkspaceClose(id: nat, from: State, owner: Token, claim: Token, intent: Intent, now: Time, until: Time)
        returns (answer: Answer)
      requires Valid()
      modifies this
      ensures Did(old(Contents()), id, DoClaimClose(from, owner, claim, intent, until), now, Contents(), answer)
      ensures Valid() && Keeps(old(Contents()), Contents())
    {
      CallIsLawful(Contents(), Writing(id, DoClaimClose(from, owner, claim, intent, until), now));
      if id >= |runs| { return Conflict; }
      if Terminal(from) || !ValidEffectLease(owner, now, until) { return BadRequest; }
      var run := runs[id];
      if run.state != from || !NoEffectFields(run) || !Unowned(run, now) { return Conflict; }
      Save(id, run.(effect := Effect(owner, claim, CloseKind, until, CloseIntent(intent)), updatedAt := now));
      answer := Applied;
    }

    method ClaimLateProvisioningCleanup(id: nat, owner: Token, claim: Token, place: Place, intent: Intent, now: Time, until: Time)
        returns (answer: Answer)
      requires Valid()
      modifies this
      ensures Did(old(Contents()), id, DoClaimLate(owner, claim, place, intent, until), now, Contents(), answer)
      ensures Valid() && Keeps(old(Contents()), Contents())
    {
      CallIsLawful(Contents(), Writing(id, DoClaimLate(owner, claim, place, intent, until), now));
      if id >= |runs| { return Conflict; }
      if place.ws == 0 || place.branch == 0 || !ValidEffectLease(owner, now, until) { return BadRequest; }
      var run := runs[id];
      if run.place.ws != 0 || !run.effect.kind.NoKind? { return Conflict; }
      var saved := intent;
      if Terminal(run.state) {
        saved := OutcomeOf(run);
      } else if !run.state.Provisioning? || (run.lease.owner != owner && run.lease.until > now) {
        return Conflict;
      }
      if !NoEffectFields(run) { return Conflict; }
      SaveAndNote(id, run.(place := place, unread := true, updatedAt := now,
                           effect := Effect(owner, claim, CloseKind, until, CloseIntent(saved))),
                  Entry(Was(run.state), run.state, now, LateCleanupClaimed, 0));
      answer := Applied;
    }

    method ReclaimEffect(id: nat, from: State, kind: EffectKind, owner: Token, claim: Token, now: Time, until: Time)
        returns (answer: Answer)
      requires Valid()
      modifies this
      ensures Did(old(Contents()), id, DoReclaim(from, kind, owner, claim, until), now, Contents(), answer)
      ensures Valid() && Keeps(old(Contents()), Contents())
    {
      CallIsLawful(Contents(), Writing(id, DoReclaim(from, kind, owner, claim, until), now));
      if id >= |runs| { return Conflict; }
      if !kind.CloseKind? || !ValidEffectLease(owner, now, until) { return BadRequest; }
      var run := runs[id];
      if run.state != from || run.effect.owner == 0 || run.effect.kind != kind || run.effect.until > now || !Unowned(run, now) {
        return Conflict;
      }
      Save(id, run.(effect := run.effect.(owner := owner, claim := claim, until := until), updatedAt := now));
      answer := Applied;
    }

    method ClaimVerifier(id: nat, owner: Token, claim: Token, now: Time, until: Time) returns (answer: Answer)
      requires Valid()
      modifies this
      ensures Did(old(Contents()), id, DoClaimVerifier(owner, claim, until), now, Contents(), answer)
      ensures Valid() && Keeps(old(Contents()), Contents())
    {
      CallIsLawful(Contents(), Writing(id, DoClaimVerifier(owner, claim, until), now));
      if id >= |runs| { return Conflict; }
      if !ValidEffectLease(owner, now, until) { return BadRequest; }
      var run := runs[id];
      if !run.state.Settled? || !NoEffectFields(run) { return Conflict; }
      SaveAndNote(id, run.(state := Verifying, effect := Effect(owner, claim, VerifierKind, until, ResultPath(claim)),
                           updatedAt := now),
                  Entry(Was(Settled), Verifying, now, NoCode, 0));
      answer := Applied;
    }

    method FinishEffect(id: nat, from: State, owner: Token, claim: Token, kind: EffectKind, intent: Intent, now: Time)
        returns (answer: Answer)
      requires Valid()
      modifies this
      ensures Did(old(Contents()), id, DoFinishEffect(from, owner, claim, kind, intent), now, Contents(), answer)
      ensures Valid() && Keeps(old(Contents()), Contents())
    {
      CallIsLawful(Contents(), Writing(id, DoFinishEffect(from, owner, claim, kind, intent), now));
      if id >= |runs| { return Conflict; }
      if claim == 0 || !Terminal(intent.state) { return BadRequest; }
      if Terminal(from) && (!kind.CloseKind? || intent.state != from) { return BadRequest; }
      var run := runs[id];
      if run.state != from || run.effect.owner != owner || run.effect.claim != claim || run.effect.kind != kind ||
         run.effect.until <= now {
        return Conflict;
      }
      var done := if Terminal(from) then run.(updatedAt := now) else Retired(run, intent, now);
      SaveAndNote(id, done.(lease := NoLease, effect := NoEffect), Ended(run, intent, now, intent.result.code));
      answer := Applied;
    }

    method FinishExpiredVerifier(id: nat, intent: Intent, now: Time) returns (answer: Answer)
      requires Valid()
      modifies this
      ensures Did(old(Contents()), id, DoFinishExpiredVerifier(intent), now, Contents(), answer)
      ensures Valid() && Keeps(old(Contents()), Contents())
    {
      CallIsLawful(Contents(), Writing(id, DoFinishExpiredVerifier(intent), now));
      if id >= |runs| { return Conflict; }
      if !Terminal(intent.state) { return BadRequest; }
      var run := runs[id];
      var claimed := run.effect.kind.VerifierKind? && run.effect.until <= now;
      var legacy := run.effect.owner == 0 && run.effect.kind.NoKind?;
      if !run.state.Verifying? || !(claimed || legacy) { return Conflict; }
      var done := Retired(run, intent, now).(effect := NoEffect);
      if legacy { done := done.(review := Review(MandatoryLane, ReasonLegacyVerifier), unread := true); }
      SaveAndNote(id, done, Ended(run, intent, now, intent.result.code));
      answer := Applied;
    }

    method SetReceiptOnce(id: nat, slot: ReceiptKind, receipt: Token, now: Time) returns (answer: Answer)
      requires Valid()
      modifies this
      ensures Did(old(Contents()), id, DoSetReceiptOnce(slot, receipt), now, Contents(), answer)
      ensures Valid() && Keeps(old(Contents()), Contents())
    {
      CallIsLawful(Contents(), Writing(id, DoSetReceiptOnce(slot, receipt), now));
      if id >= |runs| { return Conflict; }
      if receipt == 0 { return BadRequest; }
      var run := runs[id];
      if Terminal(run.state) { return Conflict; }
      if ReceiptOf(run, slot) == receipt { return Unchanged; }
      if ReceiptOf(run, slot) != 0 { return Conflict; }
      var receipts := run.receipts;
      match slot {
        case AttestationReceipt => receipts := receipts.(attestation := receipt);
        case InputReceipt => receipts := receipts.(input := receipt);
        case ChangeReceipt => receipts := receipts.(change := receipt);
      }
      Save(id, run.(receipts := receipts, updatedAt := now));
      answer := Applied;
    }

    method RecordRunEvent(id: nat, code: Code, detail: Token, now: Time) returns (answer: Answer)
      requires Valid()
      modifies this
      ensures Did(old(Contents()), id, DoRecordEvent(code, detail), now, Contents(), answer)
      ensures Valid() && Keeps(old(Contents()), Contents())
    {
      CallIsLawful(Contents(), Writing(id, DoRecordEvent(code, detail), now));
      if id >= |runs| { return Conflict; }
      if code.NoCode? { return BadRequest; }
      var last := LastEvent(id);
      ghost var wr := RecordEvent(runs[id], last, code, detail, now);
      assert WriteRow(Contents(), id, DoRecordEvent(code, detail), now) == After(Put(Contents(), id, wr), Told(AnswerOf(wr)));
      if last.Some? && last.value.code == code && last.value.detail == detail { return Unchanged; }
      var run := runs[id];
      SaveAndNote(id, run.(unread := true, updatedAt := now), Entry(Was(run.state), run.state, now, code, detail));
      answer := Applied;
    }

    method MarkRead(id: nat, now: Time) returns (answer: Answer)
      requires Valid()
      modifies this
      ensures Did(old(Contents()), id, DoMarkRead, now, Contents(), answer)
      ensures Valid() && Keeps(old(Contents()), Contents())
    {
      CallIsLawful(Contents(), Writing(id, DoMarkRead, now));
      if id >= |runs| { return Conflict; }
      Save(id, runs[id].(unread := false));
      answer := Applied;
    }

    // --- Jobs -----------------------------------------------------------

    method SyncJobAuthority(a: Authority, now: Time) returns (ok: bool)
      requires Valid()
      modifies this
      ensures ok == Synced(old(Contents()), a, now).Some?
      ensures Contents() == if ok then Synced(old(Contents()), a, now).value else old(Contents())
      ensures Valid() && Keeps(old(Contents()), Contents())
    {
      CallIsLawful(Contents(), Sync(a, now));
      if a.stamped != Some(a.config) || a.config < 1 || a.hash == 0 { return false; }
      if a.job !in jobs {
        jobs := jobs[a.job := Job(a.config, a.hash, a.definition, a.enabled, Unpaused, false, now)];
        return true;
      }
      var saved := jobs[a.job];
      if a.config < saved.config { return false; }
      if a.config == saved.config { return a.hash == saved.hash && a.enabled == saved.enabled; }
      jobs := jobs[a.job := saved.(config := a.config, hash := a.hash, definition := a.definition, enabled := a.enabled,
                                   completed := false)];
      ok := true;
    }

    method RequireJobAuthority(job: Token, config: int, hash: Token, runnable: bool) returns (denial: Option<Denial>)
      ensures denial == Fence(Contents(), job, config, hash, runnable)
    {
      if job !in jobs { return Some(NoSuchJob); }
      if jobs[job].config != config || jobs[job].hash != hash { return Some(RevisionChanged); }
      if !runnable { return None; }
      if !jobs[job].enabled { return Some(NotEnabled); }
      if !jobs[job].pause.Unpaused? { return Some(NotResumed); }
      denial := if halted then Some(Halted) else None;
    }

    /** The cursor only ever moves forward. */
    method SetCursorIfAuthority(job: Token, config: int, hash: Token, cursor: Time, runnable: bool) returns (reply: Reply)
      requires Valid()
      modifies this
      ensures After(Contents(), reply) == SetCursor(old(Contents()), job, config, hash, cursor, runnable)
      ensures Valid() && Keeps(old(Contents()), Contents())
    {
      CallIsLawful(Contents(), Cursor(job, config, hash, cursor, runnable));
      var denial := RequireJobAuthority(job, config, hash, runnable);
      if denial.Some? { return Denied(denial.value); }
      if cursor > jobs[job].cursor { jobs := jobs[job := jobs[job].(cursor := cursor)]; }
      reply := Done;
    }

    method SetCompletedIfAuthority(job: Token, config: int, hash: Token, completed: bool) returns (reply: Reply)
      requires Valid()
      modifies this
      ensures After(Contents(), reply) == SetCompleted(old(Contents()), job, config, hash, completed)
      ensures Valid() && Keeps(old(Contents()), Contents())
    {
      CallIsLawful(Contents(), Complete(job, config, hash, completed));
      var denial := RequireJobAuthority(job, config, hash, true);
      if denial.Some? { return Denied(denial.value); }
      jobs := jobs[job := jobs[job].(completed := completed)];
      reply := Done;
    }

    method SetJobPaused(job: Token, paused: bool, now: Time) returns (reply: Reply)
      requires Valid()
      modifies this
      ensures After(Contents(), reply) == SetPaused(old(Contents()), job, paused, now)
      ensures Valid() && Keeps(old(Contents()), Contents())
    {
      CallIsLawful(Contents(), Pausing(job, paused, now));
      if job !in jobs { return Denied(NoSuchJob); }
      jobs := jobs[job := jobs[job].(pause := if paused then PausedManually(now) else Unpaused)];
      reply := Done;
    }

    method SetGlobalPaused(paused: bool)
      requires Valid()
      modifies this
      ensures Contents() == old(Contents()).(halted := paused)
      ensures Valid() && Keeps(old(Contents()), Contents())
    {
      CallIsLawful(Contents(), Halting(paused));
      halted := paused;
    }

    // --- Acceptance -----------------------------------------------------

    method InsertRun(about: About, source: Token)
      modifies this
      ensures Contents() == AppendRun(old(Contents()), about, source, 0)
    {
      events := events + [Logged(|runs|, Entry(New, State.Accepted, about.acceptedAt, NoCode, 0))];
      runs := runs + [NewRow(about, source)];
    }

    method FinishOccurrence(req: AcceptRequest, outcome: Outcome) returns (reply: Reply)
      modifies this
      ensures After(Contents(), reply) == Record(old(Contents()), req, outcome)
    {
      occurrences := occurrences[KeyOf(req) := Occurrence(req.scheduledFor, outcome, req.now)];
      reply := Recorded(outcome, true);
    }

    /** The unread-work guard: at the limit it pauses the job and does no more. */
    method EnforceUnreadGuard(req: AcceptRequest) returns (tripped: bool)
      modifies this
      ensures tripped == GuardTrips(old(Contents()), req)
      ensures Contents() == if tripped then TripGuard(old(Contents()), req) else old(Contents())
    {
      if req.unreadLimit <= 0 { return false; }
      var unread := CountRuns(UnreadOf(req.authority.job));
      if unread < req.unreadLimit { return false; }
      var job := req.authority.job;
      if job in jobs { jobs := jobs[job := jobs[job].(pause := PausedUnread(req.now))]; }
      tripped := true;
    }

    method AcceptOccurrence(req: AcceptRequest) returns (reply: Reply)
      requires Valid()
      modifies this
      ensures After(Contents(), reply) == AcceptTx(old(Contents()), req)
      ensures Valid() && Keeps(old(Contents()), Contents())
    {
      AcceptIsLawful(Contents(), req);
      if KeyOf(req) in occurrences { return Recorded(occurrences[KeyOf(req)].outcome, false); }
      var tripped := EnforceUnreadGuard(req);
      if tripped { return GuardTripped; }
      var job := req.authority.job;
      var today := CountRuns(AcceptedOf(job, req.dayStart, DayEnd(req)));
      if today >= req.perDay {
        reply := FinishOccurrence(req, SkippedLimit);
        return;
      }
      var open := CountRuns(OpenOf(job));
      var queued := CountRuns(QueuedOf(job));
      if (req.overlap.Forbid? && open > 0) || (req.overlap.QueueOne? && queued > 0) {
        reply := FinishOccurrence(req, SkippedOverlap);
        return;
      }
      var id := |runs|;
      InsertRun(AboutOf(req, req.trigger), req.source);
      reply := FinishOccurrence(req, AcceptedRun(id));
    }

    method AcceptScheduledOccurrence(req: AcceptRequest) returns (reply: Reply)
      requires Valid()
      modifies this
      ensures After(Contents(), reply) == AcceptScheduled(old(Contents()), req)
      ensures Valid() && Keeps(old(Contents()), Contents())
    {
      CallIsLawful(Contents(), Scheduled(req));
      if req.key == 0 || req.trigger.Event? { return Denied(Malformed); }
      var denial := RequireJobAuthority(req.authority.job, req.authority.config, req.authority.hash, true);
      if denial.Some? { return Denied(denial.value); }
      reply := AcceptOccurrence(req);
    }

    method RecordOccurrenceIfAuthority(req: AcceptRequest, outcome: Outcome) returns (reply: Reply)
      requires Valid()
      modifies this
      ensures After(Contents(), reply) == RecordOccurrence(old(Contents()), req, outcome)
      ensures Valid() && Keeps(old(Contents()), Contents())
    {
      CallIsLawful(Contents(), Recording(req, outcome));
      if req.key == 0 || outcome.AcceptedRun? { return Denied(Malformed); }
      var denial := RequireJobAuthority(req.authority.job, req.authority.config, req.authority.hash, true);
      if denial.Some? { return Denied(denial.value); }
      if KeyOf(req) in occurrences { return Recorded(occurrences[KeyOf(req)].outcome, false); }
      reply := FinishOccurrence(req, outcome);
    }

    /** An exact retry gets the first outcome back before anything else about the
        job is considered, though the job is still synchronized when it can be. */
    method EnqueueEventOccurrence(req: AcceptRequest) returns (reply: Reply)
      requires Valid()
      modifies this
      ensures After(Contents(), reply) == EnqueueEvent(old(Contents()), req)
      ensures Valid() && Keeps(old(Contents()), Contents())
    {
      CallIsLawful(Contents(), Eventful(req));
      if !req.trigger.Event? || req.key == 0 { return Denied(Malformed); }
      var known := KeyOf(req) in occurrences;
      var synced := SyncJobAuthority(req.authority, req.now);
      if known { return Recorded(occurrences[KeyOf(req)].outcome, false); }
      if !synced { return Denied(RevisionChanged); }
      var job := jobs[req.authority.job];
      if !job.enabled { return Denied(NotEnabled); }
      if !job.pause.Unpaused? { return Denied(NotResumed); }
      if halted { return Denied(Halted); }
      reply := AcceptOccurrence(req);
    }

    method CreateManualRun(req: AcceptRequest) returns (reply: Reply)
      requires Valid()
      modifies this
      ensures After(Contents(), reply) == CreateManual(old(Contents()), req)
      ensures Valid() && Keeps(old(Contents()), Contents())
    {
      CallIsLawful(Contents(), Manually(req));
      var denial := RequireJobAuthority(req.authority.job, req.authority.config, req.authority.hash, true);
      if denial.Some? { return Denied(denial.value); }
      var tripped := EnforceUnreadGuard(req);
      if tripped { return Denied(UnreadPaused); }
      var id := |runs|;
      InsertRun(AboutOf(req, Manual), 0);
      reply := Created(id);
    }

    method CreateCanaryRun(req: AcceptRequest) returns (reply: Reply)
      requires Valid()
      modifies this
      ensures After(Contents(), reply) == CreateCanary(old(Contents()), req)
      ensures Valid() && Keeps(old(Contents()), Contents())
    {
      CallIsLawful(Contents(), AsCanary(req));
      var id := |runs|;
      InsertRun(AboutOf(req, Canary), 0);
      reply := Created(id);
    }

    // --- Admission ------------------------------------------------------

    /** The ruling, or that the allocator could not read an active row. */
    method Rule(id: nat, limits: Limits, probe: Probe, detail: Token) returns (ruling: Ruling, unread: bool)
      requires id < |runs| && runs[id].about.job in jobs && runs[id].state.Accepted?
      ensures ruling == RulingFor(Contents(), id, limits, probe, detail)
      ensures unread == Undecided(Contents(), id, limits, probe)
    {
      var run, job, canary := runs[id], jobs[runs[id].about.job], runs[id].about.trigger.Canary?;
      if !job.enabled { return Withheld(canary, JobDisabled, detail), false; }
      if !job.pause.Unpaused? { return Withheld(canary, JobPaused, detail), false; }
      if halted { return Withheld(canary, GloballyPaused, detail), false; }
      if run.about.definition.Corrupt? {
        return if canary then Unstartable(Failed, InfraFailed, SnapshotInvalid, detail) else Hold, false;
      }
      if canary && !run.about.definition.overlap.Allow? {
        var open := CountRuns(OpenOf(run.about.job));
        if open > 1 { return Withheld(true, OverlapHold, detail), false; }
      }
      var active := SelectActive();
      var decision := AdmissionDecision(limits, run.about.definition, probe, active);
      unread := decision.Unreadable?;
      match decision {
        case ProbeFailure => ruling := Unstartable(Failed, InfraFailed, CapacityProbeFailed, detail);
        case HoldFor(code) => ruling := Withheld(canary, code, detail);
        case Unreadable => ruling := Hold;
        case Granted => ruling := Admit;
      }
    }

    method DecideAdmissionOf(id: nat, owner: Token, limits: Limits, probe: Probe, detail: Token, now: Time, until: Time)
        returns (reply: Reply)
      requires Valid()
      modifies this
      ensures After(Contents(), reply) == DecideAdmission(old(Contents()), id, owner, limits, probe, detail, now, until)
      ensures Valid() && Keeps(old(Contents()), Contents())
    {
      CallIsLawful(Contents(), Admitting(id, owner, limits, probe, detail, now, until));
      if !ValidProvisioningLease(owner, now, until) { return Denied(Malformed); }
      if id >= |runs| || runs[id].about.job !in jobs || !runs[id].state.Accepted? { return Claimed(false); }
      var run := runs[id];
      var ruling, unread := Rule(id, limits, probe, detail);
      if unread { return Denied(ActiveUnreadable); }
      match ruling {
        case Hold =>
        case Finish(intent) => SaveAndNote(id, Retired(run, intent, now), Ended(run, intent, now, intent.result.code));
        case Admit =>
          var device := if probe.Probed? then probe.device else 0;
          var reserve := if run.about.definition.Snapshot? then run.about.definition.reserve else 0.0;
          SaveAndNote(id, run.(state := Provisioning, lease := Lease(owner, until), disk := Disk(device, reserve),
                               updatedAt := now),
                      Entry(Was(Accepted), Provisioning, now, NoCode, 0));
      }
      reply := Claimed(ruling.Admit?);
    }
  }
}
