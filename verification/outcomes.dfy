/** Which outcome an evaluation gives an occurrence, in terms of its moment, the
    source gate and the rows of the store, and of nothing else. */
module Outcomes {
  import opened Rows
  import opened Ledger
  import opened LedgerLaws
  import opened LedgerTheorems
  import opened Schedule
  import opened Acceptance

  /** What the source-revision gate of a run-if-changed job says of an occurrence. */
  datatype Gate = NoGate | LookupFails | SameSource | NewSource(source: Token)

  /** What an evaluation goes by: the job's requests, its schedule and catch-up grace,
      the gate, and the window from the cursor to the clock. */
  datatype Terms = Terms(
    template: AcceptRequest, kind: LawfulKind, grace: nat, gate: Token -> Gate, after: Time, now: Time)

  /** The calls an evaluation of the job makes. */
  predicate Concerns(c: Call, job: Token) {
    match c
    case Sync(a, _) => a.job == job
    case Cursor(j, _, _, _, _) => j == job
    case Complete(j, _, _, _) => j == job
    case Scheduled(req) => req.authority.job == job
    case Recording(req, _) => req.authority.job == job
    case _ => false
  }

  predicate AllConcern(calls: seq<Call>, job: Token) {
    forall i :: 0 <= i < |calls| ==> Concerns(calls[i], job)
  }

  // --- The right call for a moment --------------------------------------

  /** A poll a minute late is still on time. */
  predicate OnTime(m: Time, now: Time) {
    now <= m + 60 * 1_000_000_000
  }

  /** Neither on time nor within the grace. */
  predicate Overdue(t: Terms, m: Time) {
    !OnTime(m, t.now) && t.now > m + t.grace
  }

  /** The trigger of a run for this moment. */
  function TriggerFor(t: Terms, m: Time): Trigger {
    if !OnTime(m, t.now) then CatchUp else if t.kind.OnceKind? then Once else Cron
  }

  /** The request for an occurrence of a moment in the window, with this trigger and
      source revision. */
  function Request(t: Terms, m: Time, trigger: Trigger, source: Token): AcceptRequest {
    t.template.(key := KeyAt(t.kind, m), trigger := trigger, scheduledFor := m, source := source, now := t.now)
  }

  function SourceFor(t: Terms, m: Time): Token {
    var gate := t.gate(KeyAt(t.kind, m));
    if gate.NewSource? then gate.source else 0
  }

  ghost predicate InScan(t: Terms, m: Time) {
    t.after < m <= t.now && DueMoments(t.kind, t.after, t.now).Some? && m in DueMoments(t.kind, t.after, t.now).value
  }

  /** Accepting is right for a moment that is not overdue and whose source may have
      changed; recording, for an overdue one or one whose source has not. */
  ghost predicate Right(t: Terms, c: Call) {
    match c
    case Scheduled(req) =>
      var m := req.scheduledFor;
      InScan(t, m) && !Overdue(t, m) && !t.gate(KeyAt(t.kind, m)).SameSource? && !t.gate(KeyAt(t.kind, m)).LookupFails? &&
      req == Request(t, m, TriggerFor(t, m), SourceFor(t, m))
    case Recording(req, outcome) =>
      var m := req.scheduledFor;
      InScan(t, m) && req == Request(t, m, req.trigger, req.source) &&
      if Overdue(t, m) then outcome == Missed
      else outcome == SkippedUnchanged && t.gate(KeyAt(t.kind, m)).SameSource?
    case _ => true
  }

  ghost predicate AllRight(t: Terms, calls: seq<Call>) {
    forall i :: 0 <= i < |calls| ==> Right(t, calls[i])
  }

  // --- What the occurrence then says ------------------------------------

  /** The outcome of an occurrence of moment m, answered on the store db: missed
      exactly when overdue; else unchanged exactly when the gate says so; else what
      acceptance answers. */
  ghost predicate RightOutcome(t: Terms, m: Time, db: Db, outcome: Outcome) {
    if Overdue(t, m) then outcome == Missed
    else if t.gate(KeyAt(t.kind, m)).SameSource? then outcome == SkippedUnchanged
    else
      !t.gate(KeyAt(t.kind, m)).LookupFails? &&
      Answers(db, Request(t, m, TriggerFor(t, m), SourceFor(t, m)), outcome)
  }

  /** The accepted run is there, with its trigger, and queued. */
  ghost predicate RunFor(t: Terms, m: Time, outcome: Outcome, end: Db) {
    outcome.AcceptedRun? ==>
      outcome.run < |end.runs| &&
      end.runs[outcome.run] == Queued(Request(t, m, TriggerFor(t, m), SourceFor(t, m)), TriggerFor(t, m), SourceFor(t, m))
  }

  /** The occurrence is of a moment the window has, and has the right outcome on some
      store that some of these calls lead to. */
  ghost predicate RightlyRecorded(t: Terms, db: Db, calls: seq<Call>, key: Token, o: Occurrence, end: Db) {
    InScan(t, o.scheduledFor) && KeyAt(t.kind, o.scheduledFor) == key && o.at == t.now &&
    RunFor(t, o.scheduledFor, o.outcome, end) &&
    exists i: nat :: i <= |calls| && RightOutcome(t, o.scheduledFor, Replay(db, calls[..i]), o.outcome)
  }

  /** One right call, on an occurrence that was not there. */
  lemma RightCallRecords(t: Terms, db: Db, c: Call, key: Token)
    requires Right(t, c) && Concerns(c, t.template.authority.job)
    requires (t.template.authority.job, key) !in db.occurrences
    requires (t.template.authority.job, key) in Perform(db, c).db.occurrences
    ensures var o := Perform(db, c).db.occurrences[(t.template.authority.job, key)];
      InScan(t, o.scheduledFor) && KeyAt(t.kind, o.scheduledFor) == key && o.at == t.now &&
      RightOutcome(t, o.scheduledFor, db, o.outcome) && RunFor(t, o.scheduledFor, o.outcome, Perform(db, c).db)
  {
    if c.Scheduled? {
      NewOccurrenceExactly(db, c.req);
    } else if c.Recording? {
      RecordingOnly(db, c);
    } else {
      OthersLeaveOccurrences(db, c);
    }
  }

  lemma RecordingOnly(db: Db, c: Call)
    requires c.Recording?
    ensures var b := Perform(db, c).db;
      b.occurrences == db.occurrences ||
      b.occurrences == db.occurrences[KeyOf(c.req) := Occurrence(c.req.scheduledFor, c.outcome, c.req.now)]
  {
  }

  /** Rows stay as they are under such calls, but for new ones. */
  lemma CallKeepsRows(db: Db, c: Call, job: Token)
    requires Concerns(c, job)
    ensures db.runs <= Perform(db, c).db.runs
  {
    CallShows(db, c);
  }

  lemma RightlyRecordedStays(t: Terms, db: Db, calls: seq<Call>, c: Call, key: Token, o: Occurrence)
    requires RightlyRecorded(t, db, calls, key, o, Replay(db, calls)) && Concerns(c, t.template.authority.job)
    ensures RightlyRecorded(t, db, calls + [c], key, o, Replay(db, calls + [c]))
  {
    var more := calls + [c];
    Replayed(db, calls, c);
    CallKeepsRows(Replay(db, calls), c, t.template.authority.job);
    var i: nat :| i <= |calls| && RightOutcome(t, o.scheduledFor, Replay(db, calls[..i]), o.outcome);
    assert more[..i] == calls[..i];
  }

  lemma RightlyRecordedNow(t: Terms, db: Db, calls: seq<Call>, c: Call, key: Token)
    requires Right(t, c) && Concerns(c, t.template.authority.job)
    requires (t.template.authority.job, key) !in Replay(db, calls).occurrences
    requires (t.template.authority.job, key) in Replay(db, calls + [c]).occurrences
    ensures var end := Replay(db, calls + [c]);
      RightlyRecorded(t, db, calls + [c], key, end.occurrences[(t.template.authority.job, key)], end)
  {
    Replayed(db, calls, c);
    RightCallRecords(t, Replay(db, calls), c, key);
    assert (calls + [c])[..|calls|] == calls;
  }

  /** Every occurrence that right calls add is rightly recorded. */
  lemma {:induction false} NewOccurrencesAreRight(t: Terms, db: Db, calls: seq<Call>, key: Token)
    requires AllRight(t, calls) && AllConcern(calls, t.template.authority.job)
    requires (t.template.authority.job, key) !in db.occurrences
    requires (t.template.authority.job, key) in Replay(db, calls).occurrences
    ensures var end := Replay(db, calls);
      RightlyRecorded(t, db, calls, key, end.occurrences[(t.template.authority.job, key)], end)
  {
    if calls != [] {
      var front, c := calls[..|calls| - 1], calls[|calls| - 1];
      var at := (t.template.authority.job, key);
      assert front + [c] == calls;
      if at in Replay(db, front).occurrences {
        NewOccurrencesAreRight(t, db, front, key);
        Replayed(db, front, c);
        CallKeepsOutcome(Replay(db, front), c, at);
        RightlyRecordedStays(t, db, front, c, key, Replay(db, front).occurrences[at]);
      } else {
        RightlyRecordedNow(t, db, front, c, key);
      }
    }
  }
}
