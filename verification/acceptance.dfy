/** What the store answers to a delivery, a manual request or a synchronization,
    read off the tables: which rows count, and which outcome follows. */
module Acceptance {
  import opened Options
  import opened Rows
  import opened Ledger

  // --- Rows that count --------------------------------------------------

  /** The runs of the job accepted in [from, until). */
  ghost function AcceptedIn(db: Db, job: Token, from: Time, until: Time): set<nat> {
    set i: nat | i < |db.runs| && db.runs[i].about.job == job && from <= db.runs[i].about.acceptedAt < until
  }

  /** The finished runs of the job that nobody has read. */
  ghost function UnreadIn(db: Db, job: Token): set<nat> {
    set i: nat | i < |db.runs| && db.runs[i].about.job == job && db.runs[i].unread && Terminal(db.runs[i].state)
  }

  /** The runs of the job that are not over. */
  ghost predicate SomeOpen(db: Db, job: Token) {
    exists i: nat :: i < |db.runs| && db.runs[i].about.job == job && !Terminal(db.runs[i].state)
  }

  ghost predicate SomeQueued(db: Db, job: Token) {
    exists i: nat :: i < |db.runs| && db.runs[i].about.job == job && db.runs[i].state == State.Accepted
  }

  ghost function Meeting(runs: seq<Row>, t: Test): set<nat> {
    set i: nat | i < |runs| && Meets(t, runs[i])
  }

  lemma MeetingGrows(runs: seq<Row>, r: Row, t: Test)
    ensures Meeting(runs + [r], t) == Meeting(runs, t) + if Meets(t, r) then {|runs|} else {}
  {
    var all := runs + [r];
    assert all[|runs|] == r && forall i: nat :: i < |runs| ==> all[i] == runs[i];
  }

  /** Counting rows is taking the size of the set of those that meet the test. */
  lemma {:induction false} CountIsSize(runs: seq<Row>, t: Test)
    ensures Count(runs, t) == |Meeting(runs, t)|
  {
    if runs != [] {
      var n := |runs| - 1;
      CountIsSize(runs[..n], t);
      assert runs[..n] + [runs[n]] == runs;
      MeetingGrows(runs[..n], runs[n], t);
    }
  }

  lemma AcceptedCount(db: Db, job: Token, from: Time, until: Time)
    ensures Count(db.runs, AcceptedOf(job, from, until)) == |AcceptedIn(db, job, from, until)|
  {
    CountIsSize(db.runs, AcceptedOf(job, from, until));
    assert Meeting(db.runs, AcceptedOf(job, from, until)) == AcceptedIn(db, job, from, until);
  }

  lemma UnreadCount(db: Db, job: Token)
    ensures Count(db.runs, UnreadOf(job)) == |UnreadIn(db, job)|
  {
    CountIsSize(db.runs, UnreadOf(job));
    assert Meeting(db.runs, UnreadOf(job)) == UnreadIn(db, job);
  }

  lemma CountPositive(runs: seq<Row>, t: Test)
    ensures Count(runs, t) > 0 <==> exists i: nat :: i < |runs| && Meets(t, runs[i])
  {
    CountIsSize(runs, t);
    if i: nat :| i < |runs| && Meets(t, runs[i]) { assert i in Meeting(runs, t); }
    if Count(runs, t) > 0 { var i :| i in Meeting(runs, t); }
  }

  lemma OpenCount(db: Db, job: Token)
    ensures Count(db.runs, OpenOf(job)) > 0 <==> SomeOpen(db, job)
    ensures Count(db.runs, QueuedOf(job)) > 0 <==> SomeQueued(db, job)
  {
    CountPositive(db.runs, OpenOf(job));
    CountPositive(db.runs, QueuedOf(job));
    if i: nat :| i < |db.runs| && db.runs[i].about.job == job && !Terminal(db.runs[i].state) {
      assert Meets(OpenOf(job), db.runs[i]);
    }
    if i: nat :| i < |db.runs| && db.runs[i].about.job == job && db.runs[i].state == State.Accepted {
      assert Meets(QueuedOf(job), db.runs[i]);
    }
  }

  // --- Occurrences ------------------------------------------------------

  /** The end of the request's day: a day after its start when it names none. */
  function Until(req: AcceptRequest): Time {
    if req.dayEnd != 0 then req.dayEnd else req.dayStart + 24 * 60 * 60 * 1_000_000_000
  }

  /** Too much of the job's finished work is unread. */
  ghost predicate TooMuchUnread(db: Db, req: AcceptRequest) {
    req.unreadLimit > 0 && |UnreadIn(db, req.authority.job)| >= req.unreadLimit
  }

  ghost predicate DayIsFull(db: Db, req: AcceptRequest) {
    |AcceptedIn(db, req.authority.job, req.dayStart, Until(req))| >= req.perDay
  }

  /** Another run is in the way: any open one under forbid, a queued one under
      queue_one. */
  ghost predicate InTheWay(db: Db, req: AcceptRequest) {
    (req.overlap == Forbid && SomeOpen(db, req.authority.job)) ||
    (req.overlap == QueueOne && SomeQueued(db, req.authority.job))
  }

  /** The row of a run just accepted under this trigger. */
  function Queued(req: AcceptRequest, trigger: Trigger, source: Token): Row {
    Row(About(req.authority.job, req.authority.hash, req.authority.definition, trigger, req.now, req.bucket),
        State.Accepted, Result(InfraNone, AgentNone, Unverified, NoCode, 0), Review(NoLane, NoReason), true,
        Place(0, 0, 0, 0), Lease(0, 0), Effect(0, 0, NoKind, 0, NoReceipt), Disk(0, 0.0), source, 0,
        Receipts(0, 0, 0), req.now)
  }

  /** The answer to an occurrence not recorded before, and what is left behind. */
  ghost predicate Answers(db: Db, req: AcceptRequest, outcome: Outcome) {
    match outcome
    case SkippedLimit => DayIsFull(db, req)
    case SkippedOverlap => !DayIsFull(db, req) && InTheWay(db, req)
    case AcceptedRun(run) => !DayIsFull(db, req) && !InTheWay(db, req) && run == |db.runs|
    case _ => false
  }

  ghost predicate Noted(a: Db, b: Db, req: AcceptRequest, outcome: Outcome) {
    b.jobs == a.jobs && b.halted == a.halted &&
    b.occurrences == a.occurrences[(req.authority.job, req.key) := Occurrence(req.scheduledFor, outcome, req.now)] &&
    b.runs == (if outcome.AcceptedRun? then a.runs + [Queued(req, req.trigger, req.source)] else a.runs)
  }

  /** A tripped guard pauses the job, if it is saved, and changes nothing else. */
  function PausedByGuard(db: Db, req: AcceptRequest): Db {
    var job := req.authority.job;
    if job in db.jobs then db.(jobs := db.jobs[job := db.jobs[job].(pause := PausedUnread(req.now))]) else db
  }

  /** Acceptance, on an occurrence not recorded before: the guard trips exactly when
      too much is unread; otherwise the outcome is SkippedLimit exactly when the day
      is full, else SkippedOverlap exactly when another run is in the way, else the
      requested run is accepted. */
  lemma NewOccurrenceExactly(db: Db, req: AcceptRequest)
    requires (req.authority.job, req.key) !in db.occurrences
    ensures var after := AcceptTx(db, req);
      if TooMuchUnread(db, req) then after == After(PausedByGuard(db, req), GuardTripped)
      else
        after.reply.Recorded? && after.reply.inserted &&
        Answers(db, req, after.reply.outcome) && Noted(db, after.db, req, after.reply.outcome)
  {
    UnreadCount(db, req.authority.job);
    AcceptedCount(db, req.authority.job, req.dayStart, Until(req));
    OpenCount(db, req.authority.job);
    assert DayEnd(req) == Until(req);
  }

  /** No two outcomes are answers to the same request. */
  lemma AnswerIsUnique(db: Db, req: AcceptRequest, a: Outcome, b: Outcome)
    requires Answers(db, req, a) && Answers(db, req, b)
    ensures a == b
  {
  }

  lemma KnownOccurrenceIsRepeated(db: Db, req: AcceptRequest)
    requires (req.authority.job, req.key) in db.occurrences
    ensures AcceptTx(db, req) == After(db, Recorded(db.occurrences[(req.authority.job, req.key)].outcome, false))
  {
  }

  // --- Authority --------------------------------------------------------

  /** The job is saved under this very revision. */
  predicate Saved(db: Db, job: Token, config: int, hash: Token) {
    job in db.jobs && db.jobs[job].config == config && db.jobs[job].hash == hash
  }

  predicate MayRun(db: Db, job: Token)
    requires job in db.jobs
  {
    db.jobs[job].enabled && db.jobs[job].pause == Unpaused && !db.halted
  }

  /** Which fence a refused call meets, the first one in this order. */
  lemma FenceExactly(db: Db, job: Token, config: int, hash: Token, runnable: bool)
    ensures var fence := Fence(db, job, config, hash, runnable);
      (fence == Some(NoSuchJob) <==> job !in db.jobs) &&
      (fence == Some(RevisionChanged) <==> job in db.jobs && !Saved(db, job, config, hash)) &&
      (fence == Some(NotEnabled) <==> Saved(db, job, config, hash) && runnable && !db.jobs[job].enabled) &&
      (fence == Some(NotResumed) <==>
        Saved(db, job, config, hash) && runnable && db.jobs[job].enabled && db.jobs[job].pause != Unpaused) &&
      (fence == Some(Halted) <==>
        Saved(db, job, config, hash) && runnable && db.jobs[job].enabled && db.jobs[job].pause == Unpaused && db.halted) &&
      (fence.None? <==> Saved(db, job, config, hash) && (runnable ==> MayRun(db, job)))
  {
  }

  /** A scheduled occurrence gets through exactly when its revision is the saved
      one and its job may run now. */
  lemma ScheduledExactly(db: Db, req: AcceptRequest)
    requires req.key != 0 && !req.trigger.Event?
    ensures var a := req.authority;
      if Saved(db, a.job, a.config, a.hash) && MayRun(db, a.job) then
        Perform(db, Scheduled(req)) == AcceptTx(db, req)
      else Perform(db, Scheduled(req)).db == db && Perform(db, Scheduled(req)).reply.Denied?
  {
  }

  /** Recording an outcome without a run: once, under the same conditions. */
  lemma RecordingExactly(db: Db, req: AcceptRequest, outcome: Outcome)
    requires req.key != 0 && !outcome.AcceptedRun?
    ensures var a, after := req.authority, Perform(db, Recording(req, outcome));
      if !Saved(db, a.job, a.config, a.hash) || !MayRun(db, a.job) then after.db == db && after.reply.Denied?
      else if (a.job, req.key) in db.occurrences then
        after == After(db, Recorded(db.occurrences[(a.job, req.key)].outcome, false))
      else after.reply == Recorded(outcome, true) && Noted(db, after.db, req, outcome)
  {
  }

  /** A manual run is created exactly when its revision is the saved one, its job
      may run and not too much is unread; a canary always is. */
  lemma CreatedExactly(db: Db, req: AcceptRequest)
    ensures var a, after := req.authority, Perform(db, Manually(req));
      (after.reply.Created? <==> Saved(db, a.job, a.config, a.hash) && MayRun(db, a.job) && !TooMuchUnread(db, req)) &&
      (after.reply == Denied(UnreadPaused) <==>
        Saved(db, a.job, a.config, a.hash) && MayRun(db, a.job) && TooMuchUnread(db, req)) &&
      (!after.reply.Created? ==> after.db == if after.reply == Denied(UnreadPaused) then PausedByGuard(db, req) else db) &&
      (after.reply.Created? ==>
        after.reply.run == |db.runs| && after.db.runs == db.runs + [Queued(req, Manual, 0)] && after.db.jobs == db.jobs)
    ensures var after := Perform(db, AsCanary(req));
      after.reply == Created(|db.runs|) && after.db.runs == db.runs + [Queued(req, Canary, 0)] && after.db.jobs == db.jobs
  {
    UnreadCount(db, req.authority.job);
  }

  /** What synchronizing a job leaves: a new job with its cursor now; the saved one
      under its own revision; the newer one with pause and cursor kept, to be run
      again; or nothing, when it is older or differs under the same revision. */
  lemma SyncExactly(db: Db, a: Authority, now: Time)
    requires a.stamped == Some(a.config) && a.config >= 1 && a.hash != 0
    ensures var after := Perform(db, Sync(a, now));
      if a.job !in db.jobs then
        after == After(db.(jobs := db.jobs[a.job := Job(a.config, a.hash, a.definition, a.enabled, Unpaused, false, now)]), Done)
      else
        var saved := db.jobs[a.job];
        if a.config > saved.config then
          after == After(db.(jobs := db.jobs[a.job :=
            Job(a.config, a.hash, a.definition, a.enabled, saved.pause, false, saved.cursor)]), Done)
        else if a.config == saved.config && a.hash == saved.hash && a.enabled == saved.enabled then after == After(db, Done)
        else after == After(db, Denied(RevisionChanged))
  {
  }

  /** An event delivery, not delivered before: it synchronizes its job, and then is
      accepted like any other exactly when the job may run. */
  lemma EventExactly(db: Db, req: AcceptRequest)
    requires req.trigger.Event? && req.key != 0 && (req.authority.job, req.key) !in db.occurrences
    ensures var synced, after := Perform(db, Sync(req.authority, req.now)), Perform(db, Eventful(req));
      if synced.reply.Denied? then after == synced
      else if !MayRun(synced.db, req.authority.job) then after.db == synced.db && after.reply.Denied?
      else after == AcceptTx(synced.db, req)
  {
  }

  /** The cursor moves exactly forward, and exactly under the fence. */
  lemma CursorExactly(db: Db, job: Token, config: int, hash: Token, cursor: Time, runnable: bool)
    ensures var after := Perform(db, Call.Cursor(job, config, hash, cursor, runnable));
      (after.reply == Done <==> Saved(db, job, config, hash) && (runnable ==> MayRun(db, job))) &&
      (after.reply != Done ==> after.db == db) &&
      (after.reply == Done ==>
        after.db == db.(jobs := db.jobs[job := db.jobs[job].(
          cursor := if cursor > db.jobs[job].cursor then cursor else db.jobs[job].cursor)]))
  {
    if Saved(db, job, config, hash) && cursor <= db.jobs[job].cursor {
      assert db.jobs[job := db.jobs[job].(cursor := db.jobs[job].cursor)] == db.jobs;
    }
  }

  /** Pausing and resuming a saved job, marking it completed under its fence, and
      halting everything: exactly these columns. */
  lemma SettingsExactly(db: Db, job: Token, config: int, hash: Token, b: bool, at: Time)
    ensures Perform(db, Pausing(job, b, at)) ==
      if job !in db.jobs then After(db, Denied(NoSuchJob))
      else After(db.(jobs := db.jobs[job := db.jobs[job].(pause := if b then PausedManually(at) else Unpaused)]), Done)
    ensures var after := Perform(db, Complete(job, config, hash, b));
      if Saved(db, job, config, hash) && MayRun(db, job) then
        after == After(db.(jobs := db.jobs[job := db.jobs[job].(completed := b)]), Done)
      else after.db == db && after.reply.Denied?
    ensures Perform(db, Halting(b)) == After(db.(halted := b), Done)
  {
  }
}
