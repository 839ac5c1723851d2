/** The whole store as a value, and every call on it as one atomic step.

    Run identifiers are positions in the runs table, in the order rows were
    accepted. A call either is denied or returns its answer with the next store.
    The Store class in store.dfy carries the same calls out in place. */
module Ledger {
  import opened Options
  import opened Rows
  import opened RowWrites
  import opened Admission

  datatype Pause = Unpaused | PausedManually(at: Time) | PausedUnread(at: Time)

  /** One row of the jobs table; `hash` is the revision column. */
  datatype Job = Job(
    config: int, hash: Token, definition: Definition, enabled: bool, pause: Pause, completed: bool, cursor: Time)

  datatype Outcome = AcceptedRun(run: nat) | SkippedLimit | SkippedOverlap | SkippedUnchanged | Missed

  /** One row of the occurrences table. */
  datatype Occurrence = Occurrence(scheduledFor: Time, outcome: Outcome, at: Time)

  /** One row of the events table. */
  datatype Logged = Logged(run: nat, entry: Entry)

  type Key = (Token, Token)

  datatype Db = Db(
    jobs: map<Token, Job>, occurrences: map<Key, Occurrence>, runs: seq<Row>, events: seq<Logged>, halted: bool)

  const EmptyDb := Db(map[], map[], [], [], false)

  /** A job as a caller's configuration has it; `stamped` is the revision its
      snapshot decodes to. */
  datatype Authority = Authority(
    job: Token, config: int, hash: Token, stamped: Option<int>, definition: Definition, enabled: bool)

  datatype AcceptRequest = AcceptRequest(
    authority: Authority, key: Token, trigger: Trigger, scheduledFor: Time, overlap: Overlap,
    dayStart: Time, dayEnd: Time, perDay: int, unreadLimit: int, source: Token, bucket: nat, now: Time)

  datatype Denial =
    | NoSuchJob | RevisionChanged | NotEnabled | NotResumed | Halted | Malformed | UnreadPaused | NotClaimable
    | ActiveUnreadable

  datatype Reply =
    | Denied(why: Denial)
    | Done
    | Told(answer: Answer)
    | Recorded(outcome: Outcome, inserted: bool)
    | GuardTripped
    | Created(run: nat)
    | Claimed(won: bool)

  /** What one call leaves behind. */
  datatype After = After(db: Db, reply: Reply)

  // --- Counting rows ----------------------------------------------------

  datatype Test =
    | IsActive
    | ActiveOf(job: Token)
    | OpenOf(job: Token)
    | QueuedOf(job: Token)
    | UnreadOf(job: Token)
    | AcceptedOf(job: Token, from: Time, until: Time)
    | OccurredOf(job: Token, from: Time, until: Time)

  predicate FromOccurrence(t: Trigger) {
    !t.Manual? && !t.Canary?
  }

  predicate Meets(t: Test, r: Row) {
    match t
    case IsActive => Active(r.state)
    case ActiveOf(job) => r.about.job == job && Active(r.state)
    case OpenOf(job) => r.about.job == job && !Terminal(r.state)
    case QueuedOf(job) => r.about.job == job && r.state.Accepted?
    case UnreadOf(job) => r.about.job == job && r.unread && Terminal(r.state)
    case AcceptedOf(job, from, until) => r.about.job == job && from <= r.about.acceptedAt < until
    case OccurredOf(job, from, until) =>
      r.about.job == job && from <= r.about.acceptedAt < until && FromOccurrence(r.about.trigger)
  }

  function Count(runs: seq<Row>, t: Test): nat {
    if runs == [] then 0
    else Count(runs[..|runs| - 1], t) + if Meets(t, runs[|runs| - 1]) then 1 else 0
  }

  function ActiveRows(runs: seq<Row>): seq<Row> {
    if runs == [] then []
    else ActiveRows(runs[..|runs| - 1]) + if Active(runs[|runs| - 1].state) then [runs[|runs| - 1]] else []
  }

  /** A run's own events, oldest first. */
  function LogOf(events: seq<Logged>, id: nat): seq<Entry> {
    if events == [] then []
    else
      var e := events[|events| - 1];
      LogOf(events[..|events| - 1], id) + if e.run == id then [e.entry] else []
  }

  function Tagged(id: nat, log: seq<Entry>): (events: seq<Logged>)
    ensures |events| == |log| && forall k :: 0 <= k < |log| ==> events[k] == Logged(id, log[k])
  {
    seq(|log|, k requires 0 <= k < |log| => Logged(id, log[k]))
  }

  function LastOf(log: seq<Entry>): Option<Entry> {
    if log == [] then None else Some(log[|log| - 1])
  }

  // --- Runs -------------------------------------------------------------

  /** Committing a row write: the row replaced, its entries appended. */
  function Put(db: Db, id: nat, wr: Write): Db
    requires id < |db.runs|
  {
    if wr.Wrote? then db.(runs := db.runs[id := wr.row], events := db.events + Tagged(id, wr.log)) else db
  }

  /** Any compare-and-set but the admission one; a missing run is a lost one. */
  function WriteRow(db: Db, id: nat, q: Request, now: Time): After {
    if q.DoDecide? then After(db, Denied(NotClaimable))
    else if id >= |db.runs| then After(db, Told(Conflict))
    else
      var wr := Serve(db.runs[id], LastOf(LogOf(db.events, id)), q, now);
      After(Put(db, id, wr), Told(AnswerOf(wr)))
  }

  function AppendRun(db: Db, about: About, source: Token, detail: Token): Db {
    db.(runs := db.runs + [NewRow(about, source)],
        events := db.events + [Logged(|db.runs|, Entry(New, State.Accepted, about.acceptedAt, NoCode, detail))])
  }

  // --- Jobs -------------------------------------------------------------

  /** syncJobAuthorityTx; None is ErrJobRevisionChanged. */
  function Synced(db: Db, a: Authority, now: Time): Option<Db> {
    if a.stamped != Some(a.config) || a.config < 1 || a.hash == 0 then None
    else if a.job !in db.jobs then
      Some(db.(jobs := db.jobs[a.job := Job(a.config, a.hash, a.definition, a.enabled, Unpaused, false, now)]))
    else
      var saved := db.jobs[a.job];
      if a.config < saved.config then None
      else if a.config == saved.config then if a.hash != saved.hash || a.enabled != saved.enabled then None else Some(db)
      else
        var job := saved.(config := a.config, hash := a.hash, definition := a.definition, enabled := a.enabled,
                          completed := false);
        Some(db.(jobs := db.jobs[a.job := job]))
  }

  function SyncJob(db: Db, a: Authority, now: Time): After {
    var synced := Synced(db, a, now);
    if synced.None? then After(db, Denied(RevisionChanged)) else After(synced.value, Done)
  }

  /** Why a job may not run now, given that its authority is current. */
  function Refusal(db: Db, job: Token): Option<Denial>
    requires job in db.jobs
  {
    if !db.jobs[job].enabled then Some(NotEnabled)
    else if !db.jobs[job].pause.Unpaused? then Some(NotResumed)
    else if db.halted then Some(Halted)
    else None
  }

  /** requireJobAuthorityTx; None means the fence holds. */
  function Fence(db: Db, job: Token, config: int, hash: Token, runnable: bool): Option<Denial> {
    if job !in db.jobs then Some(NoSuchJob)
    else if db.jobs[job].config != config || db.jobs[job].hash != hash then Some(RevisionChanged)
    else if !runnable then None
    else Refusal(db, job)
  }

  function SetCursor(db: Db, job: Token, config: int, hash: Token, cursor: Time, runnable: bool): After {
    var fence := Fence(db, job, config, hash, runnable);
    if fence.Some? then After(db, Denied(fence.value))
    else if cursor <= db.jobs[job].cursor then After(db, Done)
    else After(db.(jobs := db.jobs[job := db.jobs[job].(cursor := cursor)]), Done)
  }

  function SetCompleted(db: Db, job: Token, config: int, hash: Token, completed: bool): After {
    var fence := Fence(db, job, config, hash, true);
    if fence.Some? then After(db, Denied(fence.value))
    else After(db.(jobs := db.jobs[job := db.jobs[job].(completed := completed)]), Done)
  }

  function SetPaused(db: Db, job: Token, paused: bool, now: Time): After {
    if job !in db.jobs then After(db, Denied(NoSuchJob))
    else After(db.(jobs := db.jobs[job := db.jobs[job].(pause := if paused then PausedManually(now) else Unpaused)]), Done)
  }

  // --- Occurrences and acceptance ---------------------------------------

  function KeyOf(req: AcceptRequest): Key {
    (req.authority.job, req.key)
  }

  function AboutOf(req: AcceptRequest, trigger: Trigger): About {
    About(req.authority.job, req.authority.hash, req.authority.definition, trigger, req.now, req.bucket)
  }

  function DayEnd(req: AcceptRequest): Time {
    if req.dayEnd == 0 then req.dayStart + 86_400_000_000_000 else req.dayEnd
  }

  /** finishOccurrence. */
  function Record(db: Db, req: AcceptRequest, outcome: Outcome): After {
    After(db.(occurrences := db.occurrences[KeyOf(req) := Occurrence(req.scheduledFor, outcome, req.now)]),
          Recorded(outcome, true))
  }

  predicate GuardTrips(db: Db, req: AcceptRequest) {
    0 < req.unreadLimit <= Count(db.runs, UnreadOf(req.authority.job))
  }

  function TripGuard(db: Db, req: AcceptRequest): Db {
    var job := req.authority.job;
    if job !in db.jobs then db else db.(jobs := db.jobs[job := db.jobs[job].(pause := PausedUnread(req.now))])
  }

  /** acceptOccurrenceTx. */
  function AcceptTx(db: Db, req: AcceptRequest): After {
    var job := req.authority.job;
    var open, queued := Count(db.runs, OpenOf(job)), Count(db.runs, QueuedOf(job));
    if KeyOf(req) in db.occurrences then After(db, Recorded(db.occurrences[KeyOf(req)].outcome, false))
    else if GuardTrips(db, req) then After(TripGuard(db, req), GuardTripped)
    else if Count(db.runs, AcceptedOf(job, req.dayStart, DayEnd(req))) >= req.perDay then Record(db, req, SkippedLimit)
    else if (req.overlap.Forbid? && open > 0) || (req.overlap.QueueOne? && queued > 0) then Record(db, req, SkippedOverlap)
    else Record(AppendRun(db, AboutOf(req, req.trigger), req.source, 0), req, AcceptedRun(|db.runs|))
  }

  function AcceptScheduled(db: Db, req: AcceptRequest): After {
    if req.key == 0 || req.trigger.Event? then After(db, Denied(Malformed))
    else
      var fence := Fence(db, req.authority.job, req.authority.config, req.authority.hash, true);
      if fence.Some? then After(db, Denied(fence.value)) else AcceptTx(db, req)
  }

  function RecordOccurrence(db: Db, req: AcceptRequest, outcome: Outcome): After {
    if req.key == 0 || outcome.AcceptedRun? then After(db, Denied(Malformed))
    else
      var fence := Fence(db, req.authority.job, req.authority.config, req.authority.hash, true);
      if fence.Some? then After(db, Denied(fence.value))
      else if KeyOf(req) in db.occurrences then After(db, Recorded(db.occurrences[KeyOf(req)].outcome, false))
      else Record(db, req, outcome)
  }

  function EnqueueEvent(db: Db, req: AcceptRequest): After {
    var synced := Synced(db, req.authority, req.now);
    if !req.trigger.Event? || req.key == 0 then After(db, Denied(Malformed))
    else if KeyOf(req) in db.occurrences then
      After(if synced.Some? then synced.value else db, Recorded(db.occurrences[KeyOf(req)].outcome, false))
    else if synced.None? then After(db, Denied(RevisionChanged))
    else
      var refusal := Refusal(synced.value, req.authority.job);
      if refusal.Some? then After(synced.value, Denied(refusal.value)) else AcceptTx(synced.value, req)
  }

  function CreateManual(db: Db, req: AcceptRequest): After {
    var fence := Fence(db, req.authority.job, req.authority.config, req.authority.hash, true);
    if fence.Some? then After(db, Denied(fence.value))
    else if GuardTrips(db, req) then After(TripGuard(db, req), Denied(UnreadPaused))
    else After(AppendRun(db, AboutOf(req, Manual), 0, 0), Created(|db.runs|))
  }

  /** CreateCanaryRun is fenced by nothing: admission checks the job instead. */
  function CreateCanary(db: Db, req: AcceptRequest): After {
    After(AppendRun(db, AboutOf(req, Canary), 0, 0), Created(|db.runs|))
  }

  // --- Admission --------------------------------------------------------

  function Unstartable(state: State, infra: Infra, code: Code, detail: Token): Ruling {
    Finish(Intent(state, Result(infra, AgentNotStarted, Unverified, code, detail)))
  }

  function Withheld(canary: bool, code: Code, detail: Token): Ruling {
    if canary then Unstartable(Blocked, InfraNotStarted, code, detail) else Hold
  }

  /** The candidate's decision is left to the allocator: nothing about its job or
      itself settles it. */
  predicate Weighed(db: Db, id: nat)
    requires id < |db.runs| && db.runs[id].about.job in db.jobs
  {
    var r := db.runs[id];
    Refusal(db, r.about.job).None? && r.about.definition.Snapshot? &&
    (r.about.trigger.Canary? && !r.about.definition.overlap.Allow? ==> Count(db.runs, OpenOf(r.about.job)) <= 1)
  }

  /** The allocator cannot read an active run's snapshot, and fails. */
  predicate Undecided(db: Db, id: nat, limits: Limits, probe: Probe)
    requires id < |db.runs| && db.runs[id].about.job in db.jobs
  {
    Weighed(db, id) && Judge(limits, db.runs[id].about.definition, probe, ActiveRows(db.runs)).Unreadable?
  }

  /** What DecideAdmission concludes about an accepted candidate of a known job: an
      attended canary that cannot start now is finished, anything else waits. */
  function RulingFor(db: Db, id: nat, limits: Limits, probe: Probe, detail: Token): Ruling
    requires id < |db.runs| && db.runs[id].about.job in db.jobs && db.runs[id].state.Accepted?
  {
    var r := db.runs[id];
    var job, canary := db.jobs[r.about.job], r.about.trigger.Canary?;
    if !job.enabled then Withheld(canary, JobDisabled, detail)
    else if !job.pause.Unpaused? then Withheld(canary, JobPaused, detail)
    else if db.halted then Withheld(canary, GloballyPaused, detail)
    else if r.about.definition.Corrupt? then
      // dispatch finishes such a run itself and never decides its admission
      if canary then Unstartable(Failed, InfraFailed, SnapshotInvalid, detail) else Hold
    else if canary && !r.about.definition.overlap.Allow? && Count(db.runs, OpenOf(r.about.job)) > 1 then
      Withheld(true, OverlapHold, detail)
    else
      match Judge(limits, r.about.definition, probe, ActiveRows(db.runs))
      case ProbeFailure => Unstartable(Failed, InfraFailed, CapacityProbeFailed, detail)
      case HoldFor(code) => Withheld(canary, code, detail)
      case Unreadable => Hold // and the call fails, canary or not
      case Granted => Admit
  }

  function DecideAdmission(db: Db, id: nat, owner: Token, limits: Limits, probe: Probe, detail: Token,
                           now: Time, until: Time): After
  {
    if !ValidProvisioningLease(owner, now, until) then After(db, Denied(Malformed))
    else if id >= |db.runs| || db.runs[id].about.job !in db.jobs || !db.runs[id].state.Accepted? then After(db, Claimed(false))
    else if Undecided(db, id, limits, probe) then After(db, Denied(ActiveUnreadable))
    else
      var r := db.runs[id];
      var ruling := RulingFor(db, id, limits, probe, detail);
      var device := if probe.Probed? then probe.device else 0;
      var reserve := if r.about.definition.Snapshot? then r.about.definition.reserve else 0.0;
      After(Put(db, id, Decide(r, owner, ruling, device, reserve, now, until)), Claimed(ruling.Admit?))
  }

  // --- One call ---------------------------------------------------------

  datatype Call =
    | Writing(id: nat, q: Request, at: Time)
    | Admitting(id: nat, owner: Token, limits: Limits, probe: Probe, detail: Token, at: Time, until: Time)
    | Sync(authority: Authority, at: Time)
    | Cursor(job: Token, config: int, hash: Token, cursor: Time, runnable: bool)
    | Complete(job: Token, config: int, hash: Token, completed: bool)
    | Pausing(job: Token, paused: bool, at: Time)
    | Halting(halted: bool)
    | Scheduled(req: AcceptRequest)
    | Recording(req: AcceptRequest, outcome: Outcome)
    | Eventful(req: AcceptRequest)
    | Manually(req: AcceptRequest)
    | AsCanary(req: AcceptRequest)

  function Perform(db: Db, c: Call): After {
    match c
    case Writing(id, q, at) => WriteRow(db, id, q, at)
    case Admitting(id, owner, limits, probe, detail, at, until) =>
      DecideAdmission(db, id, owner, limits, probe, detail, at, until)
    case Sync(authority, at) => SyncJob(db, authority, at)
    case Cursor(job, config, hash, cursor, runnable) => SetCursor(db, job, config, hash, cursor, runnable)
    case Complete(job, config, hash, completed) => SetCompleted(db, job, config, hash, completed)
    case Pausing(job, paused, at) => SetPaused(db, job, paused, at)
    case Halting(halted) => After(db.(halted := halted), Done)
    case Scheduled(req) => AcceptScheduled(db, req)
    case Recording(req, outcome) => RecordOccurrence(db, req, outcome)
    case Eventful(req) => EnqueueEvent(db, req)
    case Manually(req) => CreateManual(db, req)
    case AsCanary(req) => CreateCanary(db, req)
  }
}
