/** What holds of every sequence of calls on the store, by any number of callers
    with any arguments. */
module LedgerTheorems {
  import opened Rows
  import opened RowLaws
  import opened EventLog
  import opened Admission
  import opened Ledger
  import opened LedgerLaws

  /** Stores ds, with call cs[k] leading from ds[k] to ds[k + 1]. */
  ghost predicate Ran(ds: seq<Db>, cs: seq<Call>) {
    |ds| == |cs| + 1 && forall k :: 0 <= k < |cs| ==> ds[k + 1] == Perform(ds[k], cs[k]).db
  }

  /** The store after these calls, in order. */
  function Replay(db: Db, calls: seq<Call>): Db {
    if calls == [] then db else Perform(Replay(db, calls[..|calls| - 1]), calls[|calls| - 1]).db
  }

  lemma Replayed(db: Db, calls: seq<Call>, c: Call)
    ensures Replay(db, calls + [c]) == Perform(Replay(db, calls), c).db
  {
    assert (calls + [c])[..|calls|] == calls;
  }

  lemma {:induction false} ReplayTogether(db: Db, a: seq<Call>, b: seq<Call>)
    ensures Replay(db, a + b) == Replay(Replay(db, a), b)
  {
    if b == [] {
      assert a + b == a;
    } else {
      var n := |b| - 1;
      ReplayTogether(db, a, b[..n]);
      assert (a + b)[..|a + b| - 1] == a + b[..n];
    }
  }

  /** Every call is one on the store as a value, so any replay is a history. */
  lemma {:induction false} ReplayIsRun(db: Db, calls: seq<Call>)
    ensures exists ds :: Ran(ds, calls) && ds[0] == db && ds[|calls|] == Replay(db, calls)
  {
    if calls == [] {
      assert Ran([db], calls);
    } else {
      var n := |calls| - 1;
      ReplayIsRun(db, calls[..n]);
      var ds :| Ran(ds, calls[..n]) && ds[0] == db && ds[n] == Replay(db, calls[..n]);
      var more := ds + [Replay(db, calls)];
      forall k | 0 <= k < |calls| ensures more[k + 1] == Perform(more[k], calls[k]).db {
        if k < n { assert calls[..n][k] == calls[k]; }
      }
      assert Ran(more, calls);
    }
  }

  // --- Runs and their events --------------------------------------------

  lemma RowKeptTransitive(a: Row, b: Row, c: Row)
    requires RowKept(a, b) && RowKept(b, c)
    ensures RowKept(a, c)
  {
  }

  lemma RunsKeptTransitive(a: Db, b: Db, c: Db)
    requires RunsKept(a, b) && RunsKept(b, c)
    ensures RunsKept(a, c)
  {
    forall i | 0 <= i < |a.runs| ensures RowKept(a.runs[i], c.runs[i]) {
      RowKeptTransitive(a.runs[i], b.runs[i], c.runs[i]);
    }
  }

  ghost predicate KeepingRuns(ds: seq<Db>) {
    forall k :: 0 < k < |ds| ==> RunsKept(ds[k - 1], ds[k])
  }

  lemma {:induction false} RunsKeptSince(ds: seq<Db>, j: nat, k: nat)
    requires KeepingRuns(ds) && j <= k < |ds|
    ensures RunsKept(ds[j], ds[k])
    decreases k - j
  {
    if j < k {
      RunsKeptSince(ds, j, k - 1);
      RunsKeptTransitive(ds[j], ds[k - 1], ds[k]);
    }
  }

  /** Whatever is called, no run is forgotten, no terminal outcome changes, and
      each receipt is written at most once and never after the run is over. */
  lemma RunsAreKept(ds: seq<Db>, cs: seq<Call>, j: nat, k: nat)
    requires Ran(ds, cs) && j <= k < |ds|
    ensures RunsKept(ds[j], ds[k])
  {
    forall m | 0 < m < |ds| ensures RunsKept(ds[m - 1], ds[m]) { CallKeepsRuns(ds[m - 1], cs[m - 1]); }
    RunsKeptSince(ds, j, k);
  }

  /** From the empty store on, every run's events replay to its row's state. */
  lemma {:induction false} EveryLogReplays(ds: seq<Db>, cs: seq<Call>, k: nat)
    requires Ran(ds, cs) && ds[0] == EmptyDb && k < |ds|
    ensures LogsOk(ds[k])
    ensures forall id :: 0 <= id < |ds[k].runs| ==> Chained(LogOf(ds[k].events, id), ds[k].runs[id].state)
  {
    if k > 0 {
      EveryLogReplays(ds, cs, k - 1);
      CallKeepsLogs(ds[k - 1], cs[k - 1]);
    }
    forall id | 0 <= id < |ds[k].runs| ensures Chained(LogOf(ds[k].events, id), ds[k].runs[id].state) {
      ReplaysIsChained(LogOf(ds[k].events, id), ds[k].runs[id].state);
    }
  }

  // --- Job authority ----------------------------------------------------

  /** A saved job stays, its revision never decreases, equal revisions mean the
      same snapshot and enablement, and its cursor never moves back. */
  ghost predicate AuthorityGrows(a: Db, b: Db) {
    forall job :: job in a.jobs ==>
      job in b.jobs && a.jobs[job].config <= b.jobs[job].config && a.jobs[job].cursor <= b.jobs[job].cursor &&
      (a.jobs[job].config == b.jobs[job].config ==>
        a.jobs[job].hash == b.jobs[job].hash && a.jobs[job].enabled == b.jobs[job].enabled &&
        a.jobs[job].definition == b.jobs[job].definition)
  }

  lemma SyncGrows(db: Db, a: Authority, now: Time)
    ensures Synced(db, a, now).Some? ==> AuthorityGrows(db, Synced(db, a, now).value)
  {
  }

  lemma AcceptTxGrows(db: Db, req: AcceptRequest)
    ensures AuthorityGrows(db, AcceptTx(db, req).db)
  {
  }

  lemma EventGrows(db: Db, req: AcceptRequest)
    ensures AuthorityGrows(db, EnqueueEvent(db, req).db)
  {
    var synced := Synced(db, req.authority, req.now);
    SyncGrows(db, req.authority, req.now);
    if synced.Some? { AcceptTxGrows(synced.value, req); }
  }

  lemma RowsLeaveJobs(db: Db, c: Call)
    requires c.Writing? || c.Admitting? || c.Manually? || c.AsCanary? || c.Recording? || c.Halting?
    ensures AuthorityGrows(db, Perform(db, c).db)
  {
  }

  lemma SettingGrows(db: Db, c: Call)
    requires c.Cursor? || c.Complete? || c.Pausing?
    ensures AuthorityGrows(db, Perform(db, c).db)
  {
  }

  lemma CallGrows(db: Db, c: Call)
    ensures AuthorityGrows(db, Perform(db, c).db)
  {
    match c
    case Sync(authority, at) => SyncGrows(db, authority, at);
    case Scheduled(req) => AcceptTxGrows(db, req);
    case Eventful(req) => EventGrows(db, req);
    case Cursor(_, _, _, _, _) => SettingGrows(db, c);
    case Complete(_, _, _, _) => SettingGrows(db, c);
    case Pausing(_, _, _) => SettingGrows(db, c);
    case _ => RowsLeaveJobs(db, c);
  }

  ghost predicate Growing(ds: seq<Db>) {
    forall k :: 0 < k < |ds| ==> AuthorityGrows(ds[k - 1], ds[k])
  }

  lemma {:induction false} GrownSince(ds: seq<Db>, j: nat, k: nat)
    requires Growing(ds) && j <= k < |ds|
    ensures AuthorityGrows(ds[j], ds[k])
    decreases k - j
  {
    if j < k { GrownSince(ds, j, k - 1); }
  }

  /** Over any calls, a job's saved authority never regresses. */
  lemma AuthorityNeverRegresses(ds: seq<Db>, cs: seq<Call>, j: nat, k: nat)
    requires Ran(ds, cs) && j <= k < |ds|
    ensures AuthorityGrows(ds[j], ds[k])
  {
    forall m | 0 < m < |ds| ensures AuthorityGrows(ds[m - 1], ds[m]) { CallGrows(ds[m - 1], cs[m - 1]); }
    GrownSince(ds, j, k);
  }

  /** The request of a call that is fenced by job authority and may create a run. */
  predicate Fenced(c: Call) {
    c.Scheduled? || c.Eventful? || c.Manually?
  }

  /** A fenced call either leaves the runs table alone or appends the one run it
      asked for; and then, at that very moment, the request's revision is the
      job's current one, the job is enabled, not paused, nothing is halted, and
      the job's unread finished runs are below the limit the request carries. */
  lemma FencedCreation(db: Db, c: Call)
    requires Fenced(c)
    ensures var after, req := Perform(db, c).db, c.req;
      after.runs == db.runs ||
      (after.runs == db.runs + [NewRow(AboutOf(req, if c.Manually? then Manual else req.trigger),
                                       if c.Manually? then 0 else req.source)] &&
       req.authority.job in after.jobs &&
       after.jobs[req.authority.job].config == req.authority.config && after.jobs[req.authority.job].hash == req.authority.hash &&
       after.jobs[req.authority.job].enabled && after.jobs[req.authority.job].pause.Unpaused? && !after.halted &&
       (req.unreadLimit > 0 ==> Count(db.runs, UnreadOf(req.authority.job)) < req.unreadLimit))
  {
    CallShows(db, c);
  }

  /** A tripped guard pauses the job and changes nothing else the request could
      have changed: no run, no event, no occurrence. */
  lemma TrippedEvent(db: Db, req: AcceptRequest)
    requires EnqueueEvent(db, req).reply.GuardTripped?
    ensures Tripped(db, EnqueueEvent(db, req).db, req)
  {
  }

  predicate Tripped(a: Db, b: Db, req: AcceptRequest) {
    var job := req.authority.job;
    b.runs == a.runs && b.events == a.events && b.occurrences == a.occurrences &&
    job in b.jobs && b.jobs[job].pause == PausedUnread(req.now) && GuardTrips(a, req)
  }

  lemma TrippedGuardCreatesNothing(db: Db, c: Call)
    requires Fenced(c) && (Perform(db, c).reply.GuardTripped? || Perform(db, c).reply == Denied(UnreadPaused))
    ensures Tripped(db, Perform(db, c).db, c.req)
  {
    if c.Eventful? { TrippedEvent(db, c.req); }
  }

  /** The only call that lifts a job's pause. */
  predicate Resumes(c: Call, job: Token) {
    c.Pausing? && c.job == job && !c.paused
  }

  predicate PausedIn(db: Db, job: Token) {
    job in db.jobs && !db.jobs[job].pause.Unpaused?
  }

  lemma SyncWhilePaused(db: Db, a: Authority, now: Time, job: Token)
    requires PausedIn(db, job) && Synced(db, a, now).Some?
    ensures PausedIn(Synced(db, a, now).value, job) && Synced(db, a, now).value.runs == db.runs
    ensures a.job in Synced(db, a, now).value.jobs
  {
  }

  lemma AcceptWhilePaused(db: Db, req: AcceptRequest, job: Token)
    requires PausedIn(db, job)
    ensures PausedIn(AcceptTx(db, req).db, job)
  {
  }

  lemma EventWhilePaused(db: Db, req: AcceptRequest, job: Token)
    requires PausedIn(db, job)
    ensures PausedIn(EnqueueEvent(db, req).db, job)
    ensures req.authority.job == job ==> EnqueueEvent(db, req).db.runs == db.runs
  {
    var synced := Synced(db, req.authority, req.now);
    if synced.Some? {
      SyncWhilePaused(db, req.authority, req.now, job);
      AcceptWhilePaused(synced.value, req, job);
    }
  }

  lemma PauseHolds(db: Db, c: Call, job: Token)
    requires PausedIn(db, job) && !Resumes(c, job)
    ensures PausedIn(Perform(db, c).db, job)
    ensures Fenced(c) && c.req.authority.job == job ==> Perform(db, c).db.runs == db.runs
  {
    if c.Eventful? { EventWhilePaused(db, c.req, job); }
  }

  /** A pause, whoever set it and whatever is configured, reported or delivered
      meanwhile, lasts until an explicit resume, and until then no fenced call
      creates a run of the job. */
  lemma {:induction false} PauseLastsUntilResumed(ds: seq<Db>, cs: seq<Call>, job: Token, j: nat, k: nat)
    requires Ran(ds, cs) && j <= k < |ds| && PausedIn(ds[j], job)
    requires forall m :: j <= m < k ==> !Resumes(cs[m], job)
    ensures PausedIn(ds[k], job)
    ensures j < k && Fenced(cs[k - 1]) && cs[k - 1].req.authority.job == job ==> ds[k].runs == ds[k - 1].runs
    decreases k - j
  {
    if j < k {
      PauseLastsUntilResumed(ds, cs, job, j, k - 1);
      PauseHolds(ds[k - 1], cs[k - 1], job);
    }
  }

  // --- Occurrences ------------------------------------------------------

  predicate AddsOne(a: Db, b: Db, req: AcceptRequest) {
    b.occurrences == a.occurrences ||
    (KeyOf(req) !in a.occurrences && KeyOf(req) in b.occurrences &&
     b.occurrences == a.occurrences[KeyOf(req) := b.occurrences[KeyOf(req)]] &&
     (b.occurrences[KeyOf(req)].outcome.AcceptedRun? ==>
       b.occurrences[KeyOf(req)].outcome.run == |a.runs| && |b.runs| == |a.runs| + 1 &&
       b.runs[|a.runs|].about.job == req.authority.job))
  }

  lemma AcceptTxAdds(db: Db, req: AcceptRequest)
    ensures AddsOne(db, AcceptTx(db, req).db, req)
  {
  }

  lemma EventAdds(db: Db, req: AcceptRequest)
    ensures AddsOne(db, EnqueueEvent(db, req).db, req)
  {
    var synced := Synced(db, req.authority, req.now);
    if synced.Some? { AcceptTxAdds(synced.value, req); }
  }

  lemma OccurrenceAdded(db: Db, c: Call)
    requires c.Scheduled? || c.Eventful? || c.Recording?
    ensures AddsOne(db, Perform(db, c).db, c.req)
  {
    match c
    case Scheduled(req) => AcceptTxAdds(db, req);
    case Eventful(req) => EventAdds(db, req);
    case _ =>
  }

  predicate OutcomeKept(a: Db, b: Db, key: Key)
    requires key in a.occurrences
  {
    key in b.occurrences && b.occurrences[key] == a.occurrences[key]
  }

  lemma CallKeepsOutcome(db: Db, c: Call, key: Key)
    requires key in db.occurrences
    ensures OutcomeKept(db, Perform(db, c).db, key)
  {
    if c.Scheduled? || c.Eventful? || c.Recording? { OccurrenceAdded(db, c); }
  }

  ghost predicate Keeping(ds: seq<Db>, key: Key) {
    forall k :: 0 < k < |ds| && key in ds[k - 1].occurrences ==> OutcomeKept(ds[k - 1], ds[k], key)
  }

  lemma {:induction false} KeptSince(ds: seq<Db>, j: nat, k: nat, key: Key)
    requires Keeping(ds, key) && j <= k < |ds| && key in ds[j].occurrences
    ensures OutcomeKept(ds[j], ds[k], key)
    decreases k - j
  {
    if j < k { KeptSince(ds, j, k - 1, key); }
  }

  lemma OccurrenceIsFinal(ds: seq<Db>, cs: seq<Call>, j: nat, k: nat, key: Key)
    requires Ran(ds, cs) && j <= k < |ds| && key in ds[j].occurrences
    ensures OutcomeKept(ds[j], ds[k], key)
  {
    forall m | 0 < m < |ds| && key in ds[m - 1].occurrences ensures OutcomeKept(ds[m - 1], ds[m], key) {
      CallKeepsOutcome(ds[m - 1], cs[m - 1], key);
    }
    KeptSince(ds, j, k, key);
  }

  /** Redelivering a recorded occurrence, after anything else has happened to the
      store, creates no run: an event delivery always gets the first outcome
      back, and a scheduled one gets it back or is denied by the fence. */
  lemma FirstOutcomeIsFinal(ds: seq<Db>, cs: seq<Call>, j: nat, k: nat, key: Key)
    requires Ran(ds, cs) && j <= k < |cs| && key in ds[j].occurrences
    requires (cs[k].Scheduled? || cs[k].Eventful?) && KeyOf(cs[k].req) == key && key.1 != 0
    requires cs[k].Eventful? <==> cs[k].req.trigger.Event?
    ensures var first := Recorded(ds[j].occurrences[key].outcome, false);
      ds[k + 1].runs == ds[k].runs && ds[k + 1].occurrences == ds[k].occurrences &&
      var reply := Perform(ds[k], cs[k]).reply;
      if cs[k].Eventful? then reply == first else reply == first || reply.Denied?
  {
    OccurrenceIsFinal(ds, cs, j, k, key);
  }

  predicate SameRun(db: Db, key: Key, other: Key)
    requires key in db.occurrences && other in db.occurrences
  {
    db.occurrences[key].outcome.AcceptedRun? && db.occurrences[key].outcome == db.occurrences[other].outcome
  }

  /** Accepted occurrences name existing runs of their job, no two the same one. */
  ghost predicate OccurrencesOk(db: Db) {
    (forall key :: key in db.occurrences && db.occurrences[key].outcome.AcceptedRun? ==>
      var id := db.occurrences[key].outcome.run; id < |db.runs| && db.runs[id].about.job == key.0) &&
    forall key, other :: key in db.occurrences && other in db.occurrences ==> key == other || !SameRun(db, key, other)
  }

  lemma AddedKeepsOccurrences(a: Db, b: Db, req: AcceptRequest)
    requires OccurrencesOk(a) && RunsKept(a, b) && AddsOne(a, b, req)
    ensures OccurrencesOk(b)
  {
  }

  lemma OthersLeaveOccurrences(db: Db, c: Call)
    requires !c.Scheduled? && !c.Eventful? && !c.Recording?
    ensures Perform(db, c).db.occurrences == db.occurrences
  {
  }

  lemma SameOccurrencesOk(a: Db, b: Db)
    requires OccurrencesOk(a) && RunsKept(a, b) && b.occurrences == a.occurrences
    ensures OccurrencesOk(b)
  {
  }

  lemma CallKeepsOccurrences(db: Db, c: Call)
    requires OccurrencesOk(db)
    ensures OccurrencesOk(Perform(db, c).db)
  {
    CallKeepsRuns(db, c);
    if c.Scheduled? || c.Eventful? || c.Recording? {
      OccurrenceAdded(db, c);
      AddedKeepsOccurrences(db, Perform(db, c).db, c.req);
    } else {
      OthersLeaveOccurrences(db, c);
      SameOccurrencesOk(db, Perform(db, c).db);
    }
  }

  /** Every accepted occurrence has its own run. */
  lemma {:induction false} OneRunPerOccurrence(ds: seq<Db>, cs: seq<Call>, k: nat)
    requires Ran(ds, cs) && ds[0] == EmptyDb && k < |ds|
    ensures OccurrencesOk(ds[k])
  {
    if k > 0 {
      OneRunPerOccurrence(ds, cs, k - 1);
      CallKeepsOccurrences(ds[k - 1], cs[k - 1]);
    }
  }

  // --- Overlap ----------------------------------------------------------

  predicate Creates(c: Call) {
    Fenced(c) || c.AsCanary?
  }

  /** The job's runs all come from occurrences accepted under `forbid`. */
  predicate ForbidFed(c: Call, job: Token) {
    Creates(c) && c.req.authority.job == job ==> !c.Manually? && !c.AsCanary? && c.req.overlap.Forbid?
  }

  lemma ForbidCallKeeps(db: Db, c: Call, job: Token)
    requires Count(db.runs, OpenOf(job)) <= 1 && ForbidFed(c, job)
    ensures Count(Perform(db, c).db.runs, OpenOf(job)) <= 1
  {
    var k := ChangeOf(db, c);
    CallCounts(db, c, OpenOf(job));
    if k.Replaced? && k.wr.Wrote? { ReplacedLawfully(db, c); }
    if k.Grown? && (c.Scheduled? || c.Eventful?) { GrownWasAdmissible(db, c); }
  }

  /** A forbid job fed only by occurrences never has two runs that are not over. */
  lemma {:induction false} ForbidNeverOverlaps(ds: seq<Db>, cs: seq<Call>, job: Token, k: nat, a: nat, b: nat)
    requires Ran(ds, cs) && k < |ds| && Count(ds[0].runs, OpenOf(job)) <= 1
    requires forall m :: 0 <= m < k ==> ForbidFed(cs[m], job)
    ensures Count(ds[k].runs, OpenOf(job)) <= 1
    ensures a < b < |ds[k].runs| && ds[k].runs[a].about.job == ds[k].runs[b].about.job == job ==>
      Terminal(ds[k].runs[a].state) || Terminal(ds[k].runs[b].state)
  {
    if k > 0 {
      ForbidNeverOverlaps(ds, cs, job, k - 1, a, b);
      ForbidCallKeeps(ds[k - 1], cs[k - 1], job);
    }
    if a < b < |ds[k].runs| && Meets(OpenOf(job), ds[k].runs[a]) && Meets(OpenOf(job), ds[k].runs[b]) {
      CountTwo(ds[k].runs, a, b, OpenOf(job));
    }
  }

  /** Transition is only ever asked to settle a running run. */
  predicate SettlesOnly(c: Call) {
    c.Writing? && c.q.DoTransition? ==> c.q.from.Running? && c.q.to.Settled?
  }

  /** A row write other than the admission one never starts a run. */
  lemma WritesNeverActivate(db: Db, c: Call)
    requires c.Writing? && SettlesOnly(c) && ChangeOf(db, c).Replaced? && ChangeOf(db, c).wr.Wrote?
    ensures var k := ChangeOf(db, c);
      k.wr.row.disk == db.runs[k.id].disk && (Active(k.wr.row.state) ==> Active(db.runs[k.id].state))
  {
    OnlyAdmissionActivates(db.runs[c.id], LastOf(LogOf(db.events, c.id)), c.q, c.at);
  }

  /** What an admission that wrote `provisioning` had been granted. */
  lemma AdmittedWasGranted(db: Db, c: Call)
    requires c.Admitting? && ChangeOf(db, c).Replaced? && ChangeOf(db, c).wr.Wrote? && Active(ChangeOf(db, c).wr.row.state)
    ensures c.id < |db.runs|
    ensures var r, b := db.runs[c.id], ChangeOf(db, c).wr.row;
      r.state.Accepted? && r.about.definition.Snapshot? && c.probe.Probed? &&
      b.disk == Disk(c.probe.device, r.about.definition.reserve) &&
      Judge(c.limits, r.about.definition, c.probe, ActiveRows(db.runs)) == Granted
  {
  }

  /** Every run of the job says queue_one about itself. */
  predicate QueueOneFed(c: Call, job: Token) {
    Creates(c) && c.req.authority.job == job ==> SaysQueueOne(c.req.authority.definition, job)
  }

  predicate SaysQueueOne(d: Definition, job: Token) {
    d.Snapshot? && d.overlap.QueueOne? && d.job == job
  }

  ghost predicate QueueOneOk(db: Db, job: Token) {
    Count(db.runs, ActiveOf(job)) <= 1 && AllSay(db.runs, job)
  }

  lemma NoneActive(db: Db, job: Token, c: Call)
    requires c.Admitting? && c.id < |db.runs| && SaysQueueOne(db.runs[c.id].about.definition, job)
    requires Judge(c.limits, db.runs[c.id].about.definition, c.probe, ActiveRows(db.runs)) == Granted
    ensures Count(db.runs, ActiveOf(job)) == 0
  {
    ActiveRowsAre(db.runs);
    var active := ActiveRows(db.runs);
    forall r | r in db.runs ensures !Meets(ActiveOf(job), r) {
      if Active(r.state) {
        var i :| 0 <= i < |active| && active[i] == r;
        assert !Stops(db.runs[c.id].about.definition, active[i]);
      }
    }
    CountNone(db.runs, ActiveOf(job));
  }

  lemma QueueOneCallCounts(db: Db, c: Call, job: Token)
    requires QueueOneOk(db, job) && SettlesOnly(c)
    ensures Count(Perform(db, c).db.runs, ActiveOf(job)) <= 1
  {
    var k := ChangeOf(db, c);
    CallCounts(db, c, ActiveOf(job));
    if k.Replaced? && k.wr.Wrote? {
      ReplacedLawfully(db, c);
      if c.Writing? {
        WritesNeverActivate(db, c);
      } else if Active(k.wr.row.state) && db.runs[k.id].about.job == job {
        AdmittedWasGranted(db, c);
        assert db.runs[k.id] in db.runs;
        NoneActive(db, job, c);
      }
    }
  }

  /** Every run of the job says queue_one. */
  ghost predicate AllSay(runs: seq<Row>, job: Token) {
    forall r :: r in runs && r.about.job == job ==> SaysQueueOne(r.about.definition, job)
  }

  lemma AllStillSay(a: Db, b: Db, k: Change, job: Token)
    requires AllSay(a.runs, job) && Shows(a, b, k)
    requires k.Replaced? && k.wr.Wrote? ==> k.wr.row.about == a.runs[k.id].about
    requires k.Grown? && k.about.job == job ==> SaysQueueOne(k.about.definition, job)
    ensures AllSay(b.runs, job)
  {
    forall r | r in b.runs && r.about.job == job ensures SaysQueueOne(r.about.definition, job) {
      if k.Replaced? && k.wr.Wrote? && r == k.wr.row { assert a.runs[k.id] in a.runs; }
    }
  }

  lemma QueueOneCallKeeps(db: Db, c: Call, job: Token)
    requires QueueOneOk(db, job) && QueueOneFed(c, job) && SettlesOnly(c)
    ensures QueueOneOk(Perform(db, c).db, job)
  {
    var k := ChangeOf(db, c);
    QueueOneCallCounts(db, c, job);
    CallShows(db, c);
    if k.Replaced? && k.wr.Wrote? { ReplacedLawfully(db, c); }
    AllStillSay(db, Perform(db, c).db, k, job);
  }

  /** A job whose runs all say queue_one, manual runs and canaries included,
      never has two active runs. */
  lemma {:induction false} QueueOneNeverOverlaps(ds: seq<Db>, cs: seq<Call>, job: Token, k: nat, a: nat, b: nat)
    requires Ran(ds, cs) && k < |ds| && QueueOneOk(ds[0], job)
    requires forall m :: 0 <= m < k ==> QueueOneFed(cs[m], job) && SettlesOnly(cs[m])
    ensures QueueOneOk(ds[k], job)
    ensures a < b < |ds[k].runs| && ds[k].runs[a].about.job == ds[k].runs[b].about.job == job ==>
      !Active(ds[k].runs[a].state) || !Active(ds[k].runs[b].state)
  {
    if k > 0 {
      QueueOneNeverOverlaps(ds, cs, job, k - 1, a, b);
      QueueOneCallKeeps(ds[k - 1], cs[k - 1], job);
    }
    if a < b < |ds[k].runs| && Meets(ActiveOf(job), ds[k].runs[a]) && Meets(ActiveOf(job), ds[k].runs[b]) {
      CountTwo(ds[k].runs, a, b, ActiveOf(job));
    }
  }

  // --- Capacity ---------------------------------------------------------

  /** A device's free space, as every probe of it finds it. */
  type Disks = map<Token, real>

  /** Admissions are decided under these limits, by probes of these disks. */
  predicate UnderLimits(c: Call, limits: Limits, disks: Disks) {
    c.Admitting? ==>
      c.limits == limits &&
      (c.probe.Probed? ==> c.probe.device != 0 && c.probe.device in disks && disks[c.probe.device] == c.probe.free)
  }

  /** The configuration's validation keeps every reserve positive. */
  predicate ReservesPositive(c: Call) {
    Creates(c) ==> PositiveReserve(c.req.authority.definition)
  }

  predicate PositiveReserve(d: Definition) {
    d.Snapshot? ==> d.reserve > 0.0
  }

  /** What a row reserves on a device: its claim on it, or its legacy reserve. */
  function Share(r: Row, device: Token): real {
    if Active(r.state) then Charge(r, device) else 0.0
  }

  function Reserved(runs: seq<Row>, device: Token): real {
    if runs == [] then 0.0 else Reserved(runs[..|runs| - 1], device) + Share(runs[|runs| - 1], device)
  }

  /** This is the total the allocator computes from the active rows. */
  lemma {:induction false} ReservedIsTotal(runs: seq<Row>, device: Token)
    ensures Total(ActiveRows(runs), device) == Reserved(runs, device)
  {
    if runs != [] {
      var front, last := ActiveRows(runs[..|runs| - 1]), runs[|runs| - 1];
      ReservedIsTotal(runs[..|runs| - 1], device);
      if Active(last.state) { assert ActiveRows(runs)[..|front|] == front; } else { assert ActiveRows(runs) == front; }
    }
  }

  lemma {:induction false} ReservedPut(runs: seq<Row>, id: nat, r: Row, device: Token)
    requires id < |runs|
    ensures Reserved(runs[id := r], device) == Reserved(runs, device) - Share(runs[id], device) + Share(r, device)
  {
    var n := |runs| - 1;
    if id < n {
      ReservedPut(runs[..n], id, r, device);
      assert runs[id := r][..n] == runs[..n][id := r];
    } else {
      assert runs[id := r][..n] == runs[..n];
    }
  }

  lemma ReservedGrown(runs: seq<Row>, r: Row, device: Token)
    ensures Reserved(runs + [r], device) == Reserved(runs, device) + Share(r, device)
  {
    assert (runs + [r])[..|runs|] == runs;
  }

  /** An active run that was admitted on this device. */
  predicate Occupies(r: Row, device: Token) {
    Active(r.state) && Claims(r) && r.disk.device == device
  }

  ghost predicate Roomy(runs: seq<Row>, limits: Limits, disks: Disks) {
    Count(runs, IsActive) <= limits.cap &&
    (forall r :: r in runs ==> PositiveReserve(r.about.definition)) &&
    forall r, device :: r in runs && Occupies(r, device) ==>
      device in disks && limits.floor + Reserved(runs, device) <= disks[device]
  }

  /** A row that stays put on its disk, or leaves it, keeps the room others have. */
  lemma LeavingKeepsRoom(runs: seq<Row>, id: nat, r: Row, limits: Limits, disks: Disks)
    requires Roomy(runs, limits, disks) && id < |runs|
    requires r.about == runs[id].about && r.disk == runs[id].disk && (Active(r.state) ==> Active(runs[id].state))
    ensures Roomy(runs[id := r], limits, disks)
  {
    var after := runs[id := r];
    CountPut(runs, id, r, IsActive);
    assert runs[id] in runs;
    forall s, device | s in after && Occupies(s, device)
      ensures device in disks && limits.floor + Reserved(after, device) <= disks[device]
    {
      ReservedPut(runs, id, r, device);
      if s == r { assert Occupies(runs[id], device); } else { assert s in runs; }
    }
    forall s | s in after ensures PositiveReserve(s.about.definition) {
      if s != r { assert s in runs; }
    }
  }

  /** A candidate that was granted fits, and takes nothing from other devices. */
  lemma GrantingKeepsRoom(runs: seq<Row>, id: nat, r: Row, limits: Limits, probe: Probe, disks: Disks)
    requires Roomy(runs, limits, disks) && id < |runs| && probe.Probed? && probe.device != 0
    requires probe.device in disks && disks[probe.device] == probe.free
    requires runs[id].state.Accepted? && runs[id].about.definition.Snapshot? && Active(r.state)
    requires r.about == runs[id].about && r.disk == Disk(probe.device, r.about.definition.reserve)
    requires Judge(limits, runs[id].about.definition, probe, ActiveRows(runs)) == Granted
    ensures Roomy(runs[id := r], limits, disks)
  {
    var after := runs[id := r];
    CountPut(runs, id, r, IsActive);
    ActiveRowsAre(runs);
    ReservedIsTotal(runs, probe.device);
    assert runs[id] in runs;
    forall s, device | s in after && Occupies(s, device)
      ensures device in disks && limits.floor + Reserved(after, device) <= disks[device]
    {
      ReservedPut(runs, id, r, device);
      if device != probe.device { assert s in runs; }
    }
    forall s | s in after ensures PositiveReserve(s.about.definition) {
      if s != r { assert s in runs; }
    }
  }

  lemma AcceptingKeepsRoom(runs: seq<Row>, r: Row, limits: Limits, disks: Disks)
    requires Roomy(runs, limits, disks) && r.state.Accepted? && PositiveReserve(r.about.definition)
    ensures Roomy(runs + [r], limits, disks)
  {
    CountGrown(runs, r, IsActive);
    forall s, device | s in runs + [r] && Occupies(s, device)
      ensures device in disks && limits.floor + Reserved(runs + [r], device) <= disks[device]
    {
      ReservedGrown(runs, r, device);
      assert s in runs;
    }
  }

  lemma CallKeepsRoom(db: Db, c: Call, limits: Limits, disks: Disks)
    requires Roomy(db.runs, limits, disks) && UnderLimits(c, limits, disks) && ReservesPositive(c) && SettlesOnly(c)
    ensures Roomy(Perform(db, c).db.runs, limits, disks)
  {
    CallShows(db, c);
    var k := ChangeOf(db, c);
    if k.Replaced? && k.wr.Wrote? {
      ReplacedLawfully(db, c);
      if c.Writing? {
        WritesNeverActivate(db, c);
        LeavingKeepsRoom(db.runs, k.id, k.wr.row, limits, disks);
      } else if Active(k.wr.row.state) {
        AdmittedWasGranted(db, c);
        GrantingKeepsRoom(db.runs, k.id, k.wr.row, limits, c.probe, disks);
      } else {
        LeavingKeepsRoom(db.runs, k.id, k.wr.row, limits, disks);
      }
    } else if k.Grown? {
      AcceptingKeepsRoom(db.runs, NewRow(k.about, k.source), limits, disks);
    }
  }

  ghost predicate RoomKept(ds: seq<Db>, limits: Limits, disks: Disks, k: nat) {
    forall m :: 0 < m < |ds| && m <= k && Roomy(ds[m - 1].runs, limits, disks) ==> Roomy(ds[m].runs, limits, disks)
  }

  lemma {:induction false} RoomSince(ds: seq<Db>, limits: Limits, disks: Disks, k: nat)
    requires k < |ds| && Roomy(ds[0].runs, limits, disks) && RoomKept(ds, limits, disks, k)
    ensures Roomy(ds[k].runs, limits, disks)
  {
    if k > 0 { RoomSince(ds, limits, disks, k - 1); }
  }

  /** Capacity is conserved across processes: whoever calls what in whatever
      order, the active runs never exceed the cap, and on every device with an
      active run admitted to it the floor, that device's reserves and all legacy
      reserves together never exceed its free space. */
  lemma CapacityHolds(ds: seq<Db>, cs: seq<Call>, limits: Limits, disks: Disks, k: nat)
    requires Ran(ds, cs) && k < |ds| && Roomy(ds[0].runs, limits, disks)
    requires forall m :: 0 <= m < k ==> UnderLimits(cs[m], limits, disks) && ReservesPositive(cs[m]) && SettlesOnly(cs[m])
    ensures Roomy(ds[k].runs, limits, disks)
  {
    forall m | 0 < m < |ds| && m <= k && Roomy(ds[m - 1].runs, limits, disks) ensures Roomy(ds[m].runs, limits, disks) {
      CallKeepsRoom(ds[m - 1], cs[m - 1], limits, disks);
    }
    RoomSince(ds, limits, disks, k);
  }
}
