/** One job's part of Evaluate, run against the store: synchronize the job, read
    its cursor, record every occurrence due since, and move the cursor. What it
    does is a poll, in the recorder's sense, that meets no other caller. */
module Evaluate {
  import opened Options
  import opened Rows
  import opened Ledger
  import opened LedgerTheorems
  import opened Schedule
  import opened Recorder
  import opened Outcomes
  import opened DurableStore

  /** How the evaluation of the job ended. */
  datatype Ending = Stopped | Discarded | Held | GuardPaused | Evaluated

  /** The calls an evaluation has made, as poll steps, and where they have led. */
  datatype Trail = Trail(start: World, calls: seq<Call>, steps: seq<Step>, at: World)

  ghost predicate Follows(t: Trail, job: Token, plans: Plans) {
    t.at.db == Replay(t.start.db, t.calls) && AllConcern(t.calls, job) && Leads(t.start, t.steps, t.at, job, plans)
  }

  ghost function Then(t: Trail, job: Token, plans: Plans, s: Step): Trail
    requires Enabled(t.at, job, plans, s)
  {
    Trail(t.start, if s.Look? then t.calls else t.calls + [CallOf(t.at, s)], t.steps + [s], Apply(t.at, job, plans, s))
  }

  lemma StillFollows(t: Trail, job: Token, plans: Plans, s: Step)
    requires Follows(t, job, plans) && Enabled(t.at, job, plans, s) && (!s.Look? ==> Concerns(CallOf(t.at, s), job))
    ensures Follows(Then(t, job, plans, s), job, plans)
  {
    LeadsOn(t.start, t.steps, t.at, job, plans, s);
    if !s.Look? { Replayed(t.start.db, t.calls, CallOf(t.at, s)); }
  }

  function RequestFor(template: AcceptRequest, p: Planned, gate: Gate, now: Time): AcceptRequest {
    template.(key := p.key, trigger := p.trigger, scheduledFor := p.at,
              source := if gate.NewSource? then gate.source else 0, now := now)
  }

  /** The call that records one occurrence: missed, unchanged, or accepted. */
  function RecordCall(template: AcceptRequest, p: Planned, gate: Gate, now: Time): Call {
    var req := RequestFor(template, p, gate, now);
    if p.missed then Recording(req, Missed)
    else if gate.SameSource? then Recording(req, SkippedUnchanged)
    else Scheduled(req)
  }

  method RecordOne(s: Store, template: AcceptRequest, p: Planned, gate: Gate, now: Time) returns (reply: Reply)
    requires s.Valid() && (gate.LookupFails? ==> p.missed)
    modifies s
    ensures s.Valid() && After(s.Contents(), reply) == Perform(old(s.Contents()), RecordCall(template, p, gate, now))
  {
    var req := RequestFor(template, p, gate, now);
    if p.missed {
      reply := s.RecordOccurrenceIfAuthority(req, Missed);
    } else if gate.SameSource? {
      reply := s.RecordOccurrenceIfAuthority(req, SkippedUnchanged);
    } else {
      reply := s.AcceptScheduledOccurrence(req);
    }
  }

  /** The job's authority is current and it may run. */
  predicate MayGoOn(db: Db, a: Authority) {
    Fence(db, a.job, a.config, a.hash, true).None?
  }

  /** Nobody else is there to stop an evaluation: recording is not refused, and only
      the unread guard keeps it from going on. */
  lemma RecordingGoesOn(db: Db, template: AcceptRequest, p: Planned, gate: Gate, now: Time)
    requires MayGoOn(db, template.authority) && p.key != 0 && !p.trigger.Event?
    ensures var done := Perform(db, RecordCall(template, p, gate, now));
      if done.reply.Recorded? then MayGoOn(done.db, template.authority)
      else done.reply == GuardTripped && done.db.jobs[template.authority.job].pause == PausedUnread(now)
  {
  }

  lemma CompletingGoesOn(db: Db, a: Authority)
    requires MayGoOn(db, a)
    ensures var done := Perform(db, Complete(a.job, a.config, a.hash, true)); done.reply == Done && MayGoOn(done.db, a)
  {
  }

  lemma AdvancingGoesOn(db: Db, a: Authority, now: Time)
    requires MayGoOn(db, a)
    ensures Perform(db, Cursor(a.job, a.config, a.hash, now, true)).reply == Done
  {
  }

  /** The unread guard has paused the job. */
  predicate GuardedOff(db: Db, job: Token, now: Time) {
    job in db.jobs && db.jobs[job].pause == PausedUnread(now)
  }

  /** Keys of the first n planned occurrences are all recorded. */
  predicate AllRecorded(db: Db, job: Token, due: seq<Planned>, n: nat)
    requires n <= |due|
  {
    forall i :: 0 <= i < n ==> HasKey(db, job, due[i].key)
  }

  /** The job is there with its cursor at this moment. */
  predicate CursorAt(db: Db, job: Token, at: Time) {
    job in db.jobs && db.jobs[job].cursor == at
  }

  /** The evaluation has led to db, with the cursor not moved. */
  ghost predicate Led(t: Trail, db: Db, a: Authority, plans: Plans, after: Time) {
    Follows(t, a.job, plans) && t.at.db == db && CursorAt(db, a.job, after)
  }

  /** ... and as a poll it is scanning, with these moments left. */
  ghost predicate Scans(t: Trail, db: Db, a: Authority, plans: Plans, now: Time, after: Time, todo: seq<Time>) {
    Led(t, db, a, plans, after) && t.at.polls == [Poll(a, now, Scanning(after, todo))]
  }

  lemma CallKeepsProgress(db: Db, c: Call, job: Token, after: Time, due: seq<Planned>, n: nat)
    requires CursorAt(db, job, after) && n <= |due| && AllRecorded(db, job, due, n) && !c.Cursor?
    ensures CursorAt(Perform(db, c).db, job, after) && AllRecorded(Perform(db, c).db, job, due, n)
  {
    CallIsSteady(db, c, job);
    OthersLeaveCursor(db, c, job);
  }

  /** Recording the next moment is the poll's next step. */
  lemma RecordStep(t: Trail, db: Db, template: AcceptRequest, plans: Plans, now: Time, after: Time, todo: seq<Time>,
                   p: Planned, gate: Gate) returns (u: Trail)
    requires Scans(t, db, template.authority, plans, now, after, todo) && todo != []
    requires p.key == KeyAt(plans(template.authority.hash), todo[0]) && p.key != 0 && !p.trigger.Event?
    ensures u.calls == t.calls + [RecordCall(template, p, gate, now)]
    ensures var done := Perform(db, RecordCall(template, p, gate, now));
      u.start == t.start && Led(u, done.db, template.authority, plans, after) &&
      (done.reply.Recorded? ==>
        Scans(u, done.db, template.authority, plans, now, after, todo[1..]) &&
        HasKey(done.db, template.authority.job, p.key))
  {
    var a, c := template.authority, RecordCall(template, p, gate, now);
    var s := Record(0, c);
    StillFollows(t, a.job, plans, s);
    OthersLeaveCursor(db, c, a.job);
    if Perform(db, c).reply.Recorded? { CallRecords(db, c, a, p.key); }
    u := Then(t, a.job, plans, s);
  }

  lemma CompleteStep(t: Trail, db: Db, a: Authority, plans: Plans, now: Time, after: Time, todo: seq<Time>) returns (u: Trail)
    requires Scans(t, db, a, plans, now, after, todo)
    ensures u.calls == t.calls + [Complete(a.job, a.config, a.hash, true)]
    ensures var done := Perform(db, Complete(a.job, a.config, a.hash, true));
      u.start == t.start && Scans(u, done.db, a, plans, now, after, todo)
  {
    var s := Other(Complete(a.job, a.config, a.hash, true));
    StillFollows(t, a.job, plans, s);
    u := Then(t, a.job, plans, s);
  }

  lemma AdvanceStep(t: Trail, db: Db, a: Authority, plans: Plans, now: Time, after: Time) returns (u: Trail)
    requires Scans(t, db, a, plans, now, after, [])
    ensures u.calls == t.calls + [Cursor(a.job, a.config, a.hash, now, true)]
    ensures var done := Perform(db, Cursor(a.job, a.config, a.hash, now, true));
      u.start == t.start && Led(u, done.db, a, plans, if done.reply.Denied? then after else Max(after, now))
  {
    StillFollows(t, a.job, plans, Advance(0));
    u := Then(t, a.job, plans, Advance(0));
  }

  /** What is planned for a moment of the scan. */
  predicate PlannedFor(p: Planned, m: Time, kind: LawfulKind, grace: nat, now: Time) {
    m <= now && p == Lateness(KeyAt(kind, m), m, TriggerOf(kind), grace, now)
  }

  ghost predicate AllPlanned(due: seq<Planned>, moments: seq<Time>, terms: Terms) {
    |due| == |moments| && DueMoments(terms.kind, terms.after, terms.now) == Some(moments) &&
    forall i :: 0 <= i < |due| ==>
      terms.after < moments[i] && KeyAt(terms.kind, moments[i]) != 0 &&
      PlannedFor(due[i], moments[i], terms.kind, terms.grace, terms.now)
  }

  /** The call made for it is the right one. */
  lemma PlannedIsRight(terms: Terms, p: Planned, m: Time)
    requires InScan(terms, m) && PlannedFor(p, m, terms.kind, terms.grace, terms.now)
    requires terms.gate(p.key).LookupFails? ==> p.missed
    ensures Right(terms, RecordCall(terms.template, p, terms.gate(p.key), terms.now))
  {
  }

  /** An occurrence that is due and whose source lookup fails. */
  ghost predicate GateFails(terms: Terms, m: Time) {
    InScan(terms, m) && !Overdue(terms, m) && terms.gate(KeyAt(terms.kind, m)).LookupFails?
  }

  lemma StillRight(terms: Terms, calls: seq<Call>, c: Call)
    requires AllRight(terms, calls) && Right(terms, c)
    ensures AllRight(terms, calls + [c])
  {
  }

  /** ... and, for a one-time job, the call that marks it completed. */
  lemma RoundCompletes(past: Trail, db: Db, plans: Plans, terms: Terms, due: seq<Planned>, n: nat, moments: seq<Time>)
      returns (u: Trail)
    requires AllPlanned(due, moments, terms) && n <= |due| && AllRight(terms, past.calls)
    requires Scans(past, db, terms.template.authority, plans, terms.now, terms.after, moments[n..])
    requires AllRecorded(db, terms.template.authority.job, due, n) && MayGoOn(db, terms.template.authority)
    ensures u.start == past.start && AllRight(terms, u.calls)
    ensures var a := terms.template.authority; var done := Perform(db, Complete(a.job, a.config, a.hash, true));
      Scans(u, done.db, a, plans, terms.now, terms.after, moments[n..]) && AllRecorded(done.db, a.job, due, n) &&
      done.reply == Done && MayGoOn(done.db, a)
  {
    var a := terms.template.authority;
    CompletingGoesOn(db, a);
    u := CompleteStep(past, db, a, plans, terms.now, terms.after, moments[n..]);
    CallKeepsProgress(db, Complete(a.job, a.config, a.hash, true), a.job, terms.after, due, n);
    StillRight(terms, past.calls, Complete(a.job, a.config, a.hash, true));
  }

  method CompleteJob(s: Store, a: Authority, ghost past: Trail, ghost plans: Plans, ghost terms: Terms,
                     ghost due: seq<Planned>, ghost n: nat, ghost moments: seq<Time>)
      returns (ok: bool, ghost trail: Trail)
    requires s.Valid() && a == terms.template.authority && AllPlanned(due, moments, terms) && n <= |due|
    requires Scans(past, s.Contents(), a, plans, terms.now, terms.after, moments[n..]) && AllRight(terms, past.calls)
    requires AllRecorded(s.Contents(), a.job, due, n) && MayGoOn(s.Contents(), a)
    modifies s
    ensures s.Valid() && ok && trail.start == past.start && AllRight(terms, trail.calls)
    ensures Scans(trail, s.Contents(), a, plans, terms.now, terms.after, moments[n..])
    ensures AllRecorded(s.Contents(), a.job, due, n) && MayGoOn(s.Contents(), a)
  {
    trail := RoundCompletes(past, s.Contents(), plans, terms, due, n, moments);
    var reply := s.SetCompletedIfAuthority(a.job, a.config, a.hash, true);
    ok := reply.Done?;
  }

  /** What one round leaves: its occurrence recorded and the rest to do, or why the
      evaluation ends here. */
  ghost predicate RoundDone(terms: Terms, plans: Plans, due: seq<Planned>, i: nat, moments: seq<Time>, t: Trail, db: Db,
                            stop: Option<Ending>)
    requires i < |due| == |moments|
  {
    var a := terms.template.authority;
    Led(t, db, a, plans, terms.after) &&
    match stop
    case None =>
      Scans(t, db, a, plans, terms.now, terms.after, moments[i + 1..]) && AllRecorded(db, a.job, due, i + 1) && MayGoOn(db, a)
    case Some(ending) =>
      if ending.Stopped? then GateFails(terms, moments[i]) else ending.GuardPaused? && GuardedOff(db, a.job, terms.now)
  }

  /** One round of the loop over what is due; None means go on. */
  method RecordNext(s: Store, template: AcceptRequest, kind: LawfulKind, due: seq<Planned>, i: nat, gate: Gate, now: Time,
                    ghost past: Trail, ghost plans: Plans, ghost terms: Terms, ghost moments: seq<Time>)
      returns (stop: Option<Ending>, ghost trail: Trail)
    requires terms == Terms(template, kind, terms.grace, terms.gate, terms.after, now) && AllPlanned(due, moments, terms)
    requires i < |due| && gate == terms.gate(due[i].key)
    requires s.Valid() && plans(template.authority.hash) == kind && AllRight(terms, past.calls)
    requires Scans(past, s.Contents(), template.authority, plans, now, terms.after, moments[i..])
    requires AllRecorded(s.Contents(), template.authority.job, due, i) && MayGoOn(s.Contents(), template.authority)
    modifies s
    ensures s.Valid() && trail.start == past.start && AllRight(terms, trail.calls)
    ensures RoundDone(terms, plans, due, i, moments, trail, s.Contents(), stop)
  {
    if !due[i].missed && gate.LookupFails? { return Some(Ending.Stopped), past; }
    ghost var before := s.Contents();
    trail := RoundStep(past, before, plans, terms, due, i, moments);
    var reply := RecordOne(s, template, due[i], gate, now);
    if !reply.Recorded? { return Some(if reply.GuardTripped? then GuardPaused else Ending.Stopped), trail; }
    if kind.OnceKind? {
      var ok;
      ok, trail := CompleteJob(s, template.authority, trail, plans, terms, due, i + 1, moments);
      if !ok { return Some(Ending.Stopped), trail; }
    }
    stop := None;
  }

  /** The round's recording call, as the poll's next step. */
  lemma RoundStep(past: Trail, db: Db, plans: Plans, terms: Terms, due: seq<Planned>, i: nat, moments: seq<Time>)
      returns (u: Trail)
    requires AllPlanned(due, moments, terms) && i < |due| && AllRight(terms, past.calls)
    requires plans(terms.template.authority.hash) == terms.kind && (terms.gate(due[i].key).LookupFails? ==> due[i].missed)
    requires Scans(past, db, terms.template.authority, plans, terms.now, terms.after, moments[i..])
    requires AllRecorded(db, terms.template.authority.job, due, i) && MayGoOn(db, terms.template.authority)
    ensures u.start == past.start && AllRight(terms, u.calls)
    ensures var a := terms.template.authority;
      var done := Perform(db, RecordCall(terms.template, due[i], terms.gate(due[i].key), terms.now));
      Led(u, done.db, a, plans, terms.after) && AllRecorded(done.db, a.job, due, i) &&
      if done.reply.Recorded? then
        Scans(u, done.db, a, plans, terms.now, terms.after, moments[i + 1..]) && AllRecorded(done.db, a.job, due, i + 1) &&
        MayGoOn(done.db, a)
      else done.reply == GuardTripped && GuardedOff(done.db, a.job, terms.now)
  {
    var a, gate := terms.template.authority, terms.gate(due[i].key);
    assert moments[i..][0] == moments[i] && moments[i..][1..] == moments[i + 1..] && moments[i] in moments;
    u := RecordStep(past, db, terms.template, plans, terms.now, terms.after, moments[i..], due[i], gate);
    CallKeepsProgress(db, RecordCall(terms.template, due[i], gate, terms.now), a.job, terms.after, due, i);
    RecordingGoesOn(db, terms.template, due[i], gate, terms.now);
    PlannedIsRight(terms, due[i], moments[i]);
    StillRight(terms, past.calls, RecordCall(terms.template, due[i], gate, terms.now));
  }

  /** The job's cursor, as synchronizing the job leaves it. */
  function CursorFor(db: Db, job: Token, now: Time): Time {
    if job in db.jobs then db.jobs[job].cursor else now
  }

  /** Everything a scan of the window finds has been recorded. */
  ghost predicate Caught(db: Db, job: Token, kind: LawfulKind, after: Time, now: Time) {
    HasAll(db, job, Found(kind, after, now))
  }

  lemma BeginStep(t: Trail, db: Db, a: Authority, plans: Plans, now: Time) returns (u: Trail)
    requires Follows(t, a.job, plans) && t.at.db == db && t.at.polls == [] && SyncJob(db, a, now).reply.Done?
    ensures u.start == t.start && Led(u, SyncJob(db, a, now).db, a, plans, CursorFor(db, a.job, now))
    ensures u.at.polls == [Poll(a, now, Begun)] && u.calls == t.calls + [Sync(a, now)]
  {
    StillFollows(t, a.job, plans, Begin(a, now));
    u := Then(t, a.job, plans, Begin(a, now));
    assert [] + [Poll(a, now, Begun)] == [Poll(a, now, Begun)];
  }

  lemma DiscardStep(t: Trail, db: Db, a: Authority, plans: Plans, now: Time, after: Time) returns (u: Trail)
    requires Led(t, db, a, plans, after) && t.at.polls == [Poll(a, now, Begun)] && !a.enabled
    requires Fence(db, a.job, a.config, a.hash, false).None?
    ensures u.start == t.start && u.calls == t.calls + [Cursor(a.job, a.config, a.hash, now, false)]
    ensures Led(u, Perform(db, Cursor(a.job, a.config, a.hash, now, false)).db, a, plans, Max(after, now))
  {
    StillFollows(t, a.job, plans, Discard(0));
    u := Then(t, a.job, plans, Discard(0));
  }

  lemma LookStep(t: Trail, db: Db, a: Authority, plans: Plans, now: Time, after: Time) returns (u: Trail)
    requires Led(t, db, a, plans, after) && t.at.polls == [Poll(a, now, Begun)] && a.enabled
    ensures u.start == t.start && u.calls == t.calls && Led(u, db, a, plans, after)
    ensures var moments := DueMoments(plans(a.hash), after, now);
      moments.Some? ==> Scans(u, db, a, plans, now, after, moments.value)
  {
    StillFollows(t, a.job, plans, Look(0));
    u := Then(t, a.job, plans, Look(0));
  }

  /** The job may run, under this very revision. */
  predicate Runnable(db: Db, a: Authority) {
    Fence(db, a.job, a.config, a.hash, true).None? && a.enabled && !db.jobs[a.job].completed
  }

  /** ... and more is due than one evaluation takes. */
  ghost predicate Overfull(db: Db, a: Authority, kind: LawfulKind, now: Time) {
    Runnable(db, a) && DueMoments(kind, db.jobs[a.job].cursor, now).None?
  }

  lemma RunnableStaysSynced(db: Db, a: Authority, now: Time)
    requires Runnable(db, a)
    ensures SyncJob(db, a, now).db == db
  {
  }

  lemma SyncedIsCurrent(db: Db, a: Authority, now: Time)
    requires Synced(db, a, now).Some?
    ensures var b := Synced(db, a, now).value;
      Fence(b, a.job, a.config, a.hash, false).None? && CursorAt(b, a.job, CursorFor(db, a.job, now))
  {
  }

  lemma PlannedAreFit(terms: Terms)
    requires DueMoments(terms.kind, terms.after, terms.now).Some?
    ensures var due := Occurrences(terms.kind, terms.grace, terms.after, terms.now).value;
      AllPlanned(due, DueMoments(terms.kind, terms.after, terms.now).value, terms)
  {
    DueMomentsAre(terms.kind, terms.after, terms.now);
  }

  lemma RecordedIsCaught(db: Db, job: Token, k: LawfulKind, grace: nat, after: Time, now: Time)
    requires DueMoments(k, after, now).Some?
    requires var due := Occurrences(k, grace, after, now).value; AllRecorded(db, job, due, |due|)
    ensures Caught(db, job, k, after, now)
  {
    DueMomentsAre(k, after, now);
    var due, moments := Occurrences(k, grace, after, now).value, DueMoments(k, after, now).value;
    forall key | key in Found(k, after, now) ensures HasKey(db, job, key) {
      var i :| 0 <= i < |moments| && KeyAt(k, moments[i]) == key;
      assert due[i].key == key;
    }
  }

  /** The loop over what is due. */
  method RecordAll(s: Store, template: AcceptRequest, kind: LawfulKind, due: seq<Planned>, gate: Token -> Gate, now: Time,
                   ghost past: Trail, ghost plans: Plans, ghost terms: Terms, ghost moments: seq<Time>)
      returns (stop: Option<Ending>, ghost trail: Trail)
    requires terms == Terms(template, kind, terms.grace, gate, terms.after, now) && AllPlanned(due, moments, terms)
    requires s.Valid() && plans(template.authority.hash) == kind && AllRight(terms, past.calls)
    requires Scans(past, s.Contents(), template.authority, plans, now, terms.after, moments)
    requires MayGoOn(s.Contents(), template.authority)
    modifies s
    ensures s.Valid() && trail.start == past.start && Led(trail, s.Contents(), template.authority, plans, terms.after)
    ensures AllRight(terms, trail.calls)
    ensures stop.None? ==>
      Scans(trail, s.Contents(), template.authority, plans, now, terms.after, []) &&
      AllRecorded(s.Contents(), template.authority.job, due, |due|) && MayGoOn(s.Contents(), template.authority)
    ensures stop.Some? ==>
      if stop.value.Stopped? then exists m :: GateFails(terms, m)
      else stop.value.GuardPaused? && GuardedOff(s.Contents(), template.authority.job, now)
  {
    stop, trail := None, past;
    assert moments[0..] == moments;
    for i := 0 to |due|
      invariant s.Valid() && trail.start == past.start && AllRight(terms, trail.calls)
      invariant Scans(trail, s.Contents(), template.authority, plans, now, terms.after, moments[i..])
      invariant AllRecorded(s.Contents(), template.authority.job, due, i) && MayGoOn(s.Contents(), template.authority)
    {
      stop, trail := RecordNext(s, template, kind, due, i, gate(due[i].key), now, trail, plans, terms, moments);
      if stop.Some? { return; }
    }
    assert moments[|due|..] == [];
    stop := None;
  }

  /** What looking, recording and advancing leave: the cursor moved exactly when all
      of it went through; else why it did not. */
  ghost predicate ScannedRightly(terms: Terms, plans: Plans, before: Db, t: Trail, end: Db, ending: Ending) {
    var a := terms.template.authority;
    (match ending
     case Evaluated =>
       Led(t, end, a, plans, Max(terms.after, terms.now)) && Caught(end, a.job, terms.kind, terms.after, terms.now)
     case Stopped =>
       Led(t, end, a, plans, terms.after) &&
       (DueMoments(terms.kind, terms.after, terms.now).None? || exists m :: GateFails(terms, m))
     case GuardPaused => Led(t, end, a, plans, terms.after) && GuardedOff(end, a.job, terms.now)
     case _ => false) &&
    (DueMoments(terms.kind, terms.after, terms.now).None? ==> ending.Stopped? && end == before)
  }

  /** Evaluating a synchronized job that may run: look, record, advance. */
  method ScanJob(s: Store, template: AcceptRequest, kind: LawfulKind, grace: nat, gate: Token -> Gate, now: Time,
                 ghost past: Trail, ghost plans: Plans, ghost after: Time)
      returns (ending: Ending, ghost trail: Trail)
    requires s.Valid() && plans(template.authority.hash) == kind && template.authority.enabled
    requires Led(past, s.Contents(), template.authority, plans, after)
    requires past.at.polls == [Poll(template.authority, now, Begun)]
    requires AllRight(Terms(template, kind, grace, gate, after, now), past.calls) && MayGoOn(s.Contents(), template.authority)
    modifies s
    ensures s.Valid() && trail.start == past.start
    ensures AllRight(Terms(template, kind, grace, gate, after, now), trail.calls)
    ensures ScannedRightly(Terms(template, kind, grace, gate, after, now), plans, old(s.Contents()), trail, s.Contents(), ending)
  {
    var a := template.authority;
    ghost var terms := Terms(template, kind, grace, gate, after, now);
    trail := LookStep(past, s.Contents(), a, plans, now, after);
    var occurrences := Between(kind, grace, s.jobs[a.job].cursor, now);
    if occurrences.None? { return Ending.Stopped, trail; }
    var due := occurrences.value;
    PlannedAreFit(terms);
    var stop;
    stop, trail := RecordAll(s, template, kind, due, gate, now, trail, plans, terms, DueMoments(kind, after, now).value);
    if stop.Some? { return stop.value, trail; }
    ghost var before := s.Contents();
    AdvancingGoesOn(before, a, now);
    StillRight(terms, trail.calls, Cursor(a.job, a.config, a.hash, now, true));
    trail := AdvanceStep(trail, before, a, plans, now, after);
    CallIsSteady(before, Cursor(a.job, a.config, a.hash, now, true), a.job);
    var reply := s.SetCursorIfAuthority(a.job, a.config, a.hash, now, true);
    if reply.Denied? { return Ending.Stopped, trail; }
    RecordedIsCaught(s.Contents(), a.job, kind, grace, after, now);
    ending := Evaluated;
  }

  /** The job's window, from the cursor as synchronizing leaves it to the clock. */
  function TermsFor(db: Db, template: AcceptRequest, kind: LawfulKind, grace: nat, gate: Token -> Gate, now: Time): Terms {
    Terms(template, kind, grace, gate, CursorFor(db, template.authority.job, now), now)
  }

  /** Every occurrence of the job that is new is rightly recorded. */
  ghost predicate AddsRightly(terms: Terms, a: Db, calls: seq<Call>, b: Db) {
    var job := terms.template.authority.job;
    forall key :: HasKey(b, job, key) && !HasKey(a, job, key) ==>
      RightlyRecorded(terms, a, calls, key, b.occurrences[(job, key)], b)
  }

  lemma RightCallsAddRightly(terms: Terms, db: Db, calls: seq<Call>)
    requires AllRight(terms, calls) && AllConcern(calls, terms.template.authority.job)
    ensures AddsRightly(terms, db, calls, Replay(db, calls))
  {
    var job := terms.template.authority.job;
    forall key | HasKey(Replay(db, calls), job, key) && !HasKey(db, job, key)
      ensures RightlyRecorded(terms, db, calls, key, Replay(db, calls).occurrences[(job, key)], Replay(db, calls))
    {
      NewOccurrencesAreRight(terms, db, calls, key);
    }
  }

  /** Why the evaluation ended as it did: refused, discarded or held by what the job
      is once synchronized; stopped by too much due or a failed lookup; paused by the
      unread guard; and otherwise carried through. */
  ghost predicate EndsRightly(terms: Terms, a: Db, b: Db, ending: Ending) {
    var authority := terms.template.authority;
    var synced := SyncJob(a, authority, terms.now);
    if synced.reply != Done then ending.Stopped? && b == a
    else if !authority.enabled then ending == Discarded
    else if !MayGoOn(synced.db, authority) || synced.db.jobs[authority.job].completed then ending == Held && b == synced.db
    else
      match ending
      case Stopped => DueMoments(terms.kind, terms.after, terms.now).None? || exists m :: GateFails(terms, m)
      case GuardPaused => GuardedOff(b, authority.job, terms.now)
      case Evaluated => true
      case _ => false
  }

  lemma RunAwaits(start: World, plans: Plans, terms: Terms) returns (t: Trail)
    requires start.polls == []
    ensures t == Trail(start, [], [], start) && Follows(t, terms.template.authority.job, plans) && AllRight(terms, t.calls)
  {
    t := Trail(start, [], [], start);
    LeadsNowhere(start, terms.template.authority.job, plans);
  }

  /** The synchronizing call, as a poll's first step. */
  lemma RunBegins(start: World, plans: Plans, terms: Terms) returns (u: Trail)
    requires start.polls == [] && SyncJob(start.db, terms.template.authority, terms.now).reply.Done?
    requires terms.after == CursorFor(start.db, terms.template.authority.job, terms.now)
    ensures u.start == start && AllRight(terms, u.calls)
    ensures var a := terms.template.authority; var db := SyncJob(start.db, a, terms.now).db;
      Led(u, db, a, plans, terms.after) && u.at.polls == [Poll(a, terms.now, Begun)] &&
      Fence(db, a.job, a.config, a.hash, false).None?
  {
    var t := RunAwaits(start, plans, terms);
    u := BeginStep(t, start.db, terms.template.authority, plans, terms.now);
    SyncedIsCurrent(start.db, terms.template.authority, terms.now);
  }

  lemma RunDiscards(t: Trail, db: Db, plans: Plans, terms: Terms) returns (u: Trail)
    requires var a := terms.template.authority;
      Led(t, db, a, plans, terms.after) && t.at.polls == [Poll(a, terms.now, Begun)] && !a.enabled &&
      Fence(db, a.job, a.config, a.hash, false).None? && AllRight(terms, t.calls)
    ensures u.start == t.start && AllRight(terms, u.calls)
    ensures var a := terms.template.authority;
      Led(u, Perform(db, Cursor(a.job, a.config, a.hash, terms.now, false)).db, a, plans, Max(terms.after, terms.now))
  {
    var a := terms.template.authority;
    StillRight(terms, t.calls, Cursor(a.job, a.config, a.hash, terms.now, false));
    u := DiscardStep(t, db, a, plans, terms.now, terms.after);
  }

  /** Where the cursor is in the end: at the clock after a whole evaluation or a
      discarded one, and where it was otherwise. */
  ghost predicate CursorRightly(terms: Terms, a: Db, b: Db, ending: Ending) {
    var job := terms.template.authority.job;
    if ending.Evaluated? then CursorAt(b, job, Max(terms.after, terms.now)) && Caught(b, job, terms.kind, terms.after, terms.now)
    else if ending.Discarded? then CursorAt(b, job, Max(terms.after, terms.now))
    else job in a.jobs ==> CursorAt(b, job, terms.after)
  }

  /** What a run of the job's evaluation leaves. */
  ghost predicate RanJob(terms: Terms, plans: Plans, start: World, t: Trail, end: Db, ending: Ending) {
    var a := terms.template.authority;
    t.start == start && Follows(t, a.job, plans) && t.at.db == end && AllRight(terms, t.calls) &&
    CursorRightly(terms, start.db, end, ending) && EndsRightly(terms, start.db, end, ending) &&
    (Overfull(start.db, a, terms.kind, terms.now) ==> ending.Stopped? && end == start.db)
  }

  /** Disabled time is discarded: the cursor moves without a scan. */
  method DiscardJob(s: Store, a: Authority, now: Time, ghost past: Trail, ghost plans: Plans, ghost terms: Terms)
      returns (ghost trail: Trail)
    requires s.Valid() && a == terms.template.authority && now == terms.now && !a.enabled
    requires Led(past, s.Contents(), a, plans, terms.after) && past.at.polls == [Poll(a, now, Begun)]
    requires Fence(s.Contents(), a.job, a.config, a.hash, false).None? && AllRight(terms, past.calls)
    modifies s
    ensures s.Valid() && trail.start == past.start && AllRight(terms, trail.calls)
    ensures Led(trail, s.Contents(), a, plans, Max(terms.after, now))
  {
    trail := RunDiscards(past, s.Contents(), plans, terms);
    var reply := s.SetCursorIfAuthority(a.job, a.config, a.hash, now, false);
  }

  lemma RanRefused(terms: Terms, plans: Plans, start: World, t: Trail)
    requires terms.after == CursorFor(start.db, terms.template.authority.job, terms.now)
    requires Follows(t, terms.template.authority.job, plans) && t.start == start && t.at.db == start.db
    requires AllRight(terms, t.calls)
    requires SyncJob(start.db, terms.template.authority, terms.now).reply != Done
    ensures RanJob(terms, plans, start, t, start.db, Ending.Stopped)
  {
  }

  lemma RanHeld(terms: Terms, plans: Plans, start: World, t: Trail, end: Db)
    requires t.start == start && AllRight(terms, t.calls) && Led(t, end, terms.template.authority, plans, terms.after)
    requires terms.template.authority.enabled
    requires var a := terms.template.authority; var synced := SyncJob(start.db, a, terms.now);
      synced.reply == Done && end == synced.db && (!MayGoOn(end, a) || end.jobs[a.job].completed)
    ensures RanJob(terms, plans, start, t, end, Held)
  {
    if Runnable(start.db, terms.template.authority) { RunnableStaysSynced(start.db, terms.template.authority, terms.now); }
  }

  lemma RanDiscarded(terms: Terms, plans: Plans, start: World, t: Trail, end: Db)
    requires t.start == start && AllRight(terms, t.calls) && !terms.template.authority.enabled
    requires Led(t, end, terms.template.authority, plans, Max(terms.after, terms.now))
    requires SyncJob(start.db, terms.template.authority, terms.now).reply == Done
    ensures RanJob(terms, plans, start, t, end, Discarded)
  {
  }

  lemma RanScanned(terms: Terms, plans: Plans, start: World, t: Trail, end: Db, ending: Ending)
    requires terms.after == CursorFor(start.db, terms.template.authority.job, terms.now)
    requires t.start == start && AllRight(terms, t.calls) && terms.template.authority.enabled
    requires var a := terms.template.authority; var synced := SyncJob(start.db, a, terms.now);
      synced.reply == Done && MayGoOn(synced.db, a) && !synced.db.jobs[a.job].completed &&
      ScannedRightly(terms, plans, synced.db, t, end, ending)
    ensures RanJob(terms, plans, start, t, end, ending)
  {
    if Runnable(start.db, terms.template.authority) { RunnableStaysSynced(start.db, terms.template.authority, terms.now); }
  }

  /** The calls of Evaluate, for one job. */
  method RunJob(s: Store, template: AcceptRequest, kind: LawfulKind, grace: nat, gate: Token -> Gate, now: Time,
                ghost plans: Plans, ghost start: World)
      returns (ending: Ending, ghost trail: Trail)
    requires s.Valid() && plans(template.authority.hash) == kind && start.db == s.Contents() && start.polls == []
    modifies s
    ensures s.Valid() && RanJob(TermsFor(start.db, template, kind, grace, gate, now), plans, start, trail, s.Contents(), ending)
  {
    var a := template.authority;
    ghost var terms := TermsFor(start.db, template, kind, grace, gate, now);
    trail := RunAwaits(start, plans, terms);
    var synced := s.SyncJobAuthority(a, now);
    if !synced {
      RanRefused(terms, plans, start, trail);
      return Ending.Stopped, trail;
    }
    trail := RunBegins(start, plans, terms);
    if !a.enabled {
      trail := DiscardJob(s, a, now, trail, plans, terms);
      RanDiscarded(terms, plans, start, trail, s.Contents());
      return Discarded, trail;
    }
    if s.jobs[a.job].completed || !s.jobs[a.job].pause.Unpaused? || s.halted {
      RanHeld(terms, plans, start, trail, s.Contents());
      return Held, trail;
    }
    ending, trail := ScanJob(s, template, kind, grace, gate, now, trail, plans, terms.after);
    RanScanned(terms, plans, start, trail, s.Contents(), ending);
  }

  /** Evaluate, for one job. `gate` answers the source-revision lookup for each
      occurrence. Whatever it did is one poll's steps, and a sequence of store
      calls; if it ran to the end the cursor has reached `now` with everything a
      scan until then finds recorded, and if it stopped anywhere the cursor is where
      it was. When more is due than it takes it stops and changes nothing. Every
      occurrence it adds has the right outcome: missed exactly when overdue, unchanged
      exactly when the gate says so, and else what acceptance answers. */
  method EvaluateJob(s: Store, template: AcceptRequest, kind: LawfulKind, grace: nat, gate: Token -> Gate, now: Time,
                     ghost plans: Plans, ghost since: Time, ghost latest: Time)
      returns (ending: Ending, ghost trail: Trail)
    requires s.Valid() && plans(template.authority.hash) == kind
    modifies s
    ensures s.Valid() && trail.start == World(old(s.Contents()), since, latest, [])
    ensures Follows(trail, template.authority.job, plans) && trail.at.db == s.Contents()
    ensures CursorRightly(TermsFor(old(s.Contents()), template, kind, grace, gate, now),
                          old(s.Contents()), s.Contents(), ending)
    ensures AddsRightly(TermsFor(old(s.Contents()), template, kind, grace, gate, now),
                        old(s.Contents()), trail.calls, s.Contents())
    ensures EndsRightly(TermsFor(old(s.Contents()), template, kind, grace, gate, now), old(s.Contents()), s.Contents(), ending)
    ensures Overfull(old(s.Contents()), template.authority, kind, now) ==>
      ending.Stopped? && s.Contents() == old(s.Contents())
  {
    ghost var start := World(s.Contents(), since, latest, []);
    ending, trail := RunJob(s, template, kind, grace, gate, now, plans, start);
    RightCallsAddRightly(TermsFor(start.db, template, kind, grace, gate, now), start.db, trail.calls);
  }
}
