/** Schedule evaluation as a recorder: any number of processes poll one job's
    schedule, each reading the cursor, recording what is due since, and moving
    the cursor, any of which may stop anywhere, while the store serves every
    other caller. A process that reads a pause and gives up is one that stops. */
module Recorder {
  import opened Rows
  import opened Ledger
  import opened LedgerTheorems
  import opened Schedule

  datatype Phase = Begun | Scanning(after: Time, todo: seq<Time>) | Stopped

  /** One Evaluate call's work on the job. */
  datatype Poll = Poll(authority: Authority, now: Time, phase: Phase)

  /** `since` is where the cursor stood when the current revision became
      current; `latest` is the latest clock reading of any poll. */
  datatype World = World(db: Db, since: Time, latest: Time, polls: seq<Poll>)

  datatype Step =
    | Begin(authority: Authority, now: Time)
    | Look(i: nat)
    | Record(i: nat, call: Call)
    | Advance(i: nat)
    | Discard(i: nat)
    | Other(call: Call)

  /** The schedule of each revision, by its snapshot hash. */
  type Plans = Token -> LawfulKind

  predicate Matches(req: AcceptRequest, a: Authority, key: Token) {
    req.authority.job == a.job && req.authority.config == a.config && req.authority.hash == a.hash && req.key == key
  }

  /** The store call that records a moment: accept it, or record it as missed or
      unchanged. */
  predicate RecordsKey(call: Call, a: Authority, key: Token) {
    (call.Scheduled? && Matches(call.req, a, key) && !call.req.trigger.Event?) ||
    (call.Recording? && Matches(call.req, a, key) && !call.outcome.AcceptedRun?)
  }

  function CallOf(w: World, s: Step): Call
    requires s.Look? || s.Advance? || s.Discard? ==> s.i < |w.polls|
    requires !s.Look?
  {
    match s
    case Begin(authority, now) => Sync(authority, now)
    case Record(_, call) => call
    case Advance(i) =>
      var p := w.polls[i];
      Cursor(p.authority.job, p.authority.config, p.authority.hash, p.now, true)
    case Discard(i) =>
      var p := w.polls[i];
      Cursor(p.authority.job, p.authority.config, p.authority.hash, p.now, false)
    case Other(call) => call
  }

  ghost predicate Enabled(w: World, job: Token, plans: Plans, s: Step) {
    match s
    case Begin(authority, now) => authority.job == job && SyncJob(w.db, authority, now).reply.Done?
    case Look(i) =>
      i < |w.polls| && w.polls[i].phase.Begun? && w.polls[i].authority.enabled && job in w.db.jobs
    case Record(i, call) =>
      i < |w.polls| && w.polls[i].phase.Scanning? && w.polls[i].phase.todo != [] &&
      RecordsKey(call, w.polls[i].authority, KeyAt(plans(w.polls[i].authority.hash), w.polls[i].phase.todo[0]))
    case Advance(i) => i < |w.polls| && w.polls[i].phase.Scanning? && w.polls[i].phase.todo == []
    case Discard(i) => i < |w.polls| && w.polls[i].phase.Begun? && !w.polls[i].authority.enabled
    case Other(call) => !(call.Cursor? && call.job == job)
  }

  function SinceAfter(a: Db, b: Db, job: Token, since: Time): Time {
    if job !in b.jobs || (job in a.jobs && a.jobs[job].config == b.jobs[job].config) then since else b.jobs[job].cursor
  }

  ghost function Looked(w: World, job: Token, plans: Plans, p: Poll): Phase
    requires job in w.db.jobs
  {
    var k, after := plans(p.authority.hash), w.db.jobs[job].cursor;
    if DueMoments(k, after, p.now).None? then Stopped else Scanning(after, DueMoments(k, after, p.now).value)
  }

  ghost function PhaseAfter(w: World, job: Token, plans: Plans, s: Step): Phase
    requires Enabled(w, job, plans, s) && !s.Begin? && !s.Other?
  {
    match s
    case Look(i) => Looked(w, job, plans, w.polls[i])
    case Record(i, call) =>
      if Perform(w.db, call).reply.Recorded? then w.polls[i].phase.(todo := w.polls[i].phase.todo[1..]) else Stopped
    case _ => Stopped
  }

  ghost function DbAfter(w: World, job: Token, plans: Plans, s: Step): Db
    requires Enabled(w, job, plans, s)
  {
    if s.Look? then w.db else Perform(w.db, CallOf(w, s)).db
  }

  function Max(a: Time, b: Time): Time {
    if a < b then b else a
  }

  ghost function Apply(w: World, job: Token, plans: Plans, s: Step): World
    requires Enabled(w, job, plans, s)
  {
    var db := DbAfter(w, job, plans, s);
    var since := SinceAfter(w.db, db, job, w.since);
    match s
    case Begin(authority, now) => World(db, since, Max(w.latest, now), w.polls + [Poll(authority, now, Begun)])
    case Other(_) => World(db, since, w.latest, w.polls)
    case _ => World(db, since, w.latest, w.polls[s.i := w.polls[s.i].(phase := PhaseAfter(w, job, plans, s))])
  }

  ghost predicate History(ws: seq<World>, ss: seq<Step>, job: Token, plans: Plans) {
    |ws| == |ss| + 1 && ws[0].polls == [] &&
    forall k :: 0 <= k < |ss| ==> Enabled(ws[k], job, plans, ss[k]) && ws[k + 1] == Apply(ws[k], job, plans, ss[k])
  }

  // --- What the cursor vouches for --------------------------------------

  predicate HasKey(db: Db, job: Token, key: Token) {
    (job, key) in db.occurrences
  }

  ghost predicate HasAll(db: Db, job: Token, keys: set<Token>) {
    forall key :: key in keys ==> HasKey(db, job, key)
  }

  /** The clock readings of these polls, and earlier ones. */
  function Times(before: set<Time>, polls: seq<Poll>): set<Time> {
    before + set i | 0 <= i < |polls| :: polls[i].now
  }

  /** Between any two consecutive cuts, each a poll's clock reading, all that a
      scan finds is recorded. */
  ghost predicate Traced(db: Db, job: Token, k: LawfulKind, cuts: seq<Time>, times: set<Time>) {
    cuts != [] &&
    forall i :: 0 < i < |cuts| ==>
      cuts[i - 1] <= cuts[i] && cuts[i] in times && HasAll(db, job, Found(k, cuts[i - 1], cuts[i]))
  }

  /** Scans from `from` to `until`, with no gap between them, are all recorded. */
  ghost predicate Covered(db: Db, job: Token, k: LawfulKind, from: Time, until: Time, times: set<Time>) {
    exists cuts :: Traced(db, job, k, cuts, times) && cuts[0] == from && cuts[|cuts| - 1] == until
  }

  lemma CoveredNowhere(db: Db, job: Token, k: LawfulKind, from: Time, times: set<Time>)
    ensures Covered(db, job, k, from, from, times)
  {
    assert Traced(db, job, k, [from], times);
  }

  lemma CoveredFurther(db: Db, job: Token, k: LawfulKind, from: Time, mid: Time, until: Time, times: set<Time>)
    requires Covered(db, job, k, from, mid, times) && mid <= until && until in times
    requires HasAll(db, job, Found(k, mid, until))
    ensures Covered(db, job, k, from, until, times)
  {
    var cuts :| Traced(db, job, k, cuts, times) && cuts[0] == from && cuts[|cuts| - 1] == mid;
    assert Traced(db, job, k, cuts + [until], times);
  }

  lemma CoveredStays(a: Db, b: Db, job: Token, k: LawfulKind, from: Time, until: Time, before: set<Time>, times: set<Time>)
    requires Covered(a, job, k, from, until, before) && Steady(a, b, job) && before <= times
    ensures Covered(b, job, k, from, until, times)
  {
    var cuts :| Traced(a, job, k, cuts, before) && cuts[0] == from && cuts[|cuts| - 1] == until;
    assert Traced(b, job, k, cuts, times);
  }

  /** For a steadfast schedule the scans amount to one. */
  lemma {:induction false} TracedIsOneScan(db: Db, job: Token, k: LawfulKind, cuts: seq<Time>, times: set<Time>)
    requires Traced(db, job, k, cuts, times) && Steadfast(k)
    ensures cuts[0] <= cuts[|cuts| - 1] && HasAll(db, job, Found(k, cuts[0], cuts[|cuts| - 1]))
  {
    var n := |cuts| - 1;
    if n == 0 {
      FoundNotBackwards(k, cuts[0], cuts[0]);
    } else {
      TracedIsOneScan(db, job, k, cuts[..n], times);
      FoundSplits(k, cuts[0], cuts[n - 1], cuts[n]);
    }
  }

  lemma CoveredIsOneScan(db: Db, job: Token, k: LawfulKind, from: Time, until: Time, times: set<Time>)
    requires Covered(db, job, k, from, until, times) && Steadfast(k)
    ensures HasAll(db, job, Found(k, from, until))
  {
    var cuts :| Traced(db, job, k, cuts, times) && cuts[0] == from && cuts[|cuts| - 1] == until;
    TracedIsOneScan(db, job, k, cuts, times);
  }

  // --- Nothing is lost --------------------------------------------------

  predicate Current(db: Db, job: Token, a: Authority) {
    job in db.jobs && db.jobs[job].config == a.config && db.jobs[job].enabled
  }

  /** No poll is ahead of the saved revision. */
  predicate Behind(db: Db, job: Token, a: Authority) {
    a.job == job && job in db.jobs && a.config <= db.jobs[job].config &&
    (a.config == db.jobs[job].config ==> a.hash == db.jobs[job].hash && a.enabled == db.jobs[job].enabled)
  }

  ghost predicate Scanned(db: Db, job: Token, k: LawfulKind, p: Poll)
    requires p.phase.Scanning?
  {
    forall key :: key in Found(k, p.phase.after, p.now) ==> HasKey(db, job, key) || key in KeysOf(k, p.phase.todo)
  }

  ghost predicate PollOk(db: Db, since: Time, job: Token, plans: Plans, p: Poll, times: set<Time>) {
    Behind(db, job, p.authority) && p.now in times &&
    (p.phase.Scanning? && Current(db, job, p.authority) ==>
      since <= p.phase.after <= db.jobs[job].cursor && Scanned(db, job, plans(p.authority.hash), p) &&
      Covered(db, job, plans(p.authority.hash), since, p.phase.after, times))
  }

  ghost predicate CursorOk(db: Db, since: Time, job: Token, plans: Plans, times: set<Time>) {
    job in db.jobs && db.jobs[job].enabled ==>
      since <= db.jobs[job].cursor && Covered(db, job, plans(db.jobs[job].hash), since, db.jobs[job].cursor, times)
  }

  ghost predicate Inv(w: World, job: Token, plans: Plans, before: set<Time>) {
    CursorOk(w.db, w.since, job, plans, Times(before, w.polls)) &&
    forall i :: 0 <= i < |w.polls| ==> PollOk(w.db, w.since, job, plans, w.polls[i], Times(before, w.polls))
  }

  /** What any call keeps, as far as the recorder of the job is concerned. */
  ghost predicate Steady(a: Db, b: Db, job: Token) {
    AuthorityGrows(a, b) && forall key :: HasKey(a, job, key) ==> HasKey(b, job, key)
  }

  lemma CallIsSteady(db: Db, c: Call, job: Token)
    ensures Steady(db, Perform(db, c).db, job)
  {
    CallGrows(db, c);
    forall key | HasKey(db, job, key) ensures HasKey(Perform(db, c).db, job, key) {
      CallKeepsOutcome(db, c, (job, key));
    }
  }

  lemma EventLeavesCursor(db: Db, req: AcceptRequest, job: Token)
    requires job in db.jobs
    ensures job in EnqueueEvent(db, req).db.jobs && EnqueueEvent(db, req).db.jobs[job].cursor == db.jobs[job].cursor
  {
    var synced := Synced(db, req.authority, req.now);
    assert synced.Some? ==> job in synced.value.jobs && synced.value.jobs[job].cursor == db.jobs[job].cursor;
  }

  /** Only cursor calls on the job move its cursor. */
  lemma OthersLeaveCursor(db: Db, c: Call, job: Token)
    requires job in db.jobs && !(c.Cursor? && c.job == job)
    ensures job in Perform(db, c).db.jobs && Perform(db, c).db.jobs[job].cursor == db.jobs[job].cursor
  {
    if c.Eventful? { EventLeavesCursor(db, c.req, job); }
  }

  /** A poll is carried along by any call: if its revision is still current, the
      revision did not change and so neither did `since`. */
  lemma PollStable(a: Db, b: Db, since: Time, job: Token, plans: Plans, p: Poll, before: set<Time>, times: set<Time>)
    requires PollOk(a, since, job, plans, p, before) && Steady(a, b, job) && before <= times
    ensures PollOk(b, SinceAfter(a, b, job, since), job, plans, p, times)
  {
    if p.phase.Scanning? && Current(b, job, p.authority) {
      CoveredStays(a, b, job, plans(p.authority.hash), since, p.phase.after, before, times);
    }
  }

  lemma CursorStable(a: Db, b: Db, since: Time, job: Token, plans: Plans, before: set<Time>, times: set<Time>)
    requires CursorOk(a, since, job, plans, before) && Steady(a, b, job) && before <= times
    requires job in a.jobs ==> b.jobs[job].cursor == a.jobs[job].cursor
    ensures CursorOk(b, SinceAfter(a, b, job, since), job, plans, times)
  {
    if job in b.jobs && b.jobs[job].enabled {
      var k, cursor := plans(b.jobs[job].hash), b.jobs[job].cursor;
      if SinceAfter(a, b, job, since) == cursor {
        CoveredNowhere(b, job, k, cursor, times);
      } else {
        CoveredStays(a, b, job, k, since, cursor, before, times);
      }
    }
  }

  lemma LookOk(w: World, job: Token, plans: Plans, p: Poll, times: set<Time>)
    requires CursorOk(w.db, w.since, job, plans, times) && Behind(w.db, job, p.authority) && p.now in times
    ensures PollOk(w.db, w.since, job, plans, p.(phase := Looked(w, job, plans, p)), times)
  {
    var k, after := plans(p.authority.hash), w.db.jobs[job].cursor;
    if DueMoments(k, after, p.now).Some? { DueMomentsAre(k, after, p.now); }
  }

  lemma RecordOk(db: Db, since: Time, job: Token, plans: Plans, p: Poll, call: Call, times: set<Time>)
    requires p.phase.Scanning? && p.phase.todo != []
    requires RecordsKey(call, p.authority, KeyAt(plans(p.authority.hash), p.phase.todo[0])) && Perform(db, call).reply.Recorded?
    requires PollOk(Perform(db, call).db, since, job, plans, p, times)
    ensures PollOk(Perform(db, call).db, since, job, plans, p.(phase := p.phase.(todo := p.phase.todo[1..])), times)
  {
    var k, todo := plans(p.authority.hash), p.phase.todo;
    CallRecords(db, call, p.authority, KeyAt(k, todo[0]));
    forall key | key in KeysOf(k, todo) && key != KeyAt(k, todo[0]) ensures key in KeysOf(k, todo[1..]) {
      var i :| 0 <= i < |todo| && KeyAt(k, todo[i]) == key;
      assert todo[1..][i - 1] == todo[i];
    }
  }

  lemma CallRecords(db: Db, call: Call, a: Authority, key: Token)
    requires RecordsKey(call, a, key) && Perform(db, call).reply.Recorded?
    ensures HasKey(Perform(db, call).db, a.job, key)
  {
  }

  /** Moving the cursor is safe: whoever may move it has recorded up to there. */
  lemma AdvanceOk(db: Db, since: Time, job: Token, plans: Plans, p: Poll, times: set<Time>)
    requires CursorOk(db, since, job, plans, times) && PollOk(db, since, job, plans, p, times)
    requires p.phase.Scanning? && p.phase.todo == []
    ensures var after := SetCursor(db, job, p.authority.config, p.authority.hash, p.now, true).db;
      CursorOk(after, since, job, plans, times) && SinceAfter(db, after, job, since) == since
  {
    var after := SetCursor(db, job, p.authority.config, p.authority.hash, p.now, true).db;
    if after != db {
      var k := plans(p.authority.hash);
      assert KeysOf(k, p.phase.todo) == {};
      CoveredFurther(db, job, k, since, p.phase.after, p.now, times);
      CoveredStays(db, after, job, k, since, p.now, times, times);
    }
  }

  lemma DiscardOk(db: Db, since: Time, job: Token, plans: Plans, p: Poll, times: set<Time>)
    requires CursorOk(db, since, job, plans, times) && PollOk(db, since, job, plans, p, times) && !p.authority.enabled
    ensures var after := SetCursor(db, job, p.authority.config, p.authority.hash, p.now, false).db;
      CursorOk(after, since, job, plans, times) && SinceAfter(db, after, job, since) == since
  {
  }

  /** A step makes no clock reading disappear. */
  lemma TimesGrow(w: World, job: Token, plans: Plans, s: Step, before: set<Time>)
    requires Enabled(w, job, plans, s)
    ensures Times(before, w.polls) <= Times(before, Apply(w, job, plans, s).polls)
  {
    var v := Apply(w, job, plans, s);
    forall time | time in Times(before, w.polls) ensures time in Times(before, v.polls) {
      if time !in before {
        var i :| 0 <= i < |w.polls| && w.polls[i].now == time;
        assert v.polls[i].now == time;
      }
    }
  }

  lemma CursorKept(w: World, job: Token, plans: Plans, s: Step, before: set<Time>)
    requires Inv(w, job, plans, before) && Enabled(w, job, plans, s)
    ensures var v := Apply(w, job, plans, s);
      Steady(w.db, v.db, job) && CursorOk(v.db, v.since, job, plans, Times(before, v.polls))
  {
    var seen, times := Times(before, w.polls), Times(before, Apply(w, job, plans, s).polls);
    TimesGrow(w, job, plans, s, before);
    if s.Look? {
      CursorStable(w.db, w.db, w.since, job, plans, seen, times);
    } else {
      var c := CallOf(w, s);
      CallIsSteady(w.db, c, job);
      if s.Advance? {
        AdvanceOk(w.db, w.since, job, plans, w.polls[s.i], seen);
        CursorStable(Perform(w.db, c).db, Perform(w.db, c).db, w.since, job, plans, seen, times);
      } else if s.Discard? {
        DiscardOk(w.db, w.since, job, plans, w.polls[s.i], seen);
        CursorStable(Perform(w.db, c).db, Perform(w.db, c).db, w.since, job, plans, seen, times);
      } else {
        if job in w.db.jobs { OthersLeaveCursor(w.db, c, job); }
        CursorStable(w.db, Perform(w.db, c).db, w.since, job, plans, seen, times);
      }
    }
  }

  lemma NewPollOk(w: World, job: Token, authority: Authority, now: Time)
    requires authority.job == job && SyncJob(w.db, authority, now).reply.Done?
    ensures Behind(SyncJob(w.db, authority, now).db, job, authority)
  {
  }

  /** The poll that takes the step. */
  lemma MoverOk(w: World, job: Token, plans: Plans, s: Step, before: set<Time>)
    requires Inv(w, job, plans, before) && Enabled(w, job, plans, s) && !s.Begin? && !s.Other?
    ensures var v := Apply(w, job, plans, s);
      PollOk(v.db, v.since, job, plans, v.polls[s.i], Times(before, v.polls))
  {
    var v, p := Apply(w, job, plans, s), w.polls[s.i];
    var times := Times(before, v.polls);
    CursorKept(w, job, plans, s, before);
    TimesGrow(w, job, plans, s, before);
    PollStable(w.db, v.db, w.since, job, plans, p, Times(before, w.polls), times);
    if s.Look? {
      CursorStable(w.db, w.db, w.since, job, plans, Times(before, w.polls), times);
      LookOk(w, job, plans, p, times);
    } else if s.Record? && Perform(w.db, s.call).reply.Recorded? {
      RecordOk(w.db, v.since, job, plans, p, s.call, times);
    }
  }

  lemma StepKeeps(w: World, job: Token, plans: Plans, s: Step, before: set<Time>)
    requires Inv(w, job, plans, before) && Enabled(w, job, plans, s)
    ensures Inv(Apply(w, job, plans, s), job, plans, before) && Steady(w.db, Apply(w, job, plans, s).db, job)
  {
    var v := Apply(w, job, plans, s);
    var times := Times(before, v.polls);
    CursorKept(w, job, plans, s, before);
    TimesGrow(w, job, plans, s, before);
    forall j | 0 <= j < |v.polls| ensures PollOk(v.db, v.since, job, plans, v.polls[j], times) {
      if j < |w.polls| {
        PollStable(w.db, v.db, w.since, job, plans, w.polls[j], Times(before, w.polls), times);
        if !s.Begin? && !s.Other? && s.i == j { MoverOk(w, job, plans, s, before); }
      } else {
        NewPollOk(w, job, s.authority, s.now);
        assert v.polls[j].now in times;
      }
    }
  }

  ghost predicate Kept(ws: seq<World>, job: Token, plans: Plans, before: set<Time>) {
    forall k :: 0 < k < |ws| && Inv(ws[k - 1], job, plans, before) ==>
      Inv(ws[k], job, plans, before) && Steady(ws[k - 1].db, ws[k].db, job)
  }

  lemma {:induction false} KeptSince(ws: seq<World>, job: Token, plans: Plans, k: nat, before: set<Time>)
    requires k < |ws| && Inv(ws[0], job, plans, before) && Kept(ws, job, plans, before)
    ensures Inv(ws[k], job, plans, before)
  {
    if k > 0 { KeptSince(ws, job, plans, k - 1, before); }
  }

  lemma HistoryKeeps(ws: seq<World>, ss: seq<Step>, job: Token, plans: Plans, before: set<Time>)
    requires History(ws, ss, job, plans)
    ensures Kept(ws, job, plans, before)
  {
    forall k | 0 < k < |ws| && Inv(ws[k - 1], job, plans, before)
      ensures Inv(ws[k], job, plans, before) && Steady(ws[k - 1].db, ws[k].db, job)
    {
      StepKeeps(ws[k - 1], job, plans, ss[k - 1], before);
    }
  }

  ghost predicate CursorGrows(a: Db, b: Db, job: Token) {
    job in a.jobs ==> job in b.jobs && a.jobs[job].cursor <= b.jobs[job].cursor
  }

  lemma InvIsEnough(a: World, b: World, job: Token, plans: Plans, before: set<Time>)
    requires Inv(b, job, plans, before) && Steady(a.db, b.db, job)
    ensures CursorOk(b.db, b.since, job, plans, Times(before, b.polls)) && CursorGrows(a.db, b.db, job)
  {
  }

  lemma Begins(w: World, job: Token, plans: Plans, before: set<Time>)
    requires w.polls == [] && CursorOk(w.db, w.since, job, plans, before)
    ensures Inv(w, job, plans, before)
  {
    assert Times(before, w.polls) == before;
  }

  lemma KeptLosesNothing(ws: seq<World>, job: Token, plans: Plans, k: nat, before: set<Time>)
    requires k < |ws| && Inv(ws[0], job, plans, before) && Kept(ws, job, plans, before)
    ensures CursorOk(ws[k].db, ws[k].since, job, plans, Times(before, ws[k].polls))
    ensures 0 < k ==> CursorGrows(ws[k - 1].db, ws[k].db, job)
  {
    KeptSince(ws, job, plans, k, before);
    if k > 0 {
      KeptSince(ws, job, plans, k - 1, before);
      InvIsEnough(ws[k - 1], ws[k], job, plans, before);
    }
  }

  /** Whatever the schedule, the polling times, crashes, pauses, guard trips,
      revisions and other callers: from the point where the current enabled
      revision took over up to the saved cursor, scans that leave no gap and meet
      at polling times have all their keys recorded, each once, and the saved
      cursor never moves back. */
  lemma NothingIsLost(ws: seq<World>, ss: seq<Step>, job: Token, plans: Plans, k: nat, before: set<Time>)
    requires History(ws, ss, job, plans) && k < |ws| && CursorOk(ws[0].db, ws[0].since, job, plans, before)
    ensures CursorOk(ws[k].db, ws[k].since, job, plans, Times(before, ws[k].polls))
    ensures 0 < k ==> CursorGrows(ws[k - 1].db, ws[k].db, job)
  {
    Begins(ws[0], job, plans, before);
    HistoryKeeps(ws, ss, job, plans, before);
    KeptLosesNothing(ws, job, plans, k, before);
  }

  /** The schedule the saved revision has. */
  function PlanOf(db: Db, job: Token, plans: Plans): LawfulKind
    requires job in db.jobs
  {
    plans(db.jobs[job].hash)
  }

  /** So for a steadfast schedule every moment there is has its occurrence. */
  lemma EveryMomentIsRecorded(ws: seq<World>, ss: seq<Step>, job: Token, plans: Plans, k: nat, before: set<Time>, m: Time)
    requires History(ws, ss, job, plans) && k < |ws| && CursorOk(ws[0].db, ws[0].since, job, plans, before)
    requires job in ws[k].db.jobs && ws[k].db.jobs[job].enabled && Steadfast(PlanOf(ws[k].db, job, plans))
    requires ws[k].since < m <= ws[k].db.jobs[job].cursor && Moment(PlanOf(ws[k].db, job, plans), m)
    ensures HasKey(ws[k].db, job, KeyAt(PlanOf(ws[k].db, job, plans), m))
  {
    var kind, cursor := PlanOf(ws[k].db, job, plans), ws[k].db.jobs[job].cursor;
    NothingIsLost(ws, ss, job, plans, k, before);
    CoveredIsOneScan(ws[k].db, job, kind, ws[k].since, cursor, Times(before, ws[k].polls));
    FoundIsWindow(kind, ws[k].since, cursor, KeyAt(kind, m));
  }

  // --- Nothing is invented ----------------------------------------------

  /** Nobody but the polls records occurrences of the job, and its revision
      stays the one with this hash. */
  predicate OnlyPolls(s: Step, job: Token, hash: Token) {
    (s.Begin? ==> s.authority.hash == hash) &&
    (s.Other? ==>
      !((s.call.Scheduled? || s.call.Recording? || s.call.Eventful?) && s.call.req.authority.job == job))
  }

  /** The key is one that a scan from a cursor not before `from` to a clock reading
      not after `until` finds. */
  ghost predicate Genuine(k: LawfulKind, from: Time, until: Time, key: Token) {
    exists after: Time, now: Time :: from <= after && now <= until && key in Found(k, after, now)
  }

  ghost predicate PollGenuine(k: LawfulKind, from: Time, until: Time, hash: Token, p: Poll) {
    p.authority.hash == hash && p.now <= until &&
    (p.phase.Scanning? ==>
      forall i :: 0 <= i < |p.phase.todo| ==> Genuine(k, from, until, KeyAt(k, p.phase.todo[i])))
  }

  /** Every recorded key was there at the start or was found by such a scan. */
  ghost predicate AllGenuine(w: World, job: Token, plans: Plans, hash: Token, start: Db, from: Time) {
    job in w.db.jobs && from <= w.db.jobs[job].cursor &&
    (forall key :: HasKey(w.db, job, key) ==>
      HasKey(start, job, key) || Genuine(plans(hash), from, w.latest, key)) &&
    forall i :: 0 <= i < |w.polls| ==> PollGenuine(plans(hash), from, w.latest, hash, w.polls[i])
  }

  lemma GenuineWidens(k: LawfulKind, from: Time, until: Time, later: Time, key: Token)
    requires Genuine(k, from, until, key) && until <= later
    ensures Genuine(k, from, later, key)
  {
  }

  /** For a steadfast schedule it is the key of a moment. */
  lemma GenuineIsFound(k: LawfulKind, from: Time, until: Time, key: Token)
    requires Genuine(k, from, until, key) && Steadfast(k)
    ensures key in Found(k, from, until)
  {
    var after: Time, now: Time :| from <= after && now <= until && key in Found(k, after, now);
    if now <= after { FoundNotBackwards(k, after, now); }
    FoundSplits(k, from, after, now);
    FoundSplits(k, from, now, until);
  }

  lemma PollGenuineWidens(k: LawfulKind, from: Time, until: Time, later: Time, hash: Token, p: Poll)
    requires PollGenuine(k, from, until, hash, p) && until <= later
    ensures PollGenuine(k, from, later, hash, p)
  {
    if p.phase.Scanning? {
      forall i | 0 <= i < |p.phase.todo| ensures Genuine(k, from, later, KeyAt(k, p.phase.todo[i])) {
        GenuineWidens(k, from, until, later, KeyAt(k, p.phase.todo[i]));
      }
    }
  }

  lemma CallInvents(db: Db, c: Call, job: Token, key: Token)
    requires HasKey(Perform(db, c).db, job, key) && !HasKey(db, job, key)
    ensures (c.Scheduled? || c.Recording? || c.Eventful?) && c.req.authority.job == job && c.req.key == key
  {
    if c.Scheduled? || c.Eventful? || c.Recording? { OccurrenceAdded(db, c); }
  }

  lemma LookGenuine(w: World, job: Token, plans: Plans, hash: Token, from: Time, p: Poll)
    requires job in w.db.jobs && from <= w.db.jobs[job].cursor
    requires PollGenuine(plans(hash), from, w.latest, hash, p)
    ensures PollGenuine(plans(hash), from, w.latest, hash, p.(phase := Looked(w, job, plans, p)))
  {
    var k, after := plans(hash), w.db.jobs[job].cursor;
    if DueMoments(k, after, p.now).Some? {
      DueMomentsAre(k, after, p.now);
      var due := DueMoments(k, after, p.now).value;
      forall i | 0 <= i < |due| ensures Genuine(k, from, w.latest, KeyAt(k, due[i])) {
        assert KeyAt(k, due[i]) in KeysOf(k, due);
      }
    }
  }

  lemma KeysStayGenuine(w: World, job: Token, plans: Plans, s: Step, hash: Token, start: Db, from: Time, key: Token)
    requires AllGenuine(w, job, plans, hash, start, from) && Enabled(w, job, plans, s) && OnlyPolls(s, job, hash)
    requires HasKey(DbAfter(w, job, plans, s), job, key)
    ensures HasKey(start, job, key) || Genuine(plans(hash), from, w.latest, key)
  {
    if !HasKey(w.db, job, key) { CallInvents(w.db, CallOf(w, s), job, key); }
  }

  lemma PollsStayGenuine(w: World, job: Token, plans: Plans, s: Step, hash: Token, start: Db, from: Time, j: nat)
    requires AllGenuine(w, job, plans, hash, start, from)
    requires Enabled(w, job, plans, s) && OnlyPolls(s, job, hash) && j < |Apply(w, job, plans, s).polls|
    ensures var v := Apply(w, job, plans, s); PollGenuine(plans(hash), from, v.latest, hash, v.polls[j])
  {
    var v := Apply(w, job, plans, s);
    if j < |w.polls| {
      if s.Look? && s.i == j { LookGenuine(w, job, plans, hash, from, w.polls[j]); }
      if s.Begin? || s.Other? { PollGenuineWidens(plans(hash), from, w.latest, v.latest, hash, w.polls[j]); }
    }
  }

  lemma StepStaysGenuine(w: World, job: Token, plans: Plans, s: Step, hash: Token, start: Db, from: Time)
    requires AllGenuine(w, job, plans, hash, start, from)
    requires Enabled(w, job, plans, s) && OnlyPolls(s, job, hash)
    ensures AllGenuine(Apply(w, job, plans, s), job, plans, hash, start, from)
  {
    var v := Apply(w, job, plans, s);
    if !s.Look? { CallIsSteady(w.db, CallOf(w, s), job); }
    forall key | HasKey(v.db, job, key) ensures HasKey(start, job, key) || Genuine(plans(hash), from, v.latest, key) {
      KeysStayGenuine(w, job, plans, s, hash, start, from, key);
      if Genuine(plans(hash), from, w.latest, key) { GenuineWidens(plans(hash), from, w.latest, v.latest, key); }
    }
    forall j | 0 <= j < |v.polls| ensures PollGenuine(plans(hash), from, v.latest, hash, v.polls[j]) {
      PollsStayGenuine(w, job, plans, s, hash, start, from, j);
    }
  }

  /** Under one revision, whatever its schedule, every recorded key was there at
      the start or is found by a scan from a cursor since to a polling time. */
  lemma {:induction false} NothingIsInvented(ws: seq<World>, ss: seq<Step>, job: Token, plans: Plans, hash: Token, k: nat)
    requires History(ws, ss, job, plans) && k < |ws| && job in ws[0].db.jobs
    requires forall m :: 0 <= m < k ==> OnlyPolls(ss[m], job, hash)
    ensures AllGenuine(ws[k], job, plans, hash, ws[0].db, ws[0].db.jobs[job].cursor)
  {
    if k > 0 {
      NothingIsInvented(ws, ss, job, plans, hash, k - 1);
      StepStaysGenuine(ws[k - 1], job, plans, ss[k - 1], hash, ws[0].db, ws[0].db.jobs[job].cursor);
    }
  }

  // --- Many polls against one scan --------------------------------------

  lemma {:induction false} RecordedStays(ws: seq<World>, job: Token, plans: Plans, k: nat, key: Token, before: set<Time>)
    requires Kept(ws, job, plans, before) && k < |ws| && Inv(ws[0], job, plans, before) && HasKey(ws[0].db, job, key)
    ensures Inv(ws[k], job, plans, before) && HasKey(ws[k].db, job, key)
  {
    if k > 0 { RecordedStays(ws, job, plans, k - 1, key, before); }
  }

  /** The job has been polled under one enabled revision all the while, and by
      nobody but the polls. */
  ghost predicate Polled(ws: seq<World>, ss: seq<Step>, job: Token, plans: Plans, k: nat) {
    History(ws, ss, job, plans) && k < |ws| && job in ws[0].db.jobs && job in ws[k].db.jobs &&
    ws[0].since == ws[0].db.jobs[job].cursor && ws[k].since == ws[0].since && ws[k].db.jobs[job].enabled &&
    forall m :: 0 <= m < k ==> OnlyPolls(ss[m], job, ws[k].db.jobs[job].hash)
  }

  lemma PolledSince(ws: seq<World>, ss: seq<Step>, job: Token, plans: Plans, k: nat, key: Token)
    requires Polled(ws, ss, job, plans, k) && HasKey(ws[0].db, job, key)
    ensures HasKey(ws[k].db, job, key)
  {
    CoveredNowhere(ws[0].db, job, PlanOf(ws[0].db, job, plans), ws[0].since, {});
    Begins(ws[0], job, plans, {});
    HistoryKeeps(ws, ss, job, plans, {});
    RecordedStays(ws, job, plans, k, key, {});
  }

  lemma PolledFinds(ws: seq<World>, ss: seq<Step>, job: Token, plans: Plans, k: nat, key: Token)
    requires Polled(ws, ss, job, plans, k) && Steadfast(PlanOf(ws[k].db, job, plans))
    requires key in Found(PlanOf(ws[k].db, job, plans), ws[0].since, ws[k].db.jobs[job].cursor)
    ensures HasKey(ws[k].db, job, key)
  {
    CoveredNowhere(ws[0].db, job, PlanOf(ws[0].db, job, plans), ws[0].since, {});
    NothingIsLost(ws, ss, job, plans, k, {});
    CoveredIsOneScan(ws[k].db, job, PlanOf(ws[k].db, job, plans), ws[k].since, ws[k].db.jobs[job].cursor, Times({}, ws[k].polls));
  }

  /** For a steadfast schedule polling refines one scan, however many polls there
      were, whenever they ran and wherever they died. What was recorded since the
      start is at least the keys one scan up to the cursor finds and at most those
      one scan up to the latest poll finds. */
  lemma PollingRefinesOneScan(ws: seq<World>, ss: seq<Step>, job: Token, plans: Plans, k: nat, key: Token)
    requires Polled(ws, ss, job, plans, k) && Steadfast(PlanOf(ws[k].db, job, plans))
    ensures var kind, from, cursor := PlanOf(ws[k].db, job, plans), ws[0].since, ws[k].db.jobs[job].cursor;
      (HasKey(ws[0].db, job, key) || key in Found(kind, from, cursor) ==> HasKey(ws[k].db, job, key)) &&
      (HasKey(ws[k].db, job, key) ==> HasKey(ws[0].db, job, key) || key in Found(kind, from, ws[k].latest))
  {
    var kind, from := PlanOf(ws[k].db, job, plans), ws[0].since;
    NothingIsInvented(ws, ss, job, plans, ws[k].db.jobs[job].hash, k);
    if HasKey(ws[0].db, job, key) { PolledSince(ws, ss, job, plans, k, key); }
    if key in Found(kind, from, ws[k].db.jobs[job].cursor) { PolledFinds(ws, ss, job, plans, k, key); }
    if Genuine(kind, from, ws[k].latest, key) { GenuineIsFound(kind, from, ws[k].latest, key); }
  }

  /** ... and nothing since: the cursor has reached the latest poll. */
  ghost predicate CaughtUp(ws: seq<World>, ss: seq<Step>, job: Token, plans: Plans) {
    ws != [] && Polled(ws, ss, job, plans, |ws| - 1) && ws[|ws| - 1].db.jobs[job].cursor == ws[|ws| - 1].latest
  }

  /** What is recorded in the end is what was there, and what one scan finds. */
  ghost predicate AsOneScan(ws: seq<World>, job: Token, k: LawfulKind, key: Token)
    requires ws != []
  {
    HasKey(ws[|ws| - 1].db, job, key) <==>
      HasKey(ws[0].db, job, key) || key in Found(k, ws[0].since, ws[|ws| - 1].latest)
  }

  lemma CaughtUpIsOneScan(ws: seq<World>, ss: seq<Step>, job: Token, plans: Plans, key: Token)
    requires CaughtUp(ws, ss, job, plans) && Steadfast(PlanOf(ws[|ws| - 1].db, job, plans))
    ensures AsOneScan(ws, job, PlanOf(ws[|ws| - 1].db, job, plans), key)
  {
    PollingRefinesOneScan(ws, ss, job, plans, |ws| - 1, key);
  }

  // --- Histories, step by step ------------------------------------------

  /** Some history with these steps leads from w to v. */
  ghost predicate Leads(w: World, ss: seq<Step>, v: World, job: Token, plans: Plans) {
    exists ws :: History(ws, ss, job, plans) && ws[0] == w && ws[|ss|] == v
  }

  lemma LeadsNowhere(w: World, job: Token, plans: Plans)
    requires w.polls == []
    ensures Leads(w, [], w, job, plans)
  {
    assert History([w], [], job, plans);
  }

  lemma LeadsOn(w: World, ss: seq<Step>, v: World, job: Token, plans: Plans, s: Step)
    requires Leads(w, ss, v, job, plans) && Enabled(v, job, plans, s)
    ensures Leads(w, ss + [s], Apply(v, job, plans, s), job, plans)
  {
    var ws :| History(ws, ss, job, plans) && ws[0] == w && ws[|ss|] == v;
    var more, steps := ws + [Apply(v, job, plans, s)], ss + [s];
    forall k | 0 <= k < |steps|
      ensures Enabled(more[k], job, plans, steps[k]) && more[k + 1] == Apply(more[k], job, plans, steps[k])
    {
      if k < |ss| { assert steps[k] == ss[k]; }
    }
    assert History(more, steps, job, plans);
  }
}
