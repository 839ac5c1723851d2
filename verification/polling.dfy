/** When polling a schedule records what one scan of it finds: exactly when the
    schedule is memoryless. An `@every` schedule of more than a second is not, and
    polled more often than its delay it never records anything. */
module Polling {
  import opened Options
  import opened Rows
  import opened Ledger
  import opened Schedule
  import opened Recorder

  /** However a job on this timetable is polled, once the cursor has caught up the
      keys recorded are those of one scan. */
  ghost predicate PollsAsOneScan(t: Timetable)
    requires Sound(t)
  {
    forall ws: seq<World>, ss, job, plans, key ::
      CaughtUp(ws, ss, job, plans) && PlanOf(ws[|ws| - 1].db, job, plans) == CronKind(t) ==>
        AsOneScan(ws, job, CronKind(t), key)
  }

  // --- Two polls against one scan ---------------------------------------

  const Plain := Snapshot(7, Forbid, 1.0, NoVerifier, false, false, false, NoAcceptance, true)
  const Watched := Authority(7, 1, 8, Some(1), Plain, true)

  function Always(k: LawfulKind): Plans {
    _ => k
  }

  /** The job with its cursor at u and nothing recorded: as just synchronized. */
  function Idle(u: Time): Db {
    SyncJob(EmptyDb, Watched, u).db
  }

  lemma IdleMoves(u: Time, v: Time)
    requires u <= v
    ensures Perform(Idle(u), Cursor(7, 1, 8, v, true)).db == Idle(v)
  {
    assert EmptyDb.jobs[7 := Job(1, 8, Plain, true, Unpaused, false, u)][7 := Job(1, 8, Plain, true, Unpaused, false, v)] ==
      EmptyDb.jobs[7 := Job(1, 8, Plain, true, Unpaused, false, v)];
  }

  function Ended(now: Time): Poll {
    Poll(Watched, now, Stopped)
  }

  /** Polls of the job alone lead from its first synchronization at u to w. */
  ghost predicate Reaches(k: LawfulKind, u: Time, w: World) {
    exists ss :: Leads(World(Idle(u), u, u, []), ss, w, 7, Always(k)) &&
                 forall m :: 0 <= m < |ss| ==> OnlyPolls(ss[m], 7, 8)
  }

  lemma ReachesOn(k: LawfulKind, u: Time, w: World, s: Step)
    requires Reaches(k, u, w) && Enabled(w, 7, Always(k), s) && OnlyPolls(s, 7, 8)
    ensures Reaches(k, u, Apply(w, 7, Always(k), s))
  {
    var ss :| Leads(World(Idle(u), u, u, []), ss, w, 7, Always(k)) && forall m :: 0 <= m < |ss| ==> OnlyPolls(ss[m], 7, 8);
    LeadsOn(World(Idle(u), u, u, []), ss, w, 7, Always(k), s);
  }

  /** A poll at n begins and looks. */
  lemma PollLooks(k: LawfulKind, u: Time, c: Time, polls: seq<Poll>, n: Time)
    requires Reaches(k, u, World(Idle(c), u, c, polls)) && c <= n && DueMoments(k, c, n).Some?
    ensures Reaches(k, u, World(Idle(c), u, n, polls + [Poll(Watched, n, Scanning(c, DueMoments(k, c, n).value))]))
  {
    var i := |polls|;
    ReachesOn(k, u, World(Idle(c), u, c, polls), Begin(Watched, n));
    var begun := World(Idle(c), u, n, polls + [Poll(Watched, n, Begun)]);
    assert Apply(World(Idle(c), u, c, polls), 7, Always(k), Begin(Watched, n)) == begun;
    ReachesOn(k, u, begun, Look(i));
    assert begun.polls[i := Poll(Watched, n, Scanning(c, DueMoments(k, c, n).value))] ==
      polls + [Poll(Watched, n, Scanning(c, DueMoments(k, c, n).value))];
  }

  /** A poll with nothing left to record moves the cursor. */
  lemma PollAdvances(k: LawfulKind, u: Time, db: Db, moved: Db, c: Time, polls: seq<Poll>, n: Time)
    requires Reaches(k, u, World(db, u, n, polls + [Poll(Watched, n, Scanning(c, []))]))
    requires moved == Perform(db, Cursor(7, 1, 8, n, true)).db && 7 in db.jobs
    ensures Reaches(k, u, World(moved, u, n, polls + [Ended(n)]))
  {
    var i, w := |polls|, World(db, u, n, polls + [Poll(Watched, n, Scanning(c, []))]);
    ReachesOn(k, u, w, Step.Advance(i));
    assert w.polls[i := Ended(n)] == polls + [Ended(n)];
  }

  /** A poll before the next moment only moves the cursor. */
  lemma QuietPoll(t: Timetable, u: Time, c: Time, polls: seq<Poll>, n: Time)
    requires Sound(t) && Reaches(CronKind(t), u, World(Idle(c), u, c, polls)) && c <= n < t.next(c)
    ensures Reaches(CronKind(t), u, World(Idle(n), u, n, polls + [Ended(n)]))
  {
    assert DueMoments(CronKind(t), c, n) == Some([]);
    PollLooks(CronKind(t), u, c, polls, n);
    IdleMoves(c, n);
    PollAdvances(CronKind(t), u, Idle(c), Idle(n), c, polls, n);
  }

  function Missing(key: Token, at: Time): AcceptRequest {
    AcceptRequest(Watched, key, Cron, at, Forbid, 0, 0, 1, 0, 0, 0, at)
  }

  /** The job with its cursor at u and one occurrence recorded as missed. */
  function Noted(u: Time, key: Token, at: Time): Db {
    Idle(u).(occurrences := map[(7, key) := Occurrence(at, Outcome.Missed, at)])
  }

  lemma NotingNotes(u: Time, key: Token, at: Time)
    requires key != 0
    ensures Perform(Idle(u), Recording(Missing(key, at), Missed)) == After(Noted(u, key, at), Recorded(Missed, true))
    ensures HasKey(Noted(u, key, at), 7, key)
  {
    assert EmptyDb.occurrences[(7, key) := Occurrence(at, Outcome.Missed, at)] ==
      map[(7, key) := Occurrence(at, Outcome.Missed, at)];
  }

  lemma NotedMoves(u: Time, key: Token, at: Time, v: Time)
    requires u <= v
    ensures Perform(Noted(u, key, at), Cursor(7, 1, 8, v, true)).db == Noted(v, key, at)
  {
    IdleMoves(u, v);
  }

  lemma DueAtNext(t: Timetable, c: Time)
    requires Sound(t)
    ensures DueMoments(CronKind(t), c, t.next(c)) == Some([t.next(c)])
  {
    var n := t.next(c);
    assert Fired(t, n, n) == [] && Fired(t, c, n) == [n] + [];
    assert Dedup(t, []) == [] && [n][..0] == [];
    assert Dedup(t, [n]) == [n];
  }

  /** Recording the one moment due is the poll's next step. */
  lemma PollNotes(k: LawfulKind, u: Time, c: Time, polls: seq<Poll>, n: Time)
    requires Reaches(k, u, World(Idle(c), u, n, polls + [Poll(Watched, n, Scanning(c, [n]))])) && KeyAt(k, n) != 0
    ensures Reaches(k, u, World(Noted(c, KeyAt(k, n), n), u, n, polls + [Poll(Watched, n, Scanning(c, []))]))
  {
    var i := |polls|;
    var looked := World(Idle(c), u, n, polls + [Poll(Watched, n, Scanning(c, [n]))]);
    NotingNotes(c, KeyAt(k, n), n);
    ReachesOn(k, u, looked, Record(i, Recording(Missing(KeyAt(k, n), n), Missed)));
    assert looked.polls[i := Poll(Watched, n, Scanning(c, []))] == polls + [Poll(Watched, n, Scanning(c, []))];
    assert [n][1..] == [];
  }

  /** A poll right at the next moment records its key. */
  lemma FindingPoll(t: Timetable, u: Time, c: Time, polls: seq<Poll>)
    requires Sound(t) && Reaches(CronKind(t), u, World(Idle(c), u, c, polls))
    ensures var n := t.next(c); Reaches(CronKind(t), u, World(Noted(n, t.key(n), n), u, n, polls + [Ended(n)]))
  {
    var n := t.next(c);
    DueAtNext(t, c);
    PollLooks(CronKind(t), u, c, polls, n);
    PollNotes(CronKind(t), u, c, polls, n);
    NotedMoves(c, t.key(n), n, n);
    PollAdvances(CronKind(t), u, Noted(c, t.key(n), n), Noted(n, t.key(n), n), c, polls, n);
  }

  lemma ReachedIsCaughtUp(k: LawfulKind, u: Time, w: World) returns (ws: seq<World>, ss: seq<Step>)
    requires Reaches(k, u, w) && w.since == u && 7 in w.db.jobs
    requires w.db.jobs[7] == Job(1, 8, Plain, true, Unpaused, false, w.latest)
    ensures CaughtUp(ws, ss, 7, Always(k)) && ws[0] == World(Idle(u), u, u, []) && ws[|ws| - 1] == w
  {
    ss :| Leads(World(Idle(u), u, u, []), ss, w, 7, Always(k)) && forall m :: 0 <= m < |ss| ==> OnlyPolls(ss[m], 7, 8);
    ws :| History(ws, ss, 7, Always(k)) && ws[0] == World(Idle(u), u, u, []) && ws[|ss|] == w;
  }

  lemma StartsIdle(k: LawfulKind, u: Time)
    ensures Reaches(k, u, World(Idle(u), u, u, []))
  {
    LeadsNowhere(World(Idle(u), u, u, []), 7, Always(k));
  }

  /** Polled at v and at u's next moment, a timetable that forgets that moment by v
      records nothing, though one scan finds it. */
  lemma PollsLoseMoment(t: Timetable, u: Time, v: Time) returns (ws: seq<World>, ss: seq<Step>)
    requires Sound(t) && u <= v < t.next(u) < t.next(v)
    ensures CaughtUp(ws, ss, 7, Always(CronKind(t))) && PlanOf(ws[|ws| - 1].db, 7, Always(CronKind(t))) == CronKind(t)
    ensures t.key(t.next(u)) in Found(CronKind(t), ws[0].since, ws[|ws| - 1].latest)
    ensures ws[|ws| - 1].db.occurrences == map[]
    ensures !AsOneScan(ws, 7, CronKind(t), t.key(t.next(u)))
  {
    var k, n := CronKind(t), t.next(u);
    StartsIdle(k, u);
    QuietPoll(t, u, u, [], v);
    assert [] + [Ended(v)] == [Ended(v)];
    QuietPoll(t, u, v, [Ended(v)], n);
    ws, ss := ReachedIsCaughtUp(k, u, World(Idle(n), u, n, [Ended(v)] + [Ended(n)]));
    assert Fired(t, u, n)[0] == n && t.key(Fired(t, u, n)[0]) in Keys(t, Fired(t, u, n));
  }

  /** Polled at v and at v's next moment, a timetable with a later one from u
      records a key one scan does not find. */
  lemma PollsInventMoment(t: Timetable, u: Time, v: Time) returns (ws: seq<World>, ss: seq<Step>)
    requires Sound(t) && u <= v && t.next(v) < t.next(u)
    ensures CaughtUp(ws, ss, 7, Always(CronKind(t))) && PlanOf(ws[|ws| - 1].db, 7, Always(CronKind(t))) == CronKind(t)
    ensures !AsOneScan(ws, 7, CronKind(t), t.key(t.next(v)))
  {
    var k := CronKind(t);
    StartsIdle(k, u);
    QuietPoll(t, u, u, [], v);
    assert [] + [Ended(v)] == [Ended(v)];
    FindingPoll(t, u, v, [Ended(v)]);
    var n := t.next(v);
    NotingNotes(n, t.key(n), n);
    ws, ss := ReachedIsCaughtUp(k, u, World(Noted(n, t.key(n), n), u, n, [Ended(v)] + [Ended(n)]));
    assert Fired(t, u, t.next(v)) == [];
  }

  /** Polling records what one scan finds, at whatever times and with whatever
      crashes and other callers, if and only if the timetable is memoryless. */
  lemma PollingIsOneScanExactly(t: Timetable)
    requires Sound(t)
    ensures PollsAsOneScan(t) <==> Memoryless(t)
  {
    if Memoryless(t) {
      forall ws: seq<World>, ss, job, plans, key | CaughtUp(ws, ss, job, plans) && PlanOf(ws[|ws| - 1].db, job, plans) == CronKind(t)
        ensures AsOneScan(ws, job, CronKind(t), key)
      {
        CaughtUpIsOneScan(ws, ss, job, plans, key);
      }
    } else {
      var u: Time, v: Time :| u <= v < t.next(u) && t.next(v) != t.next(u);
      if t.next(u) < t.next(v) {
        var ws, ss := PollsLoseMoment(t, u, v);
      } else {
        var ws, ss := PollsInventMoment(t, u, v);
      }
    }
  }

  // --- Polls closer together than the delay -----------------------------

  /** The poll looks before the next moment after the cursor. */
  ghost predicate LooksEarly(w: World, s: Step, job: Token, t: Timetable) {
    s.Look? && s.i < |w.polls| && job in w.db.jobs ==> w.polls[s.i].now < t.next(w.db.jobs[job].cursor)
  }

  ghost predicate NothingToDo(w: World, job: Token, hash: Token, start: Db) {
    (forall key :: HasKey(w.db, job, key) ==> HasKey(start, job, key)) &&
    forall i :: 0 <= i < |w.polls| ==>
      w.polls[i].authority.hash == hash && (w.polls[i].phase.Scanning? ==> w.polls[i].phase.todo == [])
  }

  lemma EarlyStep(w: World, s: Step, job: Token, plans: Plans, hash: Token, t: Timetable, start: Db)
    requires Sound(t) && plans(hash) == CronKind(t) && NothingToDo(w, job, hash, start)
    requires Enabled(w, job, plans, s) && OnlyPolls(s, job, hash) && LooksEarly(w, s, job, t)
    ensures NothingToDo(Apply(w, job, plans, s), job, hash, start)
  {
    var v := Apply(w, job, plans, s);
    forall key | HasKey(v.db, job, key) ensures HasKey(start, job, key) {
      if !HasKey(w.db, job, key) { CallInvents(w.db, CallOf(w, s), job, key); }
    }
  }

  /** As long as every poll looks before the next moment after the cursor it finds,
      nothing is ever recorded. */
  lemma {:induction false} EarlyPollsRecordNothing(ws: seq<World>, ss: seq<Step>, job: Token, plans: Plans, hash: Token,
                                                   t: Timetable, k: nat)
    requires History(ws, ss, job, plans) && k < |ws| && Sound(t) && plans(hash) == CronKind(t)
    requires forall m :: 0 <= m < k ==> OnlyPolls(ss[m], job, hash) && LooksEarly(ws[m], ss[m], job, t)
    ensures NothingToDo(ws[k], job, hash, ws[0].db)
  {
    if k > 0 {
      EarlyPollsRecordNothing(ws, ss, job, plans, hash, t, k - 1);
      EarlyStep(ws[k - 1], ss[k - 1], job, plans, hash, t, ws[0].db);
    }
  }

  /** The poll comes sooner after the saved cursor than the delay, less the second
      it is rounded to. */
  predicate PollsOften(w: World, s: Step, job: Token, delay: nat) {
    s.Look? && s.i < |w.polls| && job in w.db.jobs ==> w.polls[s.i].now + Second <= w.db.jobs[job].cursor + delay
  }

  /** An `@every` job polled more often than its delay never runs at all. */
  lemma EveryNeverRuns(ws: seq<World>, ss: seq<Step>, job: Token, plans: Plans, hash: Token,
                       delay: nat, key: Time -> Token, k: nat, recorded: Token)
    requires History(ws, ss, job, plans) && k < |ws| && delay >= Second && forall m :: key(m) != 0
    requires plans(hash) == CronKind(Every(delay, key))
    requires forall m :: 0 <= m < k ==> OnlyPolls(ss[m], job, hash) && PollsOften(ws[m], ss[m], job, delay)
    ensures HasKey(ws[k].db, job, recorded) ==> HasKey(ws[0].db, job, recorded)
  {
    var t := Every(delay, key);
    EveryAdvances(delay, key);
    forall m | 0 <= m < k ensures LooksEarly(ws[m], ss[m], job, t) { }
    EarlyPollsRecordNothing(ws, ss, job, plans, hash, t, k);
  }
}
