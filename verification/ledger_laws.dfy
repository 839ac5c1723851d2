/** How one call on the store changes the runs and events tables: not at all, by
    one documented row write, or by one accepted run. */
module LedgerLaws {
  import opened Rows
  import opened RowWrites
  import opened RowLaws
  import opened EventLog
  import opened Ledger

  datatype Change = Same | Replaced(id: nat, wr: Write) | Grown(about: About, source: Token)

  function Growth(db: Db, c: Call, about: About, source: Token): Change {
    if |Perform(db, c).db.runs| > |db.runs| then Grown(about, source) else Same
  }

  function ChangeOf(db: Db, c: Call): Change {
    match c
    case Writing(id, q, at) =>
      if q.DoDecide? || id >= |db.runs| then Same
      else Replaced(id, Serve(db.runs[id], LastOf(LogOf(db.events, id)), q, at))
    case Admitting(id, owner, limits, probe, detail, at, until) =>
      if id >= |db.runs| || db.runs[id].about.job !in db.jobs || !db.runs[id].state.Accepted? then Same
      else Replaced(id, Decide(db.runs[id], owner, RulingFor(db, id, limits, probe, detail),
                               if probe.Probed? then probe.device else 0,
                               if db.runs[id].about.definition.Snapshot? then db.runs[id].about.definition.reserve else 0.0,
                               at, until))
    case Scheduled(req) => Growth(db, c, AboutOf(req, req.trigger), req.source)
    case Eventful(req) => Growth(db, c, AboutOf(req, req.trigger), req.source)
    case Manually(req) => Growth(db, c, AboutOf(req, Manual), 0)
    case AsCanary(req) => Growth(db, c, AboutOf(req, Canary), 0)
    case _ => Same
  }

  /** b is a with the runs and events changed as k says. */
  predicate Shows(a: Db, b: Db, k: Change) {
    match k
    case Same => b.runs == a.runs && b.events == a.events
    case Replaced(id, wr) => id < |a.runs| && b == Put(a, id, wr)
    case Grown(about, source) =>
      b.runs == a.runs + [NewRow(about, source)] &&
      b.events == a.events + [Logged(|a.runs|, Entry(New, Accepted, about.acceptedAt, NoCode, 0))]
  }

  /** Acceptance leaves the tables alone or appends exactly the requested run. */
  predicate Accepts(a: Db, b: Db, req: AcceptRequest) {
    Shows(a, b, Same) || Shows(a, b, Grown(AboutOf(req, req.trigger), req.source))
  }

  lemma AcceptTxAccepts(db: Db, req: AcceptRequest)
    ensures Accepts(db, AcceptTx(db, req).db, req)
  {
  }

  lemma SyncLeavesRuns(db: Db, a: Authority, now: Time)
    requires Synced(db, a, now).Some?
    ensures Synced(db, a, now).value.runs == db.runs && Synced(db, a, now).value.events == db.events
  {
  }

  lemma ScheduledAccepts(db: Db, req: AcceptRequest)
    ensures Accepts(db, AcceptScheduled(db, req).db, req)
  {
  }

  lemma EventAccepts(db: Db, req: AcceptRequest)
    ensures Accepts(db, EnqueueEvent(db, req).db, req)
  {
    var synced := Synced(db, req.authority, req.now);
    if synced.Some? {
      SyncLeavesRuns(db, req.authority, req.now);
      AcceptTxAccepts(synced.value, req);
    }
  }

  lemma CallShows(db: Db, c: Call)
    ensures Shows(db, Perform(db, c).db, ChangeOf(db, c))
  {
    match c
    case Scheduled(req) => ScheduledAccepts(db, req);
    case Eventful(req) => EventAccepts(db, req);
    case _ =>
  }

  /** Whatever the call, the row it replaces is a lawful successor. */
  lemma ReplacedLawfully(db: Db, c: Call)
    requires ChangeOf(db, c).Replaced? && ChangeOf(db, c).wr.Wrote?
    ensures var k := ChangeOf(db, c); RowKept(db.runs[k.id], k.wr.row) && Documents(db.runs[k.id], k.wr)
  {
    var k := ChangeOf(db, c);
    if c.Writing? {
      var last := LastOf(LogOf(db.events, k.id));
      TerminalIsFinal(db.runs[k.id], last, c.q, c.at);
      EveryWriteDocuments(db.runs[k.id], last, c.q, c.at);
    }
  }

  /** What no call changes about a run. */
  predicate RowKept(a: Row, b: Row) {
    b.about == a.about && ReceiptsEvolve(a, b) && (Terminal(a.state) ==> SameOutcome(a, b))
  }

  ghost predicate RunsKept(a: Db, b: Db) {
    |a.runs| <= |b.runs| && forall i :: 0 <= i < |a.runs| ==> RowKept(a.runs[i], b.runs[i])
  }

  lemma CallKeepsRuns(db: Db, c: Call)
    ensures RunsKept(db, Perform(db, c).db)
  {
    CallShows(db, c);
    if ChangeOf(db, c).Replaced? && ChangeOf(db, c).wr.Wrote? { ReplacedLawfully(db, c); }
  }

  // --- Counting ---------------------------------------------------------

  function One(t: Test, r: Row): nat {
    if Meets(t, r) then 1 else 0
  }

  lemma {:induction false} CountPut(runs: seq<Row>, id: nat, r: Row, t: Test)
    requires id < |runs|
    ensures Count(runs[id := r], t) == Count(runs, t) - One(t, runs[id]) + One(t, r)
  {
    var n := |runs| - 1;
    if id < n {
      CountPut(runs[..n], id, r, t);
      assert runs[id := r][..n] == runs[..n][id := r];
    } else {
      assert runs[id := r][..n] == runs[..n];
    }
  }

  lemma CountGrown(runs: seq<Row>, r: Row, t: Test)
    ensures Count(runs + [r], t) == Count(runs, t) + One(t, r)
  {
    assert (runs + [r])[..|runs|] == runs;
  }

  /** How a change moves the count of a test. */
  function Counted(a: Db, k: Change, t: Test): int
    requires k.Replaced? ==> k.id < |a.runs|
  {
    match k
    case Same => Count(a.runs, t)
    case Replaced(id, wr) => if wr.Wrote? then Count(a.runs, t) - One(t, a.runs[id]) + One(t, wr.row) else Count(a.runs, t)
    case Grown(about, source) => Count(a.runs, t) + One(t, NewRow(about, source))
  }

  lemma CountShown(a: Db, b: Db, k: Change, t: Test)
    requires Shows(a, b, k)
    ensures Count(b.runs, t) == Counted(a, k, t)
  {
    match k
    case Same =>
    case Replaced(id, wr) => if wr.Wrote? { CountPut(a.runs, id, wr.row, t); }
    case Grown(about, source) => CountGrown(a.runs, NewRow(about, source), t);
  }

  lemma CallCounts(db: Db, c: Call, t: Test)
    ensures ChangeOf(db, c).Replaced? ==> ChangeOf(db, c).id < |db.runs|
    ensures Count(Perform(db, c).db.runs, t) == Counted(db, ChangeOf(db, c), t)
  {
    CallShows(db, c);
    CountShown(db, Perform(db, c).db, ChangeOf(db, c), t);
  }

  /** What held when an occurrence was accepted. */
  predicate Admissible(db: Db, req: AcceptRequest) {
    var job := req.authority.job;
    Count(db.runs, AcceptedOf(job, req.dayStart, DayEnd(req))) < req.perDay &&
    (req.overlap.Forbid? ==> Count(db.runs, OpenOf(job)) == 0) &&
    (req.overlap.QueueOne? ==> Count(db.runs, QueuedOf(job)) == 0) && !GuardTrips(db, req)
  }

  lemma GrownWasAdmissible(db: Db, c: Call)
    requires ChangeOf(db, c).Grown? && (c.Scheduled? || c.Eventful?)
    ensures Admissible(db, c.req) && ChangeOf(db, c) == Grown(AboutOf(c.req, c.req.trigger), c.req.source)
  {
  }

  lemma {:induction false} CountAtMost(runs: seq<Row>, s: Test, t: Test)
    requires forall r :: Meets(s, r) ==> Meets(t, r)
    ensures Count(runs, s) <= Count(runs, t)
  {
    if runs != [] { CountAtMost(runs[..|runs| - 1], s, t); }
  }

  lemma {:induction false} CountNone(runs: seq<Row>, t: Test)
    requires forall r :: r in runs ==> !Meets(t, r)
    ensures Count(runs, t) == 0
  {
    if runs != [] { CountNone(runs[..|runs| - 1], t); }
  }

  lemma {:induction false} CountSome(runs: seq<Row>, id: nat, t: Test)
    requires id < |runs| && Meets(t, runs[id])
    ensures Count(runs, t) >= 1
  {
    var n := |runs| - 1;
    if id < n { CountSome(runs[..n], id, t); }
  }

  /** Two different rows that meet a test make the count at least two. */
  lemma {:induction false} CountTwo(runs: seq<Row>, i: nat, j: nat, t: Test)
    requires i < j < |runs| && Meets(t, runs[i]) && Meets(t, runs[j])
    ensures Count(runs, t) >= 2
  {
    var n := |runs| - 1;
    if j < n { CountTwo(runs[..n], i, j, t); } else { CountSome(runs[..n], i, t); }
  }

  lemma {:induction false} ActiveRowsAre(runs: seq<Row>)
    ensures |ActiveRows(runs)| == Count(runs, IsActive)
    ensures forall r :: r in ActiveRows(runs) <==> r in runs && Active(r.state)
  {
    if runs != [] {
      ActiveRowsAre(runs[..|runs| - 1]);
      assert runs == runs[..|runs| - 1] + [runs[|runs| - 1]];
    }
  }

  // --- Logs -------------------------------------------------------------

  lemma {:induction false} LogTagged(events: seq<Logged>, id: nat, log: seq<Entry>, j: nat)
    requires |log| <= 1
    ensures LogOf(events + Tagged(id, log), j) == LogOf(events, j) + if j == id then log else []
  {
    if log == [] {
      assert events + Tagged(id, log) == events;
    } else {
      assert log == [log[0]] && (events + Tagged(id, log))[..|events|] == events;
    }
  }

  lemma {:induction false} LogEmpty(events: seq<Logged>, id: nat)
    requires forall k :: 0 <= k < |events| ==> events[k].run != id
    ensures LogOf(events, id) == []
  {
    if events != [] { LogEmpty(events[..|events| - 1], id); }
  }

  /** Every event belongs to a run, and every run's log replays to its state. */
  ghost predicate LogsOk(db: Db) {
    (forall k :: 0 <= k < |db.events| ==> db.events[k].run < |db.runs|) &&
    forall id :: 0 <= id < |db.runs| ==> Replays(LogOf(db.events, id), db.runs[id].state)
  }

  lemma PutKeepsLogs(db: Db, id: nat, wr: Write)
    requires LogsOk(db) && id < |db.runs| && Documents(db.runs[id], wr)
    ensures LogsOk(Put(db, id, wr))
  {
    if wr.Wrote? {
      var after := Put(db, id, wr);
      forall j | 0 <= j < |after.runs| ensures Replays(LogOf(after.events, j), after.runs[j].state) {
        LogTagged(db.events, id, wr.log, j);
        if j == id {
          Appended(LogOf(db.events, id), wr.log, db.runs[id].state, wr.row.state);
        } else {
          assert LogOf(db.events, j) + [] == LogOf(db.events, j);
        }
      }
    }
  }

  lemma GrownKeepsLogs(a: Db, b: Db, about: About, source: Token)
    requires LogsOk(a) && Shows(a, b, Grown(about, source))
    ensures LogsOk(b)
  {
    var entry := Entry(New, Accepted, about.acceptedAt, NoCode, 0);
    assert b.events == a.events + Tagged(|a.runs|, [entry]);
    forall j | 0 <= j < |b.runs| ensures Replays(LogOf(b.events, j), b.runs[j].state) {
      LogTagged(a.events, |a.runs|, [entry], j);
      if j == |a.runs| {
        LogEmpty(a.events, j);
      } else {
        assert LogOf(a.events, j) + [] == LogOf(a.events, j);
      }
    }
  }

  lemma CallKeepsLogs(db: Db, c: Call)
    requires LogsOk(db)
    ensures LogsOk(Perform(db, c).db)
  {
    CallShows(db, c);
    match ChangeOf(db, c)
    case Same =>
    case Replaced(id, wr) =>
      if wr.Wrote? { ReplacedLawfully(db, c); }
      PutKeepsLogs(db, id, wr);
    case Grown(about, source) => GrownKeepsLogs(db, Perform(db, c).db, about, source);
  }
}
