/** How many occurrences of a job are accepted in a day, when every request brings
    its own day and its own limit. */
module DailyLimit {
  import opened Options
  import opened Rows
  import opened RowWrites
  import opened Ledger
  import opened LedgerLaws
  import opened LedgerTheorems

  /** The request counts at least this window, against at most max. */
  predicate Covers(req: AcceptRequest, from: Time, until: Time, max: nat) {
    req.dayStart <= from && until <= DayEnd(req) && req.perDay <= max
  }

  /** Requests made inside the window cover it. */
  predicate Within(c: Call, job: Token, from: Time, until: Time, max: nat) {
    (c.Scheduled? || c.Eventful?) && c.req.authority.job == job && from <= c.req.now < until ==>
      Covers(c.req, from, until, max)
  }

  lemma GrownKeepsWindow(db: Db, c: Call, job: Token, from: Time, until: Time, max: nat)
    requires Count(db.runs, OccurredOf(job, from, until)) <= max && Within(c, job, from, until, max)
    requires ChangeOf(db, c).Grown? && (c.Scheduled? || c.Eventful?)
    ensures Count(Perform(db, c).db.runs, OccurredOf(job, from, until)) <= max
  {
    CallCounts(db, c, OccurredOf(job, from, until));
    GrownWasAdmissible(db, c);
    if c.req.authority.job == job && from <= c.req.now < until {
      CountAtMost(db.runs, OccurredOf(job, from, until), AcceptedOf(job, c.req.dayStart, DayEnd(c.req)));
    }
  }

  /** Such a call keeps any store within the window's limit. */
  lemma CallKeepsWindow(db: Db, c: Call, job: Token, from: Time, until: Time, max: nat)
    requires Count(db.runs, OccurredOf(job, from, until)) <= max && Within(c, job, from, until, max)
    ensures Count(Perform(db, c).db.runs, OccurredOf(job, from, until)) <= max
  {
    var k := ChangeOf(db, c);
    if k.Grown? && (c.Scheduled? || c.Eventful?) {
      GrownKeepsWindow(db, c, job, from, until, max);
    } else {
      CallCounts(db, c, OccurredOf(job, from, until));
      if k.Replaced? && k.wr.Wrote? { ReplacedLawfully(db, c); }
    }
  }

  /** If every request made inside the window covers it, then at no time have more
      than `max` runs been accepted in it for occurrences of the job, manual runs
      and canaries notwithstanding. */
  lemma {:induction false} DailyLimitHolds(ds: seq<Db>, cs: seq<Call>, job: Token, from: Time, until: Time, max: nat, k: nat)
    requires Ran(ds, cs) && k < |ds| && Count(ds[0].runs, OccurredOf(job, from, until)) <= max
    requires forall m :: 0 <= m < k ==> Within(cs[m], job, from, until, max)
    ensures Count(ds[k].runs, OccurredOf(job, from, until)) <= max
  {
    if k > 0 {
      DailyLimitHolds(ds, cs, job, from, until, max, k - 1);
      CallKeepsWindow(ds[k - 1], cs[k - 1], job, from, until, max);
    }
  }

  /** Whatever windows earlier requests had, an accepted occurrence leaves its own
      request's window at or below its own limit. */
  lemma AcceptanceRespectsItsWindow(db: Db, c: Call)
    requires (c.Scheduled? || c.Eventful?) && ChangeOf(db, c).Grown?
    ensures Count(Perform(db, c).db.runs, AcceptedOf(c.req.authority.job, c.req.dayStart, DayEnd(c.req))) <= c.req.perDay
  {
    GrownWasAdmissible(db, c);
    CallCounts(db, c, AcceptedOf(c.req.authority.job, c.req.dayStart, DayEnd(c.req)));
  }

  // --- Requests that do not cover the window ----------------------------

  /** A request the store can accept. */
  predicate Deliverable(c: Call) {
    (c.Scheduled? || c.Eventful?) && c.req.key != 0 && FromOccurrence(c.req.trigger) &&
    (c.Eventful? <==> c.req.trigger.Event?) && c.req.perDay > 0 &&
    var a := c.req.authority;
    a.stamped == Some(a.config) && a.config >= 1 && a.hash != 0 && a.enabled
  }

  /** A store with n old runs of the request's job, all accepted for occurrences at
      x, all over and read. */
  ghost predicate Aged(db: Db, req: AcceptRequest, x: Time, n: nat) {
    var a := req.authority;
    db.jobs == map[a.job := Job(a.config, a.hash, a.definition, true, Unpaused, false, x)] && !db.halted && |db.runs| == n &&
    (forall r :: r in db.runs ==> OldAndRead(r, a.job, x)) &&
    forall key :: (a.job, key) in db.occurrences ==> req.key < key <= req.key + n
  }

  const Over := Intent(Failed, Result(InfraNotStarted, AgentNotStarted, Unverified, SnapshotInvalid, 0))

  function OldRequest(req: AcceptRequest, x: Time, n: nat): AcceptRequest {
    req.(key := req.key + n + 1, trigger := Cron, overlap := Allow, dayStart := 0, dayEnd := x + 1, perDay := n + 1,
         unreadLimit := 0, now := x)
  }

  /** One more old run: accepted, finished, read. */
  function Ageing(req: AcceptRequest, x: Time, n: nat): seq<Call> {
    [Scheduled(OldRequest(req, x, n)), Writing(n, DoFinishRun(Accepted, Over), x), Writing(n, DoMarkRead, x)]
  }

  lemma {:induction false} CountIsAtMostAll(runs: seq<Row>, t: Test)
    ensures Count(runs, t) <= |runs|
  {
    if runs != [] { CountIsAtMostAll(runs[..|runs| - 1], t); }
  }

  lemma {:induction false} CountAll(runs: seq<Row>, t: Test)
    requires forall r :: r in runs ==> Meets(t, r)
    ensures Count(runs, t) == |runs|
  {
    if runs != [] { CountAll(runs[..|runs| - 1], t); }
  }

  lemma OldRunAccepted(db: Db, req: AcceptRequest, x: Time, n: nat)
    requires Aged(db, req, x, n)
    ensures var old1, b := OldRequest(req, x, n), Perform(db, Scheduled(OldRequest(req, x, n))).db;
      b.jobs == db.jobs && !b.halted && b.runs == db.runs + [NewRow(AboutOf(old1, Cron), old1.source)] &&
      b.occurrences.Keys == db.occurrences.Keys + {KeyOf(old1)}
  {
    var old1 := OldRequest(req, x, n);
    CountIsAtMostAll(db.runs, AcceptedOf(req.authority.job, 0, DayEnd(old1)));
    assert KeyOf(old1) !in db.occurrences && !GuardTrips(db, old1);
    assert Fence(db, req.authority.job, req.authority.config, req.authority.hash, true).None?;
  }

  /** The n-th run, the last one, written as r; the rest left alone. */
  ghost predicate LastIs(a: Db, b: Db, n: nat, r: Row) {
    b.jobs == a.jobs && b.halted == a.halted && b.occurrences == a.occurrences && |a.runs| == n + 1 &&
    b.runs == a.runs[n := r]
  }

  function Finished(r: Row, x: Time): Row {
    Retired(r, Over, x).(lease := NoLease, effect := NoEffect)
  }

  lemma OldRunFinishes(db: Db, x: Time, n: nat)
    requires |db.runs| == n + 1 && db.runs[n].state.Accepted? && db.runs[n].effect.owner == 0
    ensures LastIs(db, Perform(db, Writing(n, DoFinishRun(Accepted, Over), x)).db, n, Finished(db.runs[n], x))
  {
  }

  lemma OldRunIsRead(db: Db, x: Time, n: nat)
    requires |db.runs| == n + 1
    ensures LastIs(db, Perform(db, Writing(n, DoMarkRead, x)).db, n, db.runs[n].(unread := false))
  {
  }

  lemma ReplayThree(db: Db, a: Call, b: Call, c: Call)
    ensures Replay(db, [a, b, c]) == Perform(Perform(Perform(db, a).db, b).db, c).db
  {
    Replayed(db, [], a);
    Replayed(db, [a], b);
    Replayed(db, [a, b], c);
    assert [] + [a] == [a] && [a] + [b] == [a, b] && [a, b] + [c] == [a, b, c];
  }

  predicate OldAndRead(r: Row, job: Token, x: Time) {
    r.about.job == job && r.about.acceptedAt == x && FromOccurrence(r.about.trigger) && Terminal(r.state) && !r.unread
  }

  lemma AllOldAndRead(runs: seq<Row>, r: Row, job: Token, x: Time)
    requires (forall s :: s in runs ==> OldAndRead(s, job, x)) && OldAndRead(r, job, x)
    ensures forall s :: s in runs + [r] ==> OldAndRead(s, job, x)
  {
  }

  lemma OneMoreAged(db: Db, req: AcceptRequest, x: Time, n: nat)
    requires Aged(db, req, x, n)
    ensures Aged(Replay(db, Ageing(req, x, n)), req, x, n + 1)
  {
    var calls := Ageing(req, x, n);
    ReplayThree(db, calls[0], calls[1], calls[2]);
    OldRunAccepted(db, req, x, n);
    var accepted := Perform(db, calls[0]).db;
    OldRunFinishes(accepted, x, n);
    var finished := Perform(accepted, calls[1]).db;
    OldRunIsRead(finished, x, n);
    var r := Finished(accepted.runs[n], x).(unread := false);
    AllOldAndRead(db.runs, r, req.authority.job, x);
    assert Perform(finished, calls[2]).db.runs == db.runs + [r];
  }

  /** Such a store is one that calls lead to. */
  lemma {:induction false} AgedIsReached(req: AcceptRequest, x: Time, n: nat) returns (calls: seq<Call>)
    requires var a := req.authority; a.stamped == Some(a.config) && a.config >= 1 && a.hash != 0 && a.enabled
    ensures Aged(Replay(EmptyDb, calls), req, x, n)
  {
    if n == 0 {
      calls := [Sync(req.authority, x)];
      assert calls[..0] == [];
      assert Replay(EmptyDb, calls) == SyncJob(EmptyDb, req.authority, x).db;
      var a := req.authority;
      assert EmptyDb.jobs[a.job := Job(a.config, a.hash, a.definition, true, Unpaused, false, x)] ==
        map[a.job := Job(a.config, a.hash, a.definition, true, Unpaused, false, x)];
    } else {
      var before := AgedIsReached(req, x, n - 1);
      OneMoreAged(Replay(EmptyDb, before), req, x, n - 1);
      ReplayTogether(EmptyDb, before, Ageing(req, x, n - 1));
      calls := before + Ageing(req, x, n - 1);
    }
  }

  /** The store takes the request when few enough of its old runs are in its day. */
  lemma AgedAccepts(db: Db, c: Call, x: Time, n: nat)
    requires Deliverable(c) && Aged(db, c.req, x, n)
    requires n < c.req.perDay || !(c.req.dayStart <= x < DayEnd(c.req))
    ensures Perform(db, c).db.runs == db.runs + [NewRow(AboutOf(c.req, c.req.trigger), c.req.source)]
  {
    var job := c.req.authority.job;
    assert KeyOf(c.req) !in db.occurrences && !GuardTrips(db, c.req) by { CountNone(db.runs, UnreadOf(job)); }
    CountNone(db.runs, OpenOf(job));
    CountNone(db.runs, QueuedOf(job));
    CountIsAtMostAll(db.runs, AcceptedOf(job, c.req.dayStart, DayEnd(c.req)));
    if !(c.req.dayStart <= x < DayEnd(c.req)) { CountNone(db.runs, AcceptedOf(job, c.req.dayStart, DayEnd(c.req))); }
    assert Synced(db, c.req.authority, c.req.now) == Some(db);
  }

  /** ... and then exceeds a window all of them are in. */
  lemma AgedExceeds(db: Db, c: Call, x: Time, from: Time, until: Time, max: nat)
    requires Deliverable(c) && Aged(db, c.req, x, max)
    requires max < c.req.perDay || !(c.req.dayStart <= x < DayEnd(c.req))
    requires from <= x < until && from <= c.req.now < until
    ensures var job := c.req.authority.job;
      Count(db.runs, OccurredOf(job, from, until)) == max &&
      Count(Perform(db, c).db.runs, OccurredOf(job, from, until)) == max + 1
  {
    var t := OccurredOf(c.req.authority.job, from, until);
    AgedAccepts(db, c, x, max);
    CountAll(db.runs, t);
    CountGrown(db.runs, NewRow(AboutOf(c.req, c.req.trigger), c.req.source), t);
  }

  /** The call keeps the window's limit in every store that calls lead to. */
  ghost predicate KeepsWindow(c: Call, from: Time, until: Time, max: nat)
    requires Deliverable(c)
  {
    forall calls :: Kept(Replay(EmptyDb, calls), c, from, until, max)
  }

  predicate Kept(db: Db, c: Call, from: Time, until: Time, max: nat)
    requires Deliverable(c)
  {
    var t := OccurredOf(c.req.authority.job, from, until);
    Count(db.runs, t) <= max ==> Count(Perform(db, c).db.runs, t) <= max
  }

  /** A moment of the window that the request's day leaves out, if there is one. */
  function LeftOut(req: AcceptRequest, from: Time, until: Time): Time {
    if req.dayStart > from then from else if until > DayEnd(req) then until - 1 else req.now
  }

  /** A request keeps a window's limit, wherever it comes, if and only if it is made
      outside the window or covers it. */
  lemma WindowKeptExactly(c: Call, from: Time, until: Time, max: nat)
    requires Deliverable(c)
    ensures KeepsWindow(c, from, until, max) <==> !(from <= c.req.now < until) || Covers(c.req, from, until, max)
  {
    var job := c.req.authority.job;
    if !(from <= c.req.now < until) || Covers(c.req, from, until, max) {
      forall calls ensures Kept(Replay(EmptyDb, calls), c, from, until, max) {
        if Count(Replay(EmptyDb, calls).runs, OccurredOf(job, from, until)) <= max {
          CallKeepsWindow(Replay(EmptyDb, calls), c, job, from, until, max);
        }
      }
    } else {
      var x := LeftOut(c.req, from, until);
      var calls := AgedIsReached(c.req, x, max);
      AgedExceeds(Replay(EmptyDb, calls), c, x, from, until, max);
      assert !Kept(Replay(EmptyDb, calls), c, from, until, max);
    }
  }

  // --- An example -------------------------------------------------------

  const Daily := Authority(7, 1, 8, Some(1), Snapshot(7, Allow, 1.0, NoVerifier, false, false, false, NoAcceptance, true), true)

  /** One run a day, at 150, the day being [100, 200). */
  const Morning := AcceptRequest(Daily, 9, Cron, 150, Allow, 100, 200, 1, 0, 0, 0, 150)

  /** One run a day, at 170, the day being [160, 260). */
  const Shifted := AcceptRequest(Daily, 10, Cron, 170, Allow, 160, 260, 1, 0, 0, 0, 170)

  const AfterMorning := Perform(Perform(EmptyDb, Sync(Daily, 100)).db, Scheduled(Morning)).db

  lemma CountOfOne(r: Row, t: Test)
    ensures Count([r], t) == if Meets(t, r) then 1 else 0
  {
    assert [r][..0] == [];
  }

  lemma MorningIsAccepted()
    ensures AfterMorning.runs == [NewRow(AboutOf(Morning, Cron), 0)]
  {
    assert Perform(EmptyDb, Sync(Daily, 100)).db.runs == [];
    assert [] + [NewRow(AboutOf(Morning, Cron), 0)] == [NewRow(AboutOf(Morning, Cron), 0)];
  }

  /** A request whose day begins elsewhere, as after a time-zone revision, takes an
      earlier day past the limit of one both were accepted under. */
  lemma MovedWindowExceeds()
    ensures Count(AfterMorning.runs, OccurredOf(7, 100, 200)) == 1
    ensures Count(Perform(AfterMorning, Scheduled(Shifted)).db.runs, OccurredOf(7, 100, 200)) == 2
  {
    MorningIsAccepted();
    CountOfOne(AfterMorning.runs[0], OccurredOf(7, 100, 200));
    CountOfOne(AfterMorning.runs[0], AcceptedOf(7, 160, 260));
    CallCounts(AfterMorning, Scheduled(Shifted), OccurredOf(7, 100, 200));
  }
}
