/** Evaluate over all configured jobs: one after the other, and the first that
    fails ends the pass, so that no later job is evaluated and nothing dispatched. */
module Passes {
  import opened Rows
  import opened Ledger
  import opened LedgerTheorems
  import opened Schedule
  import opened Recorder
  import opened Outcomes
  import opened Evaluate
  import opened DurableStore

  /** A configured job: its requests, its schedule, its catch-up grace. */
  datatype Configured = Configured(template: AcceptRequest, kind: LawfulKind, grace: nat)

  function IdOf(p: Configured): Token {
    p.template.authority.job
  }

  predicate Distinct(jobs: seq<Configured>) {
    forall i, j :: 0 <= i < j < |jobs| ==> IdOf(jobs[i]) != IdOf(jobs[j])
  }

  /** What evaluating one job does to the store, and how it ends. */
  ghost predicate JobDone(a: Db, p: Configured, now: Time, b: Db, ending: Ending) {
    var job := IdOf(p);
    (exists calls :: AllConcern(calls, job) && b == Replay(a, calls)) &&
    (ending.Evaluated? ==>
      CursorAt(b, job, Max(CursorFor(a, job, now), now)) && Caught(b, job, p.kind, CursorFor(a, job, now), now)) &&
    (Overfull(a, p.template.authority, p.kind, now) ==> ending.Stopped? && b == a)
  }

  /** The stores a pass goes through, job by job, and how each job ended. */
  datatype Pass = Pass(dbs: seq<Db>, endings: seq<Ending>)

  /** The pass goes on past a job unless it stopped there. */
  ghost predicate Passing(a: Db, jobs: seq<Configured>, now: Time, pass: Pass) {
    |pass.dbs| == |pass.endings| + 1 && |pass.endings| <= |jobs| && pass.dbs[0] == a &&
    (forall j :: 0 <= j < |pass.endings| ==> JobDone(pass.dbs[j], jobs[j], now, pass.dbs[j + 1], pass.endings[j])) &&
    forall j :: 0 <= j < |pass.endings| - 1 ==> !pass.endings[j].Stopped?
  }

  /** It reached the end of the jobs, and dispatches. */
  ghost predicate Through(jobs: seq<Configured>, pass: Pass) {
    |pass.endings| == |jobs| && forall j :: 0 <= j < |jobs| ==> !pass.endings[j].Stopped?
  }

  /** It either went through or stopped at its last job. */
  ghost predicate IsPass(a: Db, jobs: seq<Configured>, now: Time, pass: Pass, b: Db) {
    Passing(a, jobs, now, pass) && b == pass.dbs[|pass.endings|] &&
    (Through(jobs, pass) || (pass.endings != [] && pass.endings[|pass.endings| - 1].Stopped?))
  }

  lemma JobIsDone(t: Trail, a: Db, p: Configured, now: Time, plans: Plans, b: Db, ending: Ending)
    requires Follows(t, IdOf(p), plans) && t.start.db == a && t.at.db == b
    requires ending.Evaluated? ==>
      CursorAt(b, IdOf(p), Max(CursorFor(a, IdOf(p), now), now)) && Caught(b, IdOf(p), p.kind, CursorFor(a, IdOf(p), now), now)
    requires Overfull(a, p.template.authority, p.kind, now) ==> ending.Stopped? && b == a
    ensures JobDone(a, p, now, b, ending)
  {
    assert AllConcern(t.calls, IdOf(p)) && b == Replay(a, t.calls);
  }

  lemma PassGoesOn(a: Db, jobs: seq<Configured>, now: Time, pass: Pass, b: Db, ending: Ending)
    requires Passing(a, jobs, now, pass) && |pass.endings| < |jobs|
    requires forall j :: 0 <= j < |pass.endings| ==> !pass.endings[j].Stopped?
    requires JobDone(pass.dbs[|pass.endings|], jobs[|pass.endings|], now, b, ending)
    ensures Passing(a, jobs, now, Pass(pass.dbs + [b], pass.endings + [ending]))
  {
  }

  /** Evaluate: true when it goes on to dispatch. */
  method EvaluateAll(s: Store, jobs: seq<Configured>, gate: (Token, Token) -> Gate, now: Time)
      returns (through: bool, ghost pass: Pass)
    requires s.Valid()
    modifies s
    ensures s.Valid() && IsPass(old(s.Contents()), jobs, now, pass, s.Contents())
    ensures through == Through(jobs, pass)
  {
    ghost var a := s.Contents();
    pass := Pass([a], []);
    for i := 0 to |jobs|
      invariant s.Valid() && Passing(a, jobs, now, pass) && |pass.endings| == i && pass.dbs[i] == s.Contents()
      invariant forall j :: 0 <= j < i ==> !pass.endings[j].Stopped?
    {
      var p := jobs[i];
      ghost var before, plans: Plans := s.Contents(), _ => p.kind;
      var gates: Token -> Gate := (key: Token) => gate(IdOf(p), key);
      var ending, trail := EvaluateJob(s, p.template, p.kind, p.grace, gates, now, plans, 0, 0);
      JobIsDone(trail, before, p, now, plans, s.Contents(), ending);
      PassGoesOn(a, jobs, now, pass, s.Contents(), ending);
      pass := Pass(pass.dbs + [s.Contents()], pass.endings + [ending]);
      if ending.Stopped? { return false, pass; }
    }
    through := true;
  }

  // --- A job nobody's evaluation is about -------------------------------

  /** What a job's evaluation reads and leaves: its row, its occurrences. */
  ghost predicate Untouched(a: Db, b: Db, job: Token) {
    b.halted == a.halted && (job in b.jobs <==> job in a.jobs) && (job in a.jobs ==> b.jobs[job] == a.jobs[job]) &&
    forall key :: (job, key) in b.occurrences <==> (job, key) in a.occurrences
  }

  lemma CallElsewhere(db: Db, c: Call, job: Token, other: Token)
    requires Concerns(c, job) && other != job
    ensures Untouched(db, Perform(db, c).db, other)
  {
  }

  lemma {:induction false} ReplayElsewhere(db: Db, calls: seq<Call>, job: Token, other: Token)
    requires AllConcern(calls, job) && other != job
    ensures Untouched(db, Replay(db, calls), other)
  {
    if calls != [] {
      var n := |calls| - 1;
      ReplayElsewhere(db, calls[..n], job, other);
      CallElsewhere(Replay(db, calls[..n]), calls[n], job, other);
    }
  }

  /** Jobs before the i-th leave it alone. */
  lemma {:induction false} EarlierLeaveAlone(a: Db, jobs: seq<Configured>, now: Time, pass: Pass, n: nat, job: Token)
    requires Passing(a, jobs, now, pass) && n <= |pass.endings|
    requires forall j :: 0 <= j < n ==> IdOf(jobs[j]) != job
    ensures Untouched(a, pass.dbs[n], job)
  {
    if n > 0 {
      EarlierLeaveAlone(a, jobs, now, pass, n - 1, job);
      var p := jobs[n - 1];
      assert JobDone(pass.dbs[n - 1], p, now, pass.dbs[n], pass.endings[n - 1]);
      var calls :| AllConcern(calls, IdOf(p)) && pass.dbs[n] == Replay(pass.dbs[n - 1], calls);
      ReplayElsewhere(pass.dbs[n - 1], calls, IdOf(p), job);
    }
  }

  // --- An overfull job --------------------------------------------------

  ghost predicate OverfullAt(db: Db, p: Configured, now: Time) {
    Overfull(db, p.template.authority, p.kind, now)
  }

  /** A pass that meets an overfull job ends there or before, and leaves that job
      and all later ones as they are. */
  lemma PassEndsAtOverfull(a: Db, jobs: seq<Configured>, now: Time, pass: Pass, b: Db, i: nat)
    requires IsPass(a, jobs, now, pass, b) && Distinct(jobs) && i < |jobs| && OverfullAt(a, jobs[i], now)
    ensures !Through(jobs, pass) && |pass.endings| <= i + 1
    ensures forall j :: i <= j < |jobs| ==> Untouched(a, b, IdOf(jobs[j]))
  {
    var n := |pass.endings|;
    if i < n {
      EarlierLeaveAlone(a, jobs, now, pass, i, IdOf(jobs[i]));
      assert JobDone(pass.dbs[i], jobs[i], now, pass.dbs[i + 1], pass.endings[i]);
      assert pass.endings[i].Stopped? && n == i + 1;
    }
    forall j | i <= j < |jobs| ensures Untouched(a, b, IdOf(jobs[j])) {
      EarlierLeaveAlone(a, jobs, now, pass, if i < n then i else n, IdOf(jobs[j]));
    }
  }

  lemma OverfullLater(db: Db, p: Configured, now: Time, later: Time)
    requires OverfullAt(db, p, now) && now <= later
    ensures OverfullAt(db, p, later)
  {
    if p.kind.CronKind? { TooManyIsForever(p.kind.table, db.jobs[IdOf(p)].cursor, now, later); }
  }

  /** Passes, and whatever calls others make in between. */
  datatype Turn = Evaluates(now: Time, pass: Pass) | Calls(call: Call)

  ghost predicate TurnTaken(a: Db, jobs: seq<Configured>, t: Turn, b: Db) {
    match t
    case Evaluates(now, pass) => IsPass(a, jobs, now, pass, b)
    case Calls(c) => b == Perform(a, c).db
  }

  ghost predicate Turns(dbs: seq<Db>, jobs: seq<Configured>, ts: seq<Turn>) {
    |dbs| == |ts| + 1 && forall k :: 0 <= k < |ts| ==> TurnTaken(dbs[k], jobs, ts[k], dbs[k + 1])
  }

  /** Passes come no earlier than `from`, and nobody else moves the job's cursor. */
  predicate Orderly(t: Turn, job: Token, from: Time) {
    match t
    case Evaluates(now, _) => from <= now
    case Calls(c) => !(c.Cursor? && c.job == job)
  }

  lemma StillOverfull(a: Db, b: Db, jobs: seq<Configured>, i: nat, t: Turn, from: Time)
    requires i < |jobs| && Distinct(jobs) && OverfullAt(a, jobs[i], from) && TurnTaken(a, jobs, t, b)
    requires Orderly(t, IdOf(jobs[i]), from) && Runnable(b, jobs[i].template.authority)
    ensures OverfullAt(b, jobs[i], from)
  {
    match t
    case Evaluates(now, pass) =>
      OverfullLater(a, jobs[i], from, now);
      PassEndsAtOverfull(a, jobs, now, pass, b, i);
    case Calls(c) => OthersLeaveCursor(a, c, IdOf(jobs[i]));
  }

  lemma {:induction false} OverfullThroughout(dbs: seq<Db>, jobs: seq<Configured>, ts: seq<Turn>, i: nat, from: Time, k: nat)
    requires Turns(dbs, jobs, ts) && k < |dbs| && i < |jobs| && Distinct(jobs) && OverfullAt(dbs[0], jobs[i], from)
    requires forall m :: 0 <= m < k ==> Orderly(ts[m], IdOf(jobs[i]), from)
    requires forall m :: 0 <= m <= k ==> Runnable(dbs[m], jobs[i].template.authority)
    ensures OverfullAt(dbs[k], jobs[i], from)
  {
    if k > 0 {
      OverfullThroughout(dbs, jobs, ts, i, from, k - 1);
      StillOverfull(dbs[k - 1], dbs[k], jobs, i, ts[k - 1], from);
    }
  }

  /** Once more of one job is due than an evaluation takes, then until that job is
      paused, disabled, revised or completed, or everything is halted, no pass gets
      past it: none dispatches, and none touches a later job's row or occurrences. */
  lemma OneOverfullJobBlocksTheRest(dbs: seq<Db>, jobs: seq<Configured>, ts: seq<Turn>, i: nat, from: Time, k: nat)
    requires Turns(dbs, jobs, ts) && k < |ts| && i < |jobs| && Distinct(jobs) && OverfullAt(dbs[0], jobs[i], from)
    requires forall m :: 0 <= m <= k ==> Orderly(ts[m], IdOf(jobs[i]), from)
    requires forall m :: 0 <= m <= k ==> Runnable(dbs[m], jobs[i].template.authority)
    requires ts[k].Evaluates?
    ensures !Through(jobs, ts[k].pass) && |ts[k].pass.endings| <= i + 1
    ensures forall j :: i <= j < |jobs| ==> Untouched(dbs[k], dbs[k + 1], IdOf(jobs[j]))
  {
    OverfullThroughout(dbs, jobs, ts, i, from, k);
    OverfullLater(dbs[k], jobs[i], from, ts[k].now);
    PassEndsAtOverfull(dbs[k], jobs, ts[k].now, ts[k].pass, dbs[k + 1], i);
  }

  // --- A pass that goes through -----------------------------------------

  lemma {:induction false} ReplayKeepsKeys(db: Db, calls: seq<Call>, job: Token, keys: set<Token>)
    requires HasAll(db, job, keys)
    ensures HasAll(Replay(db, calls), job, keys)
  {
    if calls != [] {
      var n := |calls| - 1;
      ReplayKeepsKeys(db, calls[..n], job, keys);
      CallIsSteady(Replay(db, calls[..n]), calls[n], job);
    }
  }

  lemma {:induction false} PassKeepsKeys(a: Db, jobs: seq<Configured>, now: Time, pass: Pass, m: nat, n: nat, job: Token,
                                         keys: set<Token>)
    requires Passing(a, jobs, now, pass) && m <= n <= |pass.endings| && HasAll(pass.dbs[m], job, keys)
    ensures HasAll(pass.dbs[n], job, keys)
    decreases n - m
  {
    if m < n {
      PassKeepsKeys(a, jobs, now, pass, m, n - 1, job, keys);
      assert JobDone(pass.dbs[n - 1], jobs[n - 1], now, pass.dbs[n], pass.endings[n - 1]);
      var calls :| AllConcern(calls, IdOf(jobs[n - 1])) && pass.dbs[n] == Replay(pass.dbs[n - 1], calls);
      ReplayKeepsKeys(pass.dbs[n - 1], calls, job, keys);
    }
  }

  /** After a pass everything that was due for the jobs it evaluated is recorded,
      from where their cursors stood before the pass. */
  lemma EvaluatedAreCaught(a: Db, jobs: seq<Configured>, now: Time, pass: Pass, b: Db, j: nat)
    requires IsPass(a, jobs, now, pass, b) && Distinct(jobs) && j < |pass.endings| && pass.endings[j].Evaluated?
    ensures Caught(b, IdOf(jobs[j]), jobs[j].kind, CursorFor(a, IdOf(jobs[j]), now), now)
  {
    var n, job := |pass.endings|, IdOf(jobs[j]);
    EarlierLeaveAlone(a, jobs, now, pass, j, job);
    assert JobDone(pass.dbs[j], jobs[j], now, pass.dbs[j + 1], pass.endings[j]);
    PassKeepsKeys(a, jobs, now, pass, j + 1, n, job, Found(jobs[j].kind, CursorFor(a, job, now), now));
  }
}
