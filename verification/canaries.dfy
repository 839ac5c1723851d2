/** An attended canary is claimed or finished by its own admission call, unless the
    allocator meets an active row that it cannot read. No sequence of calls leaves
    such a row: only tables that an older version or a hand edit left have one. */
module Canaries {
  import opened Rows
  import opened RowWrites
  import opened EventLog
  import opened Admission
  import opened Ledger
  import opened LedgerLaws
  import opened LedgerTheorems

  /** An attended canary is left queued by its own admission call if and only if
      nothing about its job or itself settles the decision and the allocator meets
      an active row without a claim whose snapshot it cannot read; the call then
      fails and changes nothing. Otherwise the canary is claimed or finished. */
  lemma CanaryStaysQueuedExactly(db: Db, id: nat, owner: Token, limits: Limits, probe: Probe, detail: Token, now: Time, until: Time)
    requires id < |db.runs| && db.runs[id].state.Accepted? && db.runs[id].about.trigger.Canary?
    requires db.runs[id].about.job in db.jobs && ValidProvisioningLease(owner, now, until)
    ensures var after := DecideAdmission(db, id, owner, limits, probe, detail, now, until);
      (after.db.runs[id].state.Accepted? <==> Undecided(db, id, limits, probe)) &&
      (Undecided(db, id, limits, probe) <==> after == After(db, Denied(ActiveUnreadable)))
  {
  }

  /** When the allocator can be that blind: the probe worked, the cap has room, and
      the first active row to end the decision is unreadable, not conflicting. */
  lemma UnreadableExactly(limits: Limits, candidate: Definition, probe: Probe, active: seq<Row>)
    requires candidate.Snapshot?
    ensures Judge(limits, candidate, probe, active).Unreadable? <==>
      probe.Probed? && |active| < limits.cap && exists k :: 0 <= k < |active| && EndsUnread(candidate, active, k)
  {
    var k := FirstStop(candidate, active);
    forall i | 0 <= i < |active| && EndsUnread(candidate, active, i) ensures i == k { FirstStopIs(candidate, active, i); }
    if Judge(limits, candidate, probe, active).Unreadable? { assert EndsUnread(candidate, active, k); }
  }

  predicate EndsUnread(candidate: Definition, active: seq<Row>, k: nat)
    requires candidate.Snapshot? && k < |active|
  {
    Blind(active[k]) && !Conflicts(candidate, active[k]) && forall i :: 0 <= i < k ==> !Stops(candidate, active[i])
  }

  // --- Over any calls ---------------------------------------------------

  /** The allocator can read every active row. */
  ghost predicate Readable(db: Db) {
    forall r :: r in db.runs && Active(r.state) ==> !Blind(r)
  }

  lemma ReplacedStaysReadable(db: Db, c: Call)
    requires Readable(db) && SettlesOnly(c) && ChangeOf(db, c).Replaced? && ChangeOf(db, c).wr.Wrote?
    ensures ChangeOf(db, c).id < |db.runs|
    ensures Active(ChangeOf(db, c).wr.row.state) ==> !Blind(ChangeOf(db, c).wr.row)
  {
    var k := ChangeOf(db, c);
    ReplacedLawfully(db, c);
    if c.Writing? {
      WritesNeverActivate(db, c);
      assert db.runs[k.id] in db.runs;
    } else if Active(k.wr.row.state) {
      AdmittedWasGranted(db, c);
    }
  }

  /** Only an admission starts a run, and only with a snapshot that decodes. */
  lemma CallKeepsReadable(db: Db, c: Call)
    requires Readable(db) && SettlesOnly(c)
    ensures Readable(Perform(db, c).db)
  {
    CallShows(db, c);
    var k, after := ChangeOf(db, c), Perform(db, c).db;
    if k.Replaced? && k.wr.Wrote? { ReplacedStaysReadable(db, c); }
    forall r | r in after.runs && Active(r.state) ensures !Blind(r) {
      if r !in db.runs { assert k.Replaced? && r == k.wr.row; }
    }
  }

  lemma {:induction false} StaysReadable(ds: seq<Db>, cs: seq<Call>, k: nat)
    requires Ran(ds, cs) && k < |ds| && Readable(ds[0]) && forall m :: 0 <= m < k ==> SettlesOnly(cs[m])
    ensures Readable(ds[k])
  {
    if k > 0 {
      StaysReadable(ds, cs, k - 1);
      CallKeepsReadable(ds[k - 1], cs[k - 1]);
    }
  }

  lemma ReadableIsDecided(db: Db, id: nat, limits: Limits, probe: Probe)
    requires Readable(db) && id < |db.runs| && db.runs[id].about.job in db.jobs
    ensures !Undecided(db, id, limits, probe)
  {
    ActiveRowsAre(db.runs);
    if Weighed(db, id) {
      UnreadableExactly(limits, db.runs[id].about.definition, probe, ActiveRows(db.runs));
      forall r | r in ActiveRows(db.runs) ensures !Blind(r) { assert r in db.runs; }
    }
  }

  /** Over any calls by anyone, starting from tables without such a row, as the
      empty ones are: an attended canary of a known job never stays queued once its
      admission is decided under a valid lease. */
  lemma NoCanaryStaysQueued(ds: seq<Db>, cs: seq<Call>, k: nat)
    requires Ran(ds, cs) && k < |cs| && Readable(ds[0]) && forall m :: 0 <= m < k ==> SettlesOnly(cs[m])
    requires cs[k].Admitting? && cs[k].id < |ds[k].runs| && ds[k].runs[cs[k].id].about.trigger.Canary?
    requires ds[k].runs[cs[k].id].about.job in ds[k].jobs && ValidProvisioningLease(cs[k].owner, cs[k].at, cs[k].until)
    ensures cs[k].id < |ds[k + 1].runs| && !ds[k + 1].runs[cs[k].id].state.Accepted?
  {
    StaysReadable(ds, cs, k);
    var c := cs[k];
    ReadableIsDecided(ds[k], c.id, c.limits, c.probe);
    if ds[k].runs[c.id].state.Accepted? {
      CanaryStaysQueuedExactly(ds[k], c.id, c.owner, c.limits, c.probe, c.detail, c.at, c.until);
    }
  }

  lemma EmptyIsReadable()
    ensures Readable(EmptyDb)
  {
  }

  /** Nor does the order of the active rows ever matter then. */
  lemma NeverTorn(ds: seq<Db>, cs: seq<Call>, k: nat, candidate: Definition)
    requires Ran(ds, cs) && k < |ds| && Readable(ds[0]) && (forall m :: 0 <= m < k ==> SettlesOnly(cs[m]))
    requires candidate.Snapshot?
    ensures !Torn(candidate, ActiveRows(ds[k].runs))
  {
    StaysReadable(ds, cs, k);
    ActiveRowsAre(ds[k].runs);
  }

  // --- Tables left by an older version ----------------------------------

  const OldRun := NewRow(About(1, 2, Corrupt(3), Cron, 10, 0), 0).(state := Running)
  const Attended := Snapshot(7, Forbid, 1.0, NoVerifier, false, false, false, NoAcceptance, true)
  const CanaryRun := NewRow(About(7, 8, Attended, Canary, 20, 0), 0)
  const OldLog := [Entry(New, Accepted, 10, NoCode, 0), Entry(Was(Accepted), Running, 11, NoCode, 0)]
  const CanaryLog := [Entry(New, Accepted, 20, NoCode, 0)]

  const Stuck := Db(
    map[7 := Job(1, 8, Attended, true, Unpaused, false, 5)], map[], [OldRun, CanaryRun],
    [Logged(0, OldLog[0]), Logged(0, OldLog[1]), Logged(1, CanaryLog[0])], false)

  lemma StuckLogs()
    ensures LogOf(Stuck.events, 0) == OldLog && LogOf(Stuck.events, 1) == CanaryLog
  {
    var e := Stuck.events;
    assert e[..2] == [e[0], e[1]] && e[..2][..1] == [e[0]] && e[..2][..1][..0] == [];
    assert LogOf([], 0) == [] && LogOf([], 1) == [];
    assert LogOf(e[..2][..1], 0) == [OldLog[0]] && LogOf(e[..2][..1], 1) == [];
    assert LogOf(e[..2], 0) == OldLog && LogOf(e[..2], 1) == [];
  }

  lemma StuckRows()
    ensures ActiveRows(Stuck.runs) == [OldRun] && Count(Stuck.runs, OpenOf(7)) == 1
  {
    assert [OldRun][..0] == [] && Stuck.runs[..1] == [OldRun];
    assert ActiveRows([OldRun]) == [] + [OldRun];
    assert Count([], OpenOf(7)) == 0;
    assert Count([OldRun], OpenOf(7)) == 0;
  }

  lemma StuckJudgement(limits: Limits, device: Token, free: real)
    requires limits.cap > 1
    ensures Judge(limits, Attended, Probed(device, free), [OldRun]) == Unreadable
  {
    FirstStopIs(Attended, [OldRun], 0);
  }

  /** In tables whose logs replay but where an old run without a device claim and
      with a corrupt snapshot is active, an enabled job's canary is left queued. */
  lemma CanaryLeftQueued(limits: Limits, device: Token, free: real)
    requires limits.cap > 1
    ensures LogsOk(Stuck) && !Readable(Stuck)
    ensures DecideAdmission(Stuck, 1, 9, limits, Probed(device, free), 0, 30, 40) == After(Stuck, Denied(ActiveUnreadable))
  {
    StuckLogs();
    ReplaysIsChained(OldLog, Running);
    ReplaysIsChained(CanaryLog, Accepted);
    assert OldRun in Stuck.runs && Blind(OldRun);
    StuckRows();
    StuckJudgement(limits, device, free);
    CanaryStaysQueuedExactly(Stuck, 1, 9, limits, Probed(device, free), 0, 30, 40);
  }
}
