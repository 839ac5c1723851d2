/** What admission decides about a queued run, read off the tables: exactly when it
    claims the run, finishes it or leaves it waiting, and why. */
module Decisions {
  import opened Rows
  import opened RowWrites
  import opened Admission
  import opened Ledger
  import opened LedgerLaws
  import opened LedgerTheorems
  import opened Acceptance

  // --- Rows that count --------------------------------------------------

  predicate InFlight(s: State) {
    s == Provisioning || s == Starting || s == Running || s == Settled || s == Verifying
  }

  ghost function InFlightIn(db: Db): set<nat> {
    set i: nat | i < |db.runs| && InFlight(db.runs[i].state)
  }

  /** The row was admitted with a device and a reserve of its own. */
  predicate HasDevice(r: Row) {
    r.disk.device != 0 && r.disk.reserve > 0.0
  }

  /** What the runs in flight on a device have reserved there. */
  function OwnReserves(runs: seq<Row>, device: Token): real {
    if runs == [] then 0.0
    else
      var r := runs[|runs| - 1];
      OwnReserves(runs[..|runs| - 1], device) +
      if InFlight(r.state) && HasDevice(r) && r.disk.device == device then r.disk.reserve else 0.0
  }

  /** What the runs in flight without a device are configured to reserve. */
  function LegacyReserves(runs: seq<Row>): real {
    if runs == [] then 0.0
    else
      var r := runs[|runs| - 1];
      LegacyReserves(runs[..|runs| - 1]) +
      if InFlight(r.state) && !HasDevice(r) && r.about.definition.Snapshot? then r.about.definition.reserve else 0.0
  }

  /** A queue_one run is kept back by one of its own job in flight. */
  predicate QueuesBehind(candidate: Definition, r: Row)
    requires candidate.Snapshot?
  {
    InFlight(r.state) && candidate.overlap == QueueOne && r.about.job == candidate.job
  }

  /** A run in flight without a device whose snapshot does not decode. */
  predicate Illegible(r: Row) {
    InFlight(r.state) && !HasDevice(r) && r.about.definition.Corrupt?
  }

  predicate KeepsBack(candidate: Definition, r: Row)
    requires candidate.Snapshot?
  {
    QueuesBehind(candidate, r) || Illegible(r)
  }

  predicate FirstKept(runs: seq<Row>, candidate: Definition, i: nat)
    requires candidate.Snapshot?
  {
    i < |runs| && KeepsBack(candidate, runs[i]) && forall j: nat :: j < i ==> !KeepsBack(candidate, runs[j])
  }

  predicate NoneKept(runs: seq<Row>, candidate: Definition)
    requires candidate.Snapshot?
  {
    forall i: nat :: i < |runs| ==> !KeepsBack(candidate, runs[i])
  }

  predicate Fits(runs: seq<Row>, limits: Limits, candidate: Definition, device: Token, free: real)
    requires candidate.Snapshot?
  {
    limits.floor + OwnReserves(runs, device) + LegacyReserves(runs) + candidate.reserve <= free
  }

  // --- The allocator, in these terms ------------------------------------

  lemma {:induction false} ReservesAdd(runs: seq<Row>, device: Token)
    ensures Total(ActiveRows(runs), device) == OwnReserves(runs, device) + LegacyReserves(runs)
  {
    if runs != [] {
      var front, r := runs[..|runs| - 1], runs[|runs| - 1];
      ReservesAdd(front, device);
      if Active(r.state) {
        assert ActiveRows(runs)[..|ActiveRows(front)|] == ActiveRows(front);
      } else {
        assert ActiveRows(runs) == ActiveRows(front);
      }
    }
  }

  lemma InFlightCount(db: Db)
    ensures |ActiveRows(db.runs)| == |InFlightIn(db)|
  {
    ActiveRowsAre(db.runs);
    CountIsSize(db.runs, IsActive);
    assert Meeting(db.runs, IsActive) == InFlightIn(db);
  }

  lemma KeptGrows(runs: seq<Row>, r: Row, candidate: Definition)
    requires candidate.Snapshot? && NoneKept(runs, candidate)
    ensures KeepsBack(candidate, r) ==> FirstKept(runs + [r], candidate, |runs|)
    ensures !KeepsBack(candidate, r) ==> NoneKept(runs + [r], candidate)
  {
    var all := runs + [r];
    assert forall i: nat :: i < |runs| ==> all[i] == runs[i];
  }

  lemma KeptStays(runs: seq<Row>, r: Row, candidate: Definition, i: nat)
    requires candidate.Snapshot? && FirstKept(runs, candidate, i)
    ensures FirstKept(runs + [r], candidate, i) && (runs + [r])[i] == runs[i]
  {
    var all := runs + [r];
    assert forall j: nat :: j < |runs| ==> all[j] == runs[j];
  }

  lemma StopGrows(active: seq<Row>, r: Row, candidate: Definition)
    requires candidate.Snapshot?
    ensures var k := FirstStop(candidate, active);
      if k < |active| then FirstStop(candidate, active + [r]) == k && (active + [r])[k] == active[k]
      else FirstStop(candidate, active + [r]) == (if Stops(candidate, r) then |active| else |active| + 1)
  {
    var k, all := FirstStop(candidate, active), active + [r];
    assert forall j :: 0 <= j < |active| ==> all[j] == active[j];
    FirstStopIs(candidate, all, if k < |active| then k else if Stops(candidate, r) then |active| else |active| + 1);
  }

  /** The row that ends the allocator's loop is the first one kept back by. */
  lemma {:induction false} StopIsFirstKept(runs: seq<Row>, candidate: Definition) returns (i: nat)
    requires candidate.Snapshot?
    ensures var active, k := ActiveRows(runs), FirstStop(candidate, ActiveRows(runs));
      if k < |active| then FirstKept(runs, candidate, i) && runs[i] == active[k] else NoneKept(runs, candidate)
  {
    i := 0;
    if runs != [] {
      var front, r := runs[..|runs| - 1], runs[|runs| - 1];
      assert front + [r] == runs;
      i := StopIsFirstKept(front, candidate);
      var active, k := ActiveRows(front), FirstStop(candidate, ActiveRows(front));
      if k < |active| { KeptStays(front, r, candidate, i); } else { KeptGrows(front, r, candidate); }
      if Active(r.state) {
        StopGrows(active, r, candidate);
        if k == |active| { i := |front|; }
      } else {
        assert ActiveRows(runs) == active;
      }
    }
  }

  // --- What happens to the run ------------------------------------------

  /** The run is finished without having started, with this state and reason. */
  predicate TurnedDown(a: Row, b: Row, state: State, infra: Infra, code: Code, detail: Token) {
    b.about == a.about && b.state == state && b.place == a.place && b.disk == a.disk && b.lease == a.lease &&
    b.result == Result(infra, AgentNotStarted, Unverified, code, detail)
  }

  /** The run is claimed: for this owner, until then, on the device just probed. */
  predicate Taken(a: Row, b: Row, owner: Token, now: Time, until: Time, device: Token)
    requires a.about.definition.Snapshot?
  {
    b == a.(state := Provisioning, lease := Lease(owner, until),
      disk := Disk(device, a.about.definition.reserve), updatedAt := now)
  }

  ghost predicate HasRoom(db: Db, id: nat, limits: Limits, probe: Probe)
    requires id < |db.runs| && db.runs[id].about.definition.Snapshot?
  {
    var d := db.runs[id].about.definition;
    probe.Probed? && |InFlightIn(db)| < limits.cap && NoneKept(db.runs, d) && Fits(db.runs, limits, d, probe.device, probe.free)
  }

  /** The allocator's verdict on a candidate, in terms of the rows. */
  ghost predicate JudgedAs(db: Db, candidate: Definition, limits: Limits, probe: Probe, d: Decision)
    requires candidate.Snapshot?
  {
    match d
    case ProbeFailure => probe.ProbeFailed?
    case HoldFor(code) =>
      probe.Probed? &&
      if |InFlightIn(db)| >= limits.cap then code == CapacityHold
      else if NoneKept(db.runs, candidate) then
        code == DiskHold && !Fits(db.runs, limits, candidate, probe.device, probe.free)
      else code == OverlapHold && exists i: nat :: FirstKept(db.runs, candidate, i) && QueuesBehind(candidate, db.runs[i])
    case Unreadable =>
      probe.Probed? && |InFlightIn(db)| < limits.cap &&
      exists i: nat :: FirstKept(db.runs, candidate, i) && !QueuesBehind(candidate, db.runs[i])
    case Granted =>
      probe.Probed? && |InFlightIn(db)| < limits.cap && NoneKept(db.runs, candidate) &&
      Fits(db.runs, limits, candidate, probe.device, probe.free)
  }

  lemma JudgeIs(db: Db, candidate: Definition, limits: Limits, probe: Probe)
    requires candidate.Snapshot?
    ensures JudgedAs(db, candidate, limits, probe, Judge(limits, candidate, probe, ActiveRows(db.runs)))
  {
    InFlightCount(db);
    var i := StopIsFirstKept(db.runs, candidate);
    if probe.Probed? { ReservesAdd(db.runs, probe.device); }
  }

  /** An ordinary queued run of a known job. */
  predicate Waiting(db: Db, id: nat) {
    id < |db.runs| && db.runs[id].state == State.Accepted && db.runs[id].about.trigger != Canary &&
    db.runs[id].about.job in db.jobs && db.runs[id].about.definition.Snapshot?
  }

  /** An ordinary run is claimed exactly when its job may run and it has room,
      finished exactly when its job may run and the probe failed, and otherwise left
      waiting as it is. */
  lemma OrdinaryExactly(db: Db, id: nat, owner: Token, limits: Limits, probe: Probe, detail: Token, now: Time, until: Time)
    requires Waiting(db, id) && ValidProvisioningLease(owner, now, until)
    ensures var a := db.runs[id];
      var b := DecideAdmission(db, id, owner, limits, probe, detail, now, until).db.runs[id];
      if MayRun(db, a.about.job) && probe.ProbeFailed? then TurnedDown(a, b, Failed, InfraFailed, CapacityProbeFailed, detail)
      else if MayRun(db, a.about.job) && HasRoom(db, id, limits, probe) then Taken(a, b, owner, now, until, probe.device)
      else b == a
  {
    JudgeIs(db, db.runs[id].about.definition, limits, probe);
  }

  /** ... and nothing else is touched. */
  lemma DecisionTouchesOne(db: Db, id: nat, owner: Token, limits: Limits, probe: Probe, detail: Token, now: Time, until: Time,
                           other: nat)
    requires other < |db.runs| && other != id
    ensures var b := DecideAdmission(db, id, owner, limits, probe, detail, now, until).db;
      |b.runs| == |db.runs| && b.runs[other] == db.runs[other] && b.jobs == db.jobs && b.occurrences == db.occurrences
  {
  }

  /** A queued attended canary of a known job. */
  predicate Attending(db: Db, id: nat) {
    id < |db.runs| && db.runs[id].state == State.Accepted && db.runs[id].about.trigger == Canary &&
    db.runs[id].about.job in db.jobs
  }

  /** Another run of the job is not over. */
  ghost predicate AnotherOpen(db: Db, id: nat)
    requires id < |db.runs|
  {
    exists i: nat :: i < |db.runs| && i != id && db.runs[i].about.job == db.runs[id].about.job && !Terminal(db.runs[i].state)
  }

  ghost predicate KeptByQueue(db: Db, candidate: Definition)
    requires candidate.Snapshot?
  {
    exists i: nat :: FirstKept(db.runs, candidate, i) && QueuesBehind(candidate, db.runs[i])
  }

  lemma AnotherOpenCount(db: Db, id: nat)
    requires id < |db.runs| && !Terminal(db.runs[id].state)
    ensures Count(db.runs, OpenOf(db.runs[id].about.job)) > 1 <==> AnotherOpen(db, id)
  {
    var t := OpenOf(db.runs[id].about.job);
    var open := Meeting(db.runs, t);
    CountIsSize(db.runs, t);
    assert id in open;
    if AnotherOpen(db, id) {
      var i: nat :| i < |db.runs| && i != id && db.runs[i].about.job == db.runs[id].about.job && !Terminal(db.runs[i].state);
      assert i in open - {id} && |open - {id}| == |open| - 1;
    } else {
      assert open == {id};
    }
  }

  /** What settles a canary before the allocator is asked, and with which reason. */
  ghost predicate SettledEarly(db: Db, id: nat, state: State, infra: Infra, code: Code)
    requires Attending(db, id)
  {
    var r, job := db.runs[id], db.jobs[db.runs[id].about.job];
    match code
    case JobDisabled => state == Blocked && infra == InfraNotStarted && !job.enabled
    case JobPaused => state == Blocked && infra == InfraNotStarted && job.enabled && job.pause != Unpaused
    case GloballyPaused =>
      state == Blocked && infra == InfraNotStarted && job.enabled && job.pause == Unpaused && db.halted
    case SnapshotInvalid =>
      state == Failed && infra == InfraFailed && MayRun(db, r.about.job) && r.about.definition.Corrupt?
    case OverlapHold =>
      state == Blocked && infra == InfraNotStarted && MayRun(db, r.about.job) && r.about.definition.Snapshot? &&
      r.about.definition.overlap != Allow && AnotherOpen(db, id)
    case _ => false
  }

  ghost predicate Weighs(db: Db, id: nat)
    requires Attending(db, id)
  {
    MayRun(db, db.runs[id].about.job) && db.runs[id].about.definition.Snapshot? &&
    (db.runs[id].about.definition.overlap == Allow || !AnotherOpen(db, id))
  }

  /** Before the allocator: each reason, exactly when it applies. */
  lemma CanarySettledExactly(db: Db, id: nat, owner: Token, limits: Limits, probe: Probe, detail: Token, now: Time, until: Time,
                             state: State, infra: Infra, code: Code)
    requires Attending(db, id) && ValidProvisioningLease(owner, now, until) && SettledEarly(db, id, state, infra, code)
    ensures TurnedDown(db.runs[id], DecideAdmission(db, id, owner, limits, probe, detail, now, until).db.runs[id],
                       state, infra, code, detail)
  {
    AnotherOpenCount(db, id);
  }

  lemma SettledOrWeighs(db: Db, id: nat)
    requires Attending(db, id)
    ensures Weighs(db, id) <==> !exists state, infra, code :: SettledEarly(db, id, state, infra, code)
  {
    var job := db.jobs[db.runs[id].about.job];
    if !job.enabled { assert SettledEarly(db, id, Blocked, InfraNotStarted, JobDisabled); }
    else if job.pause != Unpaused { assert SettledEarly(db, id, Blocked, InfraNotStarted, JobPaused); }
    else if db.halted { assert SettledEarly(db, id, Blocked, InfraNotStarted, GloballyPaused); }
    else if db.runs[id].about.definition.Corrupt? { assert SettledEarly(db, id, Failed, InfraFailed, SnapshotInvalid); }
    else if !Weighs(db, id) { assert SettledEarly(db, id, Blocked, InfraNotStarted, OverlapHold); }
  }

  /** What each of the allocator's verdicts makes of a canary it was asked about. */
  lemma CanaryFollowsVerdict(db: Db, id: nat, owner: Token, limits: Limits, probe: Probe, detail: Token, now: Time, until: Time)
    requires Attending(db, id) && ValidProvisioningLease(owner, now, until) && Weighs(db, id)
    ensures var a := db.runs[id];
      var b := DecideAdmission(db, id, owner, limits, probe, detail, now, until).db.runs[id];
      match Judge(limits, a.about.definition, probe, ActiveRows(db.runs))
      case ProbeFailure => TurnedDown(a, b, Failed, InfraFailed, CapacityProbeFailed, detail)
      case HoldFor(code) => TurnedDown(a, b, Blocked, InfraNotStarted, code, detail)
      case Unreadable => b == a
      case Granted => probe.Probed? && Taken(a, b, owner, now, until, probe.device)
  {
    AnotherOpenCount(db, id);
  }

  /** After that: the canary is claimed exactly when it has room, and finished with
      the reason it has none, unless the first run it is kept back by is illegible. */
  lemma CanaryWeighedExactly(db: Db, id: nat, owner: Token, limits: Limits, probe: Probe, detail: Token, now: Time, until: Time)
    requires Attending(db, id) && ValidProvisioningLease(owner, now, until) && Weighs(db, id)
    ensures var a, d := db.runs[id], db.runs[id].about.definition;
      var b := DecideAdmission(db, id, owner, limits, probe, detail, now, until).db.runs[id];
      if probe.ProbeFailed? then TurnedDown(a, b, Failed, InfraFailed, CapacityProbeFailed, detail)
      else if |InFlightIn(db)| >= limits.cap then TurnedDown(a, b, Blocked, InfraNotStarted, CapacityHold, detail)
      else if KeptByQueue(db, d) then TurnedDown(a, b, Blocked, InfraNotStarted, OverlapHold, detail)
      else if !NoneKept(db.runs, d) then b == a
      else if !Fits(db.runs, limits, d, probe.device, probe.free)
      then TurnedDown(a, b, Blocked, InfraNotStarted, DiskHold, detail)
      else Taken(a, b, owner, now, until, probe.device)
  {
    CanaryFollowsVerdict(db, id, owner, limits, probe, detail, now, until);
    JudgeIs(db, db.runs[id].about.definition, limits, probe);
    NotBoth(db.runs, db.runs[id].about.definition);
  }

  lemma NotBoth(runs: seq<Row>, candidate: Definition)
    requires candidate.Snapshot?
    ensures forall i: nat, j: nat :: FirstKept(runs, candidate, i) && FirstKept(runs, candidate, j) ==> i == j
    ensures forall i: nat :: FirstKept(runs, candidate, i) ==> !NoneKept(runs, candidate)
  {
  }

  // --- Over any calls ---------------------------------------------------

  /** The call neither writes to run id directly nor decides it on a failed probe. */
  predicate LeavesToAdmission(c: Call, id: nat) {
    (c.Writing? ==> c.id != id) && (c.Admitting? && c.id == id ==> c.probe.Probed?)
  }

  /** The run is an ordinary one, and queued or in flight. */
  predicate StillWanted(db: Db, id: nat) {
    id < |db.runs| && db.runs[id].about.trigger != Canary && db.runs[id].about.definition.Snapshot? &&
    (db.runs[id].state == State.Accepted || db.runs[id].state == Provisioning)
  }

  lemma CallKeepsWanted(db: Db, c: Call, id: nat)
    requires StillWanted(db, id) && LeavesToAdmission(c, id)
    ensures StillWanted(Perform(db, c).db, id)
  {
    CallShows(db, c);
    if c.Admitting? && c.id == id && Waiting(db, id) && ValidProvisioningLease(c.owner, c.at, c.until) {
      OrdinaryExactly(db, id, c.owner, c.limits, c.probe, c.detail, c.at, c.until);
    }
  }

  /** Whatever is decided and however often, admission never finishes an ordinary run
      whose probes worked: it waits, or is in flight. */
  lemma {:induction false} AdmissionNeverFinishesOrdinary(ds: seq<Db>, cs: seq<Call>, id: nat, j: nat, k: nat)
    requires Ran(ds, cs) && j <= k < |ds| && StillWanted(ds[j], id)
    requires forall m :: j <= m < k ==> LeavesToAdmission(cs[m], id)
    ensures StillWanted(ds[k], id)
    decreases k - j
  {
    if j < k {
      AdmissionNeverFinishesOrdinary(ds, cs, id, j, k - 1);
      CallKeepsWanted(ds[k - 1], cs[k - 1], id);
    }
  }
}
