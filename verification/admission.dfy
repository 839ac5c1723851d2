/** The admission allocator: may one more run start, given the rows of the runs
    that are active now. Disk sizes are reals, in GiB. */
module Admission {
  import opened Rows

  /** capacity.max_concurrent_runs and capacity.min_free_disk_gib. */
  datatype Limits = Limits(cap: int, floor: real)

  datatype Probe = ProbeFailed | Probed(device: Token, free: real)

  datatype Decision = ProbeFailure | HoldFor(code: Code) | Unreadable | Granted

  /** The row carries its own probed device and reserve. */
  predicate Claims(r: Row) {
    r.disk.device != 0 && r.disk.reserve > 0.0
  }

  /** What an active row costs a candidate on `device`: its own reserve when it
      claims that device, nothing when it claims another, and its snapshot's
      reserve wherever the candidate is when it predates per-device claims. */
  function Charge(r: Row, device: Token): real {
    if Claims(r) then if r.disk.device == device then r.disk.reserve else 0.0
    else if r.about.definition.Snapshot? then r.about.definition.reserve
    else 0.0
  }

  function Total(active: seq<Row>, device: Token): real {
    if active == [] then 0.0 else Total(active[..|active| - 1], device) + Charge(active[|active| - 1], device)
  }

  /** A queue_one candidate meets an active run of its own job. */
  predicate Conflicts(candidate: Definition, r: Row)
    requires candidate.Snapshot?
  {
    candidate.overlap.QueueOne? && r.about.job == candidate.job
  }

  /** A row without a claim whose snapshot does not decode. */
  predicate Blind(r: Row) {
    !Claims(r) && r.about.definition.Corrupt?
  }

  predicate Stops(candidate: Definition, r: Row)
    requires candidate.Snapshot?
  {
    Conflicts(candidate, r) || Blind(r)
  }

  /** The first row, in the order listed, that ends the decision. */
  function FirstStop(candidate: Definition, active: seq<Row>): (k: nat)
    requires candidate.Snapshot?
    ensures k <= |active| && (k < |active| ==> Stops(candidate, active[k]))
    ensures forall i :: 0 <= i < k ==> !Stops(candidate, active[i])
  {
    if active == [] || Stops(candidate, active[0]) then 0 else 1 + FirstStop(candidate, active[1..])
  }

  function Judge(limits: Limits, candidate: Definition, probe: Probe, active: seq<Row>): Decision
    requires candidate.Snapshot?
  {
    if probe.ProbeFailed? then ProbeFailure
    else if |active| >= limits.cap then HoldFor(CapacityHold)
    else
      var k := FirstStop(candidate, active);
      if k < |active| then if Conflicts(candidate, active[k]) then HoldFor(OverlapHold) else Unreadable
      else if probe.free < limits.floor + Total(active, probe.device) + candidate.reserve then HoldFor(DiskHold)
      else Granted
  }

  function OnDevice(active: seq<Row>, device: Token): real {
    if active == [] then 0.0
    else
      var r := active[|active| - 1];
      OnDevice(active[..|active| - 1], device) + if Claims(r) then Charge(r, device) else 0.0
  }

  function Legacy(active: seq<Row>): real {
    if active == [] then 0.0
    else
      var r := active[|active| - 1];
      Legacy(active[..|active| - 1]) + if Claims(r) then 0.0 else Charge(r, 0)
  }

  lemma {:induction false} TotalSplits(active: seq<Row>, device: Token)
    ensures Total(active, device) == OnDevice(active, device) + Legacy(active)
  {
    if active != [] { TotalSplits(active[..|active| - 1], device); }
  }

  lemma FirstStopIs(candidate: Definition, active: seq<Row>, i: nat)
    requires candidate.Snapshot? && i <= |active| && (i < |active| ==> Stops(candidate, active[i]))
    requires forall j :: 0 <= j < i ==> !Stops(candidate, active[j])
    ensures FirstStop(candidate, active) == i
  {
  }

  /** The decision loop, with its two running sums. */
  method AdmissionDecision(limits: Limits, candidate: Definition, probe: Probe, active: seq<Row>) returns (d: Decision)
    requires candidate.Snapshot?
    ensures d == Judge(limits, candidate, probe, active)
  {
    if probe.ProbeFailed? { return ProbeFailure; }
    if |active| >= limits.cap { return HoldFor(CapacityHold); }
    var reservedOnDevice, legacyReserve := 0.0, 0.0;
    for i := 0 to |active|
      invariant forall j :: 0 <= j < i ==> !Stops(candidate, active[j])
      invariant reservedOnDevice == OnDevice(active[..i], probe.device) && legacyReserve == Legacy(active[..i])
    {
      var run := active[i];
      assert active[..i + 1][..i] == active[..i];
      if candidate.overlap.QueueOne? && run.about.job == candidate.job {
        FirstStopIs(candidate, active, i);
        return HoldFor(OverlapHold);
      }
      if run.disk.device != 0 && run.disk.reserve > 0.0 {
        if run.disk.device == probe.device { reservedOnDevice := reservedOnDevice + run.disk.reserve; }
        continue;
      }
      if run.about.definition.Corrupt? {
        FirstStopIs(candidate, active, i);
        return Unreadable;
      }
      legacyReserve := legacyReserve + run.about.definition.reserve;
    }
    assert active[..|active|] == active;
    FirstStopIs(candidate, active, |active|);
    TotalSplits(active, probe.device);
    var required := limits.floor + reservedOnDevice + legacyReserve + candidate.reserve;
    if probe.free < required { return HoldFor(DiskHold); }
    d := Granted;
  }

  // --- The order rows are listed in -------------------------------------

  lemma {:induction false} TotalWithout(active: seq<Row>, i: nat, device: Token)
    requires i < |active|
    ensures Total(active, device) == Total(active[..i] + active[i + 1..], device) + Charge(active[i], device)
    decreases |active|
  {
    var n := |active| - 1;
    if i < n {
      TotalWithout(active[..n], i, device);
      var rest := active[..i] + active[i + 1..];
      assert rest[..n - 1] == active[..n][..i] + active[..n][i + 1..] && rest[n - 1] == active[n];
    } else {
      assert active[..i] + active[i + 1..] == active[..n];
    }
  }

  lemma MultisetWithout<T>(s: seq<T>, i: nat)
    requires i < |s|
    ensures multiset(s[..i] + s[i + 1..]) == multiset(s) - multiset{s[i]}
  {
    assert s == s[..i] + [s[i]] + s[i + 1..];
  }

  lemma {:induction false} TotalPermutes(a: seq<Row>, b: seq<Row>, device: Token)
    requires multiset(a) == multiset(b)
    ensures Total(a, device) == Total(b, device)
    decreases |a|
  {
    assert |a| == |multiset(a)| == |multiset(b)| == |b|;
    if a != [] {
      var n, x := |a| - 1, a[|a| - 1];
      assert x in multiset(b);
      var i :| 0 <= i < |b| && b[i] == x;
      MultisetWithout(b, i);
      MultisetWithout(a, n);
      assert a[..n] + a[n + 1..] == a[..n];
      TotalPermutes(a[..n], b[..i] + b[i + 1..], device);
      TotalWithout(b, i, device);
    }
  }

  /** Some row conflicts, and some other cannot be read. */
  ghost predicate Torn(candidate: Definition, active: seq<Row>)
    requires candidate.Snapshot?
  {
    (exists r :: r in active && Conflicts(candidate, r)) &&
    (exists r :: r in active && Blind(r) && !Conflicts(candidate, r))
  }

  ghost predicate Reordered(a: seq<Row>, b: seq<Row>) {
    multiset(a) == multiset(b)
  }

  lemma ReorderedMembers(a: seq<Row>, b: seq<Row>, r: Row)
    requires Reordered(a, b) && r in a
    ensures r in b
  {
    assert r in multiset(b);
  }

  lemma UntornDecision(limits: Limits, candidate: Definition, probe: Probe, a: seq<Row>, b: seq<Row>)
    requires candidate.Snapshot? && Reordered(a, b) && !Torn(candidate, a)
    ensures Judge(limits, candidate, probe, a) == Judge(limits, candidate, probe, b)
  {
    assert |a| == |multiset(a)| == |multiset(b)| == |b|;
    var i, j := FirstStop(candidate, a), FirstStop(candidate, b);
    if i < |a| { ReorderedMembers(a, b, a[i]); }
    if j < |b| { ReorderedMembers(b, a, b[j]); }
    if probe.Probed? { TotalPermutes(a, b, probe.device); }
  }

  /** The same rows, with the i-th listed first. */
  function Fronted(a: seq<Row>, i: nat): (b: seq<Row>)
    requires i < |a|
    ensures multiset(b) == multiset(a) && |b| == |a| && b[0] == a[i]
  {
    assert a == a[..i] + [a[i]] + a[i + 1..];
    [a[i]] + a[..i] + a[i + 1..]
  }

  /** The decision depends on the order of the active rows exactly when it looks
      at them at all and one of them conflicts while another cannot be read; in
      particular it never does when their snapshots decode. */
  lemma OrderMattersExactlyWhenTorn(limits: Limits, candidate: Definition, probe: Probe, a: seq<Row>)
    requires candidate.Snapshot?
    ensures (exists b :: Reordered(a, b) && Judge(limits, candidate, probe, b) != Judge(limits, candidate, probe, a))
       <==> probe.Probed? && |a| < limits.cap && Torn(candidate, a)
  {
    if probe.Probed? && |a| < limits.cap && Torn(candidate, a) {
      var r :| r in a && Conflicts(candidate, r);
      var s :| s in a && Blind(s) && !Conflicts(candidate, s);
      var i :| 0 <= i < |a| && a[i] == r;
      var j :| 0 <= j < |a| && a[j] == s;
      FirstStopIs(candidate, Fronted(a, i), 0);
      FirstStopIs(candidate, Fronted(a, j), 0);
      assert Reordered(a, Fronted(a, i)) && Reordered(a, Fronted(a, j));
    }
    forall b | Reordered(a, b) && !(probe.Probed? && |a| < limits.cap && Torn(candidate, a))
      ensures Judge(limits, candidate, probe, b) == Judge(limits, candidate, probe, a)
    {
      assert |a| == |multiset(a)| == |multiset(b)| == |b|;
      if !Torn(candidate, a) { UntornDecision(limits, candidate, probe, a, b); }
    }
  }
}
