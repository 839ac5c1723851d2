/** A run's history inside a store: between admissions, whatever any number of
    engine processes do to a run is a sequence of store calls, so what holds of
    every sequence of store calls holds of every interleaving of processes. */
module EngineEmbedding {
  import opened Rows
  import opened RowWrites
  import opened Engine
  import opened EngineInvariant
  import opened EngineTheorems
  import opened EngineStore
  import Admission
  import Ledger
  import LedgerLaws
  import LedgerTheorems
  import RowLaws

  /** The store holds this row and these events as run id. */
  predicate Holds(db: Ledger.Db, id: nat, c: Core) {
    id < |db.runs| && db.runs[id] == c.row && Ledger.LogOf(db.events, id) == c.log
  }

  /** Serving a request on the row is the same request as a call on the store. */
  lemma RequestIsCall(db: Ledger.Db, id: nat, c: Core, d: Core, q: Request, at: Time)
    requires Holds(db, id, c) && !q.DoDecide?
    requires var wr := Serve(c.row, Last(c.log), q, at);
      if wr.Wrote? then d.row == wr.row && d.log == c.log + wr.log else d.row == c.row && d.log == c.log
    ensures Holds(Ledger.Perform(db, Ledger.Writing(id, q, at)).db, id, d)
  {
    var wr := Serve(c.row, Last(c.log), q, at);
    RowLaws.EveryWriteDocuments(c.row, Last(c.log), q, at);
    if wr.Wrote? { LedgerLaws.LogTagged(db.events, id, wr.log, id); }
  }

  function AskedByAmbient(c: Core, a: AmbientStep): Asked {
    match a
    case Evidence(code, detail) => Asks(DoRecordEvent(code, detail), c.now)
    case Inbox => Asks(DoMarkRead, c.now)
    case _ => Nothing
  }

  function AskedIn(w: World, s: Step): Asked
    requires Enabled(w, s)
  {
    match s
    case Ambient(a) => AskedByAmbient(w.core, a)
    case Read(_) => Nothing
    case _ => AskedBy(w, s)
  }

  lemma AmbientServes(c: Core, a: AmbientStep)
    requires CanAmbient(c, a)
    ensures Serves(c, DoAmbient(c, a), AskedByAmbient(c, a))
  {
  }

  lemma StepServes(w: World, s: Step)
    requires Inv(w) && Enabled(w, s)
    ensures Serves(w.core, Apply(w, s).core, AskedIn(w, s))
  {
    match s
    case Ambient(a) => AmbientServes(w.core, a);
    case Read(_) =>
    case _ => StepsAreServed(w, s);
  }

  /** The step is an admission that lands. */
  predicate Admits(w: World, s: Step)
    requires Enabled(w, s)
  {
    s.Execute? && s.x.Admission? && Apply(w, s).core.row != w.core.row
  }

  function CallsFor(a: Asked, id: nat): seq<Ledger.Call> {
    match a
    case Nothing => []
    case Asks(q, at) => if q.DoDecide? then [] else [Ledger.Writing(id, q, at)]
  }

  /** The store calls a step makes: one, or none. */
  function CallsOf(w: World, s: Step, id: nat): seq<Ledger.Call>
    requires Enabled(w, s)
  {
    CallsFor(AskedIn(w, s), id)
  }

  lemma AskedIsCall(db: Ledger.Db, id: nat, c: Core, d: Core, a: Asked)
    requires Holds(db, id, c) && Serves(c, d, a)
    requires a.Asks? && a.q.DoDecide? ==> d.row == c.row && d.log == c.log
    ensures Holds(LedgerTheorems.Replay(db, CallsFor(a, id)), id, d)
  {
    if a.Asks? && !a.q.DoDecide? {
      var call := Ledger.Writing(id, a.q, a.at);
      RequestIsCall(db, id, c, d, a.q, a.at);
      LedgerTheorems.Replayed(db, [], call);
      assert [] + [call] == [call];
    }
  }

  lemma OnlyAdmissionDecides(w: World, s: Step)
    requires Enabled(w, s) && AskedIn(w, s).Asks? && AskedIn(w, s).q.DoDecide?
    ensures s.Execute? && s.x.Admission?
    ensures !Admits(w, s) ==> Apply(w, s).core.row == w.core.row && Apply(w, s).core.log == w.core.log
  {
  }

  lemma StepIsCall(db: Ledger.Db, id: nat, w: World, s: Step)
    requires Holds(db, id, w.core) && Inv(w) && Enabled(w, s) && !Admits(w, s)
    ensures Holds(LedgerTheorems.Replay(db, CallsOf(w, s, id)), id, Apply(w, s).core)
  {
    StepServes(w, s);
    if AskedIn(w, s).Asks? && AskedIn(w, s).q.DoDecide? { OnlyAdmissionDecides(w, s); }
    AskedIsCall(db, id, w.core, Apply(w, s).core, AskedIn(w, s));
  }

  lemma OneMoreStep(db: Ledger.Db, before: seq<Ledger.Call>, id: nat, w: World, s: Step)
    requires Holds(LedgerTheorems.Replay(db, before), id, w.core) && Inv(w) && Enabled(w, s) && !Admits(w, s)
    ensures Holds(LedgerTheorems.Replay(db, before + CallsOf(w, s, id)), id, Apply(w, s).core)
  {
    StepIsCall(LedgerTheorems.Replay(db, before), id, w, s);
    LedgerTheorems.ReplayTogether(db, before, CallsOf(w, s, id));
  }

  /** The calls the steps from j to k make. */
  ghost function CallsBetween(ws: seq<World>, ss: seq<Step>, j: nat, k: nat, id: nat): seq<Ledger.Call>
    requires History(ws, ss) && j <= k < |ws|
  {
    if j == k then [] else CallsBetween(ws, ss, j, k - 1, id) + CallsOf(ws[k - 1], ss[k - 1], id)
  }

  ghost predicate Follows(ws: seq<World>, ss: seq<Step>, j: nat, k: nat, db: Ledger.Db, id: nat)
    requires History(ws, ss) && j <= k < |ws|
  {
    Holds(LedgerTheorems.Replay(db, CallsBetween(ws, ss, j, k, id)), id, ws[k].core)
  }

  lemma NextFollows(ws: seq<World>, ss: seq<Step>, j: nat, k: nat, db: Ledger.Db, id: nat)
    requires History(ws, ss) && j < k < |ws| && Follows(ws, ss, j, k - 1, db, id) && !Admits(ws[k - 1], ss[k - 1])
    ensures Follows(ws, ss, j, k, db, id)
  {
    Reachable(ws, ss, k - 1);
    OneMoreStep(db, CallsBetween(ws, ss, j, k - 1, id), id, ws[k - 1], ss[k - 1]);
  }

  ghost predicate Extends(ws: seq<World>, ss: seq<Step>, j: nat, k: nat, db: Ledger.Db, id: nat)
    requires History(ws, ss) && j <= k < |ws|
  {
    forall n :: j < n <= k && Follows(ws, ss, j, n - 1, db, id) ==> Follows(ws, ss, j, n, db, id)
  }

  lemma {:induction false} AllFollow(ws: seq<World>, ss: seq<Step>, j: nat, k: nat, n: nat, db: Ledger.Db, id: nat)
    requires History(ws, ss) && j <= n <= k < |ws| && Extends(ws, ss, j, k, db, id) && Follows(ws, ss, j, j, db, id)
    ensures Follows(ws, ss, j, n, db, id)
    decreases n - j
  {
    if j < n { AllFollow(ws, ss, j, k, n - 1, db, id); }
  }

  /** Whatever the store otherwise contains, a stretch of a history in which no
      admission lands is a sequence of calls on it. */
  lemma HistoryIsRun(ws: seq<World>, ss: seq<Step>, j: nat, k: nat, db: Ledger.Db, id: nat)
    requires History(ws, ss) && j <= k < |ws| && Holds(db, id, ws[j].core)
    requires forall m :: j <= m < k ==> !Admits(ws[m], ss[m])
    ensures exists ds, cs :: LedgerTheorems.Ran(ds, cs) && ds[0] == db && Holds(ds[|cs|], id, ws[k].core)
  {
    var cs := CallsBetween(ws, ss, j, k, id);
    forall n | j < n <= k && Follows(ws, ss, j, n - 1, db, id) ensures Follows(ws, ss, j, n, db, id) {
      NextFollows(ws, ss, j, n, db, id);
    }
    AllFollow(ws, ss, j, k, k, db, id);
    LedgerTheorems.ReplayIsRun(db, cs);
    var ds :| LedgerTheorems.Ran(ds, cs) && ds[0] == db && ds[|cs|] == LedgerTheorems.Replay(db, cs);
  }

  function DeviceOf(probe: Admission.Probe): Token {
    if probe.Probed? then probe.device else 0
  }

  function ReserveOf(d: Definition): real {
    if d.Snapshot? then d.reserve else 0.0
  }

  /** Whatever it rules, the store's decision is one row write. */
  lemma DecisionPuts(db: Ledger.Db, id: nat, owner: Token, limits: Admission.Limits, probe: Admission.Probe, detail: Token,
                     now: Time, until: Time)
    requires id < |db.runs| && db.runs[id].about.job in db.jobs && db.runs[id].state.Accepted?
    requires ValidProvisioningLease(owner, now, until)
    ensures Ledger.DecideAdmission(db, id, owner, limits, probe, detail, now, until).db ==
      Ledger.Put(db, id, Decide(db.runs[id], owner, Ledger.RulingFor(db, id, limits, probe, detail), DeviceOf(probe),
                                ReserveOf(db.runs[id].about.definition), now, until))
  {
  }

  lemma PutHolds(db: Ledger.Db, id: nat, c: Core, wr: Write, d: Core)
    requires Holds(db, id, c) && (wr.Wrote? ==> |wr.log| <= 1)
    requires if wr.Wrote? then d.row == wr.row && d.log == c.log + wr.log else d.row == c.row && d.log == c.log
    ensures Holds(Ledger.Put(db, id, wr), id, d)
  {
    if wr.Wrote? { LedgerLaws.LogTagged(db.events, id, wr.log, id); }
  }

  /** An admission step with the store's own ruling, whether it claims the run,
      finishes it or leaves it queued, is the store's decision: the same row and
      the same log. */
  lemma AdmissionIsCall(db: Ledger.Db, id: nat, c: Core, p: Proc, limits: Admission.Limits, probe: Admission.Probe, detail: Token)
    requires Holds(db, id, c) && c.row.about.job in db.jobs && c.row.state.Accepted? && p.owner != 0
    ensures var ruling := Ledger.RulingFor(db, id, limits, probe, detail);
      Holds(Ledger.DecideAdmission(db, id, p.owner, limits, probe, detail, c.now, c.now + ProvisioningLease).db, id,
            AfterAdmission(c, p, ruling, DeviceOf(probe), ReserveOf(c.row.about.definition)).core)
  {
    var ruling, until := Ledger.RulingFor(db, id, limits, probe, detail), c.now + ProvisioningLease;
    var device, reserve := DeviceOf(probe), ReserveOf(c.row.about.definition);
    DecisionPuts(db, id, p.owner, limits, probe, detail, c.now, until);
    PutHolds(db, id, c, Decide(c.row, p.owner, ruling, device, reserve, c.now, until),
             AfterAdmission(c, p, ruling, device, reserve).core);
  }

  /** Calls on other runs, on jobs and on occurrences leave the run alone, so the
      histories of all runs may interleave. */
  lemma ElsewhereHolds(db: Ledger.Db, id: nat, c: Core, call: Ledger.Call)
    requires Holds(db, id, c) && !((call.Writing? || call.Admitting?) && call.id == id)
    ensures Holds(Ledger.Perform(db, call).db, id, c)
  {
    LedgerLaws.CallShows(db, call);
    match LedgerLaws.ChangeOf(db, call)
    case Same =>
    case Replaced(other, wr) =>
      if wr.Wrote? {
        LedgerLaws.ReplacedLawfully(db, call);
        LedgerLaws.LogTagged(db.events, other, wr.log, id);
        assert c.log + [] == c.log;
      }
    case Grown(about, source) =>
      var entry := Entry(New, Accepted, about.acceptedAt, NoCode, 0);
      LedgerLaws.LogTagged(db.events, |db.runs|, [entry], id);
      assert Ledger.Tagged(|db.runs|, [entry]) == [Ledger.Logged(|db.runs|, entry)] && c.log + [] == c.log;
  }
}
