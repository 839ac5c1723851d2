/** Which moments of a schedule are due in a window, and under which keys.

    Cron evaluation and time zones enter as two functions: the next moment after
    an instant, and the occurrence key of a moment, which is the schedule kind
    with the local wall-clock minute. Keys are not injective: the minutes a
    daylight-saving change repeats share theirs. */
module Schedule {
  import opened Options
  import opened Rows

  datatype Timetable = Timetable(next: Time -> Time, key: Time -> Token)

  datatype Kind = CronKind(table: Timetable) | OnceKind(at: Time, onceKey: Token) | EventKind

  datatype Planned = Planned(key: Token, at: Time, trigger: Trigger, missed: bool)

  const Tolerance: nat := 60_000_000_000
  const MaxDue: nat := 1000

  /** There is a next moment after every instant. */
  ghost predicate Sound(t: Timetable) {
    (forall u :: t.next(u) > u) && forall m :: t.key(m) != 0
  }

  /** Wherever one asks from before it, the next moment is the same one: what the
      five-field expressions are meant to give and `@every` as a rule does not. */
  ghost predicate Memoryless(t: Timetable) {
    forall u: Time, v: Time :: u <= v < t.next(u) ==> t.next(v) == t.next(u)
  }

  predicate Fires(t: Timetable, m: Time) {
    m > 0 && t.next(m - 1) == m
  }

  /** The moments one scan of (after, now] meets, in order: each the next one after
      the one before. */
  ghost function Fired(t: Timetable, after: Time, now: Time): seq<Time>
    requires Sound(t)
    decreases now - after
  {
    if t.next(after) > now then [] else [t.next(after)] + Fired(t, t.next(after), now)
  }

  function Keys(t: Timetable, moments: seq<Time>): set<Token> {
    set i | 0 <= i < |moments| :: t.key(moments[i])
  }

  /** The moments, less those whose key an earlier one has. */
  function Dedup(t: Timetable, moments: seq<Time>): seq<Time> {
    if moments == [] then []
    else
      var front, last := Dedup(t, moments[..|moments| - 1]), moments[|moments| - 1];
      if t.key(last) in Keys(t, front) then front else front + [last]
  }

  ghost function Due(t: Timetable, after: Time, now: Time): seq<Time>
    requires Sound(t)
  {
    Dedup(t, Fired(t, after, now))
  }

  function Lateness(key: Token, moment: Time, trigger: Trigger, grace: nat, now: Time): Planned
    requires moment <= now
  {
    if now - moment <= Tolerance then Planned(key, moment, trigger, false)
    else if now - moment <= grace then Planned(key, moment, CatchUp, false)
    else Planned(key, moment, trigger, true)
  }

  // --- What is due ------------------------------------------------------

  lemma {:induction false} FiredIn(t: Timetable, after: Time, now: Time)
    requires Sound(t)
    ensures forall m :: m in Fired(t, after, now) ==> after < m <= now
    decreases now - after
  {
    if t.next(after) <= now { FiredIn(t, t.next(after), now); }
  }

  /** Without memory a scan meets all moments there are. */
  lemma {:induction false} FiredAre(t: Timetable, after: Time, now: Time)
    requires Sound(t) && Memoryless(t)
    ensures forall m :: m in Fired(t, after, now) <==> after < m <= now && Fires(t, m)
    decreases now - after
  {
    var next := t.next(after);
    forall m | after < m <= now && Fires(t, m) ensures next <= m {
      assert m - 1 < next ==> t.next(m - 1) == next;
    }
    assert t.next(next - 1) == next;
    if next <= now { FiredAre(t, next, now); }
  }

  lemma {:induction false} FiredAscend(t: Timetable, after: Time, now: Time)
    requires Sound(t)
    ensures Ascending(Fired(t, after, now))
    decreases now - after
  {
    var next := t.next(after);
    if next <= now {
      FiredAscend(t, next, now);
      FiredIn(t, next, now);
      var rest := Fired(t, next, now);
      assert forall j :: 0 <= j < |rest| ==> rest[j] in rest;
    }
  }

  lemma {:induction false} DedupKeeps(t: Timetable, moments: seq<Time>)
    ensures Keys(t, Dedup(t, moments)) == Keys(t, moments)
    ensures forall m :: m in Dedup(t, moments) ==> m in moments
    ensures var d := Dedup(t, moments); forall i, j :: 0 <= i < j < |d| ==> t.key(d[i]) != t.key(d[j])
  {
    if moments != [] {
      var n := |moments| - 1;
      DedupKeeps(t, moments[..n]);
      var front, last := Dedup(t, moments[..n]), moments[n];
      KeysGrow(t, moments[..n], last);
      KeysGrow(t, front, last);
      assert moments[..n] + [last] == moments;
      assert forall i :: 0 <= i < |front| ==> t.key(front[i]) in Keys(t, front);
    }
  }

  lemma KeysGrow(t: Timetable, moments: seq<Time>, last: Time)
    ensures Keys(t, moments + [last]) == Keys(t, moments) + {t.key(last)}
  {
    var all := moments + [last];
    assert all[|moments|] == last;
    forall k | k in Keys(t, moments) ensures k in Keys(t, all) {
      var i :| 0 <= i < |moments| && t.key(moments[i]) == k;
      assert all[i] == moments[i];
    }
  }

  lemma KeysOfMembers(t: Timetable, moments: seq<Time>)
    ensures forall u :: u in moments ==> t.key(u) in Keys(t, moments)
  {
    forall u | u in moments ensures t.key(u) in Keys(t, moments) {
      var i :| 0 <= i < |moments| && moments[i] == u;
      assert t.key(moments[i]) in Keys(t, moments);
    }
  }

  predicate Ascending(moments: seq<Time>) {
    forall i, j :: 0 <= i < j < |moments| ==> moments[i] < moments[j]
  }

  /** No moment with m's key comes before m. */
  predicate Earliest(t: Timetable, moments: seq<Time>, m: Time) {
    forall i :: 0 <= i < |moments| && t.key(moments[i]) == t.key(m) ==> m <= moments[i]
  }

  /** The earliest of the moments sharing a key is the one kept. */
  lemma {:induction false} DedupKeepsFirst(t: Timetable, moments: seq<Time>, m: Time)
    requires Ascending(moments) && m in Dedup(t, moments)
    ensures Earliest(t, moments, m)
  {
    var n := |moments| - 1;
    var front := moments[..n];
    DedupKeeps(t, front);
    if m in Dedup(t, front) {
      DedupKeepsFirst(t, front, m);
      var i :| 0 <= i < |front| && front[i] == m;
      assert moments[i] < moments[n];
      forall j | 0 <= j < |moments| && t.key(moments[j]) == t.key(m) ensures m <= moments[j] {
        if j < n { assert front[j] == moments[j]; }
      }
    } else {
      LastIsNew(t, moments, m);
    }
  }

  lemma LastIsNew(t: Timetable, moments: seq<Time>, m: Time)
    requires moments != [] && m in Dedup(t, moments) && m !in Dedup(t, moments[..|moments| - 1])
    ensures m == moments[|moments| - 1] && Earliest(t, moments, m)
  {
    var front := moments[..|moments| - 1];
    DedupKeeps(t, front);
    KeysOfMembers(t, front);
    forall j | 0 <= j < |front| ensures t.key(moments[j]) != t.key(m) { assert front[j] in front; }
  }

  /** What one scan of a window finds due: exactly one moment, the earliest, for
      every key that some moment it meets has, and nothing else. */
  lemma DueIsOnePerKey(t: Timetable, after: Time, now: Time)
    requires Sound(t)
    ensures var fired, due := Fired(t, after, now), Due(t, after, now);
      (forall m :: m in due ==> after < m <= now && m in fired) &&
      Keys(t, due) == Keys(t, fired) &&
      (forall i, j :: 0 <= i < j < |due| ==> t.key(due[i]) != t.key(due[j])) &&
      (forall m, u :: m in due && u in fired && t.key(u) == t.key(m) ==> m <= u)
  {
    var fired, due := Fired(t, after, now), Due(t, after, now);
    FiredIn(t, after, now);
    FiredAscend(t, after, now);
    DedupKeeps(t, fired);
    forall m, u | m in due && u in fired && t.key(u) == t.key(m) ensures m <= u {
      DedupKeepsFirst(t, fired, m);
      var i :| 0 <= i < |fired| && fired[i] == u;
    }
  }

  // --- Several scans against one ----------------------------------------

  lemma {:induction false} FiredSplits(t: Timetable, after: Time, mid: Time, now: Time)
    requires Sound(t) && Memoryless(t) && after <= mid <= now
    ensures Fired(t, after, now) == Fired(t, after, mid) + Fired(t, mid, now)
    decreases now - after
  {
    var next := t.next(after);
    if next <= mid {
      FiredSplits(t, next, mid, now);
    } else {
      assert t.next(mid) == next;
    }
  }

  lemma KeysOfSum(t: Timetable, a: seq<Time>, b: seq<Time>)
    ensures Keys(t, a + b) == Keys(t, a) + Keys(t, b)
  {
    var all := a + b;
    forall k | k in Keys(t, a) ensures k in Keys(t, all) {
      var i :| 0 <= i < |a| && t.key(a[i]) == k;
      assert all[i] == a[i];
    }
    forall k | k in Keys(t, b) ensures k in Keys(t, all) {
      var i :| 0 <= i < |b| && t.key(b[i]) == k;
      assert all[|a| + i] == b[i];
    }
  }

  /** Two scans that meet at mid find what one scan finds. */
  ghost predicate SplitsAt(t: Timetable, after: Time, mid: Time, now: Time)
    requires Sound(t)
  {
    Keys(t, Fired(t, after, now)) == Keys(t, Fired(t, after, mid)) + Keys(t, Fired(t, mid, now))
  }

  lemma NothingFired(t: Timetable, after: Time, now: Time)
    requires Sound(t)
    ensures now < t.next(after) <==> Keys(t, Fired(t, after, now)) == {}
  {
    if t.next(after) <= now { assert t.key(Fired(t, after, now)[0]) in Keys(t, Fired(t, after, now)); }
  }

  /** If v comes before u's next moment but has another one, the scans of (u, v]
      and of (v, now] differ from that of (u, now]. */
  lemma RememberingSplits(t: Timetable, u: Time, v: Time)
    requires Sound(t) && u <= v < t.next(u) && t.next(v) != t.next(u)
    ensures !SplitsAt(t, u, v, if t.next(u) < t.next(v) then t.next(u) else t.next(v))
  {
    var now := if t.next(u) < t.next(v) then t.next(u) else t.next(v);
    NothingFired(t, u, v);
    NothingFired(t, u, now);
    NothingFired(t, v, now);
  }

  /** A window may be scanned in pieces, wherever they meet, exactly when the
      timetable is memoryless. */
  lemma ScansSplitExactly(t: Timetable)
    requires Sound(t)
    ensures (forall after: Time, mid: Time, now: Time :: after <= mid <= now ==> SplitsAt(t, after, mid, now)) <==>
      Memoryless(t)
  {
    if Memoryless(t) {
      forall after: Time, mid: Time, now: Time | after <= mid <= now ensures SplitsAt(t, after, mid, now) {
        FiredSplits(t, after, mid, now);
        KeysOfSum(t, Fired(t, after, mid), Fired(t, mid, now));
      }
    } else {
      var u: Time, v: Time :| u <= v < t.next(u) && t.next(v) != t.next(u);
      RememberingSplits(t, u, v);
    }
  }

  const Second: nat := 1_000_000_000

  /** An `@every` expression: the next moment is a delay, of a second or more, after
      the last full second. */
  function Every(delay: nat, key: Time -> Token): Timetable {
    Timetable(u => u - u % Second + delay, key)
  }

  lemma EveryAdvances(delay: nat, key: Time -> Token)
    requires delay >= Second && forall m :: key(m) != 0
    ensures Sound(Every(delay, key))
  {
  }

  /** Of the `@every` expressions only that of one second is memoryless. */
  lemma EveryMemorylessExactly(delay: nat, key: Time -> Token)
    requires delay >= Second
    ensures Memoryless(Every(delay, key)) <==> delay == Second
  {
    var t := Every(delay, key);
    if delay == Second {
      forall u: Time, v: Time | u <= v < t.next(u) ensures t.next(v) == t.next(u) { SameSecond(u, v); }
    } else {
      assert t.next(0) == delay && t.next(Second) == Second + delay;
    }
  }

  lemma SameSecond(u: Time, v: Time)
    requires u <= v < u - u % Second + Second
    ensures v - v % Second == u - u % Second
  {
    assert u / Second == v / Second;
  }

  // --- Enumerating the window -------------------------------------------

  /** The loop stands on a moment it has met, or where it started. */
  ghost predicate Met(t: Timetable, after: Time, at: Time)
    requires Sound(t)
    decreases at - after
  {
    after == at || (t.next(after) <= at && Met(t, t.next(after), at))
  }

  lemma {:induction false} MetNext(t: Timetable, after: Time, at: Time)
    requires Sound(t) && after <= at && Met(t, after, at)
    ensures Met(t, after, t.next(at)) && Fired(t, after, t.next(at)) == Fired(t, after, at) + [t.next(at)]
    decreases at - after
  {
    if after == at {
      assert Fired(t, t.next(at), t.next(at)) == [];
    } else {
      MetNext(t, t.next(after), at);
    }
  }

  /** A later window continues an earlier one that began at the same place. */
  lemma {:induction false} FiredFromMet(t: Timetable, after: Time, at: Time, now: Time)
    requires Sound(t) && after <= at <= now && Met(t, after, at)
    ensures Fired(t, after, now) == Fired(t, after, at) + Fired(t, at, now)
    decreases at - after
  {
    if after < at { FiredFromMet(t, t.next(after), at, now); }
  }

  lemma {:induction false} LastMet(t: Timetable, after: Time, now: Time) returns (at: Time)
    requires Sound(t) && after <= now
    ensures after <= at <= now < t.next(at) && Met(t, after, at) && Fired(t, after, at) == Fired(t, after, now)
    decreases now - after
  {
    if t.next(after) <= now {
      at := LastMet(t, t.next(after), now);
    } else {
      at := after;
    }
  }

  lemma DedupGrows(t: Timetable, a: seq<Time>, b: seq<Time>)
    ensures |Dedup(t, a)| <= |Dedup(t, a + b)|
    decreases |b|
  {
    if b == [] {
      assert a + b == a;
    } else {
      DedupGrows(t, a, b[..|b| - 1]);
      assert (a + b)[..|a + b| - 1] == a + b[..|b| - 1];
    }
  }

  /** A window with too many keys has too many for ever: as long as the cursor
      stays where it is, every later evaluation fails the same way. */
  lemma TooManyIsForever(t: Timetable, after: Time, now: Time, later: Time)
    requires Sound(t) && after <= now <= later && |Due(t, after, now)| >= MaxDue
    ensures |Due(t, after, later)| >= MaxDue
  {
    var at := LastMet(t, after, now);
    FiredFromMet(t, after, at, later);
    DedupGrows(t, Fired(t, after, now), Fired(t, at, later));
  }

  /** The enumeration loop; None when the window holds too many occurrences. */
  method Enumerate(t: Timetable, after: Time, now: Time) returns (moments: Option<seq<Time>>)
    requires Sound(t)
    ensures moments == if after > now then Some([])
                       else if |Due(t, after, now)| >= MaxDue then None else Some(Due(t, after, now))
  {
    var kept: seq<Time> := [];
    var seen: set<Token> := {};
    var next := t.next(after);
    ghost var at := after;
    while next <= now
      invariant next == t.next(at) && after <= at && (after <= now ==> at <= now) && (after > now ==> at == after)
      invariant Met(t, after, at)
      invariant kept == Due(t, after, at) && seen == Keys(t, kept) && |kept| < MaxDue
      decreases now - at
    {
      MetNext(t, after, at);
      ghost var fired := Fired(t, after, next);
      assert fired[..|fired| - 1] == Fired(t, after, at);
      if t.key(next) !in seen {
        KeysGrow(t, kept, next);
        kept := kept + [next];
        seen := seen + {t.key(next)};
      }
      at := next;
      if |kept| >= MaxDue {
        TooManyIsForever(t, after, at, now);
        return None;
      }
      next := t.next(next);
    }
    if after <= now {
      FiredFromMet(t, after, at, now);
      assert kept == Due(t, after, at) && Fired(t, after, at) + [] == Fired(t, after, at);
    }
    moments := Some(kept);
  }

  // --- Expressions that never fire --------------------------------------

  /** Where the loop stands after n rounds: the moment it looks at, what it kept. */
  function Rounds(t: Timetable, after: Time, n: nat): (Time, seq<Time>) {
    if n == 0 then (t.next(after), [])
    else
      var (next, kept) := Rounds(t, after, n - 1);
      (t.next(next), if t.key(next) in Keys(t, kept) then kept else kept + [next])
  }

  predicate GoesOn(t: Timetable, after: Time, now: Time, n: nat) {
    Rounds(t, after, n).0 <= now && |Rounds(t, after, n).1| < MaxDue
  }

  lemma {:induction false} RoundsAdvance(t: Timetable, after: Time, n: nat)
    requires Sound(t)
    ensures Rounds(t, after, n).0 > after + n
  {
    if n > 0 { RoundsAdvance(t, after, n - 1); }
  }

  /** The loop ends when there is always a next moment ... */
  lemma SoundEnds(t: Timetable, after: Time, now: Time)
    requires Sound(t)
    ensures exists n :: !GoesOn(t, after, now, n)
  {
    RoundsAdvance(t, after, now);
    assert !GoesOn(t, after, now, now);
  }

  /** ... and not for an expression that never fires: its next moment is the zero
      time, which the loop does not take for an end, so it goes round for ever. */
  lemma {:induction false} NeverFiringNeverEnds(t: Timetable, after: Time, now: Time, n: nat)
    requires forall u :: t.next(u) == 0
    ensures GoesOn(t, after, now, n) && Rounds(t, after, n).0 == 0 && Rounds(t, after, n).1 == if n == 0 then [] else [0]
  {
    if n > 0 {
      NeverFiringNeverEnds(t, after, now, n - 1);
      assert n > 1 ==> t.key([0][0]) in Keys(t, [0]);
    }
  }

  // --- Every kind of schedule -------------------------------------------

  ghost predicate Lawful(k: Kind) {
    (k.CronKind? ==> Sound(k.table)) && (k.OnceKind? ==> k.onceKey != 0)
  }

  type LawfulKind = k: Kind | Lawful(k) witness EventKind

  /** The schedule has an occurrence at m. */
  predicate Moment(k: Kind, m: Time) {
    match k
    case CronKind(t) => Fires(t, m)
    case OnceKind(at, _) => m == at
    case EventKind => false
  }

  /** occurrenceKey. */
  function KeyAt(k: Kind, m: Time): Token {
    match k
    case CronKind(t) => t.key(m)
    case OnceKind(_, key) => key
    case EventKind => 0
  }

  function KeysOf(k: Kind, moments: seq<Time>): set<Token> {
    set i | 0 <= i < |moments| :: KeyAt(k, moments[i])
  }

  /** The moments a poll finds due; None when there are too many. */
  ghost function DueMoments(k: Kind, after: Time, now: Time): Option<seq<Time>>
    requires Lawful(k)
  {
    match k
    case CronKind(t) =>
      if after > now then Some([]) else if |Due(t, after, now)| >= MaxDue then None else Some(Due(t, after, now))
    case OnceKind(at, _) => Some(if after < at <= now then [at] else [])
    case EventKind => Some([])
  }

  /** The keys one scan of (after, now] finds. */
  ghost function Found(k: Kind, after: Time, now: Time): set<Token>
    requires Lawful(k)
  {
    match k
    case CronKind(t) => Keys(t, Fired(t, after, now))
    case OnceKind(at, key) => if after < at <= now then {key} else {}
    case EventKind => {}
  }

  /** The schedule's next moment does not depend on where one asks from. */
  ghost predicate Steadfast(k: Kind) {
    k.CronKind? ==> Memoryless(k.table)
  }

  /** Some moment in (from, until] has this key. */
  ghost predicate InWindow(k: Kind, from: Time, until: Time, key: Token) {
    exists m :: from < m <= until && Moment(k, m) && KeyAt(k, m) == key
  }

  /** A scan of a steadfast schedule finds the keys of all moments in its window. */
  lemma FoundIsWindow(k: Kind, after: Time, now: Time, key: Token)
    requires Lawful(k) && Steadfast(k)
    ensures key in Found(k, after, now) <==> InWindow(k, after, now, key)
  {
    match k
    case CronKind(t) =>
      var fired := Fired(t, after, now);
      FiredAre(t, after, now);
      if key in Keys(t, fired) {
        var i :| 0 <= i < |fired| && t.key(fired[i]) == key;
        assert fired[i] in fired && Moment(k, fired[i]);
      }
      if InWindow(k, after, now, key) {
        var m :| after < m <= now && Moment(k, m) && KeyAt(k, m) == key;
        var i :| 0 <= i < |fired| && fired[i] == m;
        assert t.key(fired[i]) in Keys(t, fired);
      }
    case OnceKind(at, _) => if after < at <= now { assert Moment(k, at) && KeyAt(k, at) == k.onceKey; }
    case EventKind =>
  }

  lemma FoundSplits(k: Kind, after: Time, mid: Time, now: Time)
    requires Lawful(k) && Steadfast(k) && after <= mid <= now
    ensures Found(k, after, now) == Found(k, after, mid) + Found(k, mid, now)
  {
    if k.CronKind? {
      ScansSplitExactly(k.table);
      assert SplitsAt(k.table, after, mid, now);
    }
  }

  lemma FoundNotBackwards(k: Kind, after: Time, now: Time)
    requires Lawful(k) && now <= after
    ensures Found(k, after, now) == {}
  {
  }

  /** What a scan finds are keys of moments in its window. */
  lemma FoundAreKeys(k: Kind, after: Time, now: Time, key: Token)
    requires Lawful(k) && key in Found(k, after, now)
    ensures exists m :: after < m <= now && KeyAt(k, m) == key
  {
    match k
    case CronKind(t) =>
      var fired := Fired(t, after, now);
      FiredIn(t, after, now);
      var i :| 0 <= i < |fired| && t.key(fired[i]) == key;
      assert fired[i] in fired && KeyAt(k, fired[i]) == key;
    case OnceKind(at, _) => assert KeyAt(k, at) == key;
  }

  lemma CronDueAre(t: Timetable, after: Time, now: Time)
    requires Sound(t)
    ensures var k, due := CronKind(t), Due(t, after, now);
      (forall i :: 0 <= i < |due| ==> after < due[i] <= now && KeyAt(k, due[i]) != 0) &&
      KeysOf(k, due) == Found(k, after, now) &&
      (forall i, j :: 0 <= i < j < |due| ==> KeyAt(k, due[i]) != KeyAt(k, due[j]))
  {
    var k, due := CronKind(t), Due(t, after, now);
    DueIsOnePerKey(t, after, now);
    assert KeysOf(k, due) == Keys(t, due);
    forall i | 0 <= i < |due| ensures after < due[i] <= now { assert due[i] in due; }
  }

  lemma OnceDueAre(k: Kind, after: Time, now: Time)
    requires Lawful(k) && k.OnceKind?
    ensures KeysOf(k, DueMoments(k, after, now).value) == Found(k, after, now)
  {
    var due := DueMoments(k, after, now).value;
    if after < k.at <= now { assert due[0] == k.at && KeyAt(k, due[0]) in KeysOf(k, due); }
  }

  /** A poll finds due exactly the keys a scan of its window finds, each once. */
  lemma DueMomentsAre(k: Kind, after: Time, now: Time)
    requires Lawful(k) && DueMoments(k, after, now).Some?
    ensures var due := DueMoments(k, after, now).value;
      (forall i :: 0 <= i < |due| ==> after < due[i] <= now && KeyAt(k, due[i]) != 0) &&
      KeysOf(k, due) == Found(k, after, now) &&
      (forall i, j :: 0 <= i < j < |due| ==> KeyAt(k, due[i]) != KeyAt(k, due[j]))
  {
    match k
    case CronKind(t) => if after <= now { CronDueAre(t, after, now); } else { FoundNotBackwards(k, after, now); }
    case OnceKind(_, _) => OnceDueAre(k, after, now);
    case EventKind =>
  }

  function TriggerOf(k: Kind): Trigger {
    if k.OnceKind? then Once else Cron
  }

  function Plan(k: Kind, moments: seq<Time>, grace: nat, now: Time): (due: seq<Planned>)
    requires forall i :: 0 <= i < |moments| ==> moments[i] <= now
    ensures |due| == |moments|
  {
    seq(|moments|, i requires 0 <= i < |moments| => Lateness(KeyAt(k, moments[i]), moments[i], TriggerOf(k), grace, now))
  }

  /** What Between finds due; None when it fails. */
  ghost function Occurrences(k: Kind, grace: nat, after: Time, now: Time): Option<seq<Planned>>
    requires Lawful(k)
  {
    if DueMoments(k, after, now).None? then None
    else
      DueMomentsAre(k, after, now);
      Some(Plan(k, DueMoments(k, after, now).value, grace, now))
  }

  /** What is planned for each due moment: on time within a minute, caught up within
      the grace, and missed exactly when beyond both. */
  lemma OccurrencesExactly(k: Kind, grace: nat, after: Time, now: Time, i: nat)
    requires Lawful(k) && DueMoments(k, after, now).Some? && i < |DueMoments(k, after, now).value|
    ensures var due, m := Occurrences(k, grace, after, now).value, DueMoments(k, after, now).value[i];
      |due| == |DueMoments(k, after, now).value| && due[i].key == KeyAt(k, m) && due[i].at == m <= now &&
      (due[i].missed <==> now - m > 60 * Second && now - m > grace) &&
      (due[i].trigger == CatchUp <==> now - m > 60 * Second && now - m <= grace) &&
      (due[i].trigger != CatchUp ==> due[i].trigger == if k.OnceKind? then Once else Cron)
  {
    DueMomentsAre(k, after, now);
  }

  method Between(k: Kind, grace: nat, after: Time, now: Time) returns (due: Option<seq<Planned>>)
    requires Lawful(k)
    ensures due == Occurrences(k, grace, after, now)
  {
    var moments: Option<seq<Time>> := Some([]);
    match k {
      case EventKind => return Some([]);
      case OnceKind(at, _) => if at > after && at <= now { moments := Some([at]); }
      case CronKind(t) => moments := Enumerate(t, after, now);
    }
    if moments.None? { return None; }
    DueMomentsAre(k, after, now);
    var out: seq<Planned> := [];
    for i := 0 to |moments.value|
      invariant |out| == i
      invariant forall j :: 0 <= j < i ==>
        out[j] == Lateness(KeyAt(k, moments.value[j]), moments.value[j], TriggerOf(k), grace, now)
    {
      var moment := moments.value[i];
      out := out + [Lateness(KeyAt(k, moment), moment, TriggerOf(k), grace, now)];
    }
    assert out == Plan(k, moments.value, grace, now);
    due := Some(out);
  }
}
