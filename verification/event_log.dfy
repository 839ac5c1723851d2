/** A run's event log, and what it means for it to replay to the row's state. */
module EventLog {
  import opened Rows
  import opened RowWrites

  /** Replaying the log from nothing ends in state s. */
  predicate Replays(log: seq<Entry>, s: State)
    decreases |log|
  {
    log != [] &&
    var last := log[|log| - 1];
    last.to == s &&
    if |log| == 1 then last.from.New? && last.to.Accepted?
    else last.from.Was? && Replays(log[..|log| - 1], last.from.state)
  }

  function CountCode(log: seq<Entry>, code: Code): nat {
    if log == [] then 0
    else CountCode(log[..|log| - 1], code) + if log[|log| - 1].code == code then 1 else 0
  }

  function Bears(log: seq<Entry>, code: Code): nat {
    if log != [] && log[0].code == code then 1 else 0
  }

  lemma {:induction false} Appended(log: seq<Entry>, add: seq<Entry>, s: State, t: State)
    requires Replays(log, s)
    requires (add == [] && t == s) || (|add| == 1 && add[0].from == Was(s) && add[0].to == t)
    ensures Replays(log + add, t)
    ensures forall c :: CountCode(log + add, c) == CountCode(log, c) + Bears(add, c)
  {
    if add == [] {
      assert log + add == log;
    } else {
      assert (log + add)[..|log|] == log;
    }
  }

  /** A log is a history ending in s: it starts from nothing into accepted, each
      entry starts where the one before it ended, and the last one ends in s. */
  predicate Chained(log: seq<Entry>, s: State) {
    log != [] && log[0].from.New? && log[0].to.Accepted? && log[|log| - 1].to == s &&
    forall k :: 0 < k < |log| ==> log[k].from == Was(log[k - 1].to)
  }

  lemma {:induction false} ReplaysIsChained(log: seq<Entry>, s: State)
    ensures Replays(log, s) <==> Chained(log, s)
    decreases |log|
  {
    if |log| > 1 {
      var front, last := log[..|log| - 1], log[|log| - 1];
      if last.from.Was? { ReplaysIsChained(front, last.from.state); }
      if Replays(log, s) {
        forall k | 0 < k < |log| ensures log[k].from == Was(log[k - 1].to) {
          if k < |front| { assert front[k].from == Was(front[k - 1].to); }
        }
      }
      if Chained(log, s) {
        assert last.from == Was(front[|front| - 1].to);
        assert forall k :: 0 < k < |front| ==> front[k].from == Was(front[k - 1].to);
      }
    }
  }
}
