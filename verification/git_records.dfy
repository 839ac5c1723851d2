/** Git's NUL-delimited output, and the parser that reads it back. */
module GitRecords {
  import opened Options
  import opened Text
  import opened WriteScope

  const Nul: char := '\0'

  /** One --name-status record: a rename or copy carries two paths. */
  datatype Record = Changed(status: string, path: string) | Moved(status: string, from: string, to: string)

  predicate TwoPaths(status: string)
    requires status != ""
  {
    status[0] == 'R' || status[0] == 'C'
  }

  /** A record as git writes it, with paths validateRepositoryPath accepts. */
  predicate WellFormed(r: Record) {
    r.status != "" && Nul !in r.status && (r.status[0] == 'R' || r.status[0] == 'C' <==> r.Moved?) &&
    match r
    case Changed(_, path) => RepositoryPath(path)
    case Moved(_, from, to) => RepositoryPath(from) && RepositoryPath(to)
  }

  predicate AllWellFormed(records: seq<Record>) {
    forall i :: 0 <= i < |records| ==> WellFormed(records[i])
  }

  function FieldsOf(r: Record): seq<string> {
    match r
    case Changed(status, path) => [status, path]
    case Moved(status, from, to) => [status, from, to]
  }

  function PathsOf(r: Record): seq<string> {
    match r
    case Changed(_, path) => [path]
    case Moved(_, from, to) => [from, to]
  }

  function AllFields(records: seq<Record>): seq<string> {
    if records == [] then [] else FieldsOf(records[0]) + AllFields(records[1..])
  }

  /** The paths of all records in order, both sides of every rename included. */
  function AllPaths(records: seq<Record>): seq<string> {
    if records == [] then [] else PathsOf(records[0]) + AllPaths(records[1..])
  }

  /** Fields, each terminated by NUL. */
  function Terminated(fields: seq<string>): string {
    if fields == [] then "" else fields[0] + [Nul] + Terminated(fields[1..])
  }

  function Encode(records: seq<Record>): string {
    Terminated(AllFields(records))
  }

  // --- Fields -----------------------------------------------------------

  /** splitNULFields. */
  function SplitFields(output: string): Option<seq<string>> {
    if output == "" then Some([])
    else if output[|output| - 1] != Nul then None
    else Some(Split(output[..|output| - 1], Nul))
  }

  lemma {:induction false} TerminatedIsJoined(fields: seq<string>)
    requires fields != []
    ensures Terminated(fields) == Join(fields, Nul) + [Nul]
  {
    if |fields| > 1 { TerminatedIsJoined(fields[1..]); } else { assert fields[1..] == []; }
  }

  /** Splitting inverts termination, both ways. */
  lemma FieldsRoundTrip(fields: seq<string>)
    requires Without(fields, Nul)
    ensures SplitFields(Terminated(fields)) == Some(fields)
  {
    if fields != [] {
      TerminatedIsJoined(fields);
      SplitJoin(fields, Nul);
      assert Terminated(fields)[..|Terminated(fields)| - 1] == Join(fields, Nul);
    }
  }

  lemma OutputRoundTrip(output: string)
    requires SplitFields(output).Some?
    ensures Without(SplitFields(output).value, Nul) && Terminated(SplitFields(output).value) == output
  {
    if output != "" {
      var body := output[..|output| - 1];
      SplitWithout(body, Nul);
      JoinSplit(body, Nul);
      TerminatedIsJoined(Split(body, Nul));
    }
  }

  // --- Records ----------------------------------------------------------

  predicate ValidPaths(paths: seq<string>) {
    forall i :: 0 <= i < |paths| ==> RepositoryPath(paths[i])
  }

  function PathCount(status: string): nat
    requires status != ""
  {
    if TwoPaths(status) then 2 else 1
  }

  /** The fields start with a whole record. */
  predicate StartsRecord(fields: seq<string>) {
    fields != [] && fields[0] != "" && 1 + PathCount(fields[0]) <= |fields| && ValidPaths(fields[1..1 + PathCount(fields[0])])
  }

  function FirstRecord(fields: seq<string>): Record
    requires StartsRecord(fields)
  {
    if TwoPaths(fields[0]) then Moved(fields[0], fields[1], fields[2]) else Changed(fields[0], fields[1])
  }

  /** What reading the fields as records yields: the records, or nothing. */
  function Records(fields: seq<string>): Option<seq<Record>>
    decreases |fields|
  {
    if fields == [] then Some([])
    else if !StartsRecord(fields) then None
    else
      var rest := Records(fields[1 + PathCount(fields[0])..]);
      if rest.None? then None else Some([FirstRecord(fields)] + rest.value)
  }

  lemma FirstRecordIs(fields: seq<string>)
    requires StartsRecord(fields)
    ensures var n := 1 + PathCount(fields[0]);
      fields == FieldsOf(FirstRecord(fields)) + fields[n..] && PathsOf(FirstRecord(fields)) == fields[1..n] &&
      (Nul !in fields[0] ==> WellFormed(FirstRecord(fields)))
  {
    var n := 1 + PathCount(fields[0]);
    assert fields[1..n][0] == fields[1];
    if n == 3 { assert fields[1..n][1] == fields[2]; }
  }

  lemma WellFormedStarts(r: Record, more: seq<string>)
    requires WellFormed(r)
    ensures var fields := FieldsOf(r) + more;
      StartsRecord(fields) && FirstRecord(fields) == r && fields[1 + PathCount(fields[0])..] == more && Without(FieldsOf(r), Nul)
  {
    var fields := FieldsOf(r) + more;
    assert fields[1..1 + PathCount(fields[0])] == PathsOf(r);
  }

  lemma {:induction false} RecordsOfFields(records: seq<Record>)
    requires AllWellFormed(records)
    ensures Records(AllFields(records)) == Some(records) && Without(AllFields(records), Nul)
    decreases |records|
  {
    if records != [] {
      var rest := records[1..];
      RecordsOfFields(rest);
      WellFormedStarts(records[0], AllFields(rest));
      assert [records[0]] + rest == records;
    }
  }

  lemma {:induction false} FieldsOfRecords(fields: seq<string>)
    requires Without(fields, Nul) && Records(fields).Some?
    ensures AllWellFormed(Records(fields).value) && AllFields(Records(fields).value) == fields
    decreases |fields|
  {
    if fields != [] {
      var rest, records := fields[1 + PathCount(fields[0])..], Records(fields).value;
      FieldsOfRecords(rest);
      FirstRecordIs(fields);
      assert records[1..] == Records(rest).value;
    }
  }

  method ValidatePaths(paths: seq<string>) returns (ok: bool)
    ensures ok == ValidPaths(paths)
  {
    for i := 0 to |paths|
      invariant ValidPaths(paths[..i])
    {
      if !RepositoryPath(paths[i]) { return false; }
      assert paths[..i + 1] == paths[..i] + [paths[i]];
    }
    assert paths[..|paths|] == paths;
    ok := true;
  }

  /** Every path the records in the fields name, in order. */
  function PathsIn(fields: seq<string>): Option<seq<string>> {
    var records := Records(fields);
    if records.None? then None else Some(AllPaths(records.value))
  }

  function Prepended(out: seq<string>, more: Option<seq<string>>): Option<seq<string>> {
    if more.None? then None else Some(out + more.value)
  }

  lemma PathsStep(fields: seq<string>, out: seq<string>)
    requires StartsRecord(fields)
    ensures var n := 1 + PathCount(fields[0]);
      Prepended(out, PathsIn(fields)) == Prepended(out + fields[1..n], PathsIn(fields[n..]))
  {
    var n := 1 + PathCount(fields[0]);
    FirstRecordIs(fields);
    if Records(fields[n..]).Some? {
      assert Records(fields).value[1..] == Records(fields[n..]).value;
      assert out + (fields[1..n] + PathsIn(fields[n..]).value) == out + fields[1..n] + PathsIn(fields[n..]).value;
    }
  }

  lemma NothingPrepended(fields: seq<string>)
    ensures Prepended([], PathsIn(fields)) == PathsIn(fields)
    ensures Prepended(fields, PathsIn([])) == Some(fields)
  {
    assert Records([]) == Some([]) && PathsIn([]) == Some([]) && fields + [] == fields;
    if PathsIn(fields).Some? { assert [] + PathsIn(fields).value == PathsIn(fields).value; }
  }

  /** parseNameStatusPaths' loop over the fields. */
  method ParseFields(fields: seq<string>) returns (paths: Option<seq<string>>)
    ensures paths == PathsIn(fields)
  {
    var out: seq<string> := [];
    var i := 0;
    assert fields[0..] == fields;
    NothingPrepended(fields);
    while i < |fields|
      invariant i <= |fields| && PathsIn(fields) == Prepended(out, PathsIn(fields[i..]))
    {
      ghost var left := fields[i..];
      var status := fields[i];
      if status == "" { return None; }
      var n := 1 + if status[0] == 'R' || status[0] == 'C' then 2 else 1;
      if i + n > |fields| { return None; }
      assert left[1..n] == fields[i + 1..i + n];
      var ok := ValidatePaths(fields[i + 1..i + n]);
      if !ok { return None; }
      PathsStep(left, out);
      assert left[n..] == fields[i + n..];
      out := out + fields[i + 1..i + n];
      i := i + n;
    }
    NothingPrepended(out);
    assert fields[i..] == [];
    paths := Some(out);
  }

  method ParseNameStatus(output: string) returns (paths: Option<seq<string>>)
    ensures paths == Parsed(output)
  {
    var fields := SplitFields(output);
    if fields.None? { return None; }
    paths := ParseFields(fields.value);
  }

  function Parsed(output: string): Option<seq<string>> {
    var fields := SplitFields(output);
    if fields.None? then None else PathsIn(fields.value)
  }

  /** The parser inverts the encoding of every well-formed record list: it
      returns every path, both sides of renames included, in order. */
  lemma ParsesEveryEncoding(records: seq<Record>)
    requires AllWellFormed(records)
    ensures Parsed(Encode(records)) == Some(AllPaths(records))
  {
    RecordsOfFields(records);
    FieldsRoundTrip(AllFields(records));
  }

  /** And it accepts nothing else: whatever it accepts is the encoding of some
      well-formed records, whose paths it returns. */
  lemma AcceptsOnlyEncodings(output: string) returns (records: seq<Record>)
    requires Parsed(output).Some?
    ensures AllWellFormed(records) && Encode(records) == output && Parsed(output) == Some(AllPaths(records))
  {
    OutputRoundTrip(output);
    var fields := SplitFields(output).value;
    FieldsOfRecords(fields);
    records := Records(fields).value;
  }

  /** So no two well-formed record lists are written alike. */
  lemma EncodingIsInjective(a: seq<Record>, b: seq<Record>)
    requires AllWellFormed(a) && AllWellFormed(b) && Encode(a) == Encode(b)
    ensures a == b
  {
    RecordsOfFields(a);
    RecordsOfFields(b);
    FieldsRoundTrip(AllFields(a));
    FieldsRoundTrip(AllFields(b));
  }
}
