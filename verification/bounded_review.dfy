/** The boundary proof of a scoped run: two complete observations of its worktree
    that agree, each inside the declared scope. Git's output and the content
    fingerprints are inputs; path lists are sets, since both passes sort them. */
module BoundedReview {
  import opened Options
  import opened Text
  import opened WriteScope
  import opened GitRecords

  /** What git printed in one pass: the diff against HEAD, the untracked files
      and the ignored ones. */
  datatype Listing = Listing(diff: string, others: string, ignored: string)

  datatype Changes = Changes(changed: set<string>, untracked: set<string>)

  type Fingerprints = map<string, nat>

  datatype Pass = Pass(listing: Listing, states: Option<Fingerprints>)

  datatype Outcome = NoBoundary | Broken | Intact | Receipt(paths: set<string>, states: Fingerprints)

  function Members(s: seq<string>): set<string> {
    set i | 0 <= i < |s| :: s[i]
  }

  /** The paths of a listing of plain fields. */
  function PlainPaths(output: string): Option<seq<string>> {
    var fields := SplitFields(output);
    if fields.None? || !ValidPaths(fields.value) then None else fields
  }

  /** boundedRepositoryChanges, on output git did produce. */
  function RepositoryChanges(l: Listing): Option<Changes> {
    var tracked, others, ignored := Parsed(l.diff), PlainPaths(l.others), PlainPaths(l.ignored);
    if tracked.None? || others.None? || ignored.None? then None
    else
      var untracked := Members(others.value) + Members(ignored.value);
      Some(Changes(Members(tracked.value) + untracked, untracked))
  }

  lemma MembersGrow(s: seq<string>, x: string)
    ensures Members(s + [x]) == Members(s) + {x}
  {
    var all := s + [x];
    assert all[|s|] == x;
    forall y | y in Members(s) ensures y in Members(all) {
      var i :| 0 <= i < |s| && s[i] == y;
      assert all[i] == y;
    }
  }

  /** Validating one listing's fields, and adding those not seen before. */
  method AddUntracked(fields: seq<string>, before: seq<string>) returns (after: Option<seq<string>>)
    requires forall i, j :: 0 <= i < j < |before| ==> before[i] != before[j]
    ensures after.Some? <==> ValidPaths(fields)
    ensures after.Some? ==> Members(after.value) == Members(before) + Members(fields)
    ensures after.Some? ==> forall i, j :: 0 <= i < j < |after.value| ==> after.value[i] != after.value[j]
  {
    var untracked, seen := before, Members(before);
    for i := 0 to |fields|
      invariant ValidPaths(fields[..i])
      invariant seen == Members(untracked) == Members(before) + Members(fields[..i])
      invariant forall j, k :: 0 <= j < k < |untracked| ==> untracked[j] != untracked[k]
    {
      var path := fields[i];
      if !RepositoryPath(path) { return None; }
      assert fields[..i + 1] == fields[..i] + [path];
      MembersGrow(fields[..i], path);
      if path in seen { continue; }
      MembersGrow(untracked, path);
      untracked, seen := untracked + [path], seen + {path};
    }
    assert fields[..|fields|] == fields;
    after := Some(untracked);
  }

  /** boundedRepositoryChanges; the untracked list never repeats a path. */
  method ListChanges(l: Listing) returns (changes: Option<Changes>)
    ensures changes == RepositoryChanges(l)
  {
    var tracked := ParseNameStatus(l.diff);
    if tracked.None? { return None; }
    var fields := SplitFields(l.others);
    if fields.None? { return None; }
    var ignored := SplitFields(l.ignored);
    if ignored.None? { return None; }
    var some := AddUntracked(fields.value, []);
    if some.None? { return None; }
    var all := AddUntracked(ignored.value, some.value);
    if all.None? { return None; }
    assert Members([]) + Members(fields.value) == Members(fields.value);
    changes := Some(Changes(Members(tracked.value) + Members(all.value), Members(all.value)));
  }

  /** boundedEnumerateChanges: staged inputs are set aside, and nothing else may
      sit untracked under their directory. */
  function Enumerate(l: Listing, staged: set<string>): Option<Changes> {
    var changes := RepositoryChanges(l);
    if changes.None? || (exists path :: path in changes.value.untracked - staged && Within(path, InputsDir)) then None
    else Some(changes.value.(changed := changes.value.changed - staged))
  }

  predicate InScope(paths: set<string>, entries: seq<string>) {
    forall path :: path in paths ==> Allowed(path, entries)
  }

  /** verifyBoundedReview, once the staged inputs are proven; `staged` is empty
      for a run without an input receipt. */
  function Verify(hasReceipt: bool, entries: seq<string>, staged: set<string>, first: Pass, second: Pass): Outcome {
    if !hasReceipt && entries == [] then NoBoundary
    else
      var one := Enumerate(first.listing, staged);
      if one.None? then Broken
      else if entries == [] then Intact
      else if !InScope(one.value.changed, entries) || first.states.None? then Broken
      else
        var two := Enumerate(second.listing, staged);
        if two.None? || !InScope(two.value.changed, entries) then Broken
        else if one.value != two.value || second.states.None? || first.states != second.states then Broken
        else Receipt(two.value.changed, second.states.value)
  }

  /** Somewhere in what git printed, the path is named: on either side of a
      record, or as an untracked or ignored file. */
  ghost predicate Names(l: Listing, path: string) {
    (exists records :: AllWellFormed(records) && Encode(records) == l.diff && path in AllPaths(records)) ||
    (exists fields :: Terminated(fields) == l.others && Without(fields, Nul) && path in fields) ||
    (exists fields :: Terminated(fields) == l.ignored && Without(fields, Nul) && path in fields)
  }

  lemma MembersAre(s: seq<string>)
    ensures forall x :: x in s <==> x in Members(s)
  {
    forall x | x in s ensures x in Members(s) {
      var i :| 0 <= i < |s| && s[i] == x;
    }
  }

  /** Every path git's output names is among the changes read from it. */
  lemma NamedIsChanged(l: Listing, path: string)
    requires RepositoryChanges(l).Some? && Names(l, path)
    ensures path in RepositoryChanges(l).value.changed
  {
    MembersAre(Parsed(l.diff).value);
    MembersAre(PlainPaths(l.others).value);
    MembersAre(PlainPaths(l.ignored).value);
    if records :| AllWellFormed(records) && Encode(records) == l.diff && path in AllPaths(records) {
      ParsesEveryEncoding(records);
    } else if fields :| Terminated(fields) == l.others && Without(fields, Nul) && path in fields {
      FieldsRoundTrip(fields);
    } else if fields :| Terminated(fields) == l.ignored && Without(fields, Nul) && path in fields {
      FieldsRoundTrip(fields);
    }
  }

  /** Git's listing of plain fields names the path. */
  ghost predicate Lists(output: string, path: string) {
    exists fields :: Terminated(fields) == output && Without(fields, Nul) && path in fields
  }

  /** The output is a list of NUL-terminated repository paths. */
  ghost predicate IsListing(output: string) {
    exists fields :: Terminated(fields) == output && Without(fields, Nul) && ValidPaths(fields)
  }

  ghost predicate IsDiff(output: string) {
    exists records :: AllWellFormed(records) && Encode(records) == output
  }

  lemma PlainPathsExactly(output: string)
    ensures PlainPaths(output).Some? <==> IsListing(output)
    ensures PlainPaths(output).Some? ==> forall path :: path in Members(PlainPaths(output).value) <==> Lists(output, path)
  {
    if fields :| Terminated(fields) == output && Without(fields, Nul) && ValidPaths(fields) { FieldsRoundTrip(fields); }
    if PlainPaths(output).Some? {
      OutputRoundTrip(output);
      var fields := PlainPaths(output).value;
      MembersAre(fields);
      forall path ensures path in Members(fields) <==> Lists(output, path) {
        if other :| Terminated(other) == output && Without(other, Nul) && path in other { FieldsRoundTrip(other); }
      }
    }
  }

  lemma ParsedExactly(output: string)
    ensures Parsed(output).Some? <==> IsDiff(output)
    ensures Parsed(output).Some? ==> forall path :: path in Members(Parsed(output).value) <==> InRecords(output, path)
  {
    if records :| AllWellFormed(records) && Encode(records) == output { ParsesEveryEncoding(records); }
    if Parsed(output).Some? {
      var records := AcceptsOnlyEncodings(output);
      MembersAre(Parsed(output).value);
      forall path ensures path in Members(Parsed(output).value) <==> InRecords(output, path) {
        if other :| AllWellFormed(other) && Encode(other) == output && path in AllPaths(other) { ParsesEveryEncoding(other); }
      }
    }
  }

  /** Some record of the diff has the path on either side. */
  ghost predicate InRecords(output: string, path: string) {
    exists records :: AllWellFormed(records) && Encode(records) == output && path in AllPaths(records)
  }

  /** All three outputs are what git writes, and name repository paths only. */
  ghost predicate Legible(l: Listing) {
    IsDiff(l.diff) && IsListing(l.others) && IsListing(l.ignored)
  }

  /** The changes are exactly what git's outputs name, the untracked ones exactly what
      the last two name; and they are read exactly when all three are legible. */
  lemma ChangesExactly(l: Listing)
    ensures RepositoryChanges(l).Some? <==> Legible(l)
    ensures RepositoryChanges(l).Some? ==> forall path ::
      (path in RepositoryChanges(l).value.changed <==> Names(l, path)) &&
      (path in RepositoryChanges(l).value.untracked <==> Lists(l.others, path) || Lists(l.ignored, path))
  {
    ParsedExactly(l.diff);
    PlainPathsExactly(l.others);
    PlainPathsExactly(l.ignored);
    if RepositoryChanges(l).Some? {
      forall path ensures path in RepositoryChanges(l).value.changed <==> Names(l, path) {
        assert Names(l, path) <==> InRecords(l.diff, path) || Lists(l.others, path) || Lists(l.ignored, path);
      }
    }
  }

  // --- The verdict ------------------------------------------------------

  /** Something untracked that was not staged sits in the staged-inputs directory. */
  ghost predicate Planted(l: Listing, staged: set<string>) {
    exists path :: (Lists(l.others, path) || Lists(l.ignored, path)) && path !in staged && Within(path, InputsDir)
  }

  /** Everything named, but for the staged inputs, is granted. */
  ghost predicate StaysInside(l: Listing, staged: set<string>, entries: seq<string>) {
    forall path :: Names(l, path) && path !in staged ==> Allowed(path, entries)
  }

  /** Both passes name the same files beside the staged ones, and the same untracked. */
  ghost predicate SameFiles(a: Listing, b: Listing, staged: set<string>) {
    forall path ::
      (path !in staged ==> (Names(a, path) <==> Names(b, path))) &&
      (Lists(a.others, path) || Lists(a.ignored, path) <==> Lists(b.others, path) || Lists(b.ignored, path))
  }

  ghost predicate Sound(l: Listing, staged: set<string>) {
    Legible(l) && !Planted(l, staged)
  }

  lemma EnumeratesExactly(l: Listing, staged: set<string>)
    ensures Enumerate(l, staged).Some? <==> Sound(l, staged)
    ensures Enumerate(l, staged).Some? ==> forall path ::
      (path in Enumerate(l, staged).value.changed <==> Names(l, path) && path !in staged) &&
      (path in Enumerate(l, staged).value.untracked <==> Lists(l.others, path) || Lists(l.ignored, path))
  {
    ChangesExactly(l);
    if RepositoryChanges(l).Some? {
      var untracked := RepositoryChanges(l).value.untracked;
      if path :| path in untracked - staged && Within(path, InputsDir) { assert Planted(l, staged); }
      if Planted(l, staged) {
        var path :| (Lists(l.others, path) || Lists(l.ignored, path)) && path !in staged && Within(path, InputsDir);
        assert path in untracked - staged;
      }
    }
  }

  /** The boundary verdict, exactly: none to prove without inputs and scope; intact with
      inputs alone when nothing was planted among them; and a receipt, of the second
      pass, when both passes are sound, stay inside the scope, name the same files and
      saw the same content. In every other case the boundary is broken. */
  lemma VerdictExactly(hasReceipt: bool, entries: seq<string>, staged: set<string>, first: Pass, second: Pass)
    ensures var v := Verify(hasReceipt, entries, staged, first, second);
      (v.NoBoundary? <==> !hasReceipt && entries == []) &&
      (v.Intact? <==> hasReceipt && entries == [] && Sound(first.listing, staged)) &&
      (v.Receipt? <==>
        entries != [] && Sound(first.listing, staged) && Sound(second.listing, staged) &&
        StaysInside(first.listing, staged, entries) && StaysInside(second.listing, staged, entries) &&
        SameFiles(first.listing, second.listing, staged) && first.states.Some? && second.states == first.states) &&
      (v.Receipt? ==>
        v.states == second.states.value && forall path :: path in v.paths <==> Names(second.listing, path) && path !in staged)
  {
    EnumeratesExactly(first.listing, staged);
    EnumeratesExactly(second.listing, staged);
    if Sound(first.listing, staged) { InsideExactly(first.listing, staged, entries); }
    if Sound(second.listing, staged) { InsideExactly(second.listing, staged, entries); }
    if Sound(first.listing, staged) && Sound(second.listing, staged) { SameExactly(first.listing, second.listing, staged); }
  }

  lemma InsideExactly(l: Listing, staged: set<string>, entries: seq<string>)
    requires Enumerate(l, staged).Some?
    ensures InScope(Enumerate(l, staged).value.changed, entries) <==> StaysInside(l, staged, entries)
  {
    EnumeratesExactly(l, staged);
  }

  lemma SameExactly(a: Listing, b: Listing, staged: set<string>)
    requires Enumerate(a, staged).Some? && Enumerate(b, staged).Some?
    ensures Enumerate(a, staged) == Enumerate(b, staged) <==> SameFiles(a, b, staged)
  {
    EnumeratesExactly(a, staged);
    EnumeratesExactly(b, staged);
    var one, two := Enumerate(a, staged).value, Enumerate(b, staged).value;
    if SameFiles(a, b, staged) {
      assert one.changed == two.changed && one.untracked == two.untracked;
    }
    if one == two {
      forall path ensures path !in staged ==> (Names(a, path) <==> Names(b, path)) {
        assert path in one.changed <==> path in two.changed;
      }
    }
  }

  /** A change receipt is a real boundary proof: under a scope configuration
      accepts, every path either pass's git output names, both sides of renames
      included, is a staged input or is granted by the scope and lies outside
      .git and the staged-inputs directory; both passes saw the same paths with
      the same content, and that is what the receipt records. */
  lemma ReceiptsProveTheBoundary(hasReceipt: bool, repoWrite: bool, entries: seq<string>, staged: set<string>,
                                 first: Pass, second: Pass, path: string)
    requires ScopeAccepted(repoWrite, entries) && Verify(hasReceipt, entries, staged, first, second).Receipt?
    ensures var receipt := Verify(hasReceipt, entries, staged, first, second);
      receipt.states == first.states.value == second.states.value &&
      receipt.paths == Enumerate(first.listing, staged).value.changed == Enumerate(second.listing, staged).value.changed
    ensures Names(first.listing, path) || Names(second.listing, path) ==>
      path in staged ||
      (Allowed(path, entries) && !Within(path, GitDir) && !Within(path, InputsDir) &&
       path in Verify(hasReceipt, entries, staged, first, second).paths)
  {
    if Names(first.listing, path) { NamedIsChanged(first.listing, path); }
    if Names(second.listing, path) { NamedIsChanged(second.listing, path); }
    if path in Verify(hasReceipt, entries, staged, first, second).paths {
      AcceptedScopesAvoidProtectedPaths(repoWrite, entries, path);
    }
  }
}
