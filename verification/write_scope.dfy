/** Declared write scopes: which entries configuration accepts, which paths they
    grant, and that no accepted scope reaches the protected directories. */
module WriteScope {
  import opened Text

  const GitDir: string := ".git"
  const InputsDir: string := ".herdr-bots/inputs"
  const MaxEntries: nat := 64

  function Segments(path: string): seq<string> {
    Split(path, '/')
  }

  predicate HasTraversal(path: string) {
    ".." in Segments(path)
  }

  /** filepath.Clean's pass over the segments of a relative path. */
  function Walk(segments: seq<string>): seq<string> {
    if segments == [] then []
    else
      var out, last := Walk(segments[..|segments| - 1]), segments[|segments| - 1];
      if last == "" || last == "." then out
      else if last == ".." && out != [] && out[|out| - 1] != ".." then out[..|out| - 1]
      else out + [last]
  }

  function Cleaned(path: string): string {
    if Walk(Segments(path)) == [] then "." else Join(Walk(Segments(path)), '/')
  }

  predicate Clean(path: string) {
    Cleaned(path) == path
  }

  predicate IsAbsolute(path: string) {
    StartsWith(path, "/")
  }

  /** The path is dir itself or spelled under it. */
  predicate Within(path: string, dir: string) {
    path == dir || StartsWith(path, dir + "/")
  }

  datatype Verdict =
    | Fine | EmptyEntry | HasNul | HasWildcard | Absolute | NamesRoot | Traverses | Unclean | GrantsGit | GrantsInputs
    | ContainsInputs

  /** An entry without the trailing slash that makes it a directory prefix. */
  function EntryPath(entry: string): string {
    if EndsWith(entry, '/') then entry[..|entry| - 1] else entry
  }

  function JudgeEntry(entry: string): Verdict {
    var path := EntryPath(entry);
    if entry == "" then EmptyEntry
    else if '\0' in entry then HasNul
    else if '*' in entry || '?' in entry || '[' in entry then HasWildcard
    else if IsAbsolute(entry) then Absolute
    else if path == "" || path == "." then NamesRoot
    else if HasTraversal(path) then Traverses
    else if !Clean(path) then Unclean
    else JudgeTarget(entry)
  }

  /** The last three refusals: entries that would reach a protected directory. */
  function JudgeTarget(entry: string): Verdict {
    var path := EntryPath(entry);
    if Within(path, GitDir) then GrantsGit
    else if Within(path, InputsDir) then GrantsInputs
    else if EndsWith(entry, '/') && StartsWith(InputsDir + "/", path + "/") then ContainsInputs
    else Fine
  }

  /** validateAllowedWritePaths. An omitted scope is accepted, and means none. */
  predicate ScopeAccepted(repoWrite: bool, entries: seq<string>) {
    entries == [] ||
    (repoWrite && |entries| <= MaxEntries && forall i :: 0 <= i < |entries| ==> JudgeEntry(entries[i]).Fine?)
  }

  /** validateRepositoryPath. */
  predicate RepositoryPath(path: string) {
    path != "" && '\0' !in path && !IsAbsolute(path) && !HasTraversal(path) && Clean(path) && !Within(path, GitDir)
  }

  predicate Grants(entry: string, path: string) {
    if EndsWith(entry, '/') then StartsWith(path, entry) else path == entry
  }

  predicate Allowed(path: string, allowed: seq<string>) {
    exists i :: 0 <= i < |allowed| && Grants(allowed[i], path)
  }

  /** boundedWriteAllowed. */
  method WriteAllowed(path: string, allowed: seq<string>) returns (ok: bool)
    ensures ok == Allowed(path, allowed)
  {
    for i := 0 to |allowed|
      invariant forall j :: 0 <= j < i ==> !Grants(allowed[j], path)
    {
      var entry := allowed[i];
      if EndsWith(entry, '/') {
        if StartsWith(path, entry) { return true; }
        continue;
      }
      if path == entry { return true; }
    }
    ok := false;
  }

  // --- Clean paths ------------------------------------------------------

  predicate Ordinary(segment: string) {
    segment != "" && segment != "." && segment != ".."
  }

  lemma {:induction false} WalkDrops(segments: seq<string>)
    requires ".." !in segments
    ensures forall i :: 0 <= i < |Walk(segments)| ==> Ordinary(Walk(segments)[i]) && Walk(segments)[i] in segments
    ensures |Walk(segments)| <= |segments|
    ensures Walk(segments) == segments <==> forall i :: 0 <= i < |segments| ==> Ordinary(segments[i])
  {
    if segments != [] {
      var n := |segments| - 1;
      WalkDrops(segments[..n]);
      assert segments == segments[..n] + [segments[n]];
    }
  }

  /** A path without ".." is clean exactly when it is the root itself or every
      segment of it is an ordinary name. */
  lemma CleanIsOrdinary(path: string)
    requires !HasTraversal(path)
    ensures Clean(path) <==> path == "." || forall i :: 0 <= i < |Segments(path)| ==> Ordinary(Segments(path)[i])
  {
    var segments := Segments(path);
    var out := Walk(segments);
    WalkDrops(segments);
    JoinSplit(path, '/');
    SplitWithout(path, '/');
    if out != [] {
      forall i | 0 <= i < |out| ensures '/' !in out[i] {
        var j :| 0 <= j < |segments| && segments[j] == out[i];
      }
      SplitJoin(out, '/');
    }
    if path == "." { SplitPlain(path, '/'); }
  }

  /** A validated repository path names a file by ordinary segments, outside .git. */
  lemma RepositoryPathsAreOrdinary(path: string)
    requires RepositoryPath(path) && path != "."
    ensures forall i :: 0 <= i < |Segments(path)| ==> Ordinary(Segments(path)[i])
    ensures !(Segments(GitDir) <= Segments(path))
  {
    CleanIsOrdinary(path);
    WithinIsPartwise(path, GitDir);
  }

  predicate OrdinarySegments(path: string) {
    forall i :: 0 <= i < |Segments(path)| ==> Ordinary(Segments(path)[i])
  }

  lemma AbsoluteHasNoName(path: string)
    requires IsAbsolute(path) || path == ""
    ensures Segments(path)[0] == "" && !OrdinarySegments(path)
  {
    if path != "" { assert path[0] == '/'; }
  }

  lemma TraversalIsNotOrdinary(path: string)
    requires HasTraversal(path)
    ensures !OrdinarySegments(path)
  {
    var i :| 0 <= i < |Segments(path)| && Segments(path)[i] == "..";
  }

  lemma InGitIsPartwise(path: string)
    ensures Within(path, GitDir) <==> Segments(path)[0] == GitDir
  {
    WithinIsPartwise(path, GitDir);
    SplitPlain(GitDir, '/');
  }

  /** Clean and relative means spelled by ordinary names. */
  lemma CleanRelativeExactly(path: string)
    ensures path != "" && !IsAbsolute(path) && !HasTraversal(path) && Clean(path) <==> path == "." || OrdinarySegments(path)
  {
    if path == "" || IsAbsolute(path) { AbsoluteHasNoName(path); }
    if HasTraversal(path) { TraversalIsNotOrdinary(path); } else { CleanIsOrdinary(path); }
    SplitPlain(".", '/');
  }

  /** A repository path is accepted exactly when it is NUL-free and the root or
      spelled by ordinary names, the first of which is not .git. */
  lemma RepositoryPathExactly(path: string)
    ensures RepositoryPath(path) <==>
      '\0' !in path && (path == "." || OrdinarySegments(path)) && Segments(path)[0] != GitDir
  {
    CleanRelativeExactly(path);
    InGitIsPartwise(path);
  }

  // --- What an entry grants ---------------------------------------------

  /** A prefix entry grants exactly the proper descendants of its directory,
      segment by segment; any other entry grants exactly itself. */
  lemma GrantsIsPartwise(entry: string, path: string)
    ensures Grants(entry, path) <==>
      if EndsWith(entry, '/') then Segments(EntryPath(entry)) < Segments(path) else path == entry
  {
    if EndsWith(entry, '/') {
      assert entry == EntryPath(entry) + ['/'];
      PrefixIsPartwise(path, EntryPath(entry), '/');
    }
  }

  /** The path is dir or under it exactly when it starts with dir's segments. */
  lemma WithinIsPartwise(path: string, dir: string)
    ensures Within(path, dir) <==> Segments(dir) <= Segments(path)
  {
    PrefixIsPartwise(path, dir, '/');
    assert dir + "/" == dir + ['/'];
    if Segments(dir) <= Segments(path) && |Segments(dir)| == |Segments(path)| {
      assert Segments(dir) == Segments(path);
      JoinSplit(path, '/');
      JoinSplit(dir, '/');
    }
  }

  /** An accepted entry never grants a path inside a directory it is not inside
      of itself, unless it is a prefix of that directory. */
  lemma GrantedWithin(entry: string, path: string, dir: string)
    requires Grants(entry, path) && Within(path, dir)
    ensures Within(EntryPath(entry), dir) || (EndsWith(entry, '/') && StartsWith(dir + "/", EntryPath(entry) + "/"))
  {
    var own := EntryPath(entry);
    GrantsIsPartwise(entry, path);
    WithinIsPartwise(path, dir);
    WithinIsPartwise(own, dir);
    if EndsWith(entry, '/') {
      var a, b, p := Segments(own), Segments(dir), Segments(path);
      if |a| >= |b| {
        assert b == p[..|b|] == a[..|b|];
      } else {
        assert a == p[..|a|] == b[..|a|];
        PrefixIsPartwise(dir, own, '/');
        assert own + ['/'] == own + "/";
      }
    }
  }

  lemma GitHasNoAncestor(own: string)
    requires StartsWith(GitDir + "/", own + "/")
    ensures own == GitDir
  {
    var whole := GitDir + "/";
    assert whole[|own|] == (own + "/")[|own|] == '/';
    assert whole[0] == '.' && whole[1] == 'g' && whole[2] == 'i' && whole[3] == 't' && whole[4] == '/';
    assert |own| == 4;
    assert own == (own + "/")[..4] == whole[..4];
  }

  /** A directory contains another exactly when its segments begin the other's. */
  lemma ContainsIsPartwise(own: string, dir: string)
    ensures StartsWith(dir + "/", own + "/") <==> Segments(own) <= Segments(dir)
  {
    PrefixIsPartwise(dir + "/", own, '/');
    assert own + "/" == own + ['/'] && dir + ['/'] + [] == dir + "/";
    SplitAt(dir, [], '/');
  }

  lemma TargetExactly(entry: string)
    ensures JudgeTarget(entry).Fine? <==>
      Segments(EntryPath(entry))[0] != GitDir && !(Segments(InputsDir) <= Segments(EntryPath(entry))) &&
      (EndsWith(entry, '/') ==> !(Segments(EntryPath(entry)) <= Segments(InputsDir)))
  {
    var own := EntryPath(entry);
    InGitIsPartwise(own);
    WithinIsPartwise(own, InputsDir);
    ContainsIsPartwise(own, InputsDir);
  }

  predicate PlainText(entry: string) {
    '\0' !in entry && '*' !in entry && '?' !in entry && '[' !in entry
  }

  /** The refusals that do not depend on the target. */
  predicate Spelled(entry: string) {
    var own := EntryPath(entry);
    entry != "" && PlainText(entry) && !IsAbsolute(entry) && own != "" && own != "." && !HasTraversal(own) && Clean(own)
  }

  lemma JudgedInTwo(entry: string)
    ensures JudgeEntry(entry).Fine? <==> Spelled(entry) && JudgeTarget(entry).Fine?
  {
  }

  lemma SpelledExactly(entry: string)
    ensures Spelled(entry) <==> PlainText(entry) && OrdinarySegments(EntryPath(entry))
  {
    CleanRelativeExactly(EntryPath(entry));
    if IsAbsolute(entry) || entry == "" { AbsoluteOwn(entry); }
    RootIsNotOrdinary();
  }

  lemma RootIsNotOrdinary()
    ensures !OrdinarySegments(".")
  {
    SplitPlain(".", '/');
    assert Segments(".")[0] == ".";
  }

  /** A write-scope entry is accepted exactly when it has no NUL and no wildcard, is
      spelled by ordinary names but for a trailing slash, is neither .git nor the
      staged-inputs directory nor under them, and, as a prefix, does not contain the
      latter. */
  lemma EntryAcceptedExactly(entry: string)
    ensures JudgeEntry(entry).Fine? <==>
      PlainText(entry) && OrdinarySegments(EntryPath(entry)) &&
      Segments(EntryPath(entry))[0] != GitDir && !(Segments(InputsDir) <= Segments(EntryPath(entry))) &&
      (EndsWith(entry, '/') ==> !(Segments(EntryPath(entry)) <= Segments(InputsDir)))
  {
    JudgedInTwo(entry);
    SpelledExactly(entry);
    TargetExactly(entry);
  }

  lemma AbsoluteOwn(entry: string)
    requires IsAbsolute(entry) || entry == ""
    ensures !OrdinarySegments(EntryPath(entry))
  {
    AbsoluteHasNoName(EntryPath(entry));
  }

  /** What a fine entry has been cleared of. */
  predicate Cleared(entry: string) {
    var own := EntryPath(entry);
    !Within(own, GitDir) && !Within(own, InputsDir) && !(EndsWith(entry, '/') && StartsWith(InputsDir + "/", own + "/"))
  }

  lemma FineIsCleared(entry: string)
    requires JudgeTarget(entry).Fine?
    ensures Cleared(entry)
  {
  }

  lemma AvoidsGit(entry: string, path: string)
    requires Cleared(entry) && Grants(entry, path)
    ensures !Within(path, GitDir)
  {
    if Within(path, GitDir) {
      GrantedWithin(entry, path, GitDir);
      GitHasNoAncestor(EntryPath(entry));
      assert false;
    }
  }

  lemma AvoidsInputs(entry: string, path: string)
    requires Cleared(entry) && Grants(entry, path)
    ensures !Within(path, InputsDir)
  {
    if Within(path, InputsDir) { GrantedWithin(entry, path, InputsDir); }
  }

  lemma FineEntryAvoids(entry: string, path: string)
    requires JudgeEntry(entry).Fine? && Grants(entry, path)
    ensures !Within(path, GitDir) && !Within(path, InputsDir)
  {
    FineIsCleared(entry);
    AvoidsGit(entry, path);
    AvoidsInputs(entry, path);
  }

  /** A validated scope never reaches protected paths: for every accepted scope
      and every path it allows, the path is not .git or the staged-inputs
      directory and does not start with the segments of either. */
  lemma AcceptedScopesAvoidProtectedPaths(repoWrite: bool, entries: seq<string>, path: string)
    requires ScopeAccepted(repoWrite, entries) && Allowed(path, entries)
    ensures !Within(path, GitDir) && !Within(path, InputsDir)
    ensures !(Segments(GitDir) <= Segments(path)) && !(Segments(InputsDir) <= Segments(path))
  {
    var i :| 0 <= i < |entries| && Grants(entries[i], path);
    FineEntryAvoids(entries[i], path);
    WithinIsPartwise(path, GitDir);
    WithinIsPartwise(path, InputsDir);
  }
}
