/** Completion evidence: a line of a pane's transcript that carries the run's
    marker, a colon and a digit. Two packages look for it, and must agree. */
module Completion {
  import opened Options
  import opened Text

  predicate Digit(c: char) {
    '0' <= c <= '9'
  }

  /** Text that starts with the marker, a colon and a digit. */
  predicate StatusHere(s: string, marker: string) {
    StartsWith(s, marker + ":") && |s| > |marker| + 1 && Digit(s[|marker| + 1])
  }

  predicate HasStatus(s: string, marker: string) {
    exists i :: 0 <= i <= |s| && StatusHere(s[i..], marker)
  }

  /** strings.Index, from the left; None when absent. */
  function Index(s: string, part: string): (at: Option<nat>)
    ensures at.Some? ==> at.value + |part| <= |s|
  {
    if StartsWith(s, part) then Some(0)
    else if s == [] then None
    else
      var rest := Index(s[1..], part);
      if rest.None? then None else Some(rest.value + 1)
  }

  /** It is an occurrence, and the first one. */
  lemma {:induction false} IndexIsFirst(s: string, part: string)
    ensures Index(s, part).Some? ==> StartsWith(s[Index(s, part).value..], part)
    ensures forall j :: 0 <= j <= |s| && (Index(s, part).None? || j < Index(s, part).value) ==> !StartsWith(s[j..], part)
  {
    if !StartsWith(s, part) && s != [] {
      IndexIsFirst(s[1..], part);
      forall j | 0 < j <= |s| ensures s[j..] == s[1..][j - 1..] { }
    }
    assert s[0..] == s;
  }

  lemma IndexIs(s: string, part: string, at: nat)
    requires at <= |s| && StartsWith(s[at..], part) && forall j :: 0 <= j < at ==> !StartsWith(s[j..], part)
    ensures Index(s, part) == Some(at)
  {
    IndexIsFirst(s, part);
  }

  function Head(marker: string): string {
    marker + ":"
  }

  predicate DigitFirst(s: string) {
    s != [] && Digit(s[0])
  }

  /** The text after the first marker and colon, if there is one. */
  function Next(s: string, marker: string): (rest: Option<string>)
    ensures rest.Some? ==> |rest.value| < |s|
  {
    var at := Index(s, Head(marker));
    if at.None? then None else Some(s[at.value + |Head(marker)|..])
  }

  /** hasCompletionStatus: skip past each marker and colon, and look for a digit. */
  predicate Scan(s: string, marker: string)
    decreases |s|
  {
    match Next(s, marker)
    case None => false
    case Some(rest) => DigitFirst(rest) || Scan(rest, marker)
  }

  method HasCompletionStatus(line: string, marker: string) returns (found: bool)
    ensures found == Scan(line, marker)
  {
    var rest := line;
    while true
      invariant Scan(line, marker) == Scan(rest, marker)
      decreases |rest|
    {
      var next := Next(rest, marker);
      if next.None? { return false; }
      rest := next.value;
      if rest != [] && Digit(rest[0]) { return true; }
    }
  }

  // --- What the scan can miss -------------------------------------------

  /** The head of a status overlaps itself, shifted by d. */
  predicate Overlaps(head: string, d: nat) {
    0 < d < |head| && head[d..] == head[..|head| - d]
  }

  /** Wherever the head overlaps itself, what follows the overlap is a digit. */
  predicate Clear(marker: string) {
    var head := Head(marker);
    forall d :: 0 <= d < |head| && Overlaps(head, d) ==> Digit(head[|head| - d])
  }

  lemma Slices(s: string, a: nat, b: nat)
    requires a + b <= |s|
    ensures s[a..][b..] == s[a + b..]
  {
  }

  lemma PrefixSplits(s: string, prefix: string)
    requires StartsWith(s, prefix)
    ensures s == prefix + s[|prefix|..]
  {
  }

  /** What is before the first head, the head, and what is after it. */
  lemma NextIsAfter(s: string, marker: string)
    requires Next(s, marker).Some?
    ensures var at := Index(s, Head(marker)).value; s[at..] == Head(marker) + Next(s, marker).value
  {
    var at := Index(s, Head(marker)).value;
    IndexIsFirst(s, Head(marker));
    PrefixSplits(s[at..], Head(marker));
    Slices(s, at, |Head(marker)|);
  }

  lemma HeadAndDigit(rest: string, marker: string)
    requires DigitFirst(rest)
    ensures HasStatus(Head(marker) + rest, marker)
  {
    var s := Head(marker) + rest;
    assert s[0..] == s && s[|marker| + 1] == rest[0];
    assert StatusHere(s[0..], marker);
  }

  lemma StatusInSuffix(s: string, k: nat, marker: string)
    requires k <= |s| && HasStatus(s[k..], marker)
    ensures HasStatus(s, marker)
  {
    var i :| 0 <= i <= |s[k..]| && StatusHere(s[k..][i..], marker);
    Slices(s, k, i);
  }

  /** A digit or a status after the first head is a status of the whole. */
  lemma NextHasStatus(s: string, marker: string)
    requires Next(s, marker).Some? && (DigitFirst(Next(s, marker).value) || HasStatus(Next(s, marker).value, marker))
    ensures HasStatus(s, marker)
  {
    var at := Index(s, Head(marker)).value;
    if DigitFirst(Next(s, marker).value) {
      NextIsAfter(s, marker);
      HeadAndDigit(Next(s, marker).value, marker);
      StatusInSuffix(s, at, marker);
    } else {
      StatusInSuffix(s, at + |Head(marker)|, marker);
    }
  }

  /** The scan never reports a status that is not there. */
  lemma {:induction false} ScanIsSound(s: string, marker: string)
    requires Scan(s, marker)
    ensures HasStatus(s, marker)
    decreases |s|
  {
    var rest := Next(s, marker).value;
    if !DigitFirst(rest) { ScanIsSound(rest, marker); }
    NextHasStatus(s, marker);
  }

  /** A status that starts inside a head is a self-overlap of it, and the text
      after the head continues the overlap. */
  lemma InsideIsOverlap(s: string, marker: string, d: nat)
    requires StartsWith(s, Head(marker)) && 0 < d < |Head(marker)| && d <= |s| && StatusHere(s[d..], marker)
    ensures Overlaps(Head(marker), d) && |s| > |Head(marker)| && s[|Head(marker)|] == Head(marker)[|Head(marker)| - d]
  {
    var head := Head(marker);
    var n := |head|;
    assert s[..n] == head && s[d..][..n] == head;
    assert head[d..] == s[d..n] == s[d..][..n - d] == head[..n - d];
    assert s[n] == s[d..][n - d];
  }

  /** A status at the first head: the digit is there. */
  lemma StatusAtHead(rest: string, marker: string)
    requires StatusHere(Head(marker) + rest, marker)
    ensures DigitFirst(rest)
  {
    assert (Head(marker) + rest)[|marker| + 1] == rest[0];
  }

  /** A status inside the first head: with a clear marker the digit is there too. */
  lemma StatusInsideHead(rest: string, marker: string, d: nat)
    requires Clear(marker) && 0 < d < |Head(marker)| && StatusHere((Head(marker) + rest)[d..], marker)
    ensures DigitFirst(rest)
  {
    InsideIsOverlap(Head(marker) + rest, marker, d);
    assert (Head(marker) + rest)[|Head(marker)|] == rest[0];
  }

  /** Where a status is, as seen from the text after the first head. */
  lemma StatusAfterHead(s: string, marker: string, i: nat)
    requires i <= |s| && StatusHere(s[i..], marker) && Clear(marker)
    ensures Next(s, marker).Some?
    ensures var rest := Next(s, marker).value; DigitFirst(rest) || HasStatus(rest, marker)
  {
    IndexIsFirst(s, Head(marker));
    NextIsAfter(s, marker);
    var n, at, rest := |Head(marker)|, Index(s, Head(marker)).value, Next(s, marker).value;
    var here := Head(marker) + rest;
    if i == at {
      StatusAtHead(rest, marker);
    } else if i < at + n {
      Slices(s, at, i - at);
      StatusInsideHead(rest, marker, i - at);
    } else {
      Slices(s, at + n, i - at - n);
      assert rest == s[at + n..];
      assert StatusHere(rest[i - at - n..], marker);
    }
  }

  lemma {:induction false} ClearScans(s: string, marker: string)
    requires Clear(marker) && HasStatus(s, marker)
    ensures Scan(s, marker)
    decreases |s|
  {
    var i :| 0 <= i <= |s| && StatusHere(s[i..], marker);
    StatusAfterHead(s, marker, i);
    if !DigitFirst(Next(s, marker).value) { ClearScans(Next(s, marker).value, marker); }
  }

  /** A line whose status the scan skips: two heads that overlap. */
  function Hiding(marker: string, d: nat): string
    requires d < |Head(marker)|
  {
    Head(marker) + Head(marker)[|Head(marker)| - d..] + "1"
  }

  lemma HidingHasStatus(marker: string, d: nat)
    requires Overlaps(Head(marker), d)
    ensures HasStatus(Hiding(marker, d), marker)
  {
    var head, line := Head(marker), Hiding(marker, d);
    assert head == head[..d] + head[d..] && head == head[..|head| - d] + head[|head| - d..];
    assert line == head[..d] + (head + "1");
    assert line[d..] == head + "1";
    assert StatusHere(line[d..], marker);
  }

  lemma TooShortToScan(s: string, marker: string)
    requires |s| <= |Head(marker)|
    ensures !Scan(s, marker)
  {
    if Next(s, marker).Some? { assert Next(s, marker).value == [] && Next([], marker).None?; }
  }

  lemma HidingIsMissed(marker: string, d: nat)
    requires Overlaps(Head(marker), d) && !Digit(Head(marker)[|Head(marker)| - d])
    ensures !Scan(Hiding(marker, d), marker)
  {
    var head, line := Head(marker), Hiding(marker, d);
    var tail := head[|head| - d..] + "1";
    assert line == head + tail && line[0..] == line && line[..|head|] == head;
    IndexIs(line, head, 0);
    assert Next(line, marker) == Some(tail) && tail[0] == head[|head| - d];
    TooShortToScan(tail, marker);
  }

  /** The scan finds exactly the lines that carry a status, for every line, if and
      only if every self-overlap of the marker and its colon goes on with a digit. */
  lemma ScanIsExactExactly(marker: string)
    ensures (forall line :: Scan(line, marker) <==> HasStatus(line, marker)) <==> Clear(marker)
  {
    if Clear(marker) {
      forall line ensures Scan(line, marker) <==> HasStatus(line, marker) {
        if Scan(line, marker) { ScanIsSound(line, marker); }
        if HasStatus(line, marker) { ClearScans(line, marker); }
      }
    } else {
      var d :| 0 <= d < |Head(marker)| && Overlaps(Head(marker), d) && !Digit(Head(marker)[|Head(marker)| - d]);
      HidingHasStatus(marker, d);
      HidingIsMissed(marker, d);
    }
  }

  /** A marker without a colon overlaps nowhere. */
  lemma ColonFreeIsClear(marker: string)
    requires ':' !in marker
    ensures Clear(marker)
  {
    var head := Head(marker);
    forall d | 0 <= d < |head| ensures !Overlaps(head, d) {
      if 0 < d {
        assert head[d..][|head| - d - 1] == head[|head| - 1] == ':';
        assert head[..|head| - d][|head| - d - 1] == marker[|head| - d - 1];
      }
    }
  }

  // --- Two packages agree -----------------------------------------------

  /** The first line the scan accepts: where attestation evidence ends. */
  function Boundary(lines: seq<string>, marker: string): (at: Option<nat>)
    ensures at.Some? ==> at.value < |lines| && Scan(lines[at.value], marker)
    ensures at.Some? ==> forall i :: 0 <= i < at.value ==> !Scan(lines[i], marker)
    ensures at.None? ==> forall i :: 0 <= i < |lines| ==> !Scan(lines[i], marker)
  {
    if lines == [] then None
    else if Scan(lines[0], marker) then Some(0)
    else
      var rest := Boundary(lines[1..], marker);
      assert forall i :: 0 < i < |lines| ==> lines[i] == lines[1..][i - 1];
      if rest.None? then None else Some(rest.value + 1)
  }

  /** The scan for the boundary, line by line. */
  method FindBoundary(lines: seq<string>, marker: string) returns (at: Option<nat>)
    ensures at == Boundary(lines, marker)
  {
    for i := 0 to |lines|
      invariant forall j :: 0 <= j < i ==> !Scan(lines[j], marker)
    {
      var found := HasCompletionStatus(lines[i], marker);
      if found {
        BoundaryIs(lines, marker, i);
        return Some(i);
      }
    }
    at := None;
  }

  lemma BoundaryIs(lines: seq<string>, marker: string, i: nat)
    requires i < |lines| && Scan(lines[i], marker) && forall j :: 0 <= j < i ==> !Scan(lines[j], marker)
    ensures Boundary(lines, marker) == Some(i)
  {
  }

  function Lines(transcript: string): seq<string> {
    Split(transcript, '\n')
  }

  /** CommandResult has a match: the marker, a colon and a digit anywhere on the
      screen, lines notwithstanding. */
  predicate Completed(screen: string, marker: string) {
    HasStatus(screen, marker)
  }

  lemma StatusExtends(s: string, marker: string, before: string, after: string)
    requires HasStatus(s, marker)
    ensures HasStatus(before + s + after, marker)
  {
    var i :| 0 <= i <= |s| && StatusHere(s[i..], marker);
    var all, at := before + s + after, |before| + i;
    assert all[at..] == s[i..] + after;
    assert StatusHere(all[at..], marker);
  }

  lemma StatusHasNoNewline(s: string, marker: string)
    requires '\n' !in marker && StatusHere(s, marker)
    ensures forall k :: 0 <= k < |marker| + 2 ==> s[k] != '\n'
  {
    var head := marker + ":";
    assert head == s[..|head|];
    forall k | 0 <= k < |head| ensures s[k] != '\n' { assert s[k] == head[k] && head[k] in head; }
  }

  /** A status in a newline-free marker never spans a line break. */
  lemma StatusStaysOnItsSide(a: string, b: string, marker: string)
    requires '\n' !in marker && HasStatus(a + ['\n'] + b, marker)
    ensures HasStatus(a, marker) || HasStatus(b, marker)
  {
    var all := a + ['\n'] + b;
    var i :| 0 <= i <= |all| && StatusHere(all[i..], marker);
    var n := |marker| + 2;
    assert all[|a|] == '\n' && (i <= |a| < i + n ==> all[i..][|a| - i] == all[|a|]);
    StatusHasNoNewline(all[i..], marker);
    if i > |a| {
      assert all[i..] == b[i - |a| - 1..];
      assert StatusHere(b[i - |a| - 1..], marker);
    } else {
      assert forall k :: 0 <= k < n ==> a[i..][k] == all[i..][k];
      assert a[i..][..|marker| + 1] == all[i..][..|marker| + 1];
      assert StatusHere(a[i..], marker);
    }
  }

  /** Some line carries a status. */
  ghost predicate OnSomeLine(lines: seq<string>, marker: string) {
    exists i :: 0 <= i < |lines| && HasStatus(lines[i], marker)
  }

  lemma {:induction false} StatusIsOnSomeLine(lines: seq<string>, marker: string)
    requires lines != [] && '\n' !in marker
    ensures HasStatus(Join(lines, '\n'), marker) <==> OnSomeLine(lines, marker)
  {
    if |lines| == 1 {
      assert lines == [lines[0]];
    } else {
      var rest := Join(lines[1..], '\n');
      StatusIsOnSomeLine(lines[1..], marker);
      if HasStatus(Join(lines, '\n'), marker) { StatusStaysOnItsSide(lines[0], rest, marker); }
      if HasStatus(lines[0], marker) {
        StatusExtends(lines[0], marker, [], ['\n'] + rest);
        assert [] + lines[0] + (['\n'] + rest) == Join(lines, '\n');
      }
      if HasStatus(rest, marker) {
        StatusExtends(rest, marker, lines[0] + ['\n'], []);
        assert lines[0] + ['\n'] + rest + [] == Join(lines, '\n');
      }
      LaterLines(lines, marker);
    }
  }

  lemma LaterLines(lines: seq<string>, marker: string)
    requires lines != []
    ensures OnSomeLine(lines, marker) <==> HasStatus(lines[0], marker) || OnSomeLine(lines[1..], marker)
  {
    if OnSomeLine(lines, marker) {
      var i :| 0 <= i < |lines| && HasStatus(lines[i], marker);
      if i > 0 { assert lines[1..][i - 1] == lines[i]; }
    }
    if OnSomeLine(lines[1..], marker) {
      var i :| 0 <= i < |lines[1..]| && HasStatus(lines[1..][i], marker);
      assert lines[i + 1] == lines[1..][i];
    }
  }

  /** With a clear marker, the attestation boundary exists exactly when the command
      waiter sees a completion status on the same screen. */
  lemma BoundaryExactlyWhenCompleted(transcript: string, marker: string)
    requires '\n' !in marker && Clear(marker)
    ensures Boundary(Lines(transcript), marker).Some? <==> Completed(transcript, marker)
  {
    var lines := Lines(transcript);
    JoinSplit(transcript, '\n');
    StatusIsOnSomeLine(lines, marker);
    ScanIsExactExactly(marker);
    if OnSomeLine(lines, marker) {
      var i :| 0 <= i < |lines| && HasStatus(lines[i], marker);
      assert Scan(lines[i], marker);
    }
  }

  lemma HidingStaysOnALine(marker: string, d: nat)
    requires '\n' !in marker && d < |Head(marker)|
    ensures Lines(Hiding(marker, d)) == [Hiding(marker, d)]
  {
    var line, tail := Hiding(marker, d), Head(marker)[|Head(marker)| - d..];
    assert forall c :: c in tail ==> c in Head(marker);
    assert '\n' !in line;
    SplitPlain(line, '\n');
  }

  /** The two packages agree on every transcript if and only if the marker is clear. */
  lemma PackagesAgreeExactly(marker: string)
    requires '\n' !in marker
    ensures (forall t :: Boundary(Lines(t), marker).Some? <==> Completed(t, marker)) <==> Clear(marker)
  {
    if Clear(marker) {
      forall t ensures Boundary(Lines(t), marker).Some? <==> Completed(t, marker) { BoundaryExactlyWhenCompleted(t, marker); }
    } else {
      var d :| 0 <= d < |Head(marker)| && Overlaps(Head(marker), d) && !Digit(Head(marker)[|Head(marker)| - d]);
      HidingHasStatus(marker, d);
      HidingIsMissed(marker, d);
      HidingStaysOnALine(marker, d);
      assert Boundary(Lines(Hiding(marker, d)), marker).None? && Completed(Hiding(marker, d), marker);
    }
  }

  // --- Appending --------------------------------------------------------

  /** The lines attestation may use: those before the first status. */
  function Evidence(transcript: string, marker: string): Option<seq<string>> {
    var at := Boundary(Lines(transcript), marker);
    if at.None? then None else Some(Lines(transcript)[..at.value])
  }

  /** Evidence is exactly the lines before the first one with a status. */
  lemma EvidenceExactly(transcript: string, marker: string, evidence: seq<string>)
    requires Clear(marker)
    ensures Evidence(transcript, marker) == Some(evidence) <==>
      exists i: nat :: FirstStatus(Lines(transcript), marker, i) && evidence == Lines(transcript)[..i]
  {
    var lines := Lines(transcript);
    ScanIsExactExactly(marker);
    if i: nat :| FirstStatus(lines, marker, i) && evidence == lines[..i] {
      forall j | 0 <= j < i ensures !Scan(lines[j], marker) { }
      BoundaryIs(lines, marker, i);
    }
    if Evidence(transcript, marker) == Some(evidence) { assert FirstStatus(lines, marker, Boundary(lines, marker).value); }
  }

  ghost predicate FirstStatus(lines: seq<string>, marker: string, i: nat) {
    i < |lines| && HasStatus(lines[i], marker) && forall j: nat :: j < i ==> !HasStatus(lines[j], marker)
  }

  /** Appending text only ever lengthens the last line and adds lines after it. */
  lemma {:induction false} LinesAppended(a: string, b: string)
    ensures Lines(a + b) == Appended(Lines(a), Lines(b))
  {
    var lb := Lines(b);
    if a == [] {
      assert a + b == b && [] + lb[0] == lb[0] && [lb[0]] + lb[1..] == lb;
    } else {
      LinesAppended(a[1..], b);
      assert (a + b)[1..] == a[1..] + b && (a + b)[0] == a[0];
      LinesPrepended(a[0], Lines(a[1..]), lb);
    }
  }

  /** The last line continued by the first of more lines. */
  function Glued(last: string, more: seq<string>): (all: seq<string>)
    requires more != []
    ensures all != []
  {
    [last + more[0]] + more[1..]
  }

  function Appended(lines: seq<string>, more: seq<string>): (all: seq<string>)
    requires lines != [] && more != []
    ensures all != []
  {
    lines[..|lines| - 1] + Glued(lines[|lines| - 1], more)
  }

  lemma LinesPrepended(c: char, lines: seq<string>, more: seq<string>)
    requires lines != [] && more != []
    ensures Front(c, Appended(lines, more), '\n') == Appended(Front(c, lines, '\n'), more)
  {
    var n := |lines| - 1;
    var front, last := lines[..n], lines[n];
    assert lines == front + [last];
    if front != [] {
      FrontOfSum(c, front, [last], '\n');
      FrontOfSum(c, front, Glued(last, more), '\n');
      assert Front(c, lines, '\n')[..|Front(c, lines, '\n')| - 1] == Front(c, front, '\n');
    } else if c == '\n' {
      assert ([[]] + lines)[..1] == [[]];
    } else {
      assert [c] + (last + more[0]) == [c] + last + more[0];
      assert Glued(last, more)[1..] == more[1..];
    }
  }

  /** More text does not move the first occurrence. */
  lemma IndexStays(s: string, more: string, part: string)
    requires Index(s, part).Some?
    ensures Index(s + more, part) == Index(s, part)
  {
    var at, all := Index(s, part).value, s + more;
    IndexIsFirst(s, part);
    assert all[at..][..|part|] == s[at..][..|part|];
    forall j | 0 <= j < at ensures !StartsWith(all[j..], part) {
      assert all[j..][..|part|] == s[j..][..|part|];
    }
    IndexIs(all, part, at);
  }

  lemma NextExtends(s: string, more: string, marker: string)
    requires Next(s, marker).Some?
    ensures Next(s + more, marker) == Some(Next(s, marker).value + more)
  {
    IndexStays(s, more, Head(marker));
    var k := Index(s, Head(marker)).value + |Head(marker)|;
    assert (s + more)[k..] == s[k..] + more;
  }

  /** A line the scan accepts is still accepted when it goes on. */
  lemma {:induction false} ScanExtends(s: string, more: string, marker: string)
    requires Scan(s, marker)
    ensures Scan(s + more, marker)
    decreases |s|
  {
    var rest := Next(s, marker).value;
    NextExtends(s, more, marker);
    if DigitFirst(rest) { assert (rest + more)[0] == rest[0]; } else { ScanExtends(rest, more, marker); }
  }

  /** Whatever is written to the pane after a completed transcript, the evidence
      the attestation reads stays the same lines, for every marker. */
  lemma EvidenceIsAppendStable(transcript: string, more: string, marker: string)
    requires Evidence(transcript, marker).Some?
    ensures Evidence(transcript + more, marker) == Evidence(transcript, marker)
  {
    var before, after := Lines(transcript), Lines(transcript + more);
    var i := Boundary(before, marker).value;
    LinesAppended(transcript, more);
    forall j | 0 <= j < i ensures after[j] == before[j] { }
    if i == |before| - 1 {
      ScanExtends(before[i], Lines(more)[0], marker);
      assert before[i] + Lines(more)[0] == after[i];
    } else {
      assert after[i] == before[i];
    }
    BoundaryIs(after, marker, i);
    assert after[..i] == before[..i];
  }

  // --- The marker -------------------------------------------------------

  predicate MarkerChar(c: char) {
    'A' <= c <= 'Z' || '0' <= c <= '9' || c == '_'
  }

  function Masked(value: string): string {
    if value == [] then []
    else [if 'A' <= value[0] <= 'Z' || '0' <= value[0] <= '9' then value[0] else '_'] + Masked(value[1..])
  }

  /** completionMarker, of the run identifier in upper case. */
  function Marker(upper: string): string {
    "HERDR_BOTS_RUN_" + Masked(upper)
  }

  lemma {:induction false} MaskedIsPlain(value: string)
    ensures forall c :: c in Masked(value) ==> MarkerChar(c)
  {
    if value != [] { MaskedIsPlain(value[1..]); }
  }

  /** The marker is the prefix and then the identifier, character by character: capital
      letters and digits as they are, anything else an underscore. */
  lemma {:induction false} MarkerIs(upper: string, i: nat)
    requires i < |upper|
    ensures |Marker(upper)| == 15 + |upper| && Marker(upper)[..15] == "HERDR_BOTS_RUN_"
    ensures Marker(upper)[15 + i] == if 'A' <= upper[i] <= 'Z' || '0' <= upper[i] <= '9' then upper[i] else '_'
  {
    MaskedAt(upper, i);
  }

  lemma {:induction false} MaskedAt(value: string, i: nat)
    requires i < |value|
    ensures |Masked(value)| == |value|
    ensures Masked(value)[i] == if 'A' <= value[i] <= 'Z' || '0' <= value[i] <= '9' then value[i] else '_'
  {
    if i > 0 {
      MaskedAt(value[1..], i - 1);
    } else if |value| > 1 {
      MaskedAt(value[1..], 0);
    }
  }

  /** So for the markers the engine uses, the scan, the boundary and the waiter
      agree on every transcript. */
  lemma EngineMarkersAgree(upper: string, transcript: string)
    ensures ':' !in Marker(upper) && '\n' !in Marker(upper)
    ensures Boundary(Lines(transcript), Marker(upper)).Some? <==> Completed(transcript, Marker(upper))
  {
    MaskedIsPlain(upper);
    forall c | c in Marker(upper) ensures MarkerChar(c) {
      if c !in Masked(upper) { assert c in "HERDR_BOTS_RUN_"; }
    }
    ColonFreeIsClear(Marker(upper));
    BoundaryExactlyWhenCompleted(transcript, Marker(upper));
  }
}
