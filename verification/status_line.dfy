/** What the status line of a command does: it prints the run's marker with the exit
    status of the command before it, and that is the number read off the screen.

    The shell is read as far as the line needs it (POSIX Shell Command Language, IEEE
    Std 1003.1): assignments, quotes (section 2.2), the expansions `$?` and `$name`
    (2.5), and `printf` with `%d` and `\n`. It gives up on everything else. */
module StatusLine {
  import opened Options
  import opened Completion
  import Shell

  // --- Numbers ----------------------------------------------------------

  function Digits(n: nat): (s: string)
    ensures s != [] && forall i :: 0 <= i < |s| ==> Digit(s[i])
  {
    if n < 10 then [DigitOf(n)] else Digits(n / 10) + [DigitOf(n % 10)]
  }

  function DigitOf(n: nat): (c: char)
    requires n < 10
    ensures Digit(c)
  {
    '0' + n as char
  }

  function ValueOf(c: char): (n: nat)
    requires Digit(c)
    ensures n < 10
  {
    c as int - '0' as int
  }

  /** The number a run of digits spells. */
  function Value(s: string): nat
    requires forall i :: 0 <= i < |s| ==> Digit(s[i])
  {
    if s == [] then 0 else 10 * Value(s[..|s| - 1]) + ValueOf(s[|s| - 1])
  }

  lemma {:induction false} ValueOfDigits(n: nat)
    ensures Value(Digits(n)) == n
  {
    if n < 10 {
      assert [DigitOf(n)][..0] == [];
    } else {
      ValueOfDigits(n / 10);
      assert (Digits(n / 10) + [DigitOf(n % 10)])[..|Digits(n / 10)|] == Digits(n / 10);
    }
  }

  // --- The shell --------------------------------------------------------

  /** The status of the last command, in decimal, and the variables set so far. */
  datatype Env = Env(status: string, vars: map<string, string>)

  datatype Mode = Blank | InWord | Single | Double

  /** The words of the first command, expanded, and what follows its `;`. */
  datatype Parsed = Bad | Simple(words: seq<string>, rest: string)

  predicate NameChar(c: char) {
    'a' <= c <= 'z' || 'A' <= c <= 'Z' || c == '_'
  }

  predicate Plain(c: char) {
    Shell.Ordinary(c) || c == '='
  }

  /** How much of s is a variable name. */
  function NameLength(s: string): (n: nat)
    ensures n <= |s| && forall i :: 0 <= i < n ==> NameChar(s[i])
    ensures n < |s| ==> !NameChar(s[n])
  {
    if s == [] || !NameChar(s[0]) then 0 else 1 + NameLength(s[1..])
  }

  function Put(mode: Mode, word: string, more: seq<string>): seq<string> {
    if mode.Blank? then more else [word] + more
  }

  function Then(mode: Mode, word: string, p: Parsed): Parsed {
    if p.Bad? then Bad else Simple(Put(mode, word, p.words), p.rest)
  }

  /** Reading s in this mode, with `word` of the current word read. A variable is
      expanded inside double quotes only, so no field is ever split. */
  function Parse(s: string, env: Env, mode: Mode, word: string): (p: Parsed)
    ensures p.Simple? ==> |p.rest| <= |s| && (s != [] ==> |p.rest| < |s|)
  {
    if s == [] then if mode.Single? || mode.Double? then Bad else Simple(Put(mode, word, []), [])
    else
      var c := s[0];
      if mode.Single? then
        if c == '\'' then Parse(s[1..], env, InWord, word) else Parse(s[1..], env, Single, word + [c])
      else if c == '$' && |s| > 1 && s[1] == '?' then
        Parse(s[2..], env, if mode.Double? then Double else InWord, word + env.status)
      else if mode.Double? then
        if c == '"' then Parse(s[1..], env, InWord, word)
        else if c == '$' then
          var n := NameLength(s[1..]);
          if n == 0 || s[1..][..n] !in env.vars then Bad
          else Parse(s[1..][n..], env, Double, word + env.vars[s[1..][..n]])
        else if c == '\\' || c == '`' then Bad
        else Parse(s[1..], env, Double, word + [c])
      else if c == '\'' then Parse(s[1..], env, Single, word)
      else if c == '"' then Parse(s[1..], env, Double, word)
      else if c == ' ' then Then(mode, word, Parse(s[1..], env, Blank, []))
      else if c == ';' then Simple(Put(mode, word, []), s[1..])
      else if Plain(c) then Parse(s[1..], env, InWord, word + [c])
      else Bad
  }

  /** printf, with one number to print. */
  function Printf(format: string, arg: string): Option<string> {
    if format == [] then Some([])
    else if format[0] == '\\' || format[0] == '%' then
      if |format| == 1 then None
      else
        var rest := Printf(format[2..], arg);
        if rest.None? then None
        else if format[0] == '\\' && format[1] == 'n' then Some(['\n'] + rest.value)
        else if format[0] == '%' && format[1] == 'd' && arg != [] && forall i :: 0 <= i < |arg| ==> Digit(arg[i]) then
          Some(Digits(Value(arg)) + rest.value)
        else None
    else
      var rest := Printf(format[1..], arg);
      if rest.None? then None else Some([format[0]] + rest.value)
  }

  predicate Assignment(word: string) {
    0 < NameLength(word) < |word| && word[NameLength(word)] == '='
  }

  /** What running the commands of s prints, each setting the status to 0. */
  function Run(s: string, env: Env): Option<string>
    decreases |s|
  {
    if s == [] then Some([])
    else
      var p := Parse(s, env, Blank, []);
      if p.Bad? then None
      else if p.words == [] then Run(p.rest, env)
      else if |p.words| == 1 && Assignment(p.words[0]) then
        var n := NameLength(p.words[0]);
        Run(p.rest, Env("0", env.vars[p.words[0][..n] := p.words[0][n + 1..]]))
      else if |p.words| == 3 && p.words[0] == "printf" then
        var out, rest := Printf(p.words[1], p.words[2]), Run(p.rest, env.(status := "0"));
        if out.None? || rest.None? then None else Some(out.value + rest.value)
      else None
  }

  // --- Reading the line -------------------------------------------------

  lemma {:induction false} ParsePlain(s: string, t: string, env: Env, mode: Mode, word: string)
    requires s != [] && (mode.Blank? || mode.InWord?) && forall i :: 0 <= i < |s| ==> Plain(s[i])
    ensures Parse(s + t, env, mode, word) == Parse(t, env, InWord, word + s)
    decreases |s|
  {
    assert (s + t)[0] == s[0] && (s + t)[1..] == s[1..] + t && [s[0]] + s[1..] == s;
    if |s| == 1 {
      assert s[1..] + t == t && word + [s[0]] == word + s;
    } else {
      ParsePlain(s[1..], t, env, InWord, word + [s[0]]);
      assert word + [s[0]] + s[1..] == word + s;
    }
  }

  lemma {:induction false} ParseSingle(s: string, t: string, env: Env, word: string)
    requires '\'' !in s
    ensures Parse(s + "'" + t, env, Single, word) == Parse(t, env, InWord, word + s)
    decreases |s|
  {
    if s == [] {
      assert (s + "'" + t)[0] == '\'' && (s + "'" + t)[1..] == t && word + s == word;
    } else {
      assert (s + "'" + t)[0] == s[0] && (s + "'" + t)[1..] == s[1..] + "'" + t;
      ParseSingle(s[1..], t, env, word + [s[0]]);
      assert word + [s[0]] + s[1..] == word + s;
    }
  }

  lemma ParseQuoted(s: string, t: string, env: Env)
    requires '\'' !in s
    ensures Parse("'" + s + "'" + t, env, Blank, []) == Parse(t, env, InWord, s)
  {
    assert ("'" + s + "'" + t)[1..] == s + "'" + t && [] + s == s;
    ParseSingle(s, t, env, []);
  }

  lemma ParseBlank(t: string, env: Env, mode: Mode, word: string)
    requires mode.Blank? || mode.InWord?
    ensures Parse(" " + t, env, mode, word) == Then(mode, word, Parse(t, env, Blank, []))
  {
    assert (" " + t)[1..] == t;
  }

  /** The first command: the status is kept. */
  lemma ParseKeeps(t: string, env: Env)
    ensures Parse(" status=$?;" + t, env, Blank, []) == Simple(["status=" + env.status], t)
  {
    var s := "$?;" + t;
    assert " status=$?;" + t == " " + ("status=" + s);
    ParseBlank("status=" + s, env, Blank, []);
    ParsePlain("status=", s, env, Blank, []);
    assert [] + "status=" == "status=" && s[2..] == ";" + t && (";" + t)[1..] == t;
    var word := "status=" + env.status;
    assert Parse(";" + t, env, InWord, word) == Simple([word] + [], t);
    assert [word] + [] == [word];
  }

  lemma {:induction false} NameEnds(name: string, t: string)
    requires (forall i :: 0 <= i < |name| ==> NameChar(name[i])) && (t != [] ==> !NameChar(t[0]))
    ensures NameLength(name + t) == |name|
  {
    if name == [] {
      assert name + t == t;
    } else {
      assert (name + t)[0] == name[0] && (name + t)[1..] == name[1..] + t;
      NameEnds(name[1..], t);
    }
  }

  lemma ParseClose(env: Env, word: string)
    ensures Parse(['"'], env, Double, word) == Simple([word], [])
  {
    assert ['"'][1..] == [];
    assert Parse([], env, InWord, word) == Simple([word] + [], []) && [word] + [] == [word];
  }

  /** A variable in double quotes is expanded. */
  lemma ParseVariable(name: string, env: Env)
    requires name != [] && name in env.vars && forall i :: 0 <= i < |name| ==> NameChar(name[i])
    ensures Parse(['"', '$'] + name + ['"'], env, Blank, []) == Simple([env.vars[name]], [])
  {
    var s, t := ['"', '$'] + name + ['"'], ['$'] + name + ['"'];
    NameEnds(name, ['"']);
    assert s[0] == '"' && s[1..] == t && t[0] == '$' && t[1] == name[0] && t[1..] == name + ['"'];
    assert (name + ['"'])[..|name|] == name && (name + ['"'])[|name|..] == ['"'];
    assert [] + env.vars[name] == env.vars[name];
    ParseClose(env, env.vars[name]);
  }

  lemma StatusIsAName()
    ensures forall i :: 0 <= i < |"status"| ==> NameChar("status"[i])
  {
  }

  lemma ParseStatus(env: Env)
    requires "status" in env.vars
    ensures Parse("\"$status\"", env, Blank, []) == Simple([env.vars["status"]], [])
  {
    StatusIsAName();
    assert "\"$status\"" == ['"', '$'] + "status" + ['"'];
    ParseVariable("status", env);
  }

  lemma ParseFormat(format: string, env: Env)
    requires '\'' !in format && "status" in env.vars
    ensures Parse("'" + format + "'" + (" " + "\"$status\""), env, Blank, []) == Simple([format, env.vars["status"]], [])
  {
    ParseQuoted(format, " " + "\"$status\"", env);
    ParseBlank("\"$status\"", env, InWord, format);
    ParseStatus(env);
    assert [format] + [env.vars["status"]] == [format, env.vars["status"]];
  }

  /** The second one: it prints this format with the kept status. */
  lemma ParsePrints(format: string, env: Env)
    requires '\'' !in format && "status" in env.vars
    ensures Parse(" printf '" + format + "' \"$status\"", env, Blank, []) ==
            Simple(["printf", format, env.vars["status"]], [])
  {
    var quoted := "'" + format + "'" + (" " + "\"$status\"");
    assert " printf '" + format + "' \"$status\"" == " " + ("printf" + (" " + quoted));
    ParseBlank("printf" + (" " + quoted), env, Blank, []);
    ParsePlain("printf", " " + quoted, env, Blank, []);
    assert [] + "printf" == "printf";
    ParseBlank(quoted, env, InWord, "printf");
    ParseFormat(format, env);
    assert ["printf"] + [format, env.vars["status"]] == ["printf", format, env.vars["status"]];
  }

  // --- What it prints ---------------------------------------------------

  /** Text printf prints as it is. */
  predicate Verbatim(s: string) {
    forall i :: 0 <= i < |s| ==> s[i] != '\\' && s[i] != '%' && s[i] != '\''
  }

  lemma {:induction false} PrintsVerbatim(s: string, format: string, arg: string)
    requires Verbatim(s) && Printf(format, arg).Some?
    ensures Printf(s + format, arg) == Some(s + Printf(format, arg).value)
  {
    if s == [] {
      assert s + format == format && s + Printf(format, arg).value == Printf(format, arg).value;
    } else {
      assert (s + format)[0] == s[0] && (s + format)[1..] == s[1..] + format && [s[0]] + s[1..] == s;
      PrintsVerbatim(s[1..], format, arg);
      var more := Printf(format, arg).value;
      assert [s[0]] + (s[1..] + more) == s + more;
    }
  }

  function Format(marker: string): string {
    "\\n" + marker + ":%d\\n"
  }

  /** A newline, the marker, a colon, the number, a newline. */
  function Line(marker: string, n: nat): string {
    "\n" + marker + ":" + Digits(n) + "\n"
  }

  lemma PrintsLine(marker: string, n: nat)
    requires Verbatim(marker)
    ensures Printf(Format(marker), Digits(n)) == Some(Line(marker, n))
  {
    ValueOfDigits(n);
    var arg := Digits(n);
    assert "\\n"[2..] == [] && Printf("\\n", arg) == Some("\n") by { assert ['\n'] + [] == "\n"; }
    assert "%d\\n"[2..] == "\\n" && Printf("%d\\n", arg) == Some(arg + "\n");
    PrintsVerbatim(":", "%d\\n", arg);
    PrintsVerbatim(marker, ":" + "%d\\n", arg);
    var body := marker + (":" + "%d\\n");
    assert Format(marker) == "\\n" + body && Format(marker)[2..] == body;
    assert Line(marker, n) == ['\n'] + (marker + (":" + (arg + "\n")));
  }

  lemma RunKeeps(second: string, status: string)
    ensures Run(" status=$?;" + second, Env(status, map[])) == Run(second, Env("0", map["status" := status]))
  {
    ParseKeeps(second, Env(status, map[]));
    KeptName(status);
    var word := "status=" + status;
    assert word[..6] == "status" && word[7..] == status;
    var none: map<string, string> := map[];
    assert none["status" := status] == map["status" := status];
  }

  lemma RunPrints(marker: string, n: nat)
    requires Verbatim(marker)
    ensures Run(" printf '" + Format(marker) + "' \"$status\"", Env("0", map["status" := Digits(n)])) == Some(Line(marker, n))
  {
    var kept := Env("0", map["status" := Digits(n)]);
    FormatIsQuotable(marker);
    ParsePrints(Format(marker), kept);
    PrintsLine(marker, n);
    assert Run([], kept.(status := "0")) == Some([]) && Line(marker, n) + [] == Line(marker, n);
  }

  lemma TailParts(marker: string)
    ensures Shell.Tail(marker) == " status=$?;" + (" printf '" + Format(marker) + "' \"$status\"")
  {
  }

  lemma TailRuns(marker: string, n: nat)
    requires Verbatim(marker)
    ensures Run(Shell.Tail(marker), Env(Digits(n), map[])) == Some(Line(marker, n))
  {
    TailParts(marker);
    RunKeeps(" printf '" + Format(marker) + "' \"$status\"", Digits(n));
    RunPrints(marker, n);
  }

  /** Running what follows the command prints the line for its status, whatever the
      status, for every marker without quotes, escapes or percent signs. */
  lemma TailPrintsStatus(binary: string, args: seq<string>, path: string, marker: string, n: nat)
    requires Verbatim(marker)
    ensures var lexed := Shell.Lex(Shell.CommandLine(binary, args, path, marker), Shell.Between, []);
      lexed.Ok? && Run(lexed.lexed.rest, Env(Digits(n), map[])) == Some(Line(marker, n))
  {
    Shell.CommandLineSplits(binary, args, path, marker);
    TailRuns(marker, n);
  }

  lemma KeptName(value: string)
    ensures NameLength("status=" + value) == 6 && Assignment("status=" + value)
  {
    StatusIsAName();
    assert "status=" + value == "status" + ("=" + value);
    NameEnds("status", "=" + value);
  }

  lemma FormatIsQuotable(marker: string)
    requires Verbatim(marker)
    ensures '\'' !in Format(marker)
  {
    assert '\'' !in marker;
  }

  // --- What is read off the screen --------------------------------------

  /** The digits s starts with. */
  function DigitRun(s: string): (run: string)
    ensures run <= s && forall i :: 0 <= i < |run| ==> Digit(run[i])
    ensures |run| < |s| ==> !Digit(s[|run|])
  {
    if s == [] || !Digit(s[0]) then [] else [s[0]] + DigitRun(s[1..])
  }

  /** The numbers of all statuses on the screen, as CommandResult's expression finds
      them: from the left, as long as they go, without overlap. */
  function Matches(s: string, marker: string): (found: seq<string>)
    ensures forall k :: 0 <= k < |found| ==> forall i :: 0 <= i < |found[k]| ==> Digit(found[k][i])
    decreases |s|
  {
    if s == [] then []
    else if StatusHere(s, marker) then
      var run := DigitRun(s[|marker| + 1..]);
      [run] + Matches(s[|marker| + 1..][|run|..], marker)
    else Matches(s[1..], marker)
  }

  /** CommandResult: the number of the last one. */
  function ReadStatus(screen: string, marker: string): Option<nat> {
    var found := Matches(screen, marker);
    if found == [] then None else Some(Value(found[|found| - 1]))
  }

  lemma HereStaysHere(a: string, b: string, marker: string)
    requires '\n' !in marker
    ensures StatusHere(a + "\n" + b, marker) <==> StatusHere(a, marker)
  {
    var all := a + "\n" + b;
    var n := |marker| + 2;
    if StatusHere(all, marker) {
      StatusHasNoNewline(all, marker);
      assert all[|a|] == '\n';
      assert forall k :: 0 <= k < n ==> all[k] == a[k];
      assert all[..|marker| + 1] == a[..|marker| + 1];
    }
    if StatusHere(a, marker) { assert all[..|marker| + 1] == a[..|marker| + 1]; }
  }

  lemma {:induction false} RunStopsAtLine(a: string, b: string)
    ensures DigitRun(a + "\n" + b) == DigitRun(a)
  {
    var all := a + "\n" + b;
    if a != [] {
      assert all[0] == a[0] && all[1..] == a[1..] + "\n" + b;
      RunStopsAtLine(a[1..], b);
    }
  }

  /** What is left of s after the status it starts with. */
  function Past(s: string, marker: string): (rest: string)
    requires StatusHere(s, marker)
    ensures |rest| < |s|
  {
    s[|marker| + 1..][|DigitRun(s[|marker| + 1..])|..]
  }

  lemma PastLine(a: string, b: string, marker: string)
    requires '\n' !in marker && StatusHere(a, marker)
    ensures StatusHere(a + "\n" + b, marker) && Past(a + "\n" + b, marker) == Past(a, marker) + "\n" + b
    ensures DigitRun((a + "\n" + b)[|marker| + 1..]) == DigitRun(a[|marker| + 1..])
  {
    var all, k := a + "\n" + b, |marker| + 1;
    HereStaysHere(a, b, marker);
    RunStopsAtLine(a[k..], b);
    assert all[k..] == a[k..] + "\n" + b;
    var run := DigitRun(a[k..]);
    assert all[k..][|run|..] == a[k..][|run|..] + "\n" + b;
  }

  lemma MatchesHere(s: string, marker: string)
    requires StatusHere(s, marker)
    ensures Matches(s, marker) == [DigitRun(s[|marker| + 1..])] + Matches(Past(s, marker), marker)
  {
  }

  lemma MatchesSkip(s: string, marker: string)
    requires s != [] && !StatusHere(s, marker)
    ensures Matches(s, marker) == Matches(s[1..], marker)
  {
  }

  /** No status spans a line break. */
  lemma {:induction false} MatchesByLine(a: string, b: string, marker: string)
    requires '\n' !in marker
    ensures Matches(a + "\n" + b, marker) == Matches(a, marker) + Matches(b, marker)
    decreases |a|
  {
    var all := a + "\n" + b;
    if a != [] && StatusHere(a, marker) {
      PastLine(a, b, marker);
      MatchesHere(a, marker);
      MatchesHere(all, marker);
      MatchesByLine(Past(a, marker), b, marker);
    } else {
      HereStaysHere(a, b, marker);
      MatchesSkip(all, marker);
      if a == [] {
        assert all[1..] == b && Matches([], marker) == [];
      } else {
        assert all[1..] == a[1..] + "\n" + b;
        MatchesSkip(a, marker);
        MatchesByLine(a[1..], b, marker);
      }
    }
  }

  lemma {:induction false} RunOfDigits(s: string)
    requires forall i :: 0 <= i < |s| ==> Digit(s[i])
    ensures DigitRun(s) == s
  {
    if s != [] { RunOfDigits(s[1..]); }
  }

  lemma MatchesOne(marker: string, n: nat)
    ensures Matches(marker + ":" + Digits(n), marker) == [Digits(n)]
  {
    var s := marker + ":" + Digits(n);
    assert s[..|marker| + 1] == marker + ":" && s[|marker| + 1..] == Digits(n);
    assert s[|marker| + 1] == Digits(n)[0];
    RunOfDigits(Digits(n));
    assert Digits(n)[|Digits(n)|..] == [] && [Digits(n)] + [] == [Digits(n)];
  }

  lemma {:induction false} NoStatusNoMatch(s: string, marker: string)
    ensures Matches(s, marker) == [] <==> !HasStatus(s, marker)
    decreases |s|
  {
    if s == [] {
      assert forall i :: 0 <= i <= |s| ==> s[i..] == [];
    } else if StatusHere(s, marker) {
      assert s[0..] == s;
    } else {
      NoStatusNoMatch(s[1..], marker);
      forall i | 0 < i <= |s| ensures s[i..] == s[1..][i - 1..] { }
      if i :| 0 <= i <= |s| && StatusHere(s[i..], marker) {
        assert i > 0 by { assert s[0..] == s; }
        assert StatusHere(s[1..][i - 1..], marker);
      }
      if i :| 0 <= i <= |s[1..]| && StatusHere(s[1..][i..], marker) { assert StatusHere(s[i + 1..], marker); }
    }
  }

  /** On a screen with the line, whatever was there before and with no later status,
      the command is completed and its number is the one printed. */
  lemma LineIsRead(before: string, after: string, marker: string, n: nat)
    requires '\n' !in marker && !HasStatus(after, marker)
    ensures var screen := before + Line(marker, n) + after;
      Completed(screen, marker) && ReadStatus(screen, marker) == Some(n)
  {
    var screen, status := before + Line(marker, n) + after, marker + ":" + Digits(n);
    assert screen == before + "\n" + (status + "\n" + after);
    MatchesByLine(before, status + "\n" + after, marker);
    MatchesByLine(status, after, marker);
    MatchesOne(marker, n);
    NoStatusNoMatch(after, marker);
    var found := Matches(screen, marker);
    assert found == Matches(before, marker) + [Digits(n)];
    NoStatusNoMatch(screen, marker);
    ValueOfDigits(n);
  }

  lemma EngineMarkersPrint(upper: string)
    ensures Verbatim(Marker(upper)) && '\n' !in Marker(upper)
  {
    MaskedIsPlain(upper);
    forall c | c in Marker(upper) ensures MarkerChar(c) {
      if c !in Masked(upper) { assert c in "HERDR_BOTS_RUN_"; }
    }
    forall i | 0 <= i < |Marker(upper)| ensures MarkerChar(Marker(upper)[i]) { assert Marker(upper)[i] in Marker(upper); }
  }

  /** So, for every run, the status a command ends with is the one the engine reads:
      the script prints it, and the screen then shows it. */
  lemma StatusIsReported(binary: string, args: seq<string>, path: string, upper: string, n: nat, before: string, after: string)
    requires !HasStatus(after, Marker(upper))
    ensures var lexed := Shell.Lex(Shell.CommandLine(binary, args, path, Marker(upper)), Shell.Between, []);
      lexed.Ok? &&
      var printed := Run(lexed.lexed.rest, Env(Digits(n), map[]));
      printed.Some? && Completed(before + printed.value + after, Marker(upper)) &&
      ReadStatus(before + printed.value + after, Marker(upper)) == Some(n)
  {
    EngineMarkersPrint(upper);
    TailPrintsStatus(binary, args, path, Marker(upper), n);
    LineIsRead(before, after, Marker(upper), n);
  }
}
