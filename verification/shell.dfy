/** The command line the engine builds, and what a shell makes of it.

    The lexer covers what the engine relies on of the POSIX Shell Command
    Language (IEEE Std 1003.1): the escape character (section 2.2.1), single
    quotes (2.2.2) and token recognition (2.3), up to the end of the first
    command. It gives up on every character whose meaning it would have to
    interpret, so what it accepts contains no expansion. */
module Shell {

  const Apostrophe: char := '\''

  /** shellQuote's replacement of each apostrophe. */
  function Escaped(s: string): string {
    if s == [] then []
    else (if s[0] == Apostrophe then "'\\''" else [s[0]]) + Escaped(s[1..])
  }

  function Quote(s: string): string {
    "'" + Escaped(s) + "'"
  }

  function Quoted(args: seq<string>): string {
    if args == [] then "" else " " + Quote(args[0]) + Quoted(args[1..])
  }

  function Tail(marker: string): string {
    " status=$?; printf '\\n" + marker + ":%d\\n' \"$status\""
  }

  /** The redirection that ends the first command of the script. */
  function Ending(path: string, rest: string): string {
    " < " + Quote(path) + ";" + rest
  }

  function CommandLine(binary: string, args: seq<string>, promptPath: string, marker: string): string {
    Quote(binary) + " -p" + Quoted(args) + Ending(promptPath, Tail(marker))
  }

  /** What StartCommand has typed into the pane's shell. */
  function Typed(command: string): string {
    "sh -c " + Quote(command)
  }

  // --- The shell --------------------------------------------------------

  datatype Token = Word(text: string) | Redirect

  /** The tokens of the first command, and what follows its terminator. */
  datatype Lexed = Lexed(tokens: seq<Token>, rest: string)

  datatype Mode = Between | Bare | InQuotes

  datatype Result = Unlexed | Ok(lexed: Lexed)

  predicate Ordinary(c: char) {
    'a' <= c <= 'z' || 'A' <= c <= 'Z' || '0' <= c <= '9' || c == '-' || c == '_' || c == '.' || c == '/'
  }

  function Emit(mode: Mode, word: string): seq<Token> {
    if mode.Bare? then [Word(word)] else []
  }

  function Before(tokens: seq<Token>, r: Result): Result {
    if r.Ok? then Ok(Lexed(tokens + r.lexed.tokens, r.lexed.rest)) else r
  }

  /** Lexing s, having read `word` of the current word in this mode. */
  function Lex(s: string, mode: Mode, word: string): Result {
    if s == [] then if mode.InQuotes? then Unlexed else Ok(Lexed(Emit(mode, word), []))
    else
      var c := s[0];
      if mode.InQuotes? then
        if c == Apostrophe then Lex(s[1..], Bare, word) else Lex(s[1..], InQuotes, word + [c])
      else
        var sofar := if mode.Bare? then word else [];
        if c == Apostrophe then Lex(s[1..], InQuotes, sofar)
        else if c == '\\' then
          if |s| == 1 then Unlexed
          else if s[1] == '\n' then Lex(s[2..], mode, word)
          else Lex(s[2..], Bare, sofar + [s[1]])
        else if c == ' ' || c == '\t' then Before(Emit(mode, word), Lex(s[1..], Between, []))
        else if c == ';' || c == '\n' then Ok(Lexed(Emit(mode, word), s[1..]))
        else if c == '<' then
          if mode.Bare? || (|s| > 1 && s[1] in "<>&") then Unlexed else Before([Redirect], Lex(s[1..], Between, []))
        else if Ordinary(c) then Lex(s[1..], Bare, sofar + [c])
        else Unlexed
  }

  // --- Quoting ----------------------------------------------------------

  lemma StepQuoted(c: char, t: string, word: string)
    ensures Lex([c] + t, InQuotes, word) == if c == Apostrophe then Lex(t, Bare, word) else Lex(t, InQuotes, word + [c])
  {
    assert ([c] + t)[0] == c && ([c] + t)[1..] == t;
  }

  lemma StepOpen(t: string, mode: Mode, word: string)
    requires !mode.InQuotes?
    ensures Lex([Apostrophe] + t, mode, word) == Lex(t, InQuotes, if mode.Bare? then word else [])
  {
    assert ([Apostrophe] + t)[1..] == t;
  }

  lemma StepEscape(t: string, word: string)
    ensures Lex(['\\', Apostrophe] + t, Bare, word) == Lex(t, Bare, word + [Apostrophe])
  {
    var s := ['\\', Apostrophe] + t;
    assert s[0] == '\\' && s[1] == Apostrophe && s[2..] == t;
  }

  lemma StepOrdinary(c: char, t: string, mode: Mode, word: string)
    requires Ordinary(c) && !mode.InQuotes?
    ensures Lex([c] + t, mode, word) == Lex(t, Bare, (if mode.Bare? then word else []) + [c])
  {
    assert ([c] + t)[0] == c && ([c] + t)[1..] == t;
  }

  /** A word is finished by a blank. */
  lemma StepBlank(t: string, mode: Mode, word: string)
    requires !mode.InQuotes?
    ensures Lex([' '] + t, mode, word) == Before(Emit(mode, word), Lex(t, Between, []))
  {
    assert ([' '] + t)[0] == ' ' && ([' '] + t)[1..] == t;
  }

  lemma StepRedirect(t: string)
    ensures Lex(['<', ' '] + t, Between, []) == Before([Redirect], Lex([' '] + t, Between, []))
  {
    assert (['<', ' '] + t)[1..] == [' '] + t;
  }

  lemma StepEnd(t: string, word: string)
    ensures Lex([';'] + t, Bare, word) == Ok(Lexed([Word(word)], t))
  {
    assert ([';'] + t)[0] == ';' && ([';'] + t)[1..] == t;
  }

  lemma EscapedPlain(s: string, t: string)
    requires s != [] && s[0] != Apostrophe
    ensures Escaped(s) + "'" + t == [s[0]] + (Escaped(s[1..]) + "'" + t)
  {
  }

  lemma EscapedApostrophe(s: string, t: string)
    requires s != [] && s[0] == Apostrophe
    ensures Escaped(s) + "'" + t ==
            [Apostrophe] + (['\\', Apostrophe] + ([Apostrophe] + (Escaped(s[1..]) + "'" + t)))
  {
  }

  /** Out of the quotes, an escaped apostrophe, and in again. */
  lemma LexApostrophe(t: string, word: string)
    ensures Lex([Apostrophe] + (['\\', Apostrophe] + ([Apostrophe] + t)), InQuotes, word) ==
            Lex(t, InQuotes, word + [Apostrophe])
  {
    StepQuoted(Apostrophe, ['\\', Apostrophe] + ([Apostrophe] + t), word);
    StepEscape([Apostrophe] + t, word);
    StepOpen(t, Bare, word + [Apostrophe]);
  }

  /** One character of the quoted string is read as itself. */
  lemma LexOne(s: string, t: string, word: string)
    requires s != []
    ensures Lex(Escaped(s) + "'" + t, InQuotes, word) == Lex(Escaped(s[1..]) + "'" + t, InQuotes, word + [s[0]])
  {
    var rest := Escaped(s[1..]) + "'" + t;
    if s[0] == Apostrophe {
      EscapedApostrophe(s, t);
      LexApostrophe(rest, word);
    } else {
      EscapedPlain(s, t);
      StepQuoted(s[0], rest, word);
    }
  }

  lemma {:induction false} LexEscaped(s: string, t: string, word: string)
    ensures Lex(Escaped(s) + "'" + t, InQuotes, word) == Lex(t, Bare, word + s)
  {
    if s == [] {
      StepQuoted(Apostrophe, t, word);
      assert Escaped(s) + "'" + t == [Apostrophe] + t && word + s == word;
    } else {
      LexOne(s, t, word);
      LexEscaped(s[1..], t, word + [s[0]]);
      assert word + [s[0]] + s[1..] == word + s;
    }
  }

  /** Lexing a quoted string reads exactly that string into the current word,
      whatever it contains and whatever follows. */
  lemma LexQuote(s: string, t: string)
    ensures Lex(Quote(s) + t, Between, []) == Lex(t, Bare, s)
  {
    assert Quote(s) + t == [Apostrophe] + (Escaped(s) + "'" + t);
    StepOpen(Escaped(s) + "'" + t, Between, []);
    LexEscaped(s, t, []);
    assert [] + s == s;
  }

  /** So a quoted string is the one word it quotes. */
  lemma QuoteIsOneWord(s: string)
    ensures Lex(Quote(s), Between, []) == Ok(Lexed([Word(s)], []))
  {
    LexQuote(s, []);
    assert Quote(s) + [] == Quote(s);
  }

  // --- The two layers ---------------------------------------------------

  function Words(args: seq<string>): seq<Token> {
    if args == [] then [] else [Word(args[0])] + Words(args[1..])
  }

  lemma EndingParts(path: string, rest: string)
    ensures Ending(path, rest) == [' '] + (['<', ' '] + (Quote(path) + ([';'] + rest)))
  {
  }

  /** The redirection, the prompt path and the end of the command. */
  lemma LexEnding(word: string, path: string, rest: string)
    ensures Lex(Ending(path, rest), Bare, word) == Ok(Lexed([Word(word)] + [Redirect, Word(path)], rest))
  {
    var last := Quote(path) + ([';'] + rest);
    EndingParts(path, rest);
    StepBlank(['<', ' '] + last, Bare, word);
    StepRedirect(last);
    StepBlank(last, Between, []);
    LexQuote(path, [';'] + rest);
    StepEnd(rest, path);
    assert Before([], Lex(last, Between, [])) == Ok(Lexed([Word(path)], rest)) by { assert [] + [Word(path)] == [Word(path)]; }
    assert [Redirect] + [Word(path)] == [Redirect, Word(path)];
  }

  lemma ArgumentParts(args: seq<string>, more: string)
    requires args != []
    ensures Quoted(args) + more == [' '] + (Quote(args[0]) + (Quoted(args[1..]) + more))
  {
  }

  lemma {:induction false} LexArguments(args: seq<string>, word: string, path: string, rest: string)
    ensures Lex(Quoted(args) + Ending(path, rest), Bare, word) ==
            Ok(Lexed([Word(word)] + Words(args) + [Redirect, Word(path)], rest))
    decreases |args|
  {
    if args == [] {
      LexEnding(word, path, rest);
      assert Quoted(args) + Ending(path, rest) == Ending(path, rest);
      assert [Word(word)] + Words(args) == [Word(word)];
    } else {
      var more := Quoted(args[1..]) + Ending(path, rest);
      ArgumentParts(args, Ending(path, rest));
      StepBlank(Quote(args[0]) + more, Bare, word);
      LexQuote(args[0], more);
      LexArguments(args[1..], args[0], path, rest);
      assert [Word(word)] + ([Word(args[0])] + Words(args[1..]) + [Redirect, Word(path)]) ==
             [Word(word)] + Words(args) + [Redirect, Word(path)];
    }
  }

  /** A word of two ordinary characters, as in `sh`, `-c` and `-p`. */
  lemma LexTwo(a: char, b: char, t: string)
    requires Ordinary(a) && Ordinary(b)
    ensures Lex([a, b] + t, Between, []) == Lex(t, Bare, [a, b])
  {
    assert [a, b] + t == [a] + ([b] + t) && [] + [a] == [a] && [a] + [b] == [a, b];
    StepOrdinary(a, [b] + t, Between, []);
    StepOrdinary(b, t, Bare, [a]);
  }

  lemma CommandLineParts(binary: string, args: seq<string>, path: string, marker: string)
    ensures CommandLine(binary, args, path, marker) ==
            Quote(binary) + ([' '] + ("-p" + (Quoted(args) + Ending(path, Tail(marker)))))
  {
  }

  /** The script splits into exactly the binary, -p, the arguments and the
      redirected prompt path, each byte for byte, with the status line after. */
  lemma CommandLineSplits(binary: string, args: seq<string>, path: string, marker: string)
    ensures Lex(CommandLine(binary, args, path, marker), Between, []) ==
            Ok(Lexed([Word(binary), Word("-p")] + Words(args) + [Redirect, Word(path)], Tail(marker)))
  {
    var after := Quoted(args) + Ending(path, Tail(marker));
    CommandLineParts(binary, args, path, marker);
    LexQuote(binary, [' '] + ("-p" + after));
    StepBlank("-p" + after, Bare, binary);
    LexTwo('-', 'p', after);
    LexArguments(args, "-p", path, Tail(marker));
    assert [Word(binary)] + ([Word("-p")] + Words(args) + [Redirect, Word(path)]) ==
           [Word(binary), Word("-p")] + Words(args) + [Redirect, Word(path)];
  }

  lemma LexShDashC(t: string)
    ensures Lex("sh -c " + t, Between, []) == Before([Word("sh")], Before([Word("-c")], Lex(t, Between, [])))
  {
    assert "sh -c " + t == "sh" + ([' '] + ("-c" + ([' '] + t)));
    LexTwo('s', 'h', [' '] + ("-c" + ([' '] + t)));
    StepBlank("-c" + ([' '] + t), Bare, "sh");
    LexTwo('-', 'c', [' '] + t);
    StepBlank(t, Bare, "-c");
  }

  /** Through both layers: the pane's shell hands sh -c the script unchanged, and
      that shell runs exactly the command that was asked for. */
  lemma CommandSurvivesBothShells(binary: string, args: seq<string>, path: string, marker: string)
    ensures var script := CommandLine(binary, args, path, marker);
      Lex(Typed(script), Between, []) == Ok(Lexed([Word("sh"), Word("-c"), Word(script)], [])) &&
      Lex(script, Between, []) ==
        Ok(Lexed([Word(binary), Word("-p")] + Words(args) + [Redirect, Word(path)], Tail(marker)))
  {
    var script := CommandLine(binary, args, path, marker);
    LexShDashC(Quote(script));
    QuoteIsOneWord(script);
    CommandLineSplits(binary, args, path, marker);
  }
}
