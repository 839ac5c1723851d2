/** Splitting text at a separator, and putting it back together. */
module Text {

  /** One more character in front of split text. */
  function Front(c: char, parts: seq<string>, sep: char): (all: seq<string>)
    requires parts != []
    ensures all != []
  {
    if c == sep then [[]] + parts else [[c] + parts[0]] + parts[1..]
  }

  /** strings.Split with a one-character separator: never empty. */
  function Split(s: string, sep: char): (parts: seq<string>)
    ensures parts != []
  {
    if s == [] then [[]] else Front(s[0], Split(s[1..], sep), sep)
  }

  function Join(parts: seq<string>, sep: char): string {
    if parts == [] then []
    else if |parts| == 1 then parts[0]
    else parts[0] + [sep] + Join(parts[1..], sep)
  }

  predicate Without(parts: seq<string>, sep: char) {
    forall i :: 0 <= i < |parts| ==> sep !in parts[i]
  }

  lemma {:induction false} SplitWithout(s: string, sep: char)
    ensures Without(Split(s, sep), sep)
  {
    if s != [] {
      SplitWithout(s[1..], sep);
      var rest := Split(s[1..], sep);
      assert sep !in rest[0];
    }
  }

  lemma {:induction false} JoinSplit(s: string, sep: char)
    ensures Join(Split(s, sep), sep) == s
  {
    if s != [] {
      JoinSplit(s[1..], sep);
      var rest := Split(s[1..], sep);
      if s[0] == sep {
        assert ([[]] + rest)[1..] == rest;
      } else {
        assert ([[s[0]] + rest[0]] + rest[1..])[1..] == rest[1..];
        if |rest| == 1 { assert s == [s[0]] + s[1..]; }
      }
    }
  }

  lemma {:induction false} SplitPlain(s: string, sep: char)
    requires sep !in s
    ensures Split(s, sep) == [s]
  {
    if s != [] {
      SplitPlain(s[1..], sep);
      assert s == [s[0]] + s[1..];
    }
  }

  lemma FrontOfSum(c: char, a: seq<string>, b: seq<string>, sep: char)
    requires a != []
    ensures Front(c, a + b, sep) == Front(c, a, sep) + b
  {
    assert (a + b)[0] == a[0] && (a + b)[1..] == a[1..] + b;
  }

  /** Splitting distributes over a separator. */
  lemma {:induction false} SplitAt(a: string, b: string, sep: char)
    ensures Split(a + [sep] + b, sep) == Split(a, sep) + Split(b, sep)
  {
    var s := a + [sep] + b;
    if a == [] {
      assert s[0] == sep && s[1..] == b;
    } else {
      assert s[0] == a[0] && s[1..] == a[1..] + [sep] + b;
      SplitAt(a[1..], b, sep);
      FrontOfSum(a[0], Split(a[1..], sep), Split(b, sep), sep);
    }
  }

  lemma {:induction false} SplitJoin(parts: seq<string>, sep: char)
    requires parts != [] && Without(parts, sep)
    ensures Split(Join(parts, sep), sep) == parts
  {
    SplitPlain(parts[0], sep);
    if |parts| > 1 {
      assert Without(parts[1..], sep);
      SplitJoin(parts[1..], sep);
      SplitAt(parts[0], Join(parts[1..], sep), sep);
    }
  }

  predicate StartsWith(s: string, prefix: string) {
    prefix <= s
  }

  predicate EndsWith(s: string, c: char) {
    s != [] && s[|s| - 1] == c
  }

  /** A string starts with d and a separator exactly when the parts of d are a
      proper prefix of its own. */
  lemma PrefixIsPartwise(s: string, d: string, sep: char)
    ensures StartsWith(s, d + [sep]) <==> Split(d, sep) < Split(s, sep)
  {
    if StartsWith(s, d + [sep]) {
      assert s == d + [sep] + s[|d| + 1..];
      SplitAt(d, s[|d| + 1..], sep);
    }
    if Split(d, sep) < Split(s, sep) {
      var parts, n := Split(s, sep), |Split(d, sep)|;
      SplitWithout(s, sep);
      JoinSplit(s, sep);
      JoinSplit(d, sep);
      JoinAt(parts[..n], parts[n..], sep);
      assert parts == parts[..n] + parts[n..] && parts[..n] == Split(d, sep);
      assert s == d + [sep] + Join(parts[n..], sep);
    }
  }

  lemma {:induction false} JoinAt(a: seq<string>, b: seq<string>, sep: char)
    requires a != [] && b != []
    ensures Join(a + b, sep) == Join(a, sep) + [sep] + Join(b, sep)
  {
    assert (a + b)[1..] == a[1..] + b;
    if |a| > 1 { JoinAt(a[1..], b, sep); } else { assert a[1..] + b == b; }
  }
}
