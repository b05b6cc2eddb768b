/** The string primitives the widget relies on: `toLowerCase`, `includes`,
    `trim`, `split(" ")[0]` and `join("\n")`, each stated over `seq<char>`. */
module Text {

  // ---------------------------------------------------------------------------
  // Lower-casing (ASCII)
  // ---------------------------------------------------------------------------

  predicate IsUpper(c: char) { 'A' <= c <= 'Z' }

  function LowerChar(c: char): (d: char)
    ensures !IsUpper(d)
    ensures IsUpper(c) ==> d as int == c as int + 32
    ensures !IsUpper(c) ==> d == c
  {
    if IsUpper(c) then (c as int + 32) as char else c
  }

  /** `s.toLowerCase()`, restricted to the ASCII letters. */
  function Lower(s: string): string
  {
    seq(|s|, i requires 0 <= i < |s| => LowerChar(s[i]))
  }

  predicate NoUpper(s: string) { forall i :: 0 <= i < |s| ==> !IsUpper(s[i]) }

  /** Lower-casing leaves no upper-case letter behind, and changes nothing
      in a text that has none: together, lower-casing is idempotent. */
  lemma LowerFixesLowerCase(s: string)
    ensures NoUpper(Lower(s))
    ensures NoUpper(s) ==> Lower(s) == s
    ensures Lower(Lower(s)) == Lower(s)
  {
    var l := Lower(s);
    forall i | 0 <= i < |l| ensures Lower(l)[i] == l[i] {
      assert !IsUpper(l[i]);
    }
  }

  /** Lower-casing commutes with taking a prefix. */
  lemma LowerPrefix(s: string, n: nat)
    requires n <= |s|
    ensures Lower(s[..n]) == Lower(s)[..n]
  {
  }

  // ---------------------------------------------------------------------------
  // Substring search: `text.includes(pattern)`
  // ---------------------------------------------------------------------------

  /** `pattern` occurs in `text` starting at index `i`. */
  predicate MatchAt(text: string, pattern: string, i: nat)
  {
    i + |pattern| <= |text| && text[i..i + |pattern|] == pattern
  }

  /** `text.includes(pattern)`; the empty pattern occurs everywhere. */
  predicate Occurs(text: string, pattern: string)
  {
    exists i: nat | i <= |text| :: MatchAt(text, pattern, i)
  }

  /** Some keyword of `keys` occurs in `text` (the `||` of `includes` tests). */
  predicate AnyOccurs(text: string, keys: seq<string>)
  {
    exists k | 0 <= k < |keys| :: Occurs(text, keys[k])
  }

  /** A text contains every prefix of every pattern it contains. */
  lemma OccursPrefix(text: string, pattern: string, n: nat)
    requires n <= |pattern| && Occurs(text, pattern)
    ensures Occurs(text, pattern[..n])
  {
    var i: nat :| i <= |text| && MatchAt(text, pattern, i);
    assert text[i..i + n] == text[i..i + |pattern|][..n];
    assert MatchAt(text, pattern[..n], i);
  }

  /** A text holding `outer` also holds every piece of `outer`. */
  lemma OccursInfix(text: string, outer: string, pattern: string, j: nat)
    requires Occurs(text, outer) && MatchAt(outer, pattern, j)
    ensures Occurs(text, pattern)
  {
    var i: nat :| i <= |text| && MatchAt(text, outer, i);
    var window := text[i..i + |outer|];
    assert window == outer;
    assert outer[j..j + |pattern|] == pattern;
    forall k | 0 <= k < |pattern| ensures text[i + j + k] == pattern[k] {
      assert window[j + k] == text[i + j + k];
    }
    assert MatchAt(text, pattern, i + j);
  }

  /** A pattern does not occur at `i` when one of its characters differs
      from the text's character at the same place. */
  lemma MismatchAt(text: string, pattern: string, i: nat, k: nat)
    requires k < |pattern| && i + |pattern| <= |text| && text[i + k] != pattern[k]
    ensures !MatchAt(text, pattern, i)
  {
  }

  /** A pattern holding a character the text lacks does not occur in it. */
  lemma AbsentChar(text: string, pattern: string, j: nat)
    requires j < |pattern| && pattern[j] !in text
    ensures !Occurs(text, pattern)
  {
  }

  /** A pattern holding two adjacent characters that are never adjacent in
      the text does not occur in it. */
  lemma AbsentPair(text: string, pattern: string, j: nat)
    requires j + 1 < |pattern|
    requires forall i :: 0 <= i < |text| - 1 ==> !(text[i] == pattern[j] && text[i + 1] == pattern[j + 1])
    ensures !Occurs(text, pattern)
  {
    forall i: nat | i <= |text| ensures !MatchAt(text, pattern, i) {
      if i + |pattern| <= |text| {
        var w := text[i..i + |pattern|];
        assert w[j] == text[i + j] && w[j + 1] == text[i + j + 1];
      }
    }
  }

  /** No keyword of `keys` occurs when each starts with a character the text lacks. */
  lemma NoneOccurByFirstChar(text: string, keys: seq<string>)
    requires forall k :: 0 <= k < |keys| ==> |keys[k]| > 0 && keys[k][0] !in text
    ensures !AnyOccurs(text, keys)
  {
    forall k | 0 <= k < |keys| ensures !Occurs(text, keys[k]) {
      AbsentChar(text, keys[k], 0);
    }
  }

  // ---------------------------------------------------------------------------
  // `split(" ")[0]`
  // ---------------------------------------------------------------------------

  /** `s.split(" ")[0]`: the text before the first space, or all of `s`. */
  function FirstWord(s: string): (w: string)
    ensures |w| <= |s| && w == s[..|w|]
    ensures ' ' !in w
    ensures |w| == |s| || s[|w|] == ' '
  {
    if s == [] || s[0] == ' ' then [] else [s[0]] + FirstWord(s[1..])
  }

  // ---------------------------------------------------------------------------
  // `join("\n")` and its inverse
  // ---------------------------------------------------------------------------

  /** `lines.join("\n")`; the empty list joins to the empty text. */
  function Join(lines: seq<string>): string
  {
    if |lines| == 0 then []
    else if |lines| == 1 then lines[0]
    else lines[0] + "\n" + Join(lines[1..])
  }

  /** `s.split("\n")`: always at least one piece, none holding a newline. */
  function SplitLines(s: string): (lines: seq<string>)
    ensures |lines| >= 1
    ensures forall k :: 0 <= k < |lines| ==> '\n' !in lines[k]
  {
    if s == [] then [[]]
    else
      var rest := SplitLines(s[1..]);
      if s[0] == '\n' then [[]] + rest else [[s[0]] + rest[0]] + rest[1..]
  }

  predicate SingleLine(s: string) { '\n' !in s }

  /** Joining two texts without a line break gives a text without one. */
  lemma SingleLineAppend(a: string, b: string)
    requires SingleLine(a) && SingleLine(b)
    ensures SingleLine(a + b)
  {
  }

  lemma {:induction false} SplitSingleLine(a: string, b: string)
    requires SingleLine(a)
    ensures SplitLines(a) == [a]
    ensures SplitLines(a + "\n" + b) == [a] + SplitLines(b)
    decreases |a|
  {
    if a == [] {
      assert a + "\n" + b == ['\n'] + b;
    } else {
      assert (a + "\n" + b)[1..] == a[1..] + "\n" + b;
      assert a[1..] + [] == a[1..];
      SplitSingleLine(a[1..], b);
      assert [a[0]] + a[1..] == a;
    }
  }

  /** Splitting a joined list of single-line texts gives the list back. */
  lemma {:induction false} SplitJoin(lines: seq<string>)
    requires |lines| >= 1
    requires forall k :: 0 <= k < |lines| ==> SingleLine(lines[k])
    ensures SplitLines(Join(lines)) == lines
    decreases |lines|
  {
    if |lines| == 1 {
      SplitSingleLine(lines[0], []);
    } else {
      var rest := lines[1..];
      assert forall k :: 0 <= k < |rest| ==> SingleLine(rest[k]) by {
        forall k | 0 <= k < |rest| ensures SingleLine(rest[k]) {
          assert rest[k] == lines[k + 1];
        }
      }
      assert Join(lines) == lines[0] + "\n" + Join(rest);
      SplitSingleLine(lines[0], Join(rest));
      SplitJoin(rest);
      assert lines == [lines[0]] + rest;
    }
  }

  lemma JoinTwo(a: string, b: string)
    ensures Join([a, b]) == a + "\n" + b
  {
    var xs := [a, b];
    assert xs[1..] == [b];
  }

  lemma JoinCons(a: string, rest: seq<string>)
    requires |rest| >= 1
    ensures Join([a] + rest) == a + "\n" + Join(rest)
  {
    assert ([a] + rest)[1..] == rest;
  }

  /** Joining two non-empty lists puts one newline between their joins. */
  lemma {:induction false} JoinAppend(a: seq<string>, b: seq<string>)
    requires |a| >= 1 && |b| >= 1
    ensures Join(a + b) == Join(a) + "\n" + Join(b)
    decreases |a|
  {
    if |a| == 1 {
      assert (a + b)[1..] == b;
    } else {
      assert (a + b)[1..] == a[1..] + b;
      JoinAppend(a[1..], b);
    }
  }

  // ---------------------------------------------------------------------------
  // `trim()`
  // ---------------------------------------------------------------------------

  /** The ECMAScript WhiteSpace and LineTerminator code points, which `trim` removes. */
  predicate IsJsWhitespace(c: char)
  {
    c == '\t' || c == '\n' || c == '\U{000B}' || c == '\U{000C}' || c == '\r' || c == ' '
    || c == '\U{00A0}' || c == '\U{1680}' || ('\U{2000}' <= c <= '\U{200A}')
    || c == '\U{2028}' || c == '\U{2029}' || c == '\U{202F}' || c == '\U{205F}'
    || c == '\U{3000}' || c == '\U{FEFF}'
  }

  predicate Blank(s: string) { forall i :: 0 <= i < |s| ==> IsJsWhitespace(s[i]) }

  /** Drops leading whitespace: the result is a suffix of `s` that is empty or
      starts with a non-whitespace character, and everything dropped was whitespace. */
  function TrimStart(s: string): (r: string)
    ensures |r| <= |s| && r == s[|s| - |r|..]
    ensures Blank(s[..|s| - |r|])
    ensures r == [] || !IsJsWhitespace(r[0])
  {
    if s != [] && IsJsWhitespace(s[0]) then TrimStart(s[1..]) else s
  }

  /** Drops trailing whitespace: the result is a prefix of `s` that is empty or
      ends with a non-whitespace character, and everything dropped was whitespace. */
  function TrimEnd(s: string): (r: string)
    ensures |r| <= |s| && r == s[..|r|]
    ensures Blank(s[|r|..])
    ensures r == [] || !IsJsWhitespace(r[|r| - 1])
  {
    if s != [] && IsJsWhitespace(s[|s| - 1]) then TrimEnd(s[..|s| - 1]) else s
  }

  /** `s.trim()`. */
  function Trim(s: string): string
  {
    TrimStart(TrimEnd(s))
  }

  /** `!s.trim()` holds exactly when every character of `s` is whitespace. */
  lemma TrimEmptyIffBlank(s: string)
    ensures Trim(s) == [] <==> Blank(s)
  {
    var e := TrimEnd(s);
    if Blank(s) {
    } else {
      var i :| 0 <= i < |s| && !IsJsWhitespace(s[i]);
      assert i < |e| by {
        assert forall k :: |e| <= k < |s| ==> s[k] == s[|e|..][k - |e|];
      }
    }
  }
}
