/**
 * String helpers with the semantics of the JavaScript built-ins the extension
 * relies on: `trim`, `startsWith`/`endsWith`, `includes`, `split`, `join`,
 * `slice` and ASCII case conversion. A JavaScript string is a `seq<char>`.
 */
module Text {

  // ---------------------------------------------------------------- trim

  /** The characters `String.prototype.trim` removes: ECMAScript WhiteSpace and LineTerminator. */
  predicate IsWhitespace(c: char) {
    || c == '\t' || c == '\n' || c == '\U{000B}' || c == '\U{000C}' || c == '\r' || c == ' '
    || c == '\U{00A0}' || c == '\U{1680}' || ('\U{2000}' <= c <= '\U{200A}')
    || c == '\U{2028}' || c == '\U{2029}' || c == '\U{202F}' || c == '\U{205F}'
    || c == '\U{3000}' || c == '\U{FEFF}'
  }

  /** A string with no whitespace at either end (what `trim` returns). */
  predicate IsTrimmed(s: string) {
    s == [] || (!IsWhitespace(s[0]) && !IsWhitespace(s[|s| - 1]))
  }

  predicate AllWhitespace(s: string) {
    forall i :: 0 <= i < |s| ==> IsWhitespace(s[i])
  }

  /** `s.trimStart()`: the longest suffix of `s` that does not start with whitespace. */
  function TrimStart(s: string): (r: string)
    ensures |r| <= |s|
    ensures r == [] || !IsWhitespace(r[0])
  {
    if |s| > 0 && IsWhitespace(s[0]) then TrimStart(s[1..]) else s
  }

  /** `s.trimEnd()`: the longest prefix of `s` that does not end with whitespace. */
  function TrimEnd(s: string): (r: string)
    ensures |r| <= |s|
    ensures r == [] || !IsWhitespace(r[|r| - 1])
  {
    if |s| > 0 && IsWhitespace(s[|s| - 1]) then TrimEnd(s[..|s| - 1]) else s
  }

  /** `s.trim()`. */
  function Trim(s: string): (r: string)
    ensures IsTrimmed(r)
    ensures |r| <= |s|
  {
    var t := TrimStart(s);
    TrimEndPrefix(t);
    TrimEnd(t)
  }

  /** `trimStart` drops a prefix. */
  lemma {:induction false} TrimStartSuffix(s: string)
    ensures TrimStart(s) == s[|s| - |TrimStart(s)|..]
    decreases |s|
  {
    if |s| > 0 && IsWhitespace(s[0]) {
      TrimStartSuffix(s[1..]);
    }
  }

  /** `trimEnd` drops a suffix. */
  lemma {:induction false} TrimEndPrefix(s: string)
    ensures TrimEnd(s) == s[..|TrimEnd(s)|]
    decreases |s|
  {
    if |s| > 0 && IsWhitespace(s[|s| - 1]) {
      TrimEndPrefix(s[..|s| - 1]);
    }
  }

  /** `trim` returns a slice of its argument. */
  lemma TrimSlice(s: string) returns (i: nat)
    ensures i + |Trim(s)| <= |s| && Trim(s) == s[i..i + |Trim(s)|]
  {
    var t := TrimStart(s);
    TrimStartSuffix(s);
    TrimEndPrefix(t);
    i := |s| - |t|;
  }

  /** `trimStart` drops whitespace only. */
  lemma {:induction false} TrimStartDropsWhitespace(s: string)
    ensures forall k :: 0 <= k < |s| - |TrimStart(s)| ==> IsWhitespace(s[k])
    decreases |s|
  {
    if |s| > 0 && IsWhitespace(s[0]) {
      TrimStartDropsWhitespace(s[1..]);
      forall k | 1 <= k < |s| - |TrimStart(s)| ensures IsWhitespace(s[k]) {
        assert s[k] == s[1..][k - 1];
      }
    }
  }

  /** `trimEnd` drops whitespace only. */
  lemma {:induction false} TrimEndDropsWhitespace(s: string)
    ensures forall k :: |TrimEnd(s)| <= k < |s| ==> IsWhitespace(s[k])
    decreases |s|
  {
    if |s| > 0 && IsWhitespace(s[|s| - 1]) {
      TrimEndDropsWhitespace(s[..|s| - 1]);
      forall k | |TrimEnd(s)| <= k < |s| - 1 ensures IsWhitespace(s[k]) {
        assert s[k] == s[..|s| - 1][k];
      }
    }
  }

  /** An occurrence that starts with a non-whitespace character survives `trimStart`. */
  lemma OccursAfterTrimStart(s: string, n: string, i: int) returns (j: int)
    requires n != [] && !IsWhitespace(n[0]) && OccursAt(s, n, i)
    ensures OccursAt(TrimStart(s), n, j)
  {
    var t := TrimStart(s);
    TrimStartSuffix(s);
    TrimStartDropsWhitespace(s);
    var p := |s| - |t|;
    assert s[i] == n[0];
    j := i - p;
    assert t[j..j + |n|] == s[i..i + |n|];
  }

  /** An occurrence that ends with a non-whitespace character survives `trimEnd`. */
  lemma OccursAfterTrimEnd(t: string, n: string, j: int)
    requires n != [] && !IsWhitespace(n[|n| - 1]) && OccursAt(t, n, j)
    ensures OccursAt(TrimEnd(t), n, j)
  {
    var u := TrimEnd(t);
    TrimEndPrefix(t);
    TrimEndDropsWhitespace(t);
    assert t[j + |n| - 1] == n[|n| - 1];
    assert u[j..j + |n|] == t[j..j + |n|];
  }

  /**
   * A non-empty trimmed string found in `s` is found in `s.trim()`: its first
   * and last characters are not whitespace, so trimming cannot cut into it.
   */
  lemma ContainsTrim(s: string, n: string)
    requires n != [] && IsTrimmed(n) && Contains(s, n)
    ensures Contains(Trim(s), n)
  {
    var i :| OccursAt(s, n, i);
    var j := OccursAfterTrimStart(s, n, i);
    OccursAfterTrimEnd(TrimStart(s), n, j);
  }

  /** Lower-casing keeps a trimmed string trimmed: it maps no character to or from whitespace. */
  lemma ToLowerTrimmed(s: string)
    requires IsTrimmed(s)
    ensures IsTrimmed(ToLower(s))
  {
  }

  /** A character that is not in a string is not in its trimmed form. */
  lemma TrimKeepsOut(s: string, c: char)
    requires c !in s
    ensures c !in Trim(s)
  {
    var i := TrimSlice(s);
    assert forall k :: 0 <= k < |Trim(s)| ==> Trim(s)[k] == s[i + k];
  }

  /** `trim` gives the empty string exactly for the strings made only of whitespace. */
  lemma TrimEmpty(s: string)
    ensures Trim(s) == [] <==> AllWhitespace(s)
  {
    TrimStartEmpty(s);
    var t := TrimStart(s);
    if t != [] {
      TrimEndKeepsHead(t);
    }
  }

  /** `trimStart` empties exactly the all-whitespace strings. */
  lemma {:induction false} TrimStartEmpty(s: string)
    ensures TrimStart(s) == [] <==> AllWhitespace(s)
    decreases |s|
  {
    if |s| > 0 {
      TrimStartEmpty(s[1..]);
      assert AllWhitespace(s) <==> IsWhitespace(s[0]) && AllWhitespace(s[1..]) by {
        if IsWhitespace(s[0]) && AllWhitespace(s[1..]) {
          forall i | 0 < i < |s| ensures IsWhitespace(s[i]) {
            assert s[i] == s[1..][i - 1];
          }
        }
      }
    }
  }

  /** `trimEnd` keeps a first character that is not whitespace. */
  lemma {:induction false} TrimEndKeepsHead(t: string)
    requires t != [] && !IsWhitespace(t[0])
    ensures TrimEnd(t) != []
    decreases |t|
  {
    if IsWhitespace(t[|t| - 1]) {
      var u := t[..|t| - 1];
      assert u[0] == t[0];
      TrimEndKeepsHead(u);
    }
  }

  /** Trimming leaves a trimmed string unchanged; in particular `Trim` is idempotent. */
  lemma TrimTrimmed(s: string)
    requires IsTrimmed(s)
    ensures Trim(s) == s
  {
  }

  /** Appending a non-whitespace character to a trimmed, non-empty string keeps it trimmed. */
  lemma TrimmedAppend(s: string, c: char)
    requires IsTrimmed(s) && s != [] && !IsWhitespace(c)
    ensures IsTrimmed(s + [c])
  {
  }

  // ---------------------------------------------------------------- prefixes, suffixes, substrings

  /** `s.startsWith(p)`. */
  predicate StartsWith(s: string, p: string) {
    |p| <= |s| && s[..|p|] == p
  }

  /** `s.endsWith(c)` for a one-character argument. */
  predicate EndsWith(s: string, c: char) {
    |s| > 0 && s[|s| - 1] == c
  }

  /** `n` occurs in `h` at position `i`. */
  predicate OccursAt(h: string, n: string, i: int) {
    0 <= i && i + |n| <= |h| && h[i..i + |n|] == n
  }

  /** `h.includes(n)`. */
  function Contains(h: string, n: string): (r: bool)
    ensures r <==> exists i :: OccursAt(h, n, i)
    decreases |h|
  {
    if StartsWith(h, n) then
      assert OccursAt(h, n, 0);
      true
    else if h == [] then
      assert forall i :: !OccursAt(h, n, i);
      false
    else
      var r := Contains(h[1..], n);
      if r then
        var j :| OccursAt(h[1..], n, j);
        assert OccursAt(h, n, j + 1) by { assert h[1..][j..j + |n|] == h[j + 1..j + 1 + |n|]; }
        true
      else
        assert !OccursAt(h, n, 0);
        assert forall i | OccursAt(h, n, i) :: OccursAt(h[1..], n, i - 1) by {
          forall i | OccursAt(h, n, i) ensures OccursAt(h[1..], n, i - 1) {
            assert h[1..][i - 1..i - 1 + |n|] == h[i..i + |n|];
          }
        }
        false
  }

  /** Every string contains itself, and a string containing `n` is at least as long. */
  lemma ContainsSelf(s: string)
    ensures Contains(s, s)
  {
    assert OccursAt(s, s, 0);
  }

  /** A string occurring at the start, in the middle or at the end of a concatenation is contained in it. */
  lemma ContainsPart(a: string, n: string, b: string)
    ensures Contains(a + n + b, n)
  {
    assert OccursAt(a + n + b, n, |a|) by { assert (a + n + b)[|a|..|a| + |n|] == n; }
  }

  /** What the left part contains, the concatenation contains. */
  lemma ContainsLeft(a: string, b: string, n: string)
    requires Contains(a, n)
    ensures Contains(a + b, n)
  {
    var i :| OccursAt(a, n, i);
    assert (a + b)[i..i + |n|] == a[i..i + |n|];
    assert OccursAt(a + b, n, i);
  }

  /** What the right part contains, the concatenation contains. */
  lemma ContainsRight(a: string, b: string, n: string)
    requires Contains(b, n)
    ensures Contains(a + b, n)
  {
    var i :| OccursAt(b, n, i);
    assert (a + b)[|a| + i..|a| + i + |n|] == b[i..i + |n|];
    assert OccursAt(a + b, n, |a| + i);
  }

  // ---------------------------------------------------------------- ASCII case conversion

  function LowerChar(c: char): char {
    if 'A' <= c <= 'Z' then (c as int + 32) as char else c
  }

  function UpperChar(c: char): char {
    if 'a' <= c <= 'z' then (c as int - 32) as char else c
  }

  /** `s.toLowerCase()`, restricted to the ASCII letters. */
  function ToLower(s: string): (r: string)
    ensures |r| == |s|
    ensures forall i :: 0 <= i < |s| ==> r[i] == LowerChar(s[i])
  {
    seq(|s|, i requires 0 <= i < |s| => LowerChar(s[i]))
  }

  /** `s.toUpperCase()`, restricted to the ASCII letters. */
  function ToUpper(s: string): (r: string)
    ensures |r| == |s|
    ensures forall i :: 0 <= i < |s| ==> r[i] == UpperChar(s[i])
  {
    seq(|s|, i requires 0 <= i < |s| => UpperChar(s[i]))
  }

  lemma ToLowerIdempotent(s: string)
    ensures ToLower(ToLower(s)) == ToLower(s)
  {
  }

  lemma ToLowerAppend(a: string, b: string)
    ensures ToLower(a + b) == ToLower(a) + ToLower(b)
  {
  }

  lemma ToUpperAppend(a: string, b: string)
    ensures ToUpper(a + b) == ToUpper(a) + ToUpper(b)
  {
  }

  // ---------------------------------------------------------------- split and join

  /** `parts.join(sep)`. */
  function Join(parts: seq<string>, sep: string): string {
    if |parts| == 0 then ""
    else if |parts| == 1 then parts[0]
    else parts[0] + sep + Join(parts[1..], sep)
  }

  /** The position of the first `c` in `s`. */
  function IndexOf(s: string, c: char): (i: nat)
    requires c in s
    ensures i < |s| && s[i] == c && c !in s[..i]
  {
    if s[0] == c then 0 else IndexOf(s[1..], c) + 1
  }

  /** `s.split(c)` for a one-character separator. */
  function Split(s: string, c: char): (r: seq<string>)
    ensures |r| >= 1
    ensures forall k :: 0 <= k < |r| ==> c !in r[k]
    decreases |s|
  {
    if c !in s then [s]
    else
      var i := IndexOf(s, c);
      [s[..i]] + Split(s[i + 1..], c)
  }

  /** Joining the pieces of a split with the separator gives the string back. */
  lemma {:induction false} JoinSplit(s: string, c: char)
    ensures Join(Split(s, c), [c]) == s
    decreases |s|
  {
    if c in s {
      var i := IndexOf(s, c);
      var tail := s[i + 1..];
      var rest := Split(tail, c);
      assert Split(s, c) == [s[..i]] + rest;
      JoinStep(s[..i], rest, [c]);
      JoinSplit(tail, c);
      assert s == s[..i] + [c] + tail;
    }
  }

  /** Joining a part in front of a non-empty list puts the separator between them. */
  lemma JoinStep(a: string, rest: seq<string>, sep: string)
    requires |rest| >= 1
    ensures Join([a] + rest, sep) == a + sep + Join(rest, sep)
  {
    assert ([a] + rest)[1..] == rest;
  }

  /** The first separator in `a + [c] + b`, when `a` has none, is the one after `a`. */
  lemma {:induction false} IndexOfAfter(a: string, c: char, b: string)
    requires c !in a
    ensures c in a + [c] + b && IndexOf(a + [c] + b, c) == |a|
    decreases |a|
  {
    var s := a + [c] + b;
    assert s[|a|] == c;
    if a != [] {
      assert s[1..] == a[1..] + [c] + b;
      IndexOfAfter(a[1..], c, b);
    }
  }

  /** Splitting at the first separator of `a + [c] + b` splits off `a`. */
  lemma {:induction false} SplitStep(a: string, c: char, b: string)
    requires c !in a
    ensures Split(a + [c] + b, c) == [a] + Split(b, c)
  {
    var s := a + [c] + b;
    IndexOfAfter(a, c, b);
    assert s[..|a|] == a;
    assert s[|a| + 1..] == b;
  }

  /** Splitting a join gives the pieces back, as long as no piece contains the separator. */
  lemma {:induction false} SplitJoin(parts: seq<string>, c: char)
    requires |parts| >= 1
    requires forall k :: 0 <= k < |parts| ==> c !in parts[k]
    ensures Split(Join(parts, [c]), c) == parts
    decreases |parts|
  {
    if |parts| > 1 {
      var tail := parts[1..];
      assert parts == [parts[0]] + tail;
      JoinStep(parts[0], tail, [c]);
      SplitStep(parts[0], c, Join(tail, [c]));
      assert forall k :: 0 <= k < |tail| ==> c !in tail[k] by {
        forall k | 0 <= k < |tail| ensures c !in tail[k] {
          assert tail[k] == parts[k + 1];
        }
      }
      SplitJoin(tail, c);
    }
  }

  /** `s` with every leading `'\n'` removed. */
  function SkipNewlines(s: string): (r: string)
    ensures |r| <= |s| && r == s[|s| - |r|..]
    ensures r == [] || r[0] != '\n'
    ensures forall i :: 0 <= i < |s| - |r| ==> s[i] == '\n'
  {
    if |s| > 0 && s[0] == '\n' then SkipNewlines(s[1..]) else s
  }

  /** `s.split(/\n+/)`: split at every maximal run of line feeds. */
  function SplitNewlineRuns(s: string): (r: seq<string>)
    ensures |r| >= 1
    ensures forall k :: 0 <= k < |r| ==> '\n' !in r[k]
    decreases |s|
  {
    if '\n' !in s then [s]
    else
      var i := IndexOf(s, '\n');
      [s[..i]] + SplitNewlineRuns(SkipNewlines(s[i..]))
  }

  /**
   * Splitting a newline-joined list on runs of line feeds gives the list back,
   * provided every entry is non-empty and has no line feed of its own.
   */
  lemma {:induction false} SplitNewlineRunsJoin(xs: seq<string>)
    requires |xs| >= 1
    requires forall k :: 0 <= k < |xs| ==> xs[k] != "" && '\n' !in xs[k]
    ensures SplitNewlineRuns(Join(xs, "\n")) == xs
    decreases |xs|
  {
    if |xs| > 1 {
      var rest := Join(xs[1..], "\n");
      assert Join(xs, "\n") == xs[0] + "\n" + rest;
      JoinStartsWithFirst(xs[1..], "\n");
      assert rest[0] == xs[1][0];
      SplitNewlineRunsStep(xs[0], rest);
      SplitNewlineRunsJoin(xs[1..]);
      assert xs == [xs[0]] + xs[1..];
    } else {
      assert '\n' !in xs[0];
    }
  }

  /** One line feed between a line and a rest that does not start with one splits off the line. */
  lemma {:induction false} SplitNewlineRunsStep(a: string, rest: string)
    requires '\n' !in a
    requires rest == [] || rest[0] != '\n'
    ensures SplitNewlineRuns(a + "\n" + rest) == [a] + SplitNewlineRuns(rest)
  {
    var s := a + "\n" + rest;
    IndexOfAfter(a, '\n', rest);
    assert s[..|a|] == a;
    assert s[|a|..] == "\n" + rest;
    assert SkipNewlines("\n" + rest) == rest by { assert ("\n" + rest)[1..] == rest; }
  }

  /** Skipping a run of line feeds in front of a rest that does not start with one leaves the rest. */
  lemma {:induction false} SkipNewlinesRun(run: string, rest: string)
    requires forall k :: 0 <= k < |run| ==> run[k] == '\n'
    requires rest == [] || rest[0] != '\n'
    ensures SkipNewlines(run + rest) == rest
  {
    if run != [] {
      var s := run + rest;
      assert s[0] == '\n';
      assert s[1..] == run[1..] + rest;
      SkipNewlinesRun(run[1..], rest);
    } else {
      assert run + rest == rest;
    }
  }

  /**
   * Any run of line feeds between a line and the rest splits off the line:
   * blank lines in between give no empty parts.
   */
  lemma SplitNewlineRunsRun(a: string, run: string, rest: string)
    requires '\n' !in a && |run| >= 1 && forall k :: 0 <= k < |run| ==> run[k] == '\n'
    requires rest == [] || rest[0] != '\n'
    ensures SplitNewlineRuns(a + run + rest) == [a] + SplitNewlineRuns(rest)
  {
    assert a + run + rest == a + (run + rest);
    SplitAtFirstNewline(a, run + rest);
    SkipNewlinesRun(run, rest);
  }

  /** When `a` has no line feed and `t` starts with one, `a` is the first part and splitting resumes after the run. */
  lemma SplitAtFirstNewline(a: string, t: string)
    requires '\n' !in a && |t| >= 1 && t[0] == '\n'
    ensures SplitNewlineRuns(a + t) == [a] + SplitNewlineRuns(SkipNewlines(t))
  {
    var s := a + t;
    assert t == "\n" + t[1..];
    assert s == a + "\n" + t[1..];
    IndexOfAfter(a, '\n', t[1..]);
    assert s[..|a|] == a;
    assert s[|a|..] == t;
  }

  /** A join begins with its first part. */
  lemma {:induction false} JoinStartsWithFirst(xs: seq<string>, sep: string)
    requires |xs| >= 1
    ensures StartsWith(Join(xs, sep), xs[0])
  {
    if |xs| > 1 {
      assert Join(xs, sep) == xs[0] + (sep + Join(xs[1..], sep));
    }
  }

  /** `s` without its line feeds. */
  function RemoveNewlines(s: string): string {
    if s == [] then [] else (if s[0] == '\n' then [] else [s[0]]) + RemoveNewlines(s[1..])
  }

  function Concat(parts: seq<string>): string {
    if parts == [] then "" else parts[0] + Concat(parts[1..])
  }

  lemma {:induction false} RemoveNewlinesAppend(a: string, b: string)
    ensures RemoveNewlines(a + b) == RemoveNewlines(a) + RemoveNewlines(b)
    decreases |a|
  {
    if a != [] {
      var head := if a[0] == '\n' then [] else [a[0]];
      assert (a + b)[0] == a[0];
      assert (a + b)[1..] == a[1..] + b;
      assert RemoveNewlines(a + b) == head + RemoveNewlines(a[1..] + b);
      RemoveNewlinesAppend(a[1..], b);
      assert RemoveNewlines(a) == head + RemoveNewlines(a[1..]);
    } else {
      assert a + b == b;
    }
  }

  lemma {:induction false} RemoveNewlinesNone(s: string)
    requires '\n' !in s
    ensures RemoveNewlines(s) == s
    decreases |s|
  {
    if s != [] {
      RemoveNewlinesNone(s[1..]);
    }
  }

  /** A leading run of line feeds contributes nothing once line feeds are removed. */
  lemma {:induction false} RemoveNewlinesSkip(t: string)
    ensures RemoveNewlines(t) == RemoveNewlines(SkipNewlines(t))
    decreases |t|
  {
    if |t| > 0 && t[0] == '\n' {
      RemoveNewlinesSkip(t[1..]);
    }
  }

  /** Removing the line feeds of a line followed by a run of line feeds and a rest. */
  lemma {:induction false} SplitAtRun(line: string, t: string)
    requires '\n' !in line
    ensures RemoveNewlines(line + t) == line + RemoveNewlines(SkipNewlines(t))
  {
    RemoveNewlinesAppend(line, t);
    RemoveNewlinesNone(line);
    RemoveNewlinesSkip(t);
  }

  /**
   * Splitting on runs of line feeds loses exactly the line feeds: the pieces,
   * put back together, are the input with its line feeds removed.
   */
  lemma {:induction false} SplitNewlineRunsLosesOnlyNewlines(s: string)
    ensures Concat(SplitNewlineRuns(s)) == RemoveNewlines(s)
    decreases |s|
  {
    if '\n' !in s {
      RemoveNewlinesNone(s);
    } else {
      var i := IndexOf(s, '\n');
      var line, t := s[..i], s[i..];
      var rest := SkipNewlines(t);
      var pieces := SplitNewlineRuns(rest);
      assert SplitNewlineRuns(s) == [line] + pieces;
      SplitNewlineRunsLosesOnlyNewlines(rest);
      ConcatStep(line, pieces);
      assert s == line + t;
      SplitAtRun(line, t);
    }
  }

  lemma ConcatStep(a: string, xs: seq<string>)
    ensures Concat([a] + xs) == a + Concat(xs)
  {
    assert ([a] + xs)[1..] == xs;
  }

  // ---------------------------------------------------------------- slices and numbers

  /** `s.slice(0, n)`, and equally an array truncated with `length = n`. */
  function Take<T>(s: seq<T>, n: nat): (r: seq<T>)
    ensures |r| == if |s| < n then |s| else n
    ensures r == s[..|r|]
  {
    if |s| <= n then s else s[..n]
  }

  function DigitChar(d: nat): (c: char)
    requires d < 10
  {
    ('0' as int + d) as char
  }

  predicate IsDigit(c: char) {
    '0' <= c <= '9'
  }

  /** `String(n)` for a natural number: its decimal digits, without leading zeros. */
  function DecimalString(n: nat): (r: string)
    ensures |r| >= 1
    ensures forall i :: 0 <= i < |r| ==> IsDigit(r[i])
    ensures |r| > 1 ==> r[0] != '0'
  {
    if n < 10 then [DigitChar(n)] else DecimalString(n / 10) + [DigitChar(n % 10)]
  }

  /** The value of a string of decimal digits. */
  function ParseDecimal(s: string): nat
    requires forall i :: 0 <= i < |s| ==> IsDigit(s[i])
  {
    if s == [] then 0
    else
      assert IsDigit(s[|s| - 1]);
      ParseDecimal(s[..|s| - 1]) * 10 + (s[|s| - 1] as int - '0' as int)
  }

  /** Reading back the decimal rendering of a number gives the number. */
  lemma {:induction false} ParseDecimalString(n: nat)
    ensures ParseDecimal(DecimalString(n)) == n
  {
    if n >= 10 {
      ParseDecimalString(n / 10);
      var s := DecimalString(n);
      assert s[..|s| - 1] == DecimalString(n / 10);
    }
  }
}
