/**
 * Origin patterns: the user-configured list of URL patterns that scopes both
 * the host permissions and the injection of the page enhancer. The three
 * scripts of the extension each carry a copy of these helpers
 * (`normalizePatterns` / `normalizePatternLines`, `coerceDomainList`,
 * `urlMatches`, `diffDomains`); the copies behave identically and are
 * modelled once here.
 */
module OriginPatterns {
  import opened Text
  import opened Sequences

  /** The default origin list of the background worker and the content script. */
  const DEFAULT_DOMAINS: seq<string> := ["https://k-social.network/*"]

  /** The default origin list of the options page, which also admits a local development server. */
  const OPTIONS_DEFAULT_DOMAINS: seq<string> := ["https://k-social.network/*", "http://localhost:5173/*"]

  /**
   * A JavaScript value read from storage or from a message, as far as the code
   * inspects its shape: an array (of strings), a string, or anything else
   * (including a missing value).
   */
  datatype JsValue = JsArray(items: seq<string>) | JsString(text: string) | JsOther

  // ---------------------------------------------------------------- normalisation

  /** What normalisation produces: a trimmed, non-empty pattern that does not end in `/`. */
  predicate IsNormalized(p: string) {
    p != "" && IsTrimmed(p) && !EndsWith(p, '/')
  }

  /**
   * One entry of `normalizePatterns`: trimmed; a trailing `*` is kept, a
   * trailing `/` gets `*` appended, anything else is an exact pattern.
   * The empty string marks an entry that the subsequent `filter(Boolean)` drops.
   */
  function NormalizePattern(p: string): (r: string)
    ensures r == "" || IsNormalized(r)
  {
    var t := Trim(p);
    if t == "" then ""
    else if EndsWith(t, '*') then t
    else if EndsWith(t, '/') then
      TrimmedAppend(t, '*');
      t + "*"
    else t
  }

  /** `normalizePatterns(lines)`: normalise every entry and drop the blank ones, keeping the order. */
  function NormalizePatterns(lines: seq<string>): (r: seq<string>)
    ensures |r| <= |lines|
    ensures forall k :: 0 <= k < |r| ==> IsNormalized(r[k])
  {
    if lines == [] then []
    else
      var p := NormalizePattern(lines[0]);
      (if p == "" then [] else [p]) + NormalizePatterns(lines[1..])
  }

  /** The normalisation rule: a trailing `/` gains a `*`, a trailing `*` stays, anything else is kept exactly. */
  lemma NormalizePatternRule(p: string)
    ensures AllWhitespace(p) ==> NormalizePattern(p) == ""
    ensures !AllWhitespace(p) && EndsWith(Trim(p), '/') ==> NormalizePattern(p) == Trim(p) + "*"
    ensures !AllWhitespace(p) && !EndsWith(Trim(p), '/') ==> NormalizePattern(p) == Trim(p)
  {
    TrimEmpty(p);
  }

  /** A pattern that is already normalised is its own normalisation. */
  lemma NormalizePatternFixed(p: string)
    requires IsNormalized(p)
    ensures NormalizePattern(p) == p
  {
    TrimTrimmed(p);
  }

  /** Normalising an entry twice is normalising it once. */
  lemma NormalizePatternIdempotent(p: string)
    ensures NormalizePattern(NormalizePattern(p)) == NormalizePattern(p)
  {
    var r := NormalizePattern(p);
    if r != "" {
      NormalizePatternFixed(r);
    }
  }

  /** A list of normalised patterns is its own normalisation. */
  lemma {:induction false} NormalizePatternsFixed(lines: seq<string>)
    requires forall k :: 0 <= k < |lines| ==> IsNormalized(lines[k])
    ensures NormalizePatterns(lines) == lines
  {
    if lines != [] {
      var tail := lines[1..];
      assert lines == [lines[0]] + tail;
      NormalizePatternFixed(lines[0]);
      assert forall k :: 0 <= k < |tail| ==> IsNormalized(tail[k]) by {
        forall k | 0 <= k < |tail| ensures IsNormalized(tail[k]) {
          assert tail[k] == lines[k + 1];
        }
      }
      NormalizePatternsFixed(tail);
      NormalizePatternsCons(lines[0], tail);
    }
  }

  /** Normalising a list twice is normalising it once. */
  lemma NormalizePatternsIdempotent(lines: seq<string>)
    ensures NormalizePatterns(NormalizePatterns(lines)) == NormalizePatterns(lines)
  {
    NormalizePatternsFixed(NormalizePatterns(lines));
  }

  /** A pattern is in the normalised list exactly when it normalises some non-blank input entry. */
  lemma {:induction false} NormalizePatternsMembers(lines: seq<string>, x: string)
    ensures x in NormalizePatterns(lines) <==> x != "" && exists k :: 0 <= k < |lines| && NormalizePattern(lines[k]) == x
  {
    if lines != [] {
      NormalizePatternsMembers(lines[1..], x);
      if x != "" && NormalizePattern(lines[0]) != x {
        if exists k :: 0 <= k < |lines| && NormalizePattern(lines[k]) == x {
          var k :| 0 <= k < |lines| && NormalizePattern(lines[k]) == x;
          assert lines[1..][k - 1] == lines[k];
        }
      }
    }
  }

  /** A base URL gains a trailing `*`; a wildcard pattern and a bare word stay as they are. */
  lemma NormalizeExample()
    ensures NormalizePatterns(["https://a.com/", "https://b.com/*", "bogus"])
         == ["https://a.com/*", "https://b.com/*", "bogus"]
  {
    var a, b, c := "https://a.com/", "https://b.com/*", "bogus";
    assert IsTrimmed(a) && EndsWith(a, '/');
    assert IsNormalized(b) && IsNormalized(c);
    NormalizeBaseThenNormalized(a, [b, c]);
    assert [a] + [b, c] == [a, b, c];
    assert a + "*" == "https://a.com/*";
  }

  /** A base URL followed by already-normalised patterns: only the base URL changes. */
  lemma NormalizeBaseThenNormalized(base: string, rest: seq<string>)
    requires IsTrimmed(base) && EndsWith(base, '/')
    requires forall k :: 0 <= k < |rest| ==> IsNormalized(rest[k])
    ensures NormalizePatterns([base] + rest) == [base + "*"] + rest
  {
    assert !IsWhitespace(base[|base| - 1]);
    TrimTrimmed(base);
    assert NormalizePattern(base) == base + "*";
    NormalizePatternsFixed(rest);
    NormalizePatternsCons(base, rest);
  }

  /** Normalising a list entry by entry. */
  lemma NormalizePatternsCons(p: string, rest: seq<string>)
    ensures NormalizePatterns([p] + rest) == (if NormalizePattern(p) == "" then [] else [NormalizePattern(p)]) + NormalizePatterns(rest)
  {
    assert ([p] + rest)[1..] == rest;
  }

  // ---------------------------------------------------------------- coercion of a stored value

  /** Trim every line and drop the lines that end up empty. */
  function NonEmptyTrimmed(lines: seq<string>): (r: seq<string>)
    ensures |r| <= |lines|
    ensures forall k :: 0 <= k < |r| ==> r[k] != "" && IsTrimmed(r[k])
  {
    if lines == [] then []
    else
      var t := Trim(lines[0]);
      (if t == "" then [] else [t]) + NonEmptyTrimmed(lines[1..])
  }

  /**
   * `coerceDomainList(value, fallback)`: an array is taken as it is, a string
   * is split at runs of line feeds into trimmed non-empty lines, and any other
   * value gives the fallback.
   */
  function CoerceDomainList(value: JsValue, fallback: seq<string>): (r: seq<string>)
    ensures value.JsArray? ==> r == value.items
    ensures value.JsOther? ==> r == fallback
    ensures value.JsString? ==> forall k :: 0 <= k < |r| ==> r[k] != "" && IsTrimmed(r[k]) && '\n' !in r[k]
  {
    match value
    case JsArray(items) => items
    case JsString(s) =>
      var lines := SplitNewlineRuns(s);
      var r := NonEmptyTrimmed(lines);
      assert forall k :: 0 <= k < |r| ==> '\n' !in r[k] by { NonEmptyTrimmedKeeps(lines, '\n'); }
      r
    case JsOther => fallback
  }

  /** Trimming and dropping lines never introduces a character that no line had. */
  lemma {:induction false} NonEmptyTrimmedKeeps(lines: seq<string>, c: char)
    requires forall k :: 0 <= k < |lines| ==> c !in lines[k]
    ensures forall k :: 0 <= k < |NonEmptyTrimmed(lines)| ==> c !in NonEmptyTrimmed(lines)[k]
  {
    if lines != [] {
      NonEmptyTrimmedKeeps(lines[1..], c);
      TrimKeepsOut(lines[0], c);
    }
  }

  /** Lines that are already trimmed and non-empty pass through `NonEmptyTrimmed` unchanged. */
  lemma {:induction false} NonEmptyTrimmedFixed(lines: seq<string>)
    requires forall k :: 0 <= k < |lines| ==> lines[k] != "" && IsTrimmed(lines[k])
    ensures NonEmptyTrimmed(lines) == lines
  {
    if lines != [] {
      var tail := lines[1..];
      assert lines == [lines[0]] + tail;
      TrimTrimmed(lines[0]);
      assert forall k :: 0 <= k < |tail| ==> tail[k] != "" && IsTrimmed(tail[k]) by {
        forall k | 0 <= k < |tail| ensures tail[k] != "" && IsTrimmed(tail[k]) {
          assert tail[k] == lines[k + 1];
        }
      }
      NonEmptyTrimmedFixed(tail);
      NonEmptyTrimmedCons(lines[0], tail);
    }
  }

  /** A string is kept exactly when it is non-empty and some input line trims to it. */
  lemma {:induction false} NonEmptyTrimmedMembers(lines: seq<string>, t: string)
    ensures t in NonEmptyTrimmed(lines) <==> t != "" && exists k :: 0 <= k < |lines| && Trim(lines[k]) == t
  {
    if lines != [] {
      NonEmptyTrimmedMembers(lines[1..], t);
      if t != "" && Trim(lines[0]) != t {
        if exists k :: 0 <= k < |lines| && Trim(lines[k]) == t {
          var k :| 0 <= k < |lines| && Trim(lines[k]) == t;
          assert lines[1..][k - 1] == lines[k];
        }
      }
    }
  }

  /**
   * A stored string coerces to the trimmed non-blank pieces between runs of
   * line feeds: blank and padded lines, and repeated line feeds, leave no
   * empty or untrimmed entry, and every non-blank line is kept.
   */
  lemma {:induction false} CoerceStringMembers(s: string, fallback: seq<string>, t: string)
    ensures t in CoerceDomainList(JsString(s), fallback) ==>
      t != "" && exists k :: 0 <= k < |SplitNewlineRuns(s)| && Trim(SplitNewlineRuns(s)[k]) == t
    ensures (t != "" && exists k :: 0 <= k < |SplitNewlineRuns(s)| && Trim(SplitNewlineRuns(s)[k]) == t) ==>
      t in CoerceDomainList(JsString(s), fallback)
  {
    NonEmptyTrimmedMembers(SplitNewlineRuns(s), t);
  }

  lemma NonEmptyTrimmedCons(line: string, rest: seq<string>)
    ensures NonEmptyTrimmed([line] + rest) == (if Trim(line) == "" then [] else [Trim(line)]) + NonEmptyTrimmed(rest)
  {
    assert ([line] + rest)[1..] == rest;
  }

  /**
   * The textarea round trip of both settings screens: the origin list is shown
   * one pattern per line, and saving splits the text at runs of line feeds and
   * normalises it, which gives the shown list back.
   */
  lemma TextareaRoundTrip(domains: seq<string>)
    requires forall k :: 0 <= k < |domains| ==> IsNormalized(domains[k]) && '\n' !in domains[k]
    ensures NormalizePatterns(SplitNewlineRuns(Join(domains, "\n"))) == domains
  {
    if domains == [] {
      assert SplitNewlineRuns("") == [""];
      assert NormalizePatterns([""]) == [] by { assert Trim("") == ""; }
    } else {
      SplitNewlineRunsJoin(domains);
      NormalizePatternsFixed(domains);
    }
  }

  /** A string value read back from storage coerces to the list it was written from. */
  lemma StoredStringRoundTrip(domains: seq<string>, fallback: seq<string>)
    requires forall k :: 0 <= k < |domains| ==> domains[k] != "" && IsTrimmed(domains[k]) && '\n' !in domains[k]
    ensures CoerceDomainList(JsString(Join(domains, "\n")), fallback) == domains
  {
    if domains == [] {
      assert SplitNewlineRuns("") == [""];
      assert NonEmptyTrimmed([""]) == [] by { assert Trim("") == ""; }
    } else {
      SplitNewlineRunsJoin(domains);
      NonEmptyTrimmedFixed(domains);
    }
  }

  /**
   * Saving and reloading the configuration: whatever list the settings screen
   * saved (already normalised), loading coerces and normalises it back to
   * the same list.
   */
  lemma SaveLoadRoundTrip(saved: seq<string>, fallback: seq<string>)
    requires forall k :: 0 <= k < |saved| ==> IsNormalized(saved[k])
    ensures NormalizePatterns(CoerceDomainList(JsArray(saved), fallback)) == saved
  {
    NormalizePatternsFixed(saved);
  }

  // ---------------------------------------------------------------- matching

  /** One pattern against a URL: a trailing `*` is a prefix match, anything else must be equal. */
  predicate PatternMatches(p: string, url: string) {
    if EndsWith(p, '*') then StartsWith(url, p[..|p| - 1]) else url == p
  }

  /** `urlMatches(url, patterns)`: some pattern matches. */
  function UrlMatches(url: string, patterns: seq<string>): (r: bool)
    ensures r <==> exists k :: 0 <= k < |patterns| && PatternMatches(patterns[k], url)
  {
    if patterns == [] then false
    else if PatternMatches(patterns[0], url) then true
    else
      var r := UrlMatches(url, patterns[1..]);
      assert r <==> exists k :: 1 <= k < |patterns| && PatternMatches(patterns[k], url) by {
        if r {
          var k :| 0 <= k < |patterns[1..]| && PatternMatches(patterns[1..][k], url);
          assert PatternMatches(patterns[k + 1], url);
        }
        if exists k :: 1 <= k < |patterns| && PatternMatches(patterns[k], url) {
          var k :| 1 <= k < |patterns| && PatternMatches(patterns[k], url);
          assert PatternMatches(patterns[1..][k - 1], url);
        }
      }
      r
  }

  /** A base URL entered with a trailing `/` matches every page under it once normalised. */
  lemma BaseUrlMatchesPagesUnderIt(base: string, url: string)
    requires IsTrimmed(base) && EndsWith(base, '/')
    requires StartsWith(url, base)
    ensures UrlMatches(url, NormalizePatterns([base]))
  {
    TrimTrimmed(base);
    var p := NormalizePattern(base);
    assert p == base + "*";
    assert p[..|p| - 1] == base;
    assert NormalizePatterns([base]) == [p];
    assert PatternMatches(NormalizePatterns([base])[0], url);
  }

  // ---------------------------------------------------------------- differences

  /** `xs.filter((d) => !ys.has(d))`. */
  function Without(xs: seq<string>, ys: seq<string>): (r: seq<string>)
    ensures forall x :: x in r <==> x in xs && x !in ys
    ensures forall x :: multiset(r)[x] == if x in ys then 0 else multiset(xs)[x]
    ensures IsSubsequence(r, xs)
  {
    if xs == [] then []
    else if xs[0] in ys then
      var r := Without(xs[1..], ys);
      assert xs == [xs[0]] + xs[1..];
      SubsequenceOfTail(r, xs);
      r
    else
      var r := Without(xs[1..], ys);
      assert xs == [xs[0]] + xs[1..];
      assert ([xs[0]] + r)[1..] == r;
      [xs[0]] + r
  }

  datatype DomainDiff = DomainDiff(added: seq<string>, removed: seq<string>)

  /**
   * `diffDomains(next, prev)`: the patterns of `next` that `prev` lacks and the
   * patterns of `prev` that `next` lacks, each in its source order. The copy in
   * the content script returns only the `removed` half.
   */
  function DiffDomains(next: seq<string>, prev: seq<string>): (d: DomainDiff)
    ensures forall x :: x in d.added <==> x in next && x !in prev
    ensures forall x :: x in d.removed <==> x in prev && x !in next
    ensures forall x :: multiset(d.added)[x] == if x in prev then 0 else multiset(next)[x]
    ensures forall x :: multiset(d.removed)[x] == if x in next then 0 else multiset(prev)[x]
    ensures IsSubsequence(d.added, next) && IsSubsequence(d.removed, prev)
  {
    DomainDiff(Without(next, prev), Without(prev, next))
  }

  /** Applying the difference to the old list's patterns gives the new list's patterns. */
  lemma DiffDomainsApplies(next: seq<string>, prev: seq<string>)
    ensures var d := DiffDomains(next, prev);
      (set x | x in next) == (set x | x in prev && x !in d.removed) + (set x | x in d.added)
  {
  }
}
