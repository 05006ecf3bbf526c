/**
 * The debug log shared by the content script and the options page: a list of
 * entries in extension storage, newest first, at most 100 long, and its
 * rendering as text, one line per entry.
 */
module DebugLog {
  import opened Text

  const MAX_LOG_ENTRIES := 100
  const LOG_EMPTY_MESSAGE := "No entries."

  /** One log entry; an absent level, message or details field is the empty string. */
  datatype LogEntry = LogEntry(ts: string, level: string, message: string, details: string)

  /**
   * An entry a screen asks `addDebugLog` for; the timestamp is added when it
   * is written, and nothing is written while logging is off.
   */
  datatype LogRequest = LogRequest(level: string, message: string, details: string)

  // ---------------------------------------------------------------- adding

  /** `[entry, ...log]` cut to its first 100 entries. */
  function WithEntry(log: seq<LogEntry>, e: LogEntry): (r: seq<LogEntry>)
    ensures |r| == if |log| < MAX_LOG_ENTRIES then |log| + 1 else MAX_LOG_ENTRIES
    ensures r[0] == e && r[1..] == log[..|r| - 1]
  {
    Take([e] + log, MAX_LOG_ENTRIES)
  }

  /** The log after adding each of `es` in turn. */
  function AddAll(log: seq<LogEntry>, es: seq<LogEntry>): seq<LogEntry>
    decreases |es|
  {
    if es == [] then log else AddAll(WithEntry(log, es[0]), es[1..])
  }

  function Reverse<T>(xs: seq<T>): (r: seq<T>)
    ensures |r| == |xs| && forall i :: 0 <= i < |xs| ==> r[i] == xs[|xs| - 1 - i]
  {
    if xs == [] then [] else Reverse(xs[1..]) + [xs[0]]
  }

  /** Cutting before prepending more and cutting again is cutting once. */
  lemma TakeAfterPrefix<T>(a: seq<T>, b: seq<T>, n: nat)
    ensures Take(a + Take(b, n), n) == Take(a + b, n)
  {
    var l, r := Take(a + Take(b, n), n), Take(a + b, n);
    assert |l| == |r|;
    forall i | 0 <= i < |l| ensures l[i] == r[i] {
      if i >= |a| {
        assert l[i] == Take(b, n)[i - |a|];
      }
    }
  }

  /**
   * However many entries are added, the log holds the newest 100 of
   * everything it has seen, newest first.
   */
  lemma {:induction false} AddAllKeepsNewest(log: seq<LogEntry>, es: seq<LogEntry>)
    requires |log| <= MAX_LOG_ENTRIES
    ensures AddAll(log, es) == Take(Reverse(es) + log, MAX_LOG_ENTRIES)
    decreases |es|
  {
    if es == [] {
      assert Reverse(es) + log == log;
    } else {
      var next := WithEntry(log, es[0]);
      AddAllKeepsNewest(next, es[1..]);
      var older := Reverse(es[1..]);
      TakeAfterPrefix(older, [es[0]] + log, MAX_LOG_ENTRIES);
      assert Reverse(es) + log == older + ([es[0]] + log);
    }
  }

  /** The stored log and whether logging is switched on. */
  class LogStore {
    var enabled: bool
    var entries: seq<LogEntry>

    constructor(enabled: bool, entries: seq<LogEntry>)
      ensures this.enabled == enabled && this.entries == entries
    {
      this.enabled := enabled;
      this.entries := entries;
    }

    /**
     * `addDebugLog`: nothing happens while logging is off; otherwise the entry
     * is put first and the list cut to 100 by shortening it in place.
     */
    method Add(ts: string, level: string, message: string, details: string)
      modifies this
      ensures enabled == old(enabled)
      ensures entries == if enabled then WithEntry(old(entries), LogEntry(ts, level, message, details)) else old(entries)
    {
      if !enabled {
        return;
      }
      var next := [LogEntry(ts, level, message, details)] + entries;
      if |next| > MAX_LOG_ENTRIES {
        next := next[..MAX_LOG_ENTRIES];
      }
      entries := next;
    }

    /** The options page's "clear log" button. */
    method Clear()
      modifies this
      ensures enabled == old(enabled) && entries == []
    {
      entries := [];
    }
  }

  // ---------------------------------------------------------------- rendering

  /** The level shown in brackets: upper-cased, `INFO` when absent. */
  function LevelLabel(level: string): string {
    ToUpper(if level == "" then "info" else level)
  }

  /** `${ts} [${LEVEL}] ${msg}` followed by ` | ${details}` when there are details. */
  function RenderLine(e: LogEntry): string {
    e.ts + " [" + LevelLabel(e.level) + "] " + e.message + (if e.details != "" then " | " + e.details else "")
  }

  function RenderLines(es: seq<LogEntry>): seq<string>
  {
    seq(|es|, i requires 0 <= i < |es| => RenderLine(es[i]))
  }

  /** `renderLog`: the placeholder for an empty log, else the lines joined by newlines. */
  function RenderLog(es: seq<LogEntry>): string {
    if es == [] then LOG_EMPTY_MESSAGE else Join(RenderLines(es), "\n")
  }

  /** An entry without a level is shown as `INFO`. */
  lemma DefaultLevel(e: LogEntry)
    requires e.level == ""
    ensures StartsWith(RenderLine(e), e.ts + " [INFO] ")
  {
    assert LevelLabel(e.level) == "INFO";
  }

  /** The placeholder is shown exactly when the log is empty: every line has a `[`, the placeholder none. */
  lemma RenderLogEmpty(es: seq<LogEntry>)
    ensures RenderLog(es) == LOG_EMPTY_MESSAGE <==> es == []
  {
    if es != [] {
      var lines := RenderLines(es);
      JoinStartsWithFirst(lines, "\n");
      LineHasBracket(es[0]);
      var r := RenderLog(es);
      assert r[|es[0].ts| + 1] == lines[0][|es[0].ts| + 1];
      assert '[' !in LOG_EMPTY_MESSAGE;
    }
  }

  /** Every rendered line has the `[` that opens its level right after the timestamp. */
  lemma LineHasBracket(e: LogEntry)
    ensures |e.ts| + 1 < |RenderLine(e)| && RenderLine(e)[|e.ts| + 1] == '['
  {
    var rest := LevelLabel(e.level) + "] " + e.message + (if e.details != "" then " | " + e.details else "");
    assert RenderLine(e) == e.ts + " [" + rest;
  }

  /** `c` occurs in none of the entry's fields. */
  predicate FieldsWithout(e: LogEntry, c: char) {
    c !in e.ts && c !in e.level && c !in e.message && c !in e.details
  }

  /** Upper-casing maps no character to a newline. */
  lemma ToUpperNoNewline(s: string)
    requires '\n' !in s
    ensures '\n' !in ToUpper(s)
  {
  }

  /**
   * When no field holds a newline, splitting the rendered log at newlines
   * gives back one line per entry, in the log's order.
   */
  lemma RenderLogLines(es: seq<LogEntry>)
    requires es != []
    requires forall i :: 0 <= i < |es| ==> FieldsWithout(es[i], '\n')
    ensures Split(RenderLog(es), '\n') == RenderLines(es)
  {
    var lines := RenderLines(es);
    forall k | 0 <= k < |lines| ensures '\n' !in lines[k] {
      var e := es[k];
      ToUpperNoNewline(if e.level == "" then "info" else e.level);
    }
    SplitJoin(lines, '\n');
  }
}
