/**
 * Small rules of the page enhancer: the tab title that shows the unread
 * notification count, the notifications sent when that count changes, the
 * locale chosen for the translation labels, the test for the site's settings
 * page and the test that recognises a transaction pop-up by its text.
 */
module Page {
  import opened Wrappers
  import opened Text
  import Background
  import opened DebugLog

  // ---------------------------------------------------------------- tab title

  const BASE_TITLE := "Your voice. Your ideas. Uncensored."

  /** `setTitleFromCount(raw)`: the count in parentheses before the site's title, unless it is blank or zero. */
  function TitleFromCount(raw: string): (title: string)
    ensures title == BASE_TITLE <==> raw == "" || raw == "0"
    ensures |title| >= |BASE_TITLE| && title[|title| - |BASE_TITLE|..] == BASE_TITLE
  {
    if raw != "" && raw != "0" then "(" + raw + ") " + BASE_TITLE else BASE_TITLE
  }

  /** Reading the count back from a title: the text between `(` and the `) ` before the site's title. */
  function CountInTitle(title: string): string {
    var n := |title| - |BASE_TITLE| - 2;
    if n > 1 && title[0] == '(' && title[n..] == ") " + BASE_TITLE then title[1..n] else ""
  }

  /** The title shows the count it was given, except that a zero count shows none. */
  lemma TitleRoundTrip(raw: string)
    ensures CountInTitle(TitleFromCount(raw)) == if raw == "0" then "" else raw
  {
    var title := TitleFromCount(raw);
    if raw != "" && raw != "0" {
      var n := |title| - |BASE_TITLE| - 2;
      assert n == |raw| + 1;
      assert title[n..] == ") " + BASE_TITLE;
      assert title[1..n] == raw;
    }
  }

  /** The trimmed badge text, or `""` when the page shows no badge. */
  function BadgeCount(badge: Option<string>): (raw: string)
    ensures IsTrimmed(raw)
  {
    if badge.Some? then Trim(badge.value) else ""
  }

  /** A notification is due when they are switched on and the count is non-empty and differs from the last one read. */
  predicate ShouldNotify(notificationsEnabled: bool, raw: string, last: Option<string>) {
    notificationsEnabled && raw != "" && last != Some(raw)
  }

  function NotificationText(raw: string): string {
    "New notifications: " + raw
  }

  function NotificationLog(raw: string): LogRequest {
    LogRequest("info", "Notification sent", "count=" + raw)
  }

  /**
   * The tab title with `lastBadgeText`, updated on every change of the page.
   * The two switches are read once, when the page loads.
   */
  class TabTitle {
    const tabTitleEnabled: bool
    const notificationsEnabled: bool
    var title: string
    /** `null` until the first reading. */
    var lastBadgeText: Option<string>
    var sent: seq<Background.Message>
    var logs: seq<LogRequest>

    constructor(tabTitleEnabled: bool, notificationsEnabled: bool, pageTitle: string)
      ensures this.tabTitleEnabled == tabTitleEnabled && this.notificationsEnabled == notificationsEnabled
      ensures title == if tabTitleEnabled then BASE_TITLE else pageTitle
      ensures lastBadgeText == None && sent == [] && logs == []
    {
      this.tabTitleEnabled := tabTitleEnabled;
      this.notificationsEnabled := notificationsEnabled;
      title := if tabTitleEnabled then BASE_TITLE else pageTitle;
      lastBadgeText := None;
      sent := [];
      logs := [];
    }

    /**
     * `updateTabTitle`: with the title switch off nothing happens at all;
     * otherwise the title follows the badge, a changed non-empty count is
     * announced to the worker and logged, and the count is remembered
     * whether or not it was announced.
     */
    method Update(badge: Option<string>)
      modifies this
      ensures !tabTitleEnabled ==> title == old(title) && lastBadgeText == old(lastBadgeText) && sent == old(sent) && logs == old(logs)
      ensures tabTitleEnabled ==>
        var raw := BadgeCount(badge);
        var notify := ShouldNotify(notificationsEnabled, raw, old(lastBadgeText));
        && title == TitleFromCount(raw)
        && lastBadgeText == Some(raw)
        && sent == old(sent) + (if notify then [Background.Notify(NotificationText(raw))] else [])
        && logs == old(logs) + (if notify then [NotificationLog(raw)] else [])
    {
      if !tabTitleEnabled {
        return;
      }
      var raw := if badge.Some? then Trim(badge.value) else "";
      title := TitleFromCount(raw);
      if notificationsEnabled {
        if raw != "" && Some(raw) != lastBadgeText {
          sent := sent + [Background.Notify(NotificationText(raw))];
          logs := logs + [NotificationLog(raw)];
        }
      }
      lastBadgeText := Some(raw);
    }

    /**
     * The observer on the page body runs `updateTabTitle` once per change; over
     * a run of badge readings the worker is sent exactly the announcements of
     * `Announced`, and the last reading is the one remembered and shown.
     */
    method Watch(badges: seq<Option<string>>)
      modifies this
      ensures !tabTitleEnabled ==> title == old(title) && lastBadgeText == old(lastBadgeText) && sent == old(sent) && logs == old(logs)
      ensures tabTitleEnabled ==> sent == old(sent) + Notifications(Announced(notificationsEnabled, Counts(badges), old(lastBadgeText)))
      ensures tabTitleEnabled ==> logs == old(logs) + NotificationLogs(Announced(notificationsEnabled, Counts(badges), old(lastBadgeText)))
      ensures tabTitleEnabled && |badges| > 0 ==>
        && lastBadgeText == Some(BadgeCount(badges[|badges| - 1]))
        && title == TitleFromCount(BadgeCount(badges[|badges| - 1]))
      ensures |badges| == 0 ==> title == old(title) && lastBadgeText == old(lastBadgeText)
      decreases |badges|
    {
      if |badges| > 0 {
        var raw := BadgeCount(badges[0]);
        assert Counts(badges) == [raw] + Counts(badges[1..]);
        assert |badges| > 1 ==> badges[1..][|badges| - 2] == badges[|badges| - 1];
        WatchStep(notificationsEnabled, [raw], Counts(badges[1..]), lastBadgeText, sent, logs);
        Update(badges[0]);
        Watch(badges[1..]);
      }
    }
  }

  /** The count read from each badge of a run. */
  function Counts(badges: seq<Option<string>>): seq<string> {
    seq(|badges|, k requires 0 <= k < |badges| => BadgeCount(badges[k]))
  }

  /** The message sent to the worker for each announced count. */
  function Notifications(announced: seq<string>): seq<Background.Message> {
    if announced == [] then [] else [Background.Notify(NotificationText(announced[0]))] + Notifications(announced[1..])
  }

  /** The log entry written for each announced count. */
  function NotificationLogs(announced: seq<string>): seq<LogRequest> {
    if announced == [] then [] else [NotificationLog(announced[0])] + NotificationLogs(announced[1..])
  }

  lemma {:induction false} NotificationsAppend(a: seq<string>, b: seq<string>)
    ensures Notifications(a + b) == Notifications(a) + Notifications(b)
    ensures NotificationLogs(a + b) == NotificationLogs(a) + NotificationLogs(b)
  {
    if a != [] {
      assert (a + b)[0] == a[0];
      assert (a + b)[1..] == a[1..] + b;
      NotificationsAppend(a[1..], b);
      AppendAssociates([Background.Notify(NotificationText(a[0]))], Notifications(a[1..]), Notifications(b));
      AppendAssociates([NotificationLog(a[0])], NotificationLogs(a[1..]), NotificationLogs(b));
    } else {
      assert a + b == b;
    }
  }

  /** The messages and log entries of a run are those of its first reading followed by those of the rest. */
  lemma WatchStep(notificationsEnabled: bool, first: seq<string>, rest: seq<string>, last: Option<string>,
                  sent: seq<Background.Message>, logs: seq<LogRequest>)
    requires |first| == 1
    ensures var notify := ShouldNotify(notificationsEnabled, first[0], last);
      var later := Announced(notificationsEnabled, rest, Some(first[0]));
      var all := Announced(notificationsEnabled, first + rest, last);
      && sent + (if notify then [Background.Notify(NotificationText(first[0]))] else []) + Notifications(later) == sent + Notifications(all)
      && logs + (if notify then [NotificationLog(first[0])] else []) + NotificationLogs(later) == logs + NotificationLogs(all)
  {
    var notify := ShouldNotify(notificationsEnabled, first[0], last);
    var step := if notify then [first[0]] else [];
    var later := Announced(notificationsEnabled, rest, Some(first[0]));
    assert (first + rest)[0] == first[0] && (first + rest)[1..] == rest;
    assert Announced(notificationsEnabled, first + rest, last) == step + later;
    assert Notifications(step) == if notify then [Background.Notify(NotificationText(first[0]))] else [];
    assert NotificationLogs(step) == if notify then [NotificationLog(first[0])] else [];
    NotificationsAppend(step, later);
    AppendAssociates(sent, Notifications(step), Notifications(later));
    AppendAssociates(logs, NotificationLogs(step), NotificationLogs(later));
  }

  lemma AppendAssociates<T>(a: seq<T>, b: seq<T>, c: seq<T>)
    ensures a + b + c == a + (b + c)
  {
  }

  /** The count remembered after a run of readings that started from `last`. */
  function LastOf(readings: seq<string>, last: Option<string>): Option<string> {
    if readings == [] then last else Some(readings[|readings| - 1])
  }

  /** The counts announced over a run of readings, starting from `last`. */
  function Announced(notificationsEnabled: bool, readings: seq<string>, last: Option<string>): (r: seq<string>)
    ensures |r| <= |readings|
    ensures forall k :: 0 <= k < |r| ==> r[k] != "" && r[k] in readings
  {
    if readings == [] then []
    else
      var rest := Announced(notificationsEnabled, readings[1..], Some(readings[0]));
      (if ShouldNotify(notificationsEnabled, readings[0], last) then [readings[0]] else []) + rest
  }

  /**
   * One more reading extends the announcements by that reading alone, and only
   * when it differs from the count remembered after the earlier readings.
   */
  lemma {:induction false} AnnouncedSnoc(notificationsEnabled: bool, readings: seq<string>, raw: string, last: Option<string>)
    ensures Announced(notificationsEnabled, readings + [raw], last)
      == Announced(notificationsEnabled, readings, last)
         + (if ShouldNotify(notificationsEnabled, raw, LastOf(readings, last)) then [raw] else [])
  {
    if readings != [] {
      var longer := readings + [raw];
      assert longer[0] == readings[0];
      assert longer[1..] == readings[1..] + [raw];
      assert LastOf(readings[1..], Some(readings[0])) == LastOf(readings, last);
      AnnouncedSnoc(notificationsEnabled, readings[1..], raw, Some(readings[0]));
    }
  }

  /** A count that stays on the badge is announced once, however many times the page changes. */
  lemma {:induction false} SteadyCountAnnouncedOnce(notificationsEnabled: bool, raw: string, n: nat)
    requires raw != "" && n >= 1
    ensures |Announced(notificationsEnabled, seq(n, _ => raw), None)| == if notificationsEnabled then 1 else 0
  {
    var readings := seq(n, _ => raw);
    assert readings[1..] == seq(n - 1, _ => raw);
    SteadyCountQuiet(notificationsEnabled, raw, n - 1);
  }

  /** Once `raw` was read, further readings of `raw` announce nothing. */
  lemma {:induction false} SteadyCountQuiet(notificationsEnabled: bool, raw: string, n: nat)
    ensures Announced(notificationsEnabled, seq(n, _ => raw), Some(raw)) == []
  {
    if n > 0 {
      var readings := seq(n, _ => raw);
      assert readings[1..] == seq(n - 1, _ => raw);
      SteadyCountQuiet(notificationsEnabled, raw, n - 1);
    }
  }

  // ---------------------------------------------------------------- locale

  /** The locales of the translation labels. */
  const LOCALES: set<string> := {"de", "en", "fr", "es", "it", "nl", "pl"}

  /**
   * `localeFromLang(lang)`: the upper-cased target language (`DE` when
   * absent) looked up among the seven languages with labels; any other
   * language gets the English labels.
   */
  function LocaleFromLang(lang: string): (locale: string)
    ensures locale in LOCALES
  {
    var code := ToUpper(if lang == "" then "DE" else lang);
    if code == "DE" then "de"
    else if code == "EN" then "en"
    else if code == "FR" then "fr"
    else if code == "ES" then "es"
    else if code == "IT" then "it"
    else if code == "NL" then "nl"
    else if code == "PL" then "pl"
    else "en"
  }

  /** Upper-casing after lower-casing is upper-casing. */
  lemma ToUpperToLower(s: string)
    ensures ToUpper(ToLower(s)) == ToUpper(s)
  {
  }

  /** The language code is read without regard to case. */
  lemma LocaleIgnoresCase(lang: string)
    ensures LocaleFromLang(ToLower(lang)) == LocaleFromLang(lang)
  {
    ToUpperToLower(lang);
  }

  /** A missing language selects German labels, a language without labels the English ones. */
  lemma LocaleDefaults()
    ensures LocaleFromLang("") == "de"
    ensures LocaleFromLang("JA") == "en"
  {
    assert ToUpper("DE") == "DE";
    assert ToUpper("JA") == "JA";
  }

  // ---------------------------------------------------------------- settings page

  /** `isSettingsPage()` on `location.pathname`. */
  function IsSettingsPage(path: string): (r: bool)
    ensures r <==> StartsWith(path, "/settings") && (|path| == 9 || path[9] == '/')
  {
    path == "/settings" || StartsWith(path, "/settings/")
  }

  /** Sub-pages of the settings page count, look-alike paths do not. */
  lemma SettingsPageExamples()
    ensures IsSettingsPage("/settings") && IsSettingsPage("/settings/profile")
    ensures !IsSettingsPage("/settingsx") && !IsSettingsPage("/user/settings")
  {
    assert "/settings/profile"[..10] == "/settings/";
    assert "/settingsx"[9] == 'x';
    assert "/user/settings"[1] == 'u';
  }

  // ---------------------------------------------------------------- transaction pop-ups

  /**
   * `textLooksLikeTransaction(value)`: lower-cased, the text mentions a
   * transaction id, an explorer link, or both a transaction and fees.
   */
  function LooksLikeTransaction(value: string): (r: bool)
    ensures r ==> value != "" && (Contains(ToLower(value), "transaction") || Contains(ToLower(value), "open explorer"))
    ensures var text := ToLower(value);
      Contains(text, "transaction id") || Contains(text, "open explorer") || (Contains(text, "transaction") && Contains(text, "fees")) ==> r
  {
    if value == "" then false
    else
      var text := ToLower(value);
      if Contains(text, "transaction id") then
        TransactionIdMentionsTransaction(text);
        true
      else Contains(text, "open explorer") || (Contains(text, "transaction") && Contains(text, "fees"))
  }

  /** A text mentioning a transaction id mentions a transaction. */
  lemma TransactionIdMentionsTransaction(text: string)
    requires Contains(text, "transaction id")
    ensures Contains(text, "transaction")
  {
    var i :| OccursAt(text, "transaction id", i);
    assert text[i..i + 11] == text[i..i + 14][..11];
    assert OccursAt(text, "transaction", i);
  }

  /** The test ignores case. */
  lemma LooksLikeTransactionIgnoresCase(value: string)
    ensures LooksLikeTransaction(ToLower(value)) == LooksLikeTransaction(value)
  {
    ToLowerIdempotent(value);
  }

  /** Surrounding text does not hide a transaction pop-up: an element whose text contains such text is recognised too. */
  lemma LooksLikeTransactionWithin(before: string, value: string, after: string)
    requires LooksLikeTransaction(value)
    ensures LooksLikeTransaction(before + value + after)
  {
    var t := ToLower(value);
    var a, c := ToLower(before), ToLower(after);
    ToLowerAppend(before, value);
    ToLowerAppend(before + value, after);
    assert ToLower(before + value + after) == a + t + c;
    if Contains(t, "transaction id") {
      ContainsWithin(a, t, c, "transaction id");
    } else if Contains(t, "open explorer") {
      ContainsWithin(a, t, c, "open explorer");
    } else {
      ContainsWithin(a, t, c, "transaction");
      ContainsWithin(a, t, c, "fees");
    }
  }

  lemma ContainsWithin(a: string, t: string, c: string, n: string)
    requires Contains(t, n)
    ensures Contains(a + t + c, n)
  {
    ContainsRight(a, t, n);
    ContainsLeft(a + t, c, n);
  }
}
