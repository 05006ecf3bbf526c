/**
 * The two settings screens: the extension's options page and the settings
 * card the content script injects into the site's own settings page. Both
 * hold the DeepL API key in a text field that can be shown or hidden, keep
 * the key last loaded or adopted (`currentApiKey`) and whether it is shown
 * (`keyVisible`), and save the key together with the origin list.
 *
 * A key made only of `*` characters is treated as a leftover mask, never as
 * a key. The two screens differ when the field is hidden and blank or
 * masked: the options page then stores no key, the card keeps the previous
 * one.
 *
 * Storage, the permission prompt and the worker are abstract state and
 * parameters: the stored key and origin list, the granted origins, a trace of
 * the platform calls and of the messages sent, the statuses shown and the
 * debug-log entries requested.
 */
module Settings {
  import opened Text
  import opened OriginPatterns
  import Background
  import opened DebugLog

  // ---------------------------------------------------------------- key rules

  /** `/^\*+$/.test(s)`: a non-empty string of asterisks only. */
  predicate IsMasked(s: string) {
    |s| > 0 && forall i :: 0 <= i < |s| ==> s[i] == '*'
  }

  /** The key after loading `cfg.apiKey || ""`: a stored mask is discarded, anything else kept. */
  function LoadedKey(stored: string): (k: string)
    ensures !IsMasked(k)
    ensures k == stored <==> !IsMasked(stored)
    ensures IsMasked(stored) ==> k == ""
  {
    if IsMasked(stored) then "" else stored
  }

  /**
   * `currentApiKey` after a click on the show/hide button: showing a hidden
   * field adopts its trimmed text unless that is blank or a mask; hiding keeps
   * the key.
   */
  function ToggledKey(current: string, visible: bool, field: string): (k: string)
    ensures k == current || (k == Trim(field) && k != "" && !visible)
    ensures !visible && Trim(field) != "" && !IsMasked(Trim(field)) ==> k == Trim(field)
    ensures visible || Trim(field) == "" || IsMasked(Trim(field)) ==> k == current
    ensures !IsMasked(current) ==> !IsMasked(k)
  {
    var draft := Trim(field);
    if !visible && draft != "" && !IsMasked(draft) then draft else current
  }

  /** The key the options page stores: the trimmed field, except that a hidden mask stores no key. */
  function OptionsSavedKey(visible: bool, field: string): (k: string)
    ensures IsTrimmed(k)
    ensures k == Trim(field) || k == ""
    ensures visible || !IsMasked(Trim(field)) ==> k == Trim(field)
    ensures !visible && IsMasked(Trim(field)) ==> k == ""
    ensures !visible ==> !IsMasked(k)
  {
    var v := Trim(field);
    if !visible && IsMasked(v) then "" else v
  }

  /** The key the settings card stores: a hidden field that is blank or masked keeps the previous key. */
  function CardSavedKey(prev: string, visible: bool, field: string): (k: string)
    ensures k == prev || k == Trim(field)
    ensures visible || (Trim(field) != "" && !IsMasked(Trim(field))) ==> k == Trim(field)
    ensures !visible && (Trim(field) == "" || IsMasked(Trim(field))) ==> k == prev
    ensures !visible && !IsMasked(prev) ==> !IsMasked(k)
    ensures !visible && prev != "" ==> k != ""
  {
    var v := Trim(field);
    if !visible && (v == "" || IsMasked(v)) then prev else v
  }

  /**
   * Saving on the options page and loading again gives the saved key back,
   * except when a mask was saved from the shown field: the load then discards
   * it and asks for the key again.
   */
  lemma OptionsSaveLoadRoundTrip(visible: bool, field: string)
    ensures var k := OptionsSavedKey(visible, field);
      LoadedKey(k) == k <==> !(visible && IsMasked(Trim(field)))
  {
  }

  /** The same for the settings card, whose previous key came from a load. */
  lemma CardSaveLoadRoundTrip(stored: string, visible: bool, field: string)
    ensures var k := CardSavedKey(LoadedKey(stored), visible, field);
      LoadedKey(k) == k <==> !(visible && IsMasked(Trim(field)))
  {
  }

  /**
   * With the field hidden and blank or masked, the options page stores no key
   * while the settings card keeps the one it had.
   */
  lemma HiddenBlankSave(prev: string, field: string)
    requires Trim(field) == "" || IsMasked(Trim(field))
    ensures OptionsSavedKey(false, field) == ""
    ensures CardSavedKey(prev, false, field) == prev
  {
  }

  /**
   * Text typed while the key is shown is not adopted by hiding it: showing and
   * hiding again leaves the key as the first click made it, whatever was typed
   * in between.
   */
  lemma ShowThenHide(current: string, field: string, typed: string)
    ensures ToggledKey(ToggledKey(current, false, field), true, typed) == ToggledKey(current, false, field)
  {
  }

  // ---------------------------------------------------------------- the key field

  /** The API-key input of one screen with `currentApiKey` and `keyVisible`. */
  class KeyPanel {
    var currentApiKey: string
    var keyVisible: bool
    /** The text in the input element. */
    var value: string

    constructor()
      ensures currentApiKey == "" && !keyVisible && value == ""
    {
      currentApiKey := "";
      keyVisible := false;
      value := "";
    }

    /** `setKeyVisible(visible)`: either way the field is refilled with `currentApiKey`. */
    method SetKeyVisible(visible: bool)
      modifies this
      ensures keyVisible == visible && value == currentApiKey
      ensures currentApiKey == old(currentApiKey)
    {
      keyVisible := visible;
      value := currentApiKey;
    }

    /** The user types into the field. */
    method Edit(text: string)
      modifies this
      ensures value == text
      ensures currentApiKey == old(currentApiKey) && keyVisible == old(keyVisible)
    {
      value := text;
    }

    /** The stored key arrives: a mask is discarded (`reenter`), and the field is hidden. */
    method Load(stored: string) returns (reenter: bool)
      modifies this
      ensures reenter <==> IsMasked(stored)
      ensures currentApiKey == LoadedKey(stored)
      ensures !keyVisible && value == currentApiKey
    {
      currentApiKey := stored;
      reenter := false;
      if IsMasked(currentApiKey) {
        currentApiKey := "";
        reenter := true;
      }
      SetKeyVisible(false);
    }

    /** The show/hide button. */
    method Toggle()
      modifies this
      ensures currentApiKey == ToggledKey(old(currentApiKey), old(keyVisible), old(value))
      ensures keyVisible == !old(keyVisible) && value == currentApiKey
    {
      if !keyVisible {
        var draft := Trim(value);
        if draft != "" && !IsMasked(draft) {
          currentApiKey := draft;
        }
      }
      SetKeyVisible(!keyVisible);
    }

    /**
     * Another screen changed the stored key: it is adopted as it is, without
     * the mask check of a load, and shown in the field either way.
     */
    method StorageChanged(newValue: string)
      modifies this
      ensures currentApiKey == newValue && value == newValue
      ensures keyVisible == old(keyVisible)
    {
      currentApiKey := newValue;
      if keyVisible {
        value := currentApiKey;
      } else {
        SetKeyVisible(false);
      }
    }

    /** The key part of the options page's save; `updated` says whether "API key updated" is logged. */
    method SaveAsOptions() returns (stored: string, updated: bool)
      modifies this
      ensures stored == OptionsSavedKey(old(keyVisible), old(value))
      ensures updated <==> stored != ""
      ensures currentApiKey == stored && !keyVisible && value == stored
    {
      var apiKeyValue := Trim(value);
      if !keyVisible && IsMasked(apiKeyValue) {
        apiKeyValue := "";
      }
      currentApiKey := if apiKeyValue != "" then apiKeyValue else "";
      stored := currentApiKey;
      updated := apiKeyValue != "";
      SetKeyVisible(false);
    }

    /** The key part of the settings card's save: "API key updated" is logged only for a new, non-empty key. */
    method SaveAsCard() returns (stored: string, updated: bool)
      modifies this
      ensures stored == CardSavedKey(old(currentApiKey), old(keyVisible), old(value))
      ensures updated <==> stored != "" && stored != old(currentApiKey)
      ensures currentApiKey == stored && !keyVisible && value == stored
    {
      var prevKey := currentApiKey;
      var apiKeyValue := Trim(value);
      var looksMasked := IsMasked(apiKeyValue);
      if !keyVisible && (apiKeyValue == "" || looksMasked) {
        apiKeyValue := prevKey;
      }
      currentApiKey := if apiKeyValue != "" then apiKeyValue else "";
      stored := currentApiKey;
      updated := currentApiKey != "" && currentApiKey != prevKey;
      SetKeyVisible(false);
    }
  }

  // ---------------------------------------------------------------- saving the origin list

  const REENTER_STATUS := "Please re-enter API key."
  const DENIED_STATUS := "Permission denied for new domains."
  const OPTIONS_SAVED_STATUS := "Saved ✔ (tabs load new settings on next reload)"
  const DENIED_LOG := LogRequest("warn", "Domain permission request denied", "")
  const SAVED_LOG := LogRequest("info", "Settings saved", "")
  const KEY_UPDATED_LOG := LogRequest("info", "API key updated", "")

  /** The origin list a save reads from the textarea: split at runs of line feeds, then normalised. */
  function SavedDomains(text: string): (domains: seq<string>)
    ensures forall k :: 0 <= k < |domains| ==> IsNormalized(domains[k]) && '\n' !in domains[k]
  {
    var lines := SplitNewlineRuns(text);
    NormalizePatternsKeeps(lines, '\n');
    NormalizePatterns(lines)
  }

  /** Normalising never introduces a character that no line had. */
  lemma {:induction false} NormalizePatternsKeeps(lines: seq<string>, c: char)
    requires forall k :: 0 <= k < |lines| ==> c !in lines[k]
    requires c != '*'
    ensures forall k :: 0 <= k < |NormalizePatterns(lines)| ==> c !in NormalizePatterns(lines)[k]
  {
    if lines != [] {
      TrimKeepsOut(lines[0], c);
      NormalizePatternsKeeps(lines[1..], c);
    }
  }

  /** The answer of `requestOriginPermissions(origins)`: an empty list is granted without asking. */
  function RequestAnswer(origins: seq<string>, answer: bool): bool {
    origins == [] || answer
  }

  /** The calls of `requestOriginPermissions(origins)`: none for an empty list. */
  function RequestCalls(origins: seq<string>): seq<Background.PlatformCall> {
    if origins == [] then [] else [Background.RequestPermissions(origins)]
  }

  /** Whether the options page reports a refused permission request (`!granted && domains.length`). */
  predicate Denied(domains: seq<string>, answer: bool) {
    !RequestAnswer(domains, answer) && |domains| > 0
  }

  /**
   * The denial is reported exactly when the user refused a prompt for a
   * non-empty list; the length test adds nothing to the refused answer, since
   * an empty list is never refused.
   */
  lemma DeniedExactly(domains: seq<string>, answer: bool)
    ensures Denied(domains, answer) <==> !answer && domains != []
    ensures Denied(domains, answer) <==> !RequestAnswer(domains, answer)
  {
  }

  /**
   * Saving right after loading, without edits, reads back the list that was
   * loaded into the textarea and asks to remove no permission.
   */
  lemma {:induction false} UneditedSaveKeepsDomains(current: seq<string>)
    requires forall k :: 0 <= k < |current| ==> IsNormalized(current[k]) && '\n' !in current[k]
    ensures SavedDomains(Join(current, "\n")) == current
    ensures DiffDomains(current, current) == DomainDiff([], [])
  {
    TextareaRoundTrip(current);
    WithoutCovered(current, current);
  }

  /** Leaving out a list that covers every pattern leaves nothing. */
  lemma {:induction false} WithoutCovered(xs: seq<string>, ys: seq<string>)
    requires forall k :: 0 <= k < |xs| ==> xs[k] in ys
    ensures Without(xs, ys) == []
  {
    if xs != [] {
      WithoutCovered(xs[1..], ys);
    }
  }

  /** The options page with the browser state it reads and changes. */
  class OptionsPage {
    const key: KeyPanel
    /** The text of the origins textarea. */
    var domainsText: string
    var currentDomains: seq<string>
    var granted: set<string>
    var storedKey: string
    var storedDomains: seq<string>
    var calls: seq<Background.PlatformCall>
    var sent: seq<Background.Message>
    var statuses: seq<string>
    var logs: seq<LogRequest>

    constructor(granted0: set<string>)
      ensures fresh(key) && key.currentApiKey == "" && !key.keyVisible && key.value == ""
      ensures currentDomains == OPTIONS_DEFAULT_DOMAINS && domainsText == ""
      ensures granted == granted0 && storedKey == "" && storedDomains == []
      ensures calls == [] && sent == [] && statuses == [] && logs == []
    {
      key := new KeyPanel();
      domainsText := "";
      currentDomains := OPTIONS_DEFAULT_DOMAINS;
      granted := granted0;
      storedKey := "";
      storedDomains := [];
      calls := [];
      sent := [];
      statuses := [];
      logs := [];
    }

    /** The stored origin list, or the options page's defaults, normalised and shown one per line. */
    method ShowDomains(domains: JsValue)
      modifies this`currentDomains, this`domainsText
      ensures currentDomains == NormalizePatterns(CoerceDomainList(domains, OPTIONS_DEFAULT_DOMAINS))
      ensures domainsText == Join(currentDomains, "\n")
    {
      var list := NormalizePatterns(CoerceDomainList(domains, OPTIONS_DEFAULT_DOMAINS));
      currentDomains, domainsText := list, Join(list, "\n");
    }

    /** The stored settings arrive: the key is loaded hidden, the origin list coerced, normalised and shown one per line. */
    method Load(apiKey: string, domains: JsValue)
      modifies this, key
      ensures key.currentApiKey == LoadedKey(apiKey) && !key.keyVisible && key.value == key.currentApiKey
      ensures statuses == old(statuses) + (if IsMasked(apiKey) then [REENTER_STATUS] else [])
      ensures currentDomains == NormalizePatterns(CoerceDomainList(domains, OPTIONS_DEFAULT_DOMAINS))
      ensures domainsText == Join(currentDomains, "\n")
      ensures granted == old(granted) && storedKey == old(storedKey) && storedDomains == old(storedDomains)
      ensures calls == old(calls) && sent == old(sent) && logs == old(logs)
    {
      ShowDomains(domains);
      var reenter := key.Load(apiKey);
      statuses := statuses + (if reenter then [REENTER_STATUS] else []);
    }

    /** `requestOriginPermissions`: an empty list resolves `true` and the platform is not asked. */
    method RequestOriginPermissions(origins: seq<string>, answer: bool) returns (ok: bool)
      modifies this
      ensures ok == RequestAnswer(origins, answer)
      ensures calls == old(calls) + RequestCalls(origins)
      ensures granted == if origins != [] && answer then old(granted) + (set x | x in origins) else old(granted)
      ensures domainsText == old(domainsText) && currentDomains == old(currentDomains)
      ensures storedKey == old(storedKey) && storedDomains == old(storedDomains)
      ensures sent == old(sent) && statuses == old(statuses) && logs == old(logs)
    {
      if |origins| == 0 {
        assert calls + [] == calls;
        return true;
      }
      calls := calls + [Background.RequestPermissions(origins)];
      if answer {
        granted := granted + (set x | x in origins);
      }
      ok := answer;
    }

    /** `removeOriginPermissions`: an empty list resolves `true` and the platform is not asked. */
    method RemoveOriginPermissions(origins: seq<string>) returns (ok: bool)
      modifies this
      ensures ok
      ensures calls == old(calls) + Background.RemovalCalls(origins)
      ensures granted == old(granted) - (set x | x in origins)
      ensures domainsText == old(domainsText) && currentDomains == old(currentDomains)
      ensures storedKey == old(storedKey) && storedDomains == old(storedDomains)
      ensures sent == old(sent) && statuses == old(statuses) && logs == old(logs)
    {
      if |origins| == 0 {
        assert calls + [] == calls;
        return true;
      }
      calls := calls + [Background.RemovePermissions(origins)];
      granted := granted - (set x | x in origins);
      ok := true;
    }

    /**
     * The permission half of a save: the whole new list is requested (not only
     * the added patterns), a refusal of a non-empty list is reported, and the
     * dropped patterns lose their permission.
     */
    method UpdatePermissions(domains: seq<string>, removed: seq<string>, answer: bool)
      modifies this
      ensures calls == old(calls) + RequestCalls(domains) + Background.RemovalCalls(removed)
      ensures granted == (if domains != [] && answer then old(granted) + (set x | x in domains) else old(granted)) - (set x | x in removed)
      ensures statuses == old(statuses) + (if Denied(domains, answer) then [DENIED_STATUS] else [])
      ensures logs == old(logs) + (if Denied(domains, answer) then [DENIED_LOG] else [])
      ensures domainsText == old(domainsText) && currentDomains == old(currentDomains)
      ensures storedKey == old(storedKey) && storedDomains == old(storedDomains) && sent == old(sent)
    {
      var ok := RequestOriginPermissions(domains, answer);
      if !ok && |domains| > 0 {
        statuses := statuses + [DENIED_STATUS];
        logs := logs + [DENIED_LOG];
      }
      ok := RemoveOriginPermissions(removed);
    }

    /**
     * The save button: permissions first, then the key and the list are
     * stored and the worker is told to re-register the content script.
     * `answer` is the user's reply to the permission prompt.
     */
    method Save(answer: bool)
      modifies this, key
      ensures var domains := SavedDomains(old(domainsText));
        var removed := DiffDomains(domains, old(currentDomains)).removed;
        && calls == old(calls) + RequestCalls(domains) + Background.RemovalCalls(removed)
        && granted == (if domains != [] && answer then old(granted) + (set x | x in domains) else old(granted)) - (set x | x in removed)
        && statuses == old(statuses) + (if Denied(domains, answer) then [DENIED_STATUS] else []) + [OPTIONS_SAVED_STATUS]
        && logs == old(logs) + (if Denied(domains, answer) then [DENIED_LOG] else [])
             + [SAVED_LOG] + (if storedKey != "" then [KEY_UPDATED_LOG] else [])
        && storedDomains == domains && currentDomains == domains
        && sent == old(sent) + [Background.UpdateContentScripts(JsArray(domains))]
      ensures storedKey == OptionsSavedKey(old(key.keyVisible), old(key.value))
      ensures key.currentApiKey == storedKey && !key.keyVisible && key.value == storedKey
      ensures domainsText == old(domainsText)
    {
      var domains := SavedDomains(domainsText);
      var removed := DiffDomains(domains, currentDomains).removed;
      UpdatePermissions(domains, removed, answer);
      Store(domains);
    }

    /** The storage half of a save, run once the permissions are settled. */
    method Store(domains: seq<string>)
      modifies this, key
      ensures storedKey == OptionsSavedKey(old(key.keyVisible), old(key.value))
      ensures key.currentApiKey == storedKey && !key.keyVisible && key.value == storedKey
      ensures storedDomains == domains && currentDomains == domains
      ensures statuses == old(statuses) + [OPTIONS_SAVED_STATUS]
      ensures logs == old(logs) + [SAVED_LOG] + (if storedKey != "" then [KEY_UPDATED_LOG] else [])
      ensures sent == old(sent) + [Background.UpdateContentScripts(JsArray(domains))]
      ensures calls == old(calls) && granted == old(granted) && domainsText == old(domainsText)
    {
      var apiKey, updated := key.SaveAsOptions();
      storedKey := apiKey;
      storedDomains := domains;
      statuses := statuses + [OPTIONS_SAVED_STATUS];
      logs := logs + [SAVED_LOG] + (if updated then [KEY_UPDATED_LOG] else []);
      currentDomains := domains;
      sent := sent + [Background.UpdateContentScripts(JsArray(domains))];
    }
  }

  // ---------------------------------------------------------------- the settings card

  /**
   * The message the card sends once the worker has reported the missing
   * permissions: a prompt tab when any is missing, otherwise the news that
   * everything is granted.
   */
  function CardPermissionMessage(domains: seq<string>, removed: seq<string>, missing: seq<string>): (m: Background.Message)
    ensures m.OpenPermissions? <==> missing != []
    ensures m.OpenPermissions? ==> m.domains == JsArray(domains) && m.removed == JsArray(removed)
    ensures m.PermissionsGranted? ==> m.domains == JsArray(domains)
  {
    if |missing| > 0 then Background.OpenPermissions(JsArray(domains), JsArray(removed))
    else Background.PermissionsGranted(JsArray(domains))
  }

  /** The settings card inside the site's settings page. */
  class SettingsCard {
    const key: KeyPanel
    var domainsText: string
    var currentDomains: seq<string>
    var storedKey: string
    var storedDomains: seq<string>
    var sent: seq<Background.Message>
    var statuses: seq<string>
    var logs: seq<LogRequest>

    constructor()
      ensures fresh(key) && key.currentApiKey == "" && !key.keyVisible && key.value == ""
      ensures currentDomains == DEFAULT_DOMAINS && domainsText == ""
      ensures storedKey == "" && storedDomains == [] && sent == [] && statuses == [] && logs == []
    {
      key := new KeyPanel();
      domainsText := "";
      currentDomains := DEFAULT_DOMAINS;
      storedKey := "";
      storedDomains := [];
      sent := [];
      statuses := [];
      logs := [];
    }

    /** The stored origin list, or the card's defaults, normalised and shown one per line. */
    method ShowDomains(domains: JsValue)
      modifies this`currentDomains, this`domainsText
      ensures currentDomains == NormalizePatterns(CoerceDomainList(domains, DEFAULT_DOMAINS))
      ensures domainsText == Join(currentDomains, "\n")
    {
      var list := NormalizePatterns(CoerceDomainList(domains, DEFAULT_DOMAINS));
      currentDomains, domainsText := list, Join(list, "\n");
    }

    /** `loadSettings`: as on the options page, with the content script's default origin list. */
    method Load(apiKey: string, domains: JsValue)
      modifies this, key
      ensures key.currentApiKey == LoadedKey(apiKey) && !key.keyVisible && key.value == key.currentApiKey
      ensures statuses == old(statuses) + (if IsMasked(apiKey) then [REENTER_STATUS] else [])
      ensures currentDomains == NormalizePatterns(CoerceDomainList(domains, DEFAULT_DOMAINS))
      ensures domainsText == Join(currentDomains, "\n")
      ensures storedKey == old(storedKey) && storedDomains == old(storedDomains)
      ensures sent == old(sent) && logs == old(logs)
    {
      ShowDomains(domains);
      var reenter := key.Load(apiKey);
      statuses := statuses + (if reenter then [REENTER_STATUS] else []);
    }

    /**
     * The first half of the card's save: the parsed list is sent to the worker
     * to find the missing origins (`missing` is the answer), and then either
     * the permissions tab is requested with the removed origins or the list is
     * reported as granted. Nothing else changes.
     */
    method AskPermissions(missing: seq<string>) returns (domains: seq<string>)
      modifies this
      ensures domains == SavedDomains(old(domainsText))
      ensures var removed := DiffDomains(domains, old(currentDomains)).removed;
        sent == old(sent) + [Background.CheckMissingPermissions(JsArray(domains)), CardPermissionMessage(domains, removed, missing)]
      ensures domainsText == old(domainsText) && currentDomains == old(currentDomains) && statuses == old(statuses)
      ensures storedKey == old(storedKey) && storedDomains == old(storedDomains) && logs == old(logs)
    {
      domains := SavedDomains(domainsText);
      var removed := DiffDomains(domains, currentDomains).removed;
      sent := sent + [Background.CheckMissingPermissions(JsArray(domains)), CardPermissionMessage(domains, removed, missing)];
    }

    /**
     * The second half of the card's save: the key is stored as the card
     * decides (`CardSavedKey`), the panel shows it masked, the list becomes the
     * stored and current list, and the save is logged, with a second line when
     * the key changed. The messages sent, the text field and the statuses are
     * left alone.
     */
    method StoreKey(domains: seq<string>)
      modifies this, key
      ensures storedKey == CardSavedKey(old(key.currentApiKey), old(key.keyVisible), old(key.value))
      ensures key.currentApiKey == storedKey && !key.keyVisible && key.value == storedKey
      ensures storedDomains == domains && currentDomains == domains
      ensures logs == old(logs) + [SAVED_LOG] + (if storedKey != "" && storedKey != old(key.currentApiKey) then [KEY_UPDATED_LOG] else [])
      ensures sent == old(sent) && domainsText == old(domainsText) && statuses == old(statuses)
    {
      var apiKey, updated := key.SaveAsCard();
      storedKey := apiKey;
      storedDomains := domains;
      logs := logs + [SAVED_LOG] + (if updated then [KEY_UPDATED_LOG] else []);
      currentDomains := domains;
    }

    /**
     * The card's save button: it asks the worker which origins are missing
     * (`missing` is the answer), sends the prompt or the all-granted message,
     * and stores the key and the list.
     */
    method Save(missing: seq<string>)
      modifies this, key
      ensures var domains := SavedDomains(old(domainsText));
        var removed := DiffDomains(domains, old(currentDomains)).removed;
        && sent == old(sent) + [Background.CheckMissingPermissions(JsArray(domains)), CardPermissionMessage(domains, removed, missing)]
        && storedDomains == domains && currentDomains == domains
      ensures storedKey == CardSavedKey(old(key.currentApiKey), old(key.keyVisible), old(key.value))
      ensures key.currentApiKey == storedKey && !key.keyVisible && key.value == storedKey
      ensures logs == old(logs) + [SAVED_LOG] + (if storedKey != "" && storedKey != old(key.currentApiKey) then [KEY_UPDATED_LOG] else [])
      ensures domainsText == old(domainsText) && statuses == old(statuses)
    {
      var domains := AskPermissions(missing);
      StoreKey(domains);
    }
  }
}
