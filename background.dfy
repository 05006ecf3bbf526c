/**
 * The background service worker: it keeps the dynamic content-script
 * registration in step with the configured origin patterns and the host
 * permissions the user granted, and it answers the messages of the settings
 * screens and of the content script.
 *
 * The browser is abstract state: the set of granted origin patterns, the
 * current registration of the content script (its `matches`, or none), the
 * stored `domains` value, and a trace of the platform calls the worker makes,
 * in order. The user's answer to a permission prompt and the outcome of the
 * translation request are parameters.
 */
module Background {
  import opened Wrappers
  import opened Text
  import opened OriginPatterns
  import opened Sequences
  import opened TranslateRelay

  // ---------------------------------------------------------------- the permission partition

  /** `filterPermittedDomains`: the origins already granted, in input order. */
  function FilterPermitted(domains: seq<string>, granted: set<string>): (r: seq<string>)
    ensures forall x :: x in r <==> x in domains && x in granted
    ensures IsSubsequence(r, domains)
  {
    if domains == [] then []
    else
      var rest := FilterPermitted(domains[1..], granted);
      if domains[0] in granted then
        assert ([domains[0]] + rest)[1..] == rest;
        [domains[0]] + rest
      else
        SubsequenceOfTail(rest, domains);
        rest
  }

  /** `findMissingPermissions`: the origins not yet granted, in input order. */
  function FindMissing(domains: seq<string>, granted: set<string>): (r: seq<string>)
    ensures forall x :: x in r <==> x in domains && x !in granted
    ensures IsSubsequence(r, domains)
  {
    if domains == [] then []
    else
      var rest := FindMissing(domains[1..], granted);
      if domains[0] !in granted then
        assert ([domains[0]] + rest)[1..] == rest;
        [domains[0]] + rest
      else
        SubsequenceOfTail(rest, domains);
        rest
  }

  /**
   * The two filters partition their input: every occurrence of every origin
   * lands in exactly one of the two results.
   */
  lemma {:induction false} PermittedMissingPartition(domains: seq<string>, granted: set<string>)
    ensures multiset(FilterPermitted(domains, granted)) + multiset(FindMissing(domains, granted)) == multiset(domains)
    ensures |FilterPermitted(domains, granted)| + |FindMissing(domains, granted)| == |domains|
  {
    if domains != [] {
      PermittedMissingPartition(domains[1..], granted);
      assert domains == [domains[0]] + domains[1..];
    }
  }

  /** When every origin is granted, nothing is filtered out. */
  lemma {:induction false} FilterPermittedAll(domains: seq<string>, granted: set<string>)
    requires forall x :: x in domains ==> x in granted
    ensures FilterPermitted(domains, granted) == domains
  {
    if domains != [] {
      assert forall x :: x in domains[1..] ==> x in domains;
      FilterPermittedAll(domains[1..], granted);
      assert domains == [domains[0]] + domains[1..];
    }
  }

  // ---------------------------------------------------------------- registration scope

  /**
   * The `matches` that `registerContentScripts(domains)` registers: the
   * normalised patterns that are granted, or no registration at all when
   * none is.
   */
  function RegistrationScope(domains: seq<string>, granted: set<string>): (r: Option<seq<string>>)
    ensures r.None? <==> forall x :: x in NormalizePatterns(domains) ==> x !in granted
    ensures r.Some? ==> |r.value| > 0
    ensures r.Some? ==> forall x :: x in r.value <==> x in NormalizePatterns(domains) && x in granted
    ensures r.Some? ==> forall k :: 0 <= k < |r.value| ==> IsNormalized(r.value[k])
  {
    var patterns := NormalizePatterns(domains);
    var allowed := FilterPermitted(patterns, granted);
    if |allowed| == 0 then None
    else
      assert forall k :: 0 <= k < |allowed| ==> allowed[k] in patterns;
      Some(allowed)
  }

  /** Registering already-normalised patterns registers the same scope. */
  lemma RegistrationScopeNormalized(domains: seq<string>, granted: set<string>)
    ensures RegistrationScope(NormalizePatterns(domains), granted) == RegistrationScope(domains, granted)
  {
    NormalizePatternsIdempotent(domains);
  }

  /**
   * After a granted `syncPermissions` whose removed list shares no pattern
   * with the requested ones, the content script is registered on exactly the
   * requested patterns.
   */
  lemma SyncRegistersRequested(patterns: seq<string>, removed: seq<string>, granted: set<string>)
    requires patterns == NormalizePatterns(patterns) && patterns != []
    requires forall x :: x in removed ==> x !in patterns
    ensures RegistrationScope(patterns, (granted + set x | x in patterns) - set x | x in removed) == Some(patterns)
  {
    var g := (granted + set x | x in patterns) - set x | x in removed;
    FilterPermittedAll(patterns, g);
  }

  // ---------------------------------------------------------------- defaults

  /** `Array.isArray(v) ? v : fallback`, the defaulting of every list field of a message. */
  function ArrayOr(v: JsValue, fallback: seq<string>): seq<string> {
    if v.JsArray? then v.items else fallback
  }

  /**
   * `getStoredDomains`: the stored `domains` value coerced to a list, the
   * default list when the key is missing or holds neither an array nor a string.
   */
  function StoredDomains(stored: Option<JsValue>): (r: seq<string>)
    ensures stored.None? || stored == Some(JsOther) ==> r == DEFAULT_DOMAINS
    ensures stored.Some? && stored.value.JsArray? ==> r == stored.value.items
  {
    match stored
    case None => DEFAULT_DOMAINS
    case Some(v) => CoerceDomainList(v, DEFAULT_DOMAINS)
  }

  /** With nothing stored, the content script runs on the community site once that origin is granted. */
  lemma DefaultScope(granted: set<string>)
    ensures RegistrationScope(StoredDomains(None), granted)
         == if DEFAULT_DOMAINS[0] in granted then Some(DEFAULT_DOMAINS) else None
  {
    var d := DEFAULT_DOMAINS[0];
    assert IsTrimmed(d) && !EndsWith(d, '/');
    NormalizePatternsFixed(DEFAULT_DOMAINS);
  }

  // ---------------------------------------------------------------- messages

  /** What the worker asks of the browser, in the order it asks it. */
  datatype PlatformCall =
    | Unregister
    | Register(matches: seq<string>)
    | RequestPermissions(origins: seq<string>)
    | RemovePermissions(origins: seq<string>)
    | OpenPermissionsTab(domains: seq<string>)
    | CreateNotification(title: string, message: string)

  /** The messages the worker listens for; `Unknown` is a missing message or any other `type`. */
  datatype Message =
    | Notify(text: string)
    | CheckMissingPermissions(domains: JsValue)
    | OpenPermissions(domains: JsValue, removed: JsValue)
    | PermissionsGranted(domains: JsValue)
    | SyncPermissions(domains: JsValue, removed: JsValue)
    | UpdateContentScripts(domains: JsValue)
    | Translate(apiKey: string, text: string, lang: string)
    | Unknown

  /** What the worker sends back; `NoResponse` when the listener returns without answering. */
  datatype Response =
    | NoResponse
    | Ok
    | MissingOrigins(missing: seq<string>)
    | Synced(granted: bool, requested: seq<string>)
    | TranslateResult(result: TranslateResponse)

  const NOTIFICATION_TITLE := "K-Social Enhanced"

  /** The calls of `removeOriginPermissions(origins)`: none for an empty list. */
  function RemovalCalls(origins: seq<string>): seq<PlatformCall> {
    if origins == [] then [] else [RemovePermissions(origins)]
  }

  /** The calls of `registerContentScripts` ending in `registration`: always an unregistration, then a registration when there is a scope. */
  function RegistrationCalls(registration: Option<seq<string>>): seq<PlatformCall> {
    [Unregister] + if registration.Some? then [Register(registration.value)] else []
  }

  /** The browser state the worker reads and changes. */
  class Worker {
    var granted: set<string>
    var registration: Option<seq<string>>
    var storedDomains: Option<JsValue>
    var calls: seq<PlatformCall>

    constructor(granted0: set<string>, stored0: Option<JsValue>)
      ensures granted == granted0 && storedDomains == stored0
      ensures registration == None && calls == []
    {
      granted := granted0;
      storedDomains := stored0;
      registration := None;
      calls := [];
    }

    /** `removeOriginPermissions`: an empty list resolves without a call; otherwise the origins lose their permission. */
    method RemoveOriginPermissions(origins: seq<string>)
      modifies this
      ensures granted == old(granted) - (set x | x in origins)
      ensures calls == old(calls) + RemovalCalls(origins)
      ensures registration == old(registration) && storedDomains == old(storedDomains)
    {
      if origins != [] {
        granted := granted - (set x | x in origins);
        calls := calls + [RemovePermissions(origins)];
      } else {
        assert calls + [] == calls;
      }
    }

    /** `chrome.permissions.request`: the origins are granted when the user accepts. */
    method RequestOriginPermissions(origins: seq<string>, answer: bool) returns (ok: bool)
      modifies this
      ensures ok == answer
      ensures granted == if answer then old(granted) + (set x | x in origins) else old(granted)
      ensures calls == old(calls) + [RequestPermissions(origins)]
      ensures registration == old(registration) && storedDomains == old(storedDomains)
    {
      calls := calls + [RequestPermissions(origins)];
      if answer {
        granted := granted + (set x | x in origins);
      }
      ok := answer;
    }

    /**
     * `registerContentScripts`: filter the normalised patterns by the granted
     * set, always unregister, and register again only on a non-empty scope.
     */
    method RegisterContentScripts(domains: seq<string>)
      modifies this
      ensures registration == RegistrationScope(domains, old(granted))
      ensures calls == old(calls) + RegistrationCalls(registration)
      ensures granted == old(granted) && storedDomains == old(storedDomains)
    {
      var patterns := NormalizePatterns(domains);
      var allowed := FilterPermitted(patterns, granted);
      calls := calls + [Unregister];
      registration := None;
      if |allowed| > 0 {
        calls := calls + [Register(allowed)];
        registration := Some(allowed);
      }
    }

    /** `refreshContentScripts`, run on install, on browser start-up and after the stored list changes. */
    method Refresh()
      modifies this
      ensures registration == RegistrationScope(StoredDomains(storedDomains), granted)
      ensures calls == old(calls) + RegistrationCalls(registration)
      ensures granted == old(granted) && storedDomains == old(storedDomains)
    {
      RegisterContentScripts(StoredDomains(storedDomains));
    }

    /** The storage listener: only a change of `domains` in the local area refreshes the registration. */
    method OnStorageChanged(area: string, changedKeys: set<string>)
      modifies this
      ensures area == "local" && "domains" in changedKeys ==>
        && registration == RegistrationScope(StoredDomains(storedDomains), granted)
        && calls == old(calls) + RegistrationCalls(registration)
      ensures !(area == "local" && "domains" in changedKeys) ==>
        registration == old(registration) && calls == old(calls)
      ensures granted == old(granted) && storedDomains == old(storedDomains)
    {
      if area == "local" && "domains" in changedKeys {
        Refresh();
      }
    }

    /** `checkMissingPermissions`: the normalised origins of the message that are not granted. */
    method OnCheckMissingPermissions(domains: JsValue) returns (missing: seq<string>)
      ensures missing == FindMissing(NormalizePatterns(ArrayOr(domains, DEFAULT_DOMAINS)), granted)
    {
      missing := FindMissing(NormalizePatterns(ArrayOr(domains, DEFAULT_DOMAINS)), granted);
    }

    /** `openPermissions`: drop the permissions of the removed patterns, then open the prompt tab. */
    method OnOpenPermissions(domains: JsValue, removed: JsValue)
      modifies this
      ensures var gone := NormalizePatterns(ArrayOr(removed, []));
        && granted == old(granted) - (set x | x in gone)
        && calls == old(calls) + RemovalCalls(gone) + [OpenPermissionsTab(NormalizePatterns(ArrayOr(domains, DEFAULT_DOMAINS)))]
      ensures registration == old(registration) && storedDomains == old(storedDomains)
    {
      RemoveOriginPermissions(NormalizePatterns(ArrayOr(removed, [])));
      calls := calls + [OpenPermissionsTab(NormalizePatterns(ArrayOr(domains, DEFAULT_DOMAINS)))];
    }

    /** The request, removal and registration steps of `syncPermissions`, in that order. */
    method RequestRemoveRegister(patterns: seq<string>, gone: seq<string>, answer: bool) returns (ok: bool)
      modifies this
      ensures ok == answer
      ensures granted == (if answer then old(granted) + (set x | x in patterns) else old(granted)) - (set x | x in gone)
      ensures registration == RegistrationScope(patterns, granted)
      ensures calls == old(calls) + [RequestPermissions(patterns)] + RemovalCalls(gone) + RegistrationCalls(registration)
      ensures storedDomains == old(storedDomains)
    {
      ok := RequestOriginPermissions(patterns, answer);
      ghost var afterRequest := calls;
      RemoveOriginPermissions(gone);
      ghost var afterRemove := calls;
      RegisterContentScripts(patterns);
      assert calls == afterRemove + RegistrationCalls(registration);
      assert afterRemove == afterRequest + RemovalCalls(gone);
    }

    /**
     * `syncPermissions`: with no pattern to request, only the removal happens
     * and the reply claims success; otherwise request, then remove, then
     * register, and reply with the user's answer.
     */
    method OnSyncPermissions(domains: JsValue, removed: JsValue, answer: bool) returns (ok: bool, requested: seq<string>)
      modifies this
      ensures requested == NormalizePatterns(ArrayOr(domains, DEFAULT_DOMAINS))
      ensures requested == [] ==> ok && registration == old(registration)
      ensures requested == [] ==>
        && granted == old(granted) - (set x | x in NormalizePatterns(ArrayOr(removed, [])))
        && calls == old(calls) + RemovalCalls(NormalizePatterns(ArrayOr(removed, [])))
      ensures requested != [] ==> ok == answer
      ensures requested != [] ==>
        var asked := if answer then old(granted) + (set x | x in requested) else old(granted);
        && granted == asked - (set x | x in NormalizePatterns(ArrayOr(removed, [])))
        && registration == RegistrationScope(requested, granted)
        && calls == old(calls) + [RequestPermissions(requested)] + RemovalCalls(NormalizePatterns(ArrayOr(removed, [])))
                    + RegistrationCalls(registration)
      ensures storedDomains == old(storedDomains)
    {
      requested := NormalizePatterns(ArrayOr(domains, DEFAULT_DOMAINS));
      var gone := NormalizePatterns(ArrayOr(removed, []));
      if requested == [] {
        RemoveOriginPermissions(gone);
        ok := true;
      } else {
        ok := RequestRemoveRegister(requested, gone, answer);
      }
    }

    /**
     * Both message listeners. `answer` is the user's reply to a permission
     * prompt and `fetched` the outcome of the translation request; each is
     * used only by the message that needs it. `permissionsGranted` and
     * `updateContentScripts` are handled alike.
     */
    method HandleMessage(msg: Message, answer: bool, fetched: FetchOutcome) returns (resp: Response)
      modifies this
      ensures storedDomains == old(storedDomains)
      ensures msg.Notify? ==>
        resp == NoResponse && calls == old(calls) + [CreateNotification(NOTIFICATION_TITLE, msg.text)]
        && granted == old(granted) && registration == old(registration)
      ensures msg.CheckMissingPermissions? ==>
        resp == MissingOrigins(FindMissing(NormalizePatterns(ArrayOr(msg.domains, DEFAULT_DOMAINS)), old(granted)))
        && granted == old(granted) && registration == old(registration) && calls == old(calls)
      ensures msg.OpenPermissions? ==>
        var gone := NormalizePatterns(ArrayOr(msg.removed, []));
        && resp == Ok && registration == old(registration)
        && granted == old(granted) - (set x | x in gone)
        && calls == old(calls) + RemovalCalls(gone) + [OpenPermissionsTab(NormalizePatterns(ArrayOr(msg.domains, DEFAULT_DOMAINS)))]
      ensures msg.PermissionsGranted? || msg.UpdateContentScripts? ==>
        && resp == Ok && granted == old(granted)
        && registration == RegistrationScope(ArrayOr(msg.domains, DEFAULT_DOMAINS), granted)
        && calls == old(calls) + RegistrationCalls(registration)
      ensures msg.SyncPermissions? ==>
        var patterns := NormalizePatterns(ArrayOr(msg.domains, DEFAULT_DOMAINS));
        var gone := NormalizePatterns(ArrayOr(msg.removed, []));
        && resp == Synced(patterns == [] || answer, patterns)
        && (patterns == [] ==>
              && registration == old(registration)
              && granted == old(granted) - (set x | x in gone)
              && calls == old(calls) + RemovalCalls(gone))
        && (patterns != [] ==>
              && granted == (if answer then old(granted) + (set x | x in patterns) else old(granted)) - (set x | x in gone)
              && registration == RegistrationScope(patterns, granted)
              && calls == old(calls) + [RequestPermissions(patterns)] + RemovalCalls(gone) + RegistrationCalls(registration))
      ensures msg.Translate? ==>
        resp == TranslateResult(Classify(fetched))
        && granted == old(granted) && registration == old(registration) && calls == old(calls)
      ensures msg.Unknown? ==>
        resp == NoResponse && granted == old(granted) && registration == old(registration) && calls == old(calls)
    {
      match msg
      case Notify(text) =>
        calls := calls + [CreateNotification(NOTIFICATION_TITLE, text)];
        resp := NoResponse;
      case CheckMissingPermissions(domains) =>
        var missing := OnCheckMissingPermissions(domains);
        resp := MissingOrigins(missing);
      case OpenPermissions(domains, removed) =>
        OnOpenPermissions(domains, removed);
        resp := Ok;
      case PermissionsGranted(domains) =>
        RegisterContentScripts(ArrayOr(domains, DEFAULT_DOMAINS));
        resp := Ok;
      case SyncPermissions(domains, removed) =>
        var ok, requested := OnSyncPermissions(domains, removed, answer);
        resp := Synced(ok, requested);
      case UpdateContentScripts(domains) =>
        RegisterContentScripts(ArrayOr(domains, DEFAULT_DOMAINS));
        resp := Ok;
      case Translate(_, _, _) =>
        resp := TranslateResult(Classify(fetched));
      case Unknown =>
        resp := NoResponse;
    }
  }
}
