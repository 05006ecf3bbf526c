# K-Social Enhanced — a verified model of the extension's core

K-Social Enhanced is a browser extension for the K-Social network. It has three scripts:

- **the background worker** (`background.js`). It registers the content script on the configured origins that the user has granted. It also answers the messages of the other screens: notifications, permission checks and syncs, re-registration, and DeepL translation requests.
- **the options page** (`options.js`). It edits the DeepL API key, the origin list and the switches, and shows the debug log.
- **the content script** (`content.js`). It runs on the site and provides:
  - the unread count in the tab title, plus a notification when the count changes;
  - bookmarks of posts, kept in extension storage, de-duplicated by a hash of their content, with a searchable bookmarks view;
  - a settings card injected into the site's settings page;
  - a hider for transaction pop-ups;
  - the debug log.

This project restates those rules in Dafny and proves what they promise. The modules follow the program:

| module | file | models |
|---|---|---|
| `Wrappers`, `Sequences`, `Text` | `wrappers.dfy`, `sequences.dfy`, `text.dfy` | `Option`; subsequences; the JavaScript string operations the scripts use: `trim` with JavaScript's whitespace set, ASCII `toLowerCase`/`toUpperCase`, `includes`, `startsWith`/`endsWith`, `join`, `split("\n")`, `split(/\n+/)` |
| `OriginPatterns` | `patterns.dfy` | `normalizePatterns`, `coerceDomainList`, `urlMatches` and `diffDomains`. The three scripts carry copies of these that behave alike, so they are modelled once. |
| `TranslateRelay` | `translate.dfy` | how the worker turns the DeepL response into `{ok, text}` or `{ok: false, error}` |
| `Background` | `background.dfy` | the worker as a class over abstract browser state: the granted origins, the current registration, the stored `domains` value and a trace of platform calls |
| `Hash` | `hash.dfy` | `hashString`, a 32-bit wrapping `h*31 + c` hash, written as a loop and proved equal to a polynomial |
| `Bookmarks` | `bookmarks.dfy` | the bookmark key and id, de-duplication on load, add/remove/toggle, back-filling from cards on the page, and the store class |
| `BookmarkSearch` | `bookmark_search.dfy` | the search box of the bookmarks view |
| `HtmlEscape` | `escape.dfy` | `escapeHtml`, with a decoder proved to invert it |
| `DebugLog` | `debuglog.dfy` | `addDebugLog` (newest first, at most 100 entries) and `renderLog` |
| `Settings` | `settings.dfy` | the API-key field shared by the options page and the settings card (masked keys, show/hide, save); the options page's save with permission requests; the settings card's save |
| `Page` | `page.dfy` | the tab title and notifications, `localeFromLang`, `isSettingsPage`, `textLooksLikeTransaction` |

The browser APIs are modelled as state and parameters:

- `chrome.permissions`, `chrome.scripting` and `chrome.notifications` are a set of granted origin patterns, an optional registration and a sequence of recorded calls.
- The user's answer to a permission prompt is a `bool` parameter.
- The result of the DeepL `fetch` is a parameter (`FetchOutcome`).
- Storage values whose shape the code inspects are a `JsValue`: an array, a string, or anything else.

## Model

| member | source | states |
|---|---|---|
| `OriginPatterns.NormalizePattern` | content.js:80-91 | one line normalises to nothing or to a trimmed, non-empty pattern that does not end in `/` |
| `OriginPatterns.NormalizePatterns` | content.js:80-91 | the result is no longer than the input and every entry is a normalised pattern |
| `OriginPatterns.NormalizePatternRule` | content.js:82-89 | a blank line is dropped; a line whose trimmed form ends in `/` gains a `*`; any other line is kept trimmed |
| `OriginPatterns.NormalizePatternFixed` | options.js:25-33 | a pattern that is already normalised is left unchanged |
| `OriginPatterns.NormalizePatternIdempotent` | background.js:8-16 | normalising one pattern twice is the same as normalising it once |
| `OriginPatterns.NormalizePatternsFixed` | options.js:25-33 | a list of normalised patterns passes through unchanged |
| `OriginPatterns.NormalizePatternsIdempotent` | background.js:8-16 | re-normalising a normalised list changes nothing, so the worker's second pass over what a screen already normalised is harmless |
| `OriginPatterns.NormalizePatternsMembers` | content.js:80-91 | a pattern is in the result exactly when it is non-empty and some input line normalises to it |
| `OriginPatterns.NormalizeExample` | content.js:81 | a base URL ending in `/` becomes a wildcard prefix; a wildcard or a bare string is kept |
| `OriginPatterns.NormalizeBaseThenNormalized` | content.js:87 | a trimmed base URL followed by normalised patterns becomes that URL plus `*`, followed by the rest unchanged |
| `OriginPatterns.NormalizePatternsCons` | content.js:80-91 | normalisation works line by line and keeps the order |
| `OriginPatterns.NonEmptyTrimmed` | content.js:96 | the lines kept are non-empty and trimmed, and there are no more of them than in the input |
| `OriginPatterns.CoerceDomainList` | content.js:93-99 | an array is returned as it is; a string gives non-empty, trimmed entries holding no newline; anything else gives the fallback |
| `OriginPatterns.NonEmptyTrimmedMembers` | content.js:96 | a string is kept exactly when it is non-empty and some input line trims to it |
| `OriginPatterns.CoerceStringMembers` | content.js:93-97 | a stored string reads back as exactly the non-empty trimmed pieces between its runs of line feeds, in both directions |
| `OriginPatterns.StoredStringRoundTrip` | content.js:93-99 | a list of non-empty, trimmed, newline-free entries stored as one newline-joined string reads back as the same list; the empty list, stored as the empty string, reads back empty |
| `OriginPatterns.TextareaRoundTrip` | options.js:55-56 | the text the page writes into the domains box is parsed back by save (options.js:190) into exactly the list it showed |
| `OriginPatterns.SaveLoadRoundTrip` | options.js:55 | a saved list of normalised patterns loads back as the same list |
| `OriginPatterns.UrlMatches` | content.js:101-106 | a URL matches exactly when some pattern matches it: a `*` pattern by prefix, any other pattern by equality |
| `OriginPatterns.BaseUrlMatchesPagesUnderIt` | content.js:87 | after normalisation, a base URL ending in `/` matches every URL that starts with it |
| `OriginPatterns.Without` | options.js:165 | keeps exactly the elements of the first list that are not in the second, in order, each as many times as it occurs there |
| `OriginPatterns.DiffDomains` | options.js:161-167 | `added` holds exactly the new origins not in the old list, and `removed` exactly the old origins not in the new list; each keeps its list's order and its duplicates |
| `OriginPatterns.DiffDomainsApplies` | options.js:161-167 | the new set of origins is the old set minus `removed` plus `added` |
| `Text.SplitNewlineRuns` | options.js:190 | `split(/\n+/)` gives at least one part, and no part holds a newline |
| `Text.SplitNewlineRunsJoin` | options.js:190 | splitting non-empty, newline-free lines joined by newlines gives the lines back |
| `Text.SplitNewlineRunsLosesOnlyNewlines` | options.js:190 | the parts concatenated are the input with its newlines removed: splitting loses nothing else |
| `Text.SkipNewlinesRun` | options.js:190 | skipping line feeds consumes a whole run of them and stops at the next other character |
| `Text.SplitNewlineRunsRun` | options.js:190 | a run of any length of line feeds after a line splits off that line alone: blank lines give no empty parts |
| `TranslateRelay.Classify` | background.js:177-198 | an answer that is not JSON, and an HTTP error, each fail with a message naming `HTTP <status>`; a translation is returned exactly when the status is 2xx and the JSON has a truthy first translation, and it is that translation's text |
| `TranslateRelay.NotJsonMessageNamesStatus` | background.js:179-183 | the not-JSON error names the HTTP status |
| `TranslateRelay.HttpErrorMessageNamesStatus` | background.js:185-188 | the HTTP error message names the HTTP status |
| `TranslateRelay.ErrorCarriesApiMessage` | background.js:185-188 | on an HTTP error the message carries the API's `message` when there is one, and otherwise the first 200 characters of the body |
| `TranslateRelay.RateLimitedNonJson` | background.js:179-183 | a 429 answer whose body is not JSON fails with a message naming `HTTP 429` |
| `Background.FilterPermitted` | background.js:34-42 | an origin is kept exactly when it is requested and granted; input order is kept |
| `Background.FindMissing` | background.js:44-52 | an origin is reported missing exactly when it is requested and not granted; input order is kept |
| `Background.PermittedMissingPartition` | background.js:34-52 | the two filters split the input between them: as multisets, the permitted and missing origins make up the input |
| `Background.FilterPermittedAll` | background.js:34-42 | when every origin is granted, none is filtered out |
| `Background.RegistrationScope` | background.js:64-83 | nothing is registered exactly when no normalised pattern is granted; otherwise the `matches` list is non-empty, holds normalised patterns, and holds exactly the granted ones |
| `Background.RegistrationScopeNormalized` | background.js:65 | registering a list that is already normalised gives the same scope as registering its raw form |
| `Background.SyncRegistersRequested` | background.js:139-157 | when the user grants a non-empty normalised request, and no requested origin is also being removed, the content script is registered on exactly the requested patterns |
| `Background.StoredDomains` | background.js:26-32 | a missing or unusable stored value gives the default list; a stored array is used as it is |
| `Background.DefaultScope` | background.js:85-87 | with nothing stored, the worker registers on the default origin if it is granted, and on nothing otherwise |
| `Background.Worker.constructor` | background.js:5-6 | the worker starts with no registration and no calls made |
| `Background.Worker.RemoveOriginPermissions` | background.js:54-62 | the listed origins are no longer granted; an empty list makes no call |
| `Background.Worker.RequestOriginPermissions` | background.js:149 | the user's answer is returned, and the origins are granted exactly when the user agrees |
| `Background.Worker.RegisterContentScripts` | background.js:64-83 | the old registration is replaced by the registration scope of the list under the current grants; the calls are unregister, then register only when the scope is not empty |
| `Background.Worker.Refresh` | background.js:85-87 | re-registers on the stored origin list under the current grants |
| `Background.Worker.OnStorageChanged` | background.js:97-102 | re-registers exactly when `domains` changed in local storage, with the registration calls made for the stored list and the granted origins; otherwise nothing changes |
| `Background.Worker.OnCheckMissingPermissions` | background.js:116-122 | answers with the missing origins of the normalised list, or of the default list when the message has no array |
| `Background.Worker.OnOpenPermissions` | background.js:123-133 | revokes the normalised `removed` origins, then opens the permissions tab on the normalised requested list |
| `Background.Worker.RequestRemoveRegister` | background.js:149-155 | request, then revoke, then re-register, in that order; the grants afterwards are the answered request minus the revoked origins |
| `Background.Worker.OnSyncPermissions` | background.js:139-157 | an empty request only revokes and reports success; a non-empty one requests, revokes, re-registers and reports the user's answer along with the requested patterns |
| `Background.Worker.HandleMessage` | background.js:104-202 | dispatches each message type: a notification message creates a notification; a missing-permissions query answers without changing anything; `permissionsGranted` and `updateContentScripts` re-register on the list; a sync answers with the user's answer and the requested patterns; translations return the classified response; unknown messages do nothing. For each, the browser calls made (removals, the permission request, the new tab, the registration) and the granted set after them are stated |
| `Hash.ToInt32` | content.js:153 | `hash \|= 0` gives a signed 32-bit integer |
| `Hash.ToInt32Wraps` | content.js:153 | the wrapped value differs from the exact one by a multiple of 2^32 |
| `Hash.ToInt32Small` | content.js:153 | a value already in 32-bit range is left unchanged |
| `Hash.ToInt32Congruent` | content.js:153 | values congruent modulo 2^32 wrap to the same integer |
| `Hash.HashOf` | content.js:149-156 | the hash is always a signed 32-bit integer |
| `Hash.StepIsTimes31` | content.js:152-153 | `(h << 5) - h + c`, wrapped, is `31*h + c` wrapped |
| `Hash.HashIsPolynomial` | content.js:149-156 | the hash is the base-31 polynomial of the character codes, reduced to signed 32 bits |
| `Hash.HashExamples` | content.js:149-156 | the hash of `""` is 0, of `"a"` is 97, of `"ab"` is 3105 |
| `Hash.HashString` | content.js:149-156 | the loop computes the specified hash, which is the wrapped polynomial |
| `Bookmarks.BookmarkKeyInjective` | content.js:265-269 | keys built from user names without a `\|` determine the trimmed user name and text |
| `Bookmarks.KeyCollision` | content.js:265-269 | a `\|` inside a user name can make two different posts share a key |
| `Bookmarks.BuildBookmark` | content.js:403-411 | the id hashes the post's data id when there is one, and otherwise its user/text key; the profile URL falls back to `/user/<userId>` |
| `Bookmarks.SameContentSameId` | content.js:409-411 | two cards without a data id, with the same trimmed user name and text, get the same id |
| `Bookmarks.IndexOfId` | content.js:283 | finds the first entry with the id, or -1 exactly when no entry has it |
| `Bookmarks.IndexOfDistinct` | content.js:283 | in a list with distinct ids, looking up an entry's id finds that entry |
| `Bookmarks.DistinctFirst` | content.js:276-282 | the first occurrences of a list's values: the same values, with none repeated |
| `Bookmarks.ExtendsTransitive` | content.js:286-297 | only filling empty fields is a transitive relation |
| `Bookmarks.FillEmpty` | content.js:286-288 | a field that had a value keeps it; the result is empty only when both sides are |
| `Bookmarks.MergeDuplicate` | content.js:283-298 | merging a duplicate only fills the kept entry's empty avatar, time, profile URL and user id, each from the duplicate |
| `Bookmarks.NewEntry` | content.js:301-310 | a first occurrence gets its content key as id, and a profile URL derived from its user id when it had none |
| `Bookmarks.MergeAt` | content.js:283-298 | merging into an entry keeps the ids, their order and their distinctness, and only fills fields |
| `Bookmarks.AppendNew` | content.js:301-310 | appending a new key's entry adds exactly that id at the end and keeps the ids distinct |
| `Bookmarks.LoadStep` | content.js:278-311 | one step of the load loop keeps the ids distinct, adds at most one entry and only fills earlier entries |
| `Bookmarks.LoadStepIds` | content.js:278-311 | a step adds the item's key id exactly when that id has not been seen |
| `Bookmarks.Loaded` | content.js:272-319 | the loaded list has distinct ids and is no longer than what was stored |
| `Bookmarks.LoadedKeyed` | content.js:280-281 | every loaded entry's id is the hash of its own user/text key |
| `Bookmarks.MergeAtKeyed` | content.js:283-298 | merging keeps every id equal to its entry's key hash |
| `Bookmarks.SameKeySameId` | content.js:280-281 | entries with the same user name and text get the same id |
| `Bookmarks.LoadedKeepsFirstOccurrences` | content.js:272-319 | the loaded ids are the stored entries' key ids, first occurrences only, in stored order |
| `Bookmarks.LoadKeepsPopulated` | content.js:283-298 | later stored entries only fill fields of what a prefix of the list already loaded |
| `Bookmarks.ReloadRekeys` | content.js:280-310 | loading replaces a bookmark's id by its content key, so removing it by the id it was saved with finds nothing when the two differ |
| `Bookmarks.LoadStoredLoaded` | content.js:312-314 | a list that load produced loads back unchanged |
| `Bookmarks.Prepend` | content.js:434 | the new bookmark comes first, followed by the old list, cut to 200 entries |
| `Bookmarks.PrependDistinct` | content.js:433-434 | adding a bookmark whose id is absent keeps the ids distinct |
| `Bookmarks.RemoveId` | content.js:445 | keeps exactly the bookmarks whose id differs, in order |
| `Bookmarks.RemoveIdCount` | content.js:445 | in a list with distinct ids, removal drops one entry when the id is present and none otherwise |
| `Bookmarks.FillFromCard` | content.js:544-555 | back-filling only sets an empty user id, profile URL or avatar from the card; the time is untouched |
| `Bookmarks.ExtendsAntisymmetric` | content.js:544-555 | two entries that each only fill the other are equal |
| `Bookmarks.FillMakesChange` | content.js:538-557 | once a field is really filled, the list differs from the one loaded, so `changed` is right to be set |
| `Bookmarks.BackfillStep` | content.js:539-556 | one card only fills fields of the list |
| `Bookmarks.Backfilled` | content.js:539-556 | all the cards together only fill fields and never touch a time |
| `Bookmarks.BackfillUnmatchedCard` | content.js:542-543 | a card whose id matches no bookmark changes nothing |
| `Bookmarks.MergeFields` | content.js:286-297 | the four field-by-field updates compute the duplicate merge |
| `Bookmarks.FillFields` | content.js:544-555 | the three updates compute the back-fill, and `changed` is set exactly when the bookmark changed |
| `Bookmarks.LoadEntry` | content.js:278-311 | one pass of the loop body, with its `seen` set and id-to-index map, computes the specified step and keeps the map consistent with the list |
| `Bookmarks.IndexedMerge` | content.js:283-298 | merging keeps `seen` and the index map consistent |
| `Bookmarks.IndexedAppend` | content.js:301-302 | recording a new id with its position keeps `seen` and the index map consistent |
| `Bookmarks.BackfillCard` | content.js:539-556 | the per-card body computes the specified step, and `changed` still says whether the list differs from the one loaded |
| `Bookmarks.BookmarkStore.Save` | content.js:321-327 | storage, the cache and the id set all hold the saved list |
| `Bookmarks.BookmarkStore.Load` | content.js:272-319 | returns the de-duplicated list and caches it; storage is rewritten only when de-duplication shortened it |
| `Bookmarks.BookmarkStore.Add` | content.js:431-441 | a bookmark whose id is already present changes nothing but the load; otherwise it is put first and the list saved |
| `Bookmarks.BookmarkStore.RemoveById` | content.js:443-450 | the reloaded list without that id is saved |
| `Bookmarks.BookmarkStore.Toggle` | content.js:466-486 | a known id is removed; otherwise the bookmark, enriched with the user's public key, is added; storage ends up holding the new list; when the id turns out to be known only after reloading, nothing is added and storage holds what reloading left there (the deduplicated list, rewritten only when it shrank) |
| `Bookmarks.BookmarkStore.Backfill` | content.js:534-561 | the cards fill the loaded list, which is saved exactly when a field changed |
| `Bookmarks.Enriched` | content.js:473-483 | keeps the id; the bookmark is unchanged when it already has a user id or profile URL, or when no public key was found; otherwise it gains the key as user id and `/user/<key>` as profile URL and nothing else |
| `BookmarkSearch.Needle` | content.js:885 | the query is trimmed and lower-cased |
| `BookmarkSearch.Visible` | content.js:884-895 | a bookmark stays displayed exactly when it is in the list and the query is blank or its search text contains the query; the order is kept |
| `BookmarkSearch.BlankQueryShowsAll` | content.js:888-891 | a blank or whitespace-only query hides nothing |
| `BookmarkSearch.QueryFindsField` | content.js:697 | a query found in the lower-cased user name, text, repost user name or repost text shows the bookmark |
| `BookmarkSearch.VisibleNarrows` | content.js:884-895 | filtering never shows more bookmarks than there are |
| `HtmlEscape.ReplaceAll` | content.js:121-126 | a replacement of a character that does not occur changes nothing |
| `HtmlEscape.EscapeHtmlChar` | content.js:120-127 | on one character, the five replacements give that character's entity |
| `HtmlEscape.EscapeHtmlPerChar` | content.js:120-127 | the chain of global replacements, `&` first, equals escaping each character on its own |
| `HtmlEscape.EscapeRoundTrip` | content.js:120-127 | decoding the five entities gives back the original text |
| `HtmlEscape.EscapeHtmlNoMarkup` | content.js:120-127 | escaped text holds no `<`, `>`, `"` or `'` |
| `HtmlEscape.EscapeInjective` | content.js:120-127 | different texts escape differently |
| `DebugLog.WithEntry` | content.js:1605-1607 | the new entry comes first, followed by the old log, cut to 100 entries |
| `DebugLog.AddAllKeepsNewest` | options.js:141-154 | after any number of additions, the log is the newest 100 of all entries, newest first |
| `DebugLog.LogStore.Add` | options.js:141-154 | with logging off nothing is written; otherwise the entry is prepended and the log cut to 100 |
| `DebugLog.LogStore.Clear` | options.js:248-253 | the log becomes empty |
| `DebugLog.DefaultLevel` | options.js:133 | an entry without a level is shown as `[INFO]` |
| `DebugLog.RenderLogEmpty` | options.js:125-139 | the placeholder is shown exactly when the log is empty |
| `DebugLog.LineHasBracket` | options.js:136 | every line has `[` right after the timestamp and a space |
| `DebugLog.RenderLogLines` | options.js:125-139 | when no field holds a newline, the rendered text splits back into one line per entry |
| `Settings.LoadedKey` | options.js:48-52 | a loaded key is never all asterisks; it is the stored key when that is not masked, and empty when it is |
| `Settings.ToggledKey` | options.js:238-246 | showing a hidden field adopts the trimmed draft exactly when it is non-empty and not masked; in every other case the key is unchanged; a key that was not masked does not become masked |
| `Settings.OptionsSavedKey` | options.js:210-218 | the saved key is the trimmed field when the field is shown or not masked, and empty when a hidden field is masked |
| `Settings.CardSavedKey` | content.js:1239-1247 | the saved key is the trimmed field when it is shown, or non-empty and not masked; otherwise it is the previous key; from a hidden field it is never masked or blank when the previous key was not |
| `Settings.OptionsSaveLoadRoundTrip` | options.js:210-218 | a saved key loads back unchanged except when a shown field held only asterisks |
| `Settings.CardSaveLoadRoundTrip` | content.js:1239-1247 | on the settings card too, the saved key loads back unchanged except when a shown field held only asterisks |
| `Settings.HiddenBlankSave` | content.js:1239-1241 | from a hidden field holding a blank or masked value, the options page clears the key while the card keeps the previous one |
| `Settings.ShowThenHide` | options.js:238-246 | text typed while the key is shown is dropped when the key is hidden again |
| `Settings.KeyPanel.constructor` | options.js:2-3 | starts with no key and the key hidden |
| `Settings.KeyPanel.SetKeyVisible` | options.js:77-91 | sets the visibility and shows the current key in the field |
| `Settings.KeyPanel.Load` | options.js:48-53 | loads the key with masked keys discarded, asks for re-entry exactly when the stored key was masked, and hides the field |
| `Settings.KeyPanel.Toggle` | options.js:238-246 | adopts the draft as the specified toggled key and flips visibility |
| `Settings.KeyPanel.StorageChanged` | options.js:115-122 | adopts the new stored key into the field, masked or not, and keeps the visibility |
| `Settings.KeyPanel.SaveAsOptions` | options.js:210-231 | stores the options page's saved key and reports an update exactly when that key is non-empty |
| `Settings.KeyPanel.SaveAsCard` | content.js:1239-1260 | stores the card's saved key and reports an update exactly when that key is non-empty and new |
| `Settings.SavedDomains` | options.js:190 | the domains saved from the text box are normalised patterns without newlines |
| `Settings.DeniedExactly` | options.js:193-197 | the denial is reported exactly when a non-empty request was refused |
| `Settings.UneditedSaveKeepsDomains` | options.js:189-198 | saving without editing the domains box saves the loaded list and revokes nothing |
| `Settings.OptionsPage.constructor` | options.js:2-6 | starts with the options page's default origins and no key |
| `Settings.OptionsPage.ShowDomains` | options.js:55-56 | the field shows the stored list, or the defaults, normalised, one pattern per line; only the list and the field change |
| `Settings.OptionsPage.Load` | options.js:47-56 | loads the key, shows the normalised stored or default origins joined by newlines, and asks for re-entry of a masked key |
| `Settings.OptionsPage.RequestOriginPermissions` | options.js:169-177 | an empty request succeeds without a prompt; otherwise the user's answer is returned and grants the origins |
| `Settings.OptionsPage.RemoveOriginPermissions` | options.js:179-187 | succeeds, and revokes the origins with a call only when there are some |
| `Settings.OptionsPage.UpdatePermissions` | options.js:193-198 | requests the new list, reports a denial, then revokes the removed origins |
| `Settings.OptionsPage.Save` | options.js:189-236 | permissions are requested for the parsed list and the removed origins revoked; the list and key are stored; statuses and logs are written; the worker is told to update its registration |
| `Settings.OptionsPage.Store` | options.js:200-235 | stores the list and the saved key, logs the save (and the key when non-empty), hides the key and messages the worker |
| `Settings.CardPermissionMessage` | content.js:1219-1226 | the card opens the permissions tab exactly when origins are missing, otherwise reports the list granted |
| `Settings.SettingsCard.constructor` | content.js:995-997 | starts with the default origins and no key |
| `Settings.SettingsCard.ShowDomains` | content.js:1189-1190 | the field shows the stored list, or the default origin, normalised, one pattern per line; only the list and the field change |
| `Settings.SettingsCard.Load` | content.js:1181-1190 | loads the key and the normalised stored or default origins, asking for re-entry of a masked key |
| `Settings.SettingsCard.AskPermissions` | content.js:1214-1227 | returns the parsed list; asks the worker which of its origins are missing, then requests the permissions tab with the removed origins or reports the list granted; nothing else changes |
| `Settings.SettingsCard.StoreKey` | content.js:1241-1262 | stores the card's saved key and shows it hidden; the list becomes stored and current; the save is logged, plus a key-update line exactly when the key is non-empty and new; messages, field and statuses are unchanged |
| `Settings.SettingsCard.Save` | content.js:1213-1264 | asks the worker for missing permissions, then for the tab or the re-registration; stores the list and the card's saved key; logs a key update only when the key changed |
| `Page.TitleFromCount` | content.js:108-114 | the title is the bare site title exactly when the count is blank or zero; it always ends with the site title |
| `Page.TitleRoundTrip` | content.js:108-114 | the count can be read back from the title, except that zero shows none |
| `Page.BadgeCount` | content.js:1570-1571 | the count read from the badge is trimmed |
| `Page.TabTitle.constructor` | content.js:1563-1566 | starts with no badge read, and the site title when the feature is on |
| `Page.TabTitle.Update` | content.js:1568-1588 | with the feature off nothing changes; otherwise the title follows the badge, a changed non-empty count is announced and logged, and the count is remembered |
| `Page.Announced` | content.js:1575-1586 | over any run of readings, only non-empty counts that were read are announced, at most one per reading |
| `Page.SteadyCountAnnouncedOnce` | content.js:1575-1576 | a count that stays on the badge is announced once (or never, with notifications off) |
| `Page.SteadyCountQuiet` | content.js:1576 | once a count was read, reading it again announces nothing |
| `Page.AnnouncedSnoc` | content.js:1575-1588 | one more reading adds that reading to the announcements exactly when it is due against the count remembered so far |
| `Page.TabTitle.Watch` | content.js:1568-1592 | over a run of page changes the worker is sent exactly one notification per announced count, in order, and as many log entries; the last reading is remembered and shown in the title; with the feature off nothing changes |
| `Page.LocaleFromLang` | content.js:66-78 | every language maps to a locale that has labels |
| `Page.LocaleIgnoresCase` | content.js:67 | the language code is read without regard to case |
| `Page.LocaleDefaults` | content.js:67-77 | a missing language gives German; a language without labels gives English |
| `Page.IsSettingsPage` | content.js:116-118 | a path is a settings page exactly when it is `/settings` or a path under it |
| `Page.SettingsPageExamples` | content.js:116-118 | `/settings/profile` counts; `/settingsx` and `/user/settings` do not |
| `Page.LooksLikeTransaction` | content.js:1458-1466 | recognised text is non-empty and mentions a transaction or an explorer; text mentioning a transaction id, an explorer link, or a transaction with fees is always recognised |
| `Page.TransactionIdMentionsTransaction` | content.js:1461-1462 | a text with a transaction id mentions a transaction |
| `Page.LooksLikeTransactionIgnoresCase` | content.js:1460 | the test ignores case |
| `Page.LooksLikeTransactionWithin` | content.js:1458-1466 | text surrounding a transaction pop-up's text does not stop it being recognised |

## Left out

- DOM work is not modelled: scraping post cards, building the bookmarks view and the settings card, and styling buttons. A card is a record of the fields `buildBookmarkFromCard` reads (`Bookmarks.Card`).
- Timers, the `MutationObserver`s other than the tab title's (which is `Page.TabTitle.Watch`, one update per change), the pop-up hider's scanning, the turquoise theme, the version badge and page navigation are not modelled. They are presentation, and they do not change the stored state.
- The asynchronous ordering of storage and messaging callbacks is not modelled. Each handler is one atomic step.
- Races between tabs that write the debug log or the bookmarks at the same time are not modelled.
- Fetching the DeepL API, and `JSON.parse`, are not modelled. Their outcome is the `FetchOutcome` parameter. The content script's side of translation (`requestTranslation`, `createTranslateLink`, label strings) is left out.
- `permissions.js` is not part of this model.
- `OriginPatterns.CoerceDomainList`: a stored array is taken to hold strings. An array with non-string entries cannot be represented, and options.js:27 would throw on such an entry when it trims it.
- `DebugLog.LogStore.Add`: `enabled` is a parameter of each call. That is faithful to options.js:141-143, which re-reads `debugLogEnabled` from storage on every call. The content script (content.js:1596-1597) instead tests the flag it read once at page load, so a tab keeps logging, or keeps not logging, until it reloads. That difference is not modelled.
- `Background.FilterPermitted`, `Background.FindMissing`, `Background.RegistrationScope`: `chrome.permissions.contains`, `request` and `remove` (background.js:37, 47, 60, 149) are modelled as exact membership in, union with and difference from a set of granted origin strings. Chrome answers by match-pattern coverage, so a broader granted pattern that covers a requested one is not modelled.
- Timestamps (`new Date().toISOString()`) are parameters of `DebugLog.LogStore.Add`. The screens' log requests are `LogRequest` values without them.
- `Text.ToLower`, `Text.ToUpper`: only ASCII letters change case. JavaScript's Unicode case mapping is not modelled.
- `Hash.HashOf`: characters are single code units. A character outside the Basic Multilingual Plane is two UTF-16 units in JavaScript and hashes differently there.
- `Bookmarks.BuildBookmark`: ids are the hash integers. `hashString` returns their decimal string, and the string form is not modelled.
- `Settings.SettingsCard.Save`: the status texts shown from the permission callbacks ("Please grant access in the opened tab.", "Saved ✔") are not modelled. Statuses are unchanged by the card's save.
- The "clear cache" buttons (options.js:255-260, content.js:1273-1278) are not modelled. They wipe storage and reload the page.
- The language, notification, tab-title, bookmark, search-bar, pop-up and log switches are not modelled as stored state: they are copied verbatim into and out of storage. Their effect on the tab title and logging is the `tabTitleEnabled`, `notificationsEnabled` and `enabled` parameters.
- `OriginPatterns.DiffDomains` computes `added` as options.js does. Neither screen uses it after computing it, and the card's copy (content.js:1025-1030) computes only `removed`.
- `Page.LocaleFromLang`: only that every language maps to a locale with labels, plus the case rule and the two defaults, is proved. The seven-way table itself is the function's body.
- `Settings.KeyPanel.StorageChanged` adopts a masked key from storage without the check that load applies, as both screens do (options.js:115-122, content.js:1308-1315).
