/**
 * The translation relay of the background worker: one POST to the DeepL API
 * per request, whose outcome is classified into `{ok: true, text}` or
 * `{ok: false, error}`. The network call and `JSON.parse` are not modelled;
 * their outcome is an input here.
 */
module TranslateRelay {
  import opened Text

  /**
   * A body that parsed as JSON. `JsonNull` stands for every falsy JSON value
   * (`null`, `false`, `0`, `""`). `JsonObject` stands for every other value:
   * `message` is its `message` property ("" when missing or falsy) and
   * `translations` its `translations` array (empty when missing), each
   * element either falsy (`None`) or an object with a `text`.
   */
  datatype Json =
    | JsonNull
    | JsonObject(message: string, translations: seq<TranslationItem>)

  datatype TranslationItem = FalsyItem | Item(text: string)

  /** What `fetch` produced: a network failure, or a response with its status, raw body and parse result. */
  datatype FetchOutcome =
    | NetworkError(message: string)
    | HttpResponse(status: nat, bodyText: string, parsed: ParsedBody)

  /** The result of `JSON.parse(bodyText)`: a value, or the exception for a body that is not JSON. */
  datatype ParsedBody = NotJson | Parsed(json: Json)

  /** The response sent back to the content script. */
  datatype TranslateResponse = Translated(text: string) | Failed(error: string)

  /** `res.ok`: a status in the range 200-299. */
  predicate IsOkStatus(status: nat) {
    200 <= status <= 299
  }

  /** The message of the error thrown for a body that is not JSON. */
  function NotJsonMessage(status: nat): string {
    "DeepL Antwort ist kein JSON (HTTP " + DecimalString(status) + ")."
  }

  /** The message of the error thrown for a non-2xx JSON response. */
  function HttpErrorMessage(status: nat, apiMessage: string): string {
    "DeepL error (HTTP " + DecimalString(status) + "): " + apiMessage
  }

  const INVALID_RESPONSE_MESSAGE := "DeepL response is invalid."

  /**
   * The classification of the translate handler: a body that is not JSON fails
   * whatever the status; a non-2xx status fails with the API's message or the
   * first 200 characters of the body; a 2xx response without a first
   * translation is invalid; otherwise the first translation's text is the
   * result. A network failure reports the exception's message.
   */
  function Classify(outcome: FetchOutcome): (r: TranslateResponse)
    ensures outcome.HttpResponse? && outcome.parsed.NotJson? ==>
      r.Failed? && Contains(r.error, "HTTP " + DecimalString(outcome.status))
    ensures outcome.HttpResponse? && outcome.parsed.Parsed? && !IsOkStatus(outcome.status) ==>
      r.Failed? && Contains(r.error, "HTTP " + DecimalString(outcome.status))
    ensures r.Translated? <==>
      && outcome.HttpResponse? && IsOkStatus(outcome.status)
      && outcome.parsed.Parsed? && outcome.parsed.json.JsonObject?
      && |outcome.parsed.json.translations| > 0
      && outcome.parsed.json.translations[0].Item?
    ensures r.Translated? ==> r.text == outcome.parsed.json.translations[0].text
  {
    match outcome
    case NetworkError(message) => Failed(message)
    case HttpResponse(status, bodyText, parsed) =>
      match parsed
      case NotJson =>
        NotJsonMessageNamesStatus(status);
        Failed(NotJsonMessage(status))
      case Parsed(json) =>
        if !IsOkStatus(status) then
          var apiMessage := if json.JsonObject? && json.message != "" then json.message else Take(bodyText, 200);
          HttpErrorMessageNamesStatus(status, apiMessage);
          Failed(HttpErrorMessage(status, apiMessage))
        else if json.JsonNull? || |json.translations| == 0 || json.translations[0].FalsyItem? then
          Failed(INVALID_RESPONSE_MESSAGE)
        else
          Translated(json.translations[0].text)
  }

  lemma NotJsonMessageNamesStatus(status: nat)
    ensures Contains(NotJsonMessage(status), "HTTP " + DecimalString(status))
  {
    var n := "HTTP " + DecimalString(status);
    assert NotJsonMessage(status) == "DeepL Antwort ist kein JSON (" + n + ").";
    ContainsPart("DeepL Antwort ist kein JSON (", n, ").");
  }

  lemma HttpErrorMessageNamesStatus(status: nat, apiMessage: string)
    ensures Contains(HttpErrorMessage(status, apiMessage), "HTTP " + DecimalString(status))
  {
    var n := "HTTP " + DecimalString(status);
    assert HttpErrorMessage(status, apiMessage) == "DeepL error (" + n + ("): " + apiMessage);
    ContainsPart("DeepL error (", n, "): " + apiMessage);
  }

  /** A failed non-2xx JSON response carries the API's message when there is one, else at most 200 characters of the body. */
  lemma ErrorCarriesApiMessage(status: nat, bodyText: string, json: Json)
    requires !IsOkStatus(status)
    ensures var r := Classify(HttpResponse(status, bodyText, Parsed(json)));
      if json.JsonObject? && json.message != "" then r == Failed(HttpErrorMessage(status, json.message))
      else r == Failed(HttpErrorMessage(status, bodyText[..if |bodyText| < 200 then |bodyText| else 200]))
  {
  }

  /** A 429 answer whose body is not JSON fails with a message naming HTTP 429. */
  lemma RateLimitedNonJson(bodyText: string)
    ensures Classify(HttpResponse(429, bodyText, NotJson)).Failed?
    ensures Contains(Classify(HttpResponse(429, bodyText, NotJson)).error, "HTTP 429")
  {
    assert DecimalString(4) == "4";
    assert DecimalString(42) == DecimalString(4) + "2";
    assert DecimalString(429) == DecimalString(42) + "9";
    NotJsonMessageNamesStatus(429);
    assert "HTTP " + DecimalString(429) == "HTTP 429";
  }
}
