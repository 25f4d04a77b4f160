/**
 * The client-side key check (services/api-key-validation-service.ts): it
 * posts the trimmed key to `/api/validate-key` and trusts only a strict
 * `valid === true`. The HTTP exchange is an input function from the key
 * sent to what `fetch` and `response.json()` produced.
 */
module ValidationClient {
  import opened Wrappers
  import opened JsStrings
  import opened Json
  import opened Storage
  import ValidateKeyRoute

  /** What came back: `fetch` threw, or a response with a status and a parsed body (its `valid` property). */
  datatype FetchOutcome = NetworkFailure(exception: Exception) | Received(status: int, body: Document)

  /** The answer accepts the key: a body whose `valid` is strictly `true`. */
  predicate Accepts(outcome: FetchOutcome) {
    outcome.Received? && outcome.body == Parsed(Bool(true))
  }

  /**
   * `validateApiKey`: false for an absent, empty or blank key without a
   * request; otherwise true exactly when the body's `valid` is `true`.
   * Every exception (network, JSON, reading `valid` of `null`) gives false.
   */
  function ValidateApiKey(apiKey: Option<string>, post: string -> FetchOutcome): (accepted: bool)
    ensures accepted <==> apiKey.Some? && !IsBlank(apiKey.value) && Accepts(post(Trim(apiKey.value)))
  {
    if apiKey.None? || apiKey.value == "" || IsBlank(apiKey.value) then false
    else match post(Trim(apiKey.value))
      case NetworkFailure(_) => false
      case Received(_, body) =>
        match body
        case Malformed => false
        case NullDocument => false
        case Parsed(valid) => valid == Bool(true)
  }

  /** Only the trimmed key is sent: two endpoints that answer the trimmed key alike give the same result, whatever they would answer for the key as typed. */
  lemma OnlyTrimmedKeyIsSent(apiKey: string, post1: string -> FetchOutcome, post2: string -> FetchOutcome)
    requires post1(Trim(apiKey)) == post2(Trim(apiKey))
    ensures ValidateApiKey(Some(apiKey), post1) == ValidateApiKey(Some(apiKey), post2)
  {
  }

  /** An absent or blank key is rejected whatever the endpoint would say: no request is made. */
  lemma BlankKeyNeedsNoRequest(apiKey: Option<string>, post1: string -> FetchOutcome, post2: string -> FetchOutcome)
    requires apiKey.None? || IsBlank(apiKey.value)
    ensures !ValidateApiKey(apiKey, post1) && !ValidateApiKey(apiKey, post2)
  {
  }

  /** Truthy values other than `true` (1, "true", an object) do not validate a key. */
  lemma TruthyIsNotEnough(s: string, status: int, valid: JsValue)
    requires !IsBlank(s) && valid != Bool(true)
    ensures !ValidateApiKey(Some(s), _ => Received(status, Parsed(valid)))
  {
  }

  /** The HTTP status is never looked at: two answers with the same body give the same result. */
  lemma StatusIsIgnored(apiKey: Option<string>, body: Document, status1: int, status2: int)
    ensures ValidateApiKey(apiKey, _ => Received(status1, body)) == ValidateApiKey(apiKey, _ => Received(status2, body))
  {
  }

  /** The endpoint as the client sees it: the route's status and its `valid` field. */
  function RouteEndpoint(lookup: string -> SelectReply<string>): string -> FetchOutcome {
    k => var r := ValidateKeyRoute.Post(Parsed(Str(k)), lookup);
      Received(r.Status(), Parsed(Bool(r.Valid())))
  }

  /**
   * Client and route together: a key is accepted exactly when it is not
   * blank and the lookup of its trimmed form found a row without error.
   */
  lemma AcceptedIffFound(k: string, lookup: string -> SelectReply<string>)
    ensures ValidateApiKey(Some(k), RouteEndpoint(lookup)) <==>
      !IsBlank(k) && lookup(Trim(k)).Selected? && lookup(Trim(k)).data.Some? && lookup(Trim(k)).error.None?
  {
    if !IsBlank(k) {
      var t := Trim(k);
      TrimIdempotent(k);
      SameTrimSameBlankness(t, k);
      assert ValidateKeyRoute.KeySent(Parsed(Str(t)));
      var r := ValidateKeyRoute.Post(Parsed(Str(t)), lookup);
      assert r.Valid() <==> ValidateKeyRoute.Found(lookup(t));
      assert RouteEndpoint(lookup)(t) == Received(r.Status(), Parsed(Bool(r.Valid())));
      assert ValidateApiKey(Some(k), RouteEndpoint(lookup)) == r.Valid();
    }
  }
}
