/**
 * The `POST /api/validate-key` handler (app/api/validate-key/route.ts).
 * The request body arrives parsed, reduced to its `apiKey` property; the
 * single-row lookup by key is an input function from the key searched for to
 * the client's reply, whose data is the matching row's id.
 */
module ValidateKeyRoute {
  import opened Wrappers
  import opened JsStrings
  import opened Json
  import opened Storage

  /** The five responses the handler sends: an HTTP status and the JSON body `{ valid, message }`. */
  datatype Response = KeyRequired | InvalidKey | LookupFailed | KeyIsValid | InternalError {
    function Status(): int {
      match this
      case KeyRequired => 400
      case InvalidKey => 401
      case LookupFailed => 500
      case KeyIsValid => 200
      case InternalError => 500
    }

    function Valid(): bool {
      this == KeyIsValid
    }

    function Message(): string {
      match this
      case KeyRequired => "API key is required"
      case InvalidKey => "Invalid API key"
      case LookupFailed => "Error validating API key"
      case KeyIsValid => "API key is valid"
      case InternalError => "Internal server error"
    }
  }

  /** Every response has one of the four statuses, and says `valid: true` exactly with 200. */
  lemma ResponseStatuses(r: Response)
    ensures r.Status() in {200, 400, 401, 500}
    ensures r.Valid() <==> r.Status() == 200
  {
  }

  /** The PostgREST code for "a single row was requested and none matched". */
  const NoRowsCode: string := "PGRST116"

  /** The lookup found a row and reported no error. */
  predicate Found(reply: SelectReply<string>) {
    reply.Selected? && reply.data.Some? && reply.error.None?
  }

  /**
   * The answer to a lookup that was made: 200 exactly when a row was found,
   * 401 when none matched, 500 for any other storage error or a throw.
   */
  function LookupResponse(reply: SelectReply<string>): (r: Response)
    ensures r.Valid() <==> Found(reply)
    ensures r == InvalidKey <==>
      reply.Selected? && ((reply.error.Some? && reply.error.value.code == NoRowsCode) || reply == Selected(None, None))
    ensures r.Status() == 500 <==> reply.SelectThrew? || (reply.error.Some? && reply.error.value.code != NoRowsCode)
    ensures r != KeyRequired
  {
    match reply
    case SelectThrew(_) => InternalError
    case Selected(data, error) =>
      if error.Some? then
        (if error.value.code == NoRowsCode then InvalidKey else LookupFailed)
      else if data.Some? then KeyIsValid
      else InvalidKey
  }

  /** The handler: a body that cannot be read fails with 500, a missing key with 400, otherwise the trimmed key is looked up. */
  function Post(body: Document, lookup: string -> SelectReply<string>): (r: Response)
    ensures r.Valid() <==> KeySent(body) && Found(lookup(Trim(body.property.s)))
    ensures r == KeyRequired <==> body.Parsed? && !KeySent(body)
    ensures !body.Parsed? ==> r == InternalError
  {
    match body
    case Malformed => InternalError
    case NullDocument => InternalError
    case Parsed(apiKey) =>
      RequiredCheck(apiKey);
      if !Truthy(apiKey) || !apiKey.Str? || IsBlank(apiKey.s) then KeyRequired
      else LookupResponse(lookup(Trim(apiKey.s)))
  }

  /** The handler's `!apiKey || typeof apiKey !== "string" || apiKey.trim().length === 0` test: the key is not a non-blank string. */
  lemma RequiredCheck(apiKey: JsValue)
    ensures (!Truthy(apiKey) || !apiKey.Str? || IsBlank(apiKey.s)) <==> !(apiKey.Str? && !IsBlank(apiKey.s))
  {
    EmptyIsBlank();
  }

  /** The body's `apiKey` is a non-blank string. */
  predicate KeySent(body: Document) {
    body.Parsed? && body.property.Str? && !IsBlank(body.property.s)
  }

  /** A key that is the trimmed form of a non-blank string sent as `apiKey`. */
  predicate SentKey(body: Document, key: string) {
    KeySent(body) && key == Trim(body.property.s)
  }

  /** `valid: true` is returned exactly when a non-blank key was sent and the lookup found a row without error. */
  lemma ValidOnlyWhenFound(body: Document, lookup: string -> SelectReply<string>)
    ensures Post(body, lookup).Valid() <==>
      exists key | SentKey(body, key) :: lookup(key).Selected? && lookup(key).data.Some? && lookup(key).error.None?
  {
    if KeySent(body) {
      assert SentKey(body, Trim(body.property.s));
    }
  }

  /** A missing, non-string or blank key gets 400 whatever storage holds: no lookup is made. */
  lemma MissingKeyIsBadRequest(apiKey: JsValue, lookup1: string -> SelectReply<string>, lookup2: string -> SelectReply<string>)
    requires !(apiKey.Str? && !IsBlank(apiKey.s))
    ensures Post(Parsed(apiKey), lookup1) == Post(Parsed(apiKey), lookup2) == KeyRequired
  {
  }

  /** The lookup's answer for a sent key decides the response: not found is 401, any other storage error 500. */
  lemma LookupDecides(s: string, lookup: string -> SelectReply<string>)
    requires !IsBlank(s)
    ensures var reply := lookup(Trim(s));
      var r := Post(Parsed(Str(s)), lookup);
      && (reply.Selected? && reply.error.Some? && reply.error.value.code == NoRowsCode ==> r == InvalidKey)
      && (reply.Selected? && reply.error.Some? && reply.error.value.code != NoRowsCode ==> r == LookupFailed)
      && (reply == Selected(None, None) ==> r == InvalidKey)
      && (reply.Selected? && reply.data.Some? && reply.error.None? ==> r == KeyIsValid)
      && (reply.SelectThrew? ==> r == InternalError)
  {
    SentKeyIsLookedUp(s, lookup);
  }

  /** A body that cannot be read, or that is `null`, gives 500 "Internal server error". */
  lemma UnreadableBodyIsInternalError(lookup: string -> SelectReply<string>)
    ensures Post(Malformed, lookup) == InternalError
    ensures Post(NullDocument, lookup) == InternalError
  {
  }

  /** Whitespace around the key changes nothing: the lookup uses the trimmed key. */
  lemma PaddingIsIgnored(w1: string, s: string, w2: string, lookup: string -> SelectReply<string>)
    requires AllWhitespace(w1) && AllWhitespace(w2)
    ensures Post(Parsed(Str(w1 + s + w2)), lookup) == Post(Parsed(Str(s)), lookup)
  {
    TrimIgnoresPadding(w1, s, w2);
    SameTrimSameResponse(w1 + s + w2, s, lookup);
  }

  /** Only the trimmed key matters to the handler. */
  lemma SameTrimSameResponse(s1: string, s2: string, lookup: string -> SelectReply<string>)
    requires Trim(s1) == Trim(s2)
    ensures Post(Parsed(Str(s1)), lookup) == Post(Parsed(Str(s2)), lookup)
  {
    SameTrimSameBlankness(s1, s2);
    if IsBlank(s1) {
      assert !KeySent(Parsed(Str(s1))) && !KeySent(Parsed(Str(s2)));
    } else {
      SentKeyIsLookedUp(s1, lookup);
      SentKeyIsLookedUp(s2, lookup);
    }
  }

  /** A non-blank key is looked up in its trimmed form. */
  lemma SentKeyIsLookedUp(s: string, lookup: string -> SelectReply<string>)
    requires !IsBlank(s)
    ensures Post(Parsed(Str(s)), lookup) == LookupResponse(lookup(Trim(s)))
  {
    EmptyIsBlank();
  }
}
