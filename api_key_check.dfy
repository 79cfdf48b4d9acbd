/**
 * The check that each of the three adapters writes out in full: find the
 * `X-Api-Key` header, then read the configured key and compare the two
 * ordinally. `Decide` is that check stated once, as the reference every
 * adapter is proved against.
 */
module ApiKeyCheck {

  import opened Wrappers
  import opened CaseInsensitive
  import opened Http
  import AuthConstants

  datatype Outcome =
    | Allow          // continue the pipeline
    | Missing        // 401 with `ApiKeyMissing`
    | Invalid        // 401 with `ApiKeyInvalid`
    | NullReference  // the configured key is null: `apiKey.Equals` throws
  {
    predicate IsRejection()
    {
      this == Missing || this == Invalid
    }
  }

  /** The body that goes with a rejection. */
  function Message(o: Outcome): string
    requires o.IsRejection()
  {
    if o == Missing then AuthConstants.ApiKeyMissing else AuthConstants.ApiKeyInvalid
  }

  /** How an adapter's call ends for an outcome: only a null configured key throws. */
  function CompletionOf(o: Outcome): Completion
  {
    if o == NullReference then Threw(NullReferenceException) else Returned
  }

  /**
   * The outcome for a request with `headers` when the configuration yields
   * `configured` (None where it yields null). The header is looked for first;
   * the configured key is consulted only once the header is known to be present.
   */
  function Decide(headers: CaseInsensitiveMap, configured: Option<string>): (o: Outcome)
    ensures o == Missing <==> !HasName(headers, AuthConstants.ApiKeyHeaderName)
    ensures o == NullReference <==> HasName(headers, AuthConstants.ApiKeyHeaderName) && configured == None
    ensures o == Allow <==>
      configured.Some? &&
      exists k :: k in headers && NameEquals(k, AuthConstants.ApiKeyHeaderName) && headers[k] == configured.value
    ensures o == Invalid <==>
      configured.Some? &&
      exists k :: k in headers && NameEquals(k, AuthConstants.ApiKeyHeaderName) && headers[k] != configured.value
  {
    match TryGetValue(headers, AuthConstants.ApiKeyHeaderName)
    case None => Missing
    case Some(extracted) =>
      match configured
      case None => NullReference
      case Some(apiKey) => if apiKey == extracted then Allow else Invalid
  }

  /** A request without the header is reported missing whatever is configured, null included. */
  lemma MissingWhateverConfigured(headers: CaseInsensitiveMap, c1: Option<string>, c2: Option<string>)
    requires TryGetValue(headers, AuthConstants.ApiKeyHeaderName) == None
    ensures Decide(headers, c1) == Decide(headers, c2) == Missing
  {
  }

  /** With the header present, the request passes exactly when its value is the configured key. */
  lemma AllowIffExactMatch(headers: CaseInsensitiveMap, value: string, apiKey: string)
    requires TryGetValue(headers, AuthConstants.ApiKeyHeaderName) == Some(value)
    ensures Decide(headers, Some(apiKey)) == Allow <==> value == apiKey
    ensures Decide(headers, Some(apiKey)) == Invalid <==> value != apiKey
  {
  }

  /** A null configured key never lets a request through and is never reported as an invalid key. */
  lemma NullConfiguredNeverAllows(headers: CaseInsensitiveMap)
    ensures Decide(headers, None) != Allow
    ensures Decide(headers, None) != Invalid
    ensures Decide(headers, None) == NullReference <==> HasName(headers, AuthConstants.ApiKeyHeaderName)
  {
  }

  /**
   * The header name is matched ignoring case: a key sent under any spelling
   * of `X-Api-Key` is found, accepted when it is the configured key, and
   * refused as invalid otherwise.
   */
  lemma HeaderNameIgnoresCase(name: string, value: string, apiKey: string)
    requires NameEquals(name, AuthConstants.ApiKeyHeaderName)
    ensures Decide(map[name := value], Some(apiKey)) == Allow <==> value == apiKey
    ensures Decide(map[name := value], Some(apiKey)) == Invalid <==> value != apiKey
  {
    assert name in map[name := value];
  }

  /** Two spellings other than the declared one: `x-api-key` and `X-API-KEY`. */
  lemma HeaderNameSpellings(value: string)
    ensures Decide(map["x-api-key" := value], Some(value)) == Allow
    ensures Decide(map["X-API-KEY" := value], Some(value)) == Allow
  {
    assert Fold("x-api-key") == Fold(AuthConstants.ApiKeyHeaderName);
    assert Fold("X-API-KEY") == Fold(AuthConstants.ApiKeyHeaderName);
    HeaderNameIgnoresCase("x-api-key", value, value);
    HeaderNameIgnoresCase("X-API-KEY", value, value);
  }

  /** The value is compared exactly: no case folding, no trimming, no prefix match. */
  lemma ValueComparedExactly()
    ensures Decide(map[AuthConstants.ApiKeyHeaderName := "Secret123"], Some("secret123")) == Invalid
    ensures Decide(map[AuthConstants.ApiKeyHeaderName := "secret123 "], Some("secret123")) == Invalid
    ensures Decide(map[AuthConstants.ApiKeyHeaderName := "secret"], Some("secret123")) == Invalid
  {
    var name := AuthConstants.ApiKeyHeaderName;
    assert NameEquals(name, name);
    assert TryGetValue(map[name := "Secret123"], name) == Some("Secret123");
    assert "Secret123"[0] != "secret123"[0];
    assert |"secret123 "| != |"secret123"|;
  }
}
