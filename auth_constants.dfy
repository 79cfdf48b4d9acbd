/** `AuthConstants`: the literals shared by the three adapters. */
module AuthConstants {

  /** The configuration key path that holds the expected key. */
  const ApiKeySectionName: string := "Authentication:ApiKey"
  /** The request header that carries the client's key. */
  const ApiKeyHeaderName: string := "X-Api-Key"
  /** Body sent when the header is absent. */
  const ApiKeyMissing: string := "Api Key missing"
  /** Body sent when the header does not match; the capital N is in the source. */
  const ApiKeyInvalid: string := "INvalid API Key"

  /** The two rejections can be told apart by their bodies alone. */
  lemma MessagesDistinct()
    ensures ApiKeyMissing != ApiKeyInvalid
  {
  }
}
