/** The API-key sanity check of apollo_config.py. */
module ApiKeyCheck {
  import opened Text

  /** `validate_api_key`: a key is plausible when, once surrounding
      whitespace is stripped, at least ten characters remain. */
  function ValidateApiKey(apiKey: string): (ok: bool)
    ensures ok <==> |Strip(apiKey)| >= 10
    ensures apiKey == "" ==> !ok
  {
    !(apiKey == "" || |Strip(apiKey)| < 10)
  }

  /** A key made only of whitespace is rejected, however long it is. */
  lemma RejectsBlankKey(apiKey: string)
    requires AllWhitespace(apiKey)
    ensures !ValidateApiKey(apiKey)
  {
  }

  /** Surrounding whitespace never changes the verdict. */
  lemma IgnoresSurroundingWhitespace(apiKey: string)
    ensures ValidateApiKey(apiKey) == ValidateApiKey(Strip(apiKey))
  {
    StripIdempotent(apiKey);
  }

  /** An accepted key is not blank once stripped, so it also passes the
      blank-key check that both enrichment entry points start with. */
  lemma AcceptedKeyIsNotBlank(apiKey: string)
    requires ValidateApiKey(apiKey)
    ensures Strip(apiKey) != ""
    ensures !AllWhitespace(apiKey)
  {
  }
}
