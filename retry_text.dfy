/**
 * The message of the error the provider client throws when it has no API
 * key.
 */
module RetryText {
  const MissingKeyMessage: string := "OpenAI client not properly " + "initialized. Check API key."
}
