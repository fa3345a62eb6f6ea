/**
 * The credential cleaning both API clients perform on their three
 * environment values before asking for an access token:
 * `value?.trim().replace(/^"|"$/g, "")`, then a truthiness test.
 */
module Credentials {
  import opened Wrappers
  import JsText

  /** The three environment values as configured; None when unset. */
  datatype Raw = Raw(clientId: Option<string>, clientSecret: Option<string>, refreshToken: Option<string>)

  /** The three values after cleaning, all known to be non-empty. */
  datatype Clean = Clean(clientId: string, clientSecret: string, refreshToken: string)

  /** `value?.trim().replace(/^"|"$/g, "")`: an unset value stays unset. */
  function CleanValue(v: Option<string>): (r: Option<string>)
    ensures r.Some? <==> v.Some?
    ensures r.Some? ==> r.value == JsText.Unmatched(JsText.Trim(v.value), 0)
  {
    match v
    case None => None
    case Some(s) =>
      JsText.StripQuotesIsGlobalReplace(JsText.Trim(s));
      Some(JsText.StripQuotes(JsText.Trim(s)))
  }

  /** JavaScript truthiness of a `string | undefined`. */
  predicate Truthy(v: Option<string>)
  {
    v.Some? && v.value != ""
  }

  /** The check `if (!clientID || !clientSecret || !refreshToken) throw`:
      the cleaned triple when all three are truthy, None when the client
      must fail. */
  function Normalize(raw: Raw): (r: Option<Clean>)
    ensures r.Some? <==> Truthy(CleanValue(raw.clientId)) && Truthy(CleanValue(raw.clientSecret))
                         && Truthy(CleanValue(raw.refreshToken))
    ensures r.Some? ==> && CleanValue(raw.clientId) == Some(r.value.clientId)
                        && CleanValue(raw.clientSecret) == Some(r.value.clientSecret)
                        && CleanValue(raw.refreshToken) == Some(r.value.refreshToken)
    ensures r.Some? ==> r.value.clientId != "" && r.value.clientSecret != "" && r.value.refreshToken != ""
  {
    var id, secret, token := CleanValue(raw.clientId), CleanValue(raw.clientSecret), CleanValue(raw.refreshToken);
    if Truthy(id) && Truthy(secret) && Truthy(token) then Some(Clean(id.value, secret.value, token.value))
    else None
  }

  /** A configured value is rejected exactly when, once trimmed, it is
      empty, a lone double quote, or two double quotes. */
  lemma RejectedValues(s: string)
    ensures !Truthy(CleanValue(Some(s))) <==> var t := JsText.Trim(s); t == "" || t == "\"" || t == "\"\""
  {
    JsText.StripQuotesEmpty(JsText.Trim(s));
  }
}
