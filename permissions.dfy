/**
 * `IsAdminOrReadOnly` (backend/products/permissions.py): reads are open to
 * everyone; writes need an `X-API-KEY` header equal to the `ADMIN_API_KEY`
 * environment variable, and are refused outright when that variable is unset
 * or empty. The environment and the header are parameters.
 */
module Permissions {
  import opened Wrappers

  /** Django REST framework's `SAFE_METHODS`. */
  const SafeMethods: seq<string> := ["GET", "HEAD", "OPTIONS"]

  /** `has_permission(request, view)`. */
  function HasPermission(httpMethod: string, apiKeyHeader: Option<string>, adminApiKey: Option<string>)
    : (allowed: bool)
    ensures httpMethod in SafeMethods ==> allowed
    ensures httpMethod !in SafeMethods && (adminApiKey.None? || adminApiKey.value == "") ==> !allowed
    ensures httpMethod !in SafeMethods && adminApiKey.Some? && adminApiKey.value != "" ==>
      (allowed <==> apiKeyHeader == adminApiKey)
  {
    if httpMethod in SafeMethods then true
    else if adminApiKey.None? || adminApiKey.value == "" then false
    else apiKeyHeader == adminApiKey
  }

  /** A write is allowed only with a non-empty configured key that the header repeats exactly. */
  lemma WritesNeedTheKey(httpMethod: string, apiKeyHeader: Option<string>, adminApiKey: Option<string>)
    requires HasPermission(httpMethod, apiKeyHeader, adminApiKey)
    requires httpMethod !in SafeMethods
    ensures adminApiKey.Some? && adminApiKey.value != ""
    ensures apiKeyHeader == adminApiKey
  {
  }
}
