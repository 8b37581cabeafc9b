/** Bearer-token authentication as every route file does it
    (authenticateToken, and authenticateAdmin in the marketplace routes).
    JWT verification is a parameter `tokenValid`. */
module HttpAuth {
  import opened Common

  /** The status code and error text of a rejected request. */
  datatype HttpError = HttpError(status: nat, message: string)

  /** `authHeader && authHeader.split(' ')[1]`: the second space-separated
      word of the Authorization header, when there is a non-empty one. */
  function BearerToken(header: string): (t: Option<string>)
    ensures t.Some? ==> t.value != "" && ' ' !in t.value
    ensures t.Some? <==> header != "" && |Split(header)| >= 2 && Split(header)[1] != ""
    ensures t.Some? ==> t.value == Split(header)[1]
  {
    if header == "" then None
    else
      var words := Split(header);
      if |words| >= 2 && words[1] != "" then Some(words[1]) else None
  }

  /** "Bearer <token>" yields the token, whatever follows it after a space. */
  lemma BearerTokenOfScheme(scheme: string, token: string, rest: string)
    requires ' ' !in scheme && ' ' !in token && token != ""
    ensures BearerToken(scheme + " " + token) == Some(token)
    ensures BearerToken(scheme + " " + token + " " + rest) == Some(token)
  {
    SplitJoin(scheme, token);
    SplitNoSpace(token);
    assert scheme + " " + token + " " + rest == scheme + " " + (token + " " + rest);
    SplitJoin(scheme, token + " " + rest);
    SplitJoin(token, rest);
  }

  /** A header that is a bare token, with no scheme before it, carries no token. */
  lemma BareTokenRejected(header: string)
    requires ' ' !in header
    ensures BearerToken(header).None?
  {
    SplitNoSpace(header);
  }

  /** authenticateToken / authenticateAdmin: 401 when there is no token, 403
      when the token does not verify, otherwise the token is accepted. */
  function Authenticate(header: string, tokenValid: string -> bool, missingMessage: string): (r: Result<string, HttpError>)
    ensures BearerToken(header).None? ==> r == Err(HttpError(401, missingMessage))
    ensures BearerToken(header).Some? && !tokenValid(BearerToken(header).value) ==>
              r == Err(HttpError(403, "Invalid or expired token"))
    ensures r.Ok? <==> BearerToken(header).Some? && tokenValid(BearerToken(header).value)
    ensures r.Ok? ==> r.value == BearerToken(header).value
  {
    match BearerToken(header)
    case None => Err(HttpError(401, missingMessage))
    case Some(token) =>
      if tokenValid(token) then Ok(token) else Err(HttpError(403, "Invalid or expired token"))
  }

  const USER_TOKEN_MISSING: string := "Access token required"
  const ADMIN_TOKEN_MISSING: string := "Admin token required"
}
