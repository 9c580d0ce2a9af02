/** Looking up a user's OpenWebUI token (backend/api/utils/openwebui_helpers.py). */
module OpenWebUIHelpers {
  import opened Wrappers
  import opened Json
  import opened Http
  import opened Models

  const TOKEN_MISSING_MESSAGE: string := "OpenWebUI token not found. Please log in again."

  /** The stored token, with a missing profile read as no token. */
  function ProfileToken(user: User): Option<string>
  {
    match user.profile
    case Some(p) => p.openwebuiToken
    case None => None
  }

  /**
   * `get_openwebui_token`: `(token, None)` for a non-empty stored token and
   * `(None, 401 TOKEN_EXPIRED)` otherwise.
   */
  function GetOpenwebuiToken(user: User): (r: (Option<string>, Option<Response>))
    ensures r.0.Some? != r.1.Some?
    ensures r.0.Some? <==> ProfileToken(user).Some? && ProfileToken(user).value != ""
    ensures r.0.Some? ==> r.0 == ProfileToken(user)
    ensures r.1.Some? ==>
      && r.1.value.code == UNAUTHORIZED
      && MessageOf(r.1.value) == Some(TOKEN_MISSING_MESSAGE)
      && Get(r.1.value.body, "error_code") == Some(JStr("TOKEN_EXPIRED"))
  {
    var token := ProfileToken(user);
    if token.None? || token.value == "" then
      (None, Some(Response(UNAUTHORIZED, JObj(map[
        "status" := JStr("fail"),
        "message" := JStr(TOKEN_MISSING_MESSAGE),
        "error_code" := JStr("TOKEN_EXPIRED")]))))
    else (token, None)
  }
}
