/**
 * The API base query with re-authentication (frontend/src/app/services/Api.ts), run as one
 * sequential pass. The server is an input: the answer to the n-th fetch of the pass. Whether
 * another request holds the refresh lock when the 401 arrives, and the tokens that request
 * leaves behind, are inputs too.
 */
module Api {
  import opened Wrappers
  import opened Json
  import Preferences

  const REFRESH_URL: string := "/token/refresh/"
  /** `retry(baseQuery, {maxRetries: 0})`: every query is a single fetch. */
  const MAX_RETRIES: nat := 0

  datatype FetchArgs = FetchArgs(url: string, verb: string, body: Json)

  /** A query outcome: data, or an error with its status (a number, or a string such as `FETCH_ERROR`). */
  datatype QueryResult = QData(data: Json) | QError(status: Json, data: Json)

  /** One fetch: the arguments and the headers it went out with. */
  datatype Call = Call(args: FetchArgs, headers: map<string, string>)

  /** `prepareHeaders`: a bearer token exactly when an access token is held. */
  function PrepareHeaders(token: Option<string>, headers: map<string, string>): (h: map<string, string>)
    ensures token.Some? && token.value != "" ==> h == headers["Authorization" := "Bearer " + token.value]
    ensures !(token.Some? && token.value != "") ==> h == headers
  {
    if token.Some? && token.value != "" then headers["Authorization" := "Bearer " + token.value] else headers
  }

  function Fetch(args: FetchArgs, token: Option<string>): Call
  {
    Call(args, PrepareHeaders(token, map[]))
  }

  /** The refresh request; an absent refresh token is dropped from the JSON body. */
  function RefreshRequest(refreshToken: Option<string>): FetchArgs
  {
    FetchArgs(REFRESH_URL, "POST", if refreshToken.Some? then JObj(map["refresh" := JStr(refreshToken.value)]) else JObj(map[]))
  }

  predicate Is401(r: QueryResult)
  {
    r.QError? && r.status == JInt(401)
  }

  /** `resultData && resultData.access` of the refresh reply, as a non-empty string. */
  function AccessOf(r: QueryResult): (a: Option<string>)
    ensures a.Some? ==> a.value != ""
  {
    if r.QData? && Get(r.data, "access").Some? && Get(r.data, "access").value.JStr? && Get(r.data, "access").value.s != ""
    then Some(Get(r.data, "access").value.s)
    else None
  }

  /** `baseQueryWithReauth`. */
  method BaseQueryWithReauth(prefs: Preferences.PreferencesState, args: FetchArgs, server: (nat, Call) -> QueryResult,
                             lockHeld: bool, afterUnlock: (Option<string>, Option<string>))
    returns (result: QueryResult, calls: seq<Call>)
    modifies prefs
    ensures prefs.userAvatarId == old(prefs.userAvatarId) && prefs.seenDialogs == old(prefs.seenDialogs)
    ensures prefs.chatSettings == old(prefs.chatSettings)
    ensures |calls| >= 1 && calls[0] == Fetch(args, old(prefs.apiToken))
    ensures var first := server(0, calls[0]);
      if !Is401(first) then
        result == first && calls == [calls[0]]
        && prefs.apiToken == old(prefs.apiToken) && prefs.refreshToken == old(prefs.refreshToken)
      else if !lockHeld then
        var refresh := Fetch(RefreshRequest(old(prefs.refreshToken)), old(prefs.apiToken));
        match AccessOf(server(1, refresh))
        case Some(access) =>
          && calls == [calls[0], refresh, Fetch(args, Some(access))]
          && result == server(2, calls[2])
          && prefs.apiToken == Some(access) && prefs.refreshToken == old(prefs.refreshToken)
        case None =>
          calls == [calls[0], refresh] && result == first && prefs.apiToken.None? && prefs.refreshToken.None?
      else
        && calls == [calls[0], Fetch(args, afterUnlock.0)]
        && result == server(1, calls[1])
        && prefs.apiToken == afterUnlock.0 && prefs.refreshToken == afterUnlock.1
  {
    calls := [Fetch(args, prefs.apiToken)];
    result := server(0, calls[0]);
    if result.QError? && result.status == JInt(401) {
      if !lockHeld {
        // the lock is taken for the refresh and released afterwards
        var refreshToken := prefs.GetRefreshToken();
        var refresh := Fetch(RefreshRequest(refreshToken), prefs.apiToken);
        calls := calls + [refresh];
        var refreshResult := server(1, refresh);
        var access := AccessOf(refreshResult);
        if access.Some? {
          prefs.SetApiToken(access);
          var replay := Fetch(args, prefs.apiToken);
          calls := calls + [replay];
          result := server(2, replay);
        } else {
          prefs.SetApiToken(None);
          prefs.SetRefreshToken(None);
          // the logout flag set here has no effect
        }
      } else {
        // the refresh in progress elsewhere finishes and leaves its tokens
        prefs.SetApiToken(afterUnlock.0);
        prefs.SetRefreshToken(afterUnlock.1);
        var replay := Fetch(args, prefs.apiToken);
        calls := calls + [replay];
        result := server(1, replay);
      }
    }
  }
}
