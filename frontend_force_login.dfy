/**
 * The route guard (frontend/src/app/components/force-login/ForceLogin.tsx). It inspects the
 * `exp` claim of the stored access token (section 4.1.4 of RFC 7519) and renews an expired one
 * with the refresh token. Decoding the token, the clock and the refresh call are inputs.
 */
module ForceLogin {
  import opened Wrappers
  import Preferences
  import AppRoutes

  /** What `jwtDecode(apiToken).exp` gives: `Malformed` when decoding throws. */
  datatype Decoded = Malformed | Claims(exp: Option<int>)

  /** The awaited refresh mutation: an `error`, a `data` whose `access` may be missing, or a throw. */
  datatype RefreshReply = RefreshError | RefreshData(access: Option<string>) | RefreshThrew

  /** What the token check decides. */
  datatype Verdict = LogOut | Authorize | Renew(access: string)

  /** What the guard renders. */
  datatype View = Loading | Children | RedirectToLogin

  /** A JavaScript string is truthy when it is present and not empty. */
  predicate Present(s: Option<string>)
  {
    s.Some? && s.value != ""
  }

  /** The `exp` claim is a truthy number: present and not zero. */
  predicate HasExpiry(d: Decoded)
  {
    d.Claims? && d.exp.Some? && d.exp.value != 0
  }

  /** `tokenExpiration < Date.now() / 1000`, with the clock in whole milliseconds. */
  predicate Expired(exp: int, nowMs: int)
  {
    exp * 1000 < nowMs
  }

  /** The refresh endpoint is called only for a present token whose `exp` claim has passed. */
  predicate NeedsRefresh(apiToken: Option<string>, decode: string -> Decoded, nowMs: int)
  {
    Present(apiToken) && HasExpiry(decode(apiToken.value)) && Expired(decode(apiToken.value).exp.value, nowMs)
  }

  /** `checkAccessToken`, with a throw from `jwtDecode` caught by the caller's `forceLogout`. */
  function Decide(apiToken: Option<string>, refreshToken: Option<string>, decode: string -> Decoded, nowMs: int,
                  refresh: Option<string> -> RefreshReply): Verdict
  {
    if !Present(apiToken) then LogOut
    else
      var d := decode(apiToken.value);
      if !HasExpiry(d) then LogOut
      else if !Expired(d.exp.value, nowMs) then Authorize
      else
        match refresh(refreshToken)
        case RefreshData(access) => if Present(access) then Renew(access.value) else LogOut
        case _ => LogOut
  }

  /** No access token, or a token without a usable `exp`, means logging out. */
  lemma NoTokenOrNoExpiryLogsOut(apiToken: Option<string>, refreshToken: Option<string>, decode: string -> Decoded,
                                 nowMs: int, refresh: Option<string> -> RefreshReply)
    requires !Present(apiToken) || !HasExpiry(decode(apiToken.value))
    ensures Decide(apiToken, refreshToken, decode, nowMs, refresh) == LogOut
  {
  }

  /** An unexpired token authorizes whatever the refresh endpoint would have said. */
  lemma UnexpiredIgnoresRefresh(apiToken: Option<string>, refreshToken: Option<string>, decode: string -> Decoded,
                                nowMs: int, refresh1: Option<string> -> RefreshReply,
                                refresh2: Option<string> -> RefreshReply)
    requires Present(apiToken) && HasExpiry(decode(apiToken.value)) && !NeedsRefresh(apiToken, decode, nowMs)
    ensures Decide(apiToken, refreshToken, decode, nowMs, refresh1) == Authorize
    ensures Decide(apiToken, refreshToken, decode, nowMs, refresh2) == Authorize
  {
  }

  /** The token check authorizes exactly when the token is unexpired or the refresh returns an access token. */
  lemma AuthorizedIff(apiToken: Option<string>, refreshToken: Option<string>, decode: string -> Decoded,
                      nowMs: int, refresh: Option<string> -> RefreshReply)
    ensures !Decide(apiToken, refreshToken, decode, nowMs, refresh).LogOut? <==>
      (Present(apiToken) && HasExpiry(decode(apiToken.value))
       && (!NeedsRefresh(apiToken, decode, nowMs)
           || (refresh(refreshToken).RefreshData? && Present(refresh(refreshToken).access))))
    ensures Decide(apiToken, refreshToken, decode, nowMs, refresh).Renew? <==>
      NeedsRefresh(apiToken, decode, nowMs) && refresh(refreshToken).RefreshData? && Present(refresh(refreshToken).access)
  {
  }

  /** The component's state: the tri-state authorization, the once-per-mount ref and the last navigation. */
  class Guard {
    var isAuthorized: Option<bool>
    var checkPerformed: bool
    var navigatedTo: Option<string>

    constructor ()
      ensures isAuthorized.None? && !checkPerformed && navigatedTo.None?
    {
      isAuthorized := None;
      checkPerformed := false;
      navigatedTo := None;
    }

    /** `forceLogout`: both tokens cleared, not authorized, off to the login page. */
    method ForceLogout(prefs: Preferences.PreferencesState)
      modifies this, prefs
      ensures prefs.apiToken.None? && prefs.refreshToken.None?
      ensures prefs.userAvatarId == old(prefs.userAvatarId) && prefs.seenDialogs == old(prefs.seenDialogs)
      ensures prefs.chatSettings == old(prefs.chatSettings)
      ensures isAuthorized == Some(false) && navigatedTo == Some(AppRoutes.LOGIN)
      ensures checkPerformed == old(checkPerformed)
    {
      prefs.SetApiToken(None);
      prefs.SetRefreshToken(None);
      isAuthorized := Some(false);
      navigatedTo := Some(AppRoutes.LOGIN);
    }

    /** `checkAccessToken`; `asked` tells whether the refresh endpoint was called. */
    method CheckAccessToken(prefs: Preferences.PreferencesState, decode: string -> Decoded, nowMs: int,
                            refresh: Option<string> -> RefreshReply)
      returns (asked: bool)
      modifies this, prefs
      ensures asked == NeedsRefresh(old(prefs.apiToken), decode, nowMs)
      ensures var v := Decide(old(prefs.apiToken), old(prefs.refreshToken), decode, nowMs, refresh);
        match v
        case LogOut =>
          && prefs.apiToken.None? && prefs.refreshToken.None?
          && isAuthorized == Some(false) && navigatedTo == Some(AppRoutes.LOGIN)
        case Authorize =>
          && prefs.apiToken == old(prefs.apiToken) && prefs.refreshToken == old(prefs.refreshToken)
          && isAuthorized == Some(true) && navigatedTo == old(navigatedTo)
        case Renew(access) =>
          && prefs.apiToken == Some(access) && prefs.refreshToken == old(prefs.refreshToken)
          && isAuthorized == Some(true) && navigatedTo == old(navigatedTo)
      ensures prefs.userAvatarId == old(prefs.userAvatarId) && prefs.seenDialogs == old(prefs.seenDialogs)
      ensures prefs.chatSettings == old(prefs.chatSettings)
      ensures checkPerformed == old(checkPerformed)
    {
      asked := false;
      if !Present(prefs.apiToken) {
        ForceLogout(prefs);
        return;
      }
      var decoded := decode(prefs.apiToken.value);
      if decoded.Malformed? {
        ForceLogout(prefs);
        return;
      }
      var tokenExpiration := decoded.exp;
      if tokenExpiration.Some? && tokenExpiration.value != 0 {
        if Expired(tokenExpiration.value, nowMs) {
          asked := true;
          var response := refresh(prefs.refreshToken);
          if response.RefreshError? || response.RefreshThrew? {
            ForceLogout(prefs);
            return;
          }
          if Present(response.access) {
            prefs.SetApiToken(response.access);
            isAuthorized := Some(true);
          } else {
            ForceLogout(prefs);
          }
        } else {
          isAuthorized := Some(true);
        }
      } else {
        ForceLogout(prefs);
      }
    }

    /** The mount effect: the token check runs once; a second run changes nothing. */
    method OnMount(prefs: Preferences.PreferencesState, decode: string -> Decoded, nowMs: int,
                   refresh: Option<string> -> RefreshReply)
      returns (asked: bool)
      modifies this, prefs
      ensures old(checkPerformed) ==> !asked && unchanged(this) && unchanged(prefs)
      ensures !old(checkPerformed) ==> checkPerformed && asked == NeedsRefresh(old(prefs.apiToken), decode, nowMs)
      ensures !old(checkPerformed) ==>
        isAuthorized == Some(!Decide(old(prefs.apiToken), old(prefs.refreshToken), decode, nowMs, refresh).LogOut?)
    {
      if checkPerformed {
        return false;
      }
      checkPerformed := true;
      asked := CheckAccessToken(prefs, decode, nowMs, refresh);
    }

    /** The render: a loading text until decided, then the children or a redirect. */
    function Render(): (v: View)
      reads this
      ensures v == Loading <==> isAuthorized.None?
      ensures v == Children <==> isAuthorized == Some(true)
      ensures v == RedirectToLogin <==> isAuthorized == Some(false)
    {
      match isAuthorized
      case None => Loading
      case Some(ok) => if ok then Children else RedirectToLogin
    }
  }
}
