/** The persisted preferences slice (frontend/src/app/store/preferences.slice.ts). */
module Preferences {
  import opened Wrappers
  import Avatars

  datatype ChatSettings = ChatSettings(botAvatarId: string, llmModel: string)

  const INITIAL_AVATAR_ID: string := "1"
  const INITIAL_SEEN_DIALOGS: map<string, bool> := map["welcome" := false]

  /** The slice's state; each reducer assigns fields of the draft in place. */
  class PreferencesState {
    var userAvatarId: string
    var apiToken: Option<string>
    var refreshToken: Option<string>
    var seenDialogs: map<string, bool>
    var chatSettings: Option<ChatSettings>

    /** The state as the application starts with nothing persisted. */
    predicate IsInitial()
      reads this
    {
      && apiToken.None? && refreshToken.None? && userAvatarId == INITIAL_AVATAR_ID
      && seenDialogs == INITIAL_SEEN_DIALOGS && chatSettings.None?
    }

    constructor ()
      ensures IsInitial()
    {
      apiToken := None;
      refreshToken := None;
      userAvatarId := INITIAL_AVATAR_ID;
      seenDialogs := INITIAL_SEEN_DIALOGS;
      chatSettings := None;
    }

    method SetUserAvatarId(id: string)
      modifies this
      ensures userAvatarId == id
      ensures apiToken == old(apiToken) && refreshToken == old(refreshToken)
      ensures seenDialogs == old(seenDialogs) && chatSettings == old(chatSettings)
    {
      userAvatarId := id;
    }

    /** Sets the one dialog's flag, adding the key when it is new; every other key keeps its flag. */
    method SetSeenDialog(dialogId: string, seen: bool)
      modifies this
      ensures seenDialogs == old(seenDialogs)[dialogId := seen]
      ensures userAvatarId == old(userAvatarId) && apiToken == old(apiToken) && refreshToken == old(refreshToken)
      ensures chatSettings == old(chatSettings)
    {
      seenDialogs := seenDialogs[dialogId := seen];
    }

    /** With no payload the token is cleared. */
    method SetApiToken(token: Option<string>)
      modifies this
      ensures apiToken == token
      ensures userAvatarId == old(userAvatarId) && refreshToken == old(refreshToken)
      ensures seenDialogs == old(seenDialogs) && chatSettings == old(chatSettings)
    {
      apiToken := token;
    }

    method SetRefreshToken(token: Option<string>)
      modifies this
      ensures refreshToken == token
      ensures userAvatarId == old(userAvatarId) && apiToken == old(apiToken)
      ensures seenDialogs == old(seenDialogs) && chatSettings == old(chatSettings)
    {
      refreshToken := token;
    }

    method SetChatSettings(settings: Option<ChatSettings>)
      modifies this
      ensures chatSettings == settings
      ensures userAvatarId == old(userAvatarId) && apiToken == old(apiToken) && refreshToken == old(refreshToken)
      ensures seenDialogs == old(seenDialogs)
    {
      chatSettings := settings;
    }

    /** From any state, the initial state, whose avatar is the first carer. */
    method ResetState()
      modifies this
      ensures IsInitial()
      ensures GetUserAvatar() == Some(Avatars.Avatar("1", "Carer 1"))
    {
      Avatars.CarerOne();
      apiToken := None;
      refreshToken := None;
      userAvatarId := INITIAL_AVATAR_ID;
      seenDialogs := INITIAL_SEEN_DIALOGS;
      chatSettings := None;
    }

    // Selectors

    function GetUserAvatarId(): string
      reads this
    {
      userAvatarId
    }

    /** The avatar record of the chosen id, if the catalogue has one. */
    function GetUserAvatar(): (a: Option<Avatars.Avatar>)
      reads this
      ensures a.Some? ==> a.value.id == userAvatarId && a.value in Avatars.AVATAR_LIST
      ensures a.None? <==> forall k :: 0 <= k < |Avatars.AVATAR_LIST| ==> Avatars.AVATAR_LIST[k].id != userAvatarId
    {
      Avatars.GetAvatarById(userAvatarId)
    }

    function GetSeenDialogs(): map<string, bool>
      reads this
    {
      seenDialogs
    }

    function GetApiToken(): Option<string>
      reads this
    {
      apiToken
    }

    function GetRefreshToken(): Option<string>
      reads this
    {
      refreshToken
    }

    function GetChatSettings(): Option<ChatSettings>
      reads this
    {
      chatSettings
    }
  }
}
