/**
 * The two clients share the browser storage: the React client
 * (pc_builder/src/App.jsx) and the legacy page (script.js) read the login
 * under the same three keys, so each restores the user the other would.
 */
module Clients {
  import AppState
  import Users

  /**
   * On every storage, the legacy page restores a user exactly when the
   * React client does, with the same token, username and name.
   */
  lemma RestoreAgrees(storage: map<string, string>)
    ensures Users.RestoredUser(storage).Some? <==> AppState.InitialUser(storage).Some?
    ensures Users.RestoredUser(storage).Some? ==>
      var legacy, react := Users.RestoredUser(storage).value, AppState.InitialUser(storage).value;
      legacy.token == react.token && legacy.username == react.username && legacy.name == react.name
  {
  }

  /** A logout on the legacy page also logs the React client out. */
  lemma LegacyLogoutLogsOutReact(storage: map<string, string>)
    ensures AppState.InitialUser(Users.LogoutStorage(storage)).None?
  {
    RestoreAgrees(Users.LogoutStorage(storage));
  }
}
