/**
 * The navigation bar (`utils/NavBar.tsx`): the logo and the Dashboard button go
 * to the dashboard; Logout removes the `'userId'` key and goes to `'/login'`.
 */
module NavBar {
  import opened Common
  import Session
  import Api
  import Login

  const DashboardRoute: string := "/dashboard"
  const LogoutRoute: string := "/login"

  /** The storage after `removeItem('userId')`: that key gone, every other key as it was. */
  function LoggedOut(items: map<string, string>): (after: map<string, string>)
    ensures after.Keys == items.Keys - {Session.UserIdKey}
    ensures forall k :: k in after ==> after[k] == items[k]
  {
    items - {Session.UserIdKey}
  }

  /** `handleLogout`. */
  method Logout(storage: Session.LocalStorage) returns (route: string)
    modifies storage
    ensures storage.items == LoggedOut(old(storage.items))
    ensures route == LogoutRoute
  {
    storage.RemoveItem(Session.UserIdKey);
    route := LogoutRoute;
  }

  /** The logo and the Dashboard button: navigation only, no storage touched. */
  method GoToDashboard() returns (route: string)
    ensures route == DashboardRoute
  {
    route := DashboardRoute;
  }

  /**
   * Logout does not end the session: the `'id'` key that login writes and the
   * screens read survives it with its value; and logging out twice is logging out once.
   */
  lemma SessionSurvivesLogout(items: map<string, string>)
    ensures Session.IdKey in items ==> Session.IdKey in LoggedOut(items) && LoggedOut(items)[Session.IdKey] == items[Session.IdKey]
    ensures LoggedOut(LoggedOut(items)) == LoggedOut(items)
  {
  }

  /** Logout navigates to `'/login'`, a different route from the register page's `'/auth/login'`. */
  lemma LogoutRouteDiffersFromLoginPage()
    ensures LogoutRoute != "/auth/login"
  {
  }

  /**
   * A sign-in followed by Logout on a fresh storage: the id login stored is still
   * there, truthy, for the next screen that reads `'id'`.
   */
  method LoginThenLogout(telefono: string, o: Api.HttpOutcome<int>) returns (storedId: Option<string>)
    requires Login.TelefonoValid(telefono)
    ensures storedId == Some("1")
  {
    var storage := new Session.LocalStorage(map[]);
    var page := new Login.LoginScreen();
    page.Submit(Api.LoginForm(telefono), o, storage);
    var route := Logout(storage);
    storedId := storage.GetItem(Session.IdKey);
  }
}
