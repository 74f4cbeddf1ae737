/** How the pieces meet when a signed-in parent presses "Logout": the
    session, the live connection that follows the session's token, the
    banner, and the two pages that react to the session. */
module App {
  import opened Wrappers
  import AuthSession
  import SocketStore
  import Layout
  import ProtectedRoute
  import HomePage

  /** After logout the socket that belonged to the old token is gone and
      nothing is connected; the landing page shows its text, and a protected
      page renders nothing (so no `Layout` and no banner) and sends the
      visitor to `/login`. The last scan alert is not part of the session:
      the store keeps it, and when someone signs in again on this page with
      token `next` a new socket is opened and the old alert's banner is
      shown again. */
  lemma LogoutEndsTheSession(auth: AuthSession.AuthState, store: SocketStore.Store, next: string)
    requires SocketStore.Valid(store)
    requires store.token == auth.token
    requires !auth.loading
    requires next != ""
    ensures var (after, path) := Layout.HandleLogout(auth);
      var live := SocketStore.Step(store, SocketStore.TokenChanged(after.token));
      && path == "/"
      && live.socket.None? && !live.connected
      && HomePage.Home(after.loading, after.user).view == HomePage.Landing
      && ProtectedRoute.Guard(after.loading, after.user).view == ProtectedRoute.Nothing
      && ProtectedRoute.Guard(after.loading, after.user).redirect == Some("/login")
      && live.lastScan == store.lastScan
    ensures var after := Layout.HandleLogout(auth).0;
      var live := SocketStore.Step(store, SocketStore.TokenChanged(after.token));
      var again := SocketStore.Step(live, SocketStore.TokenChanged(Some(next)));
      && again.socket.Some?
      && Layout.BannerOf(again.lastScan) == Layout.BannerOf(store.lastScan)
  {
    var after := Layout.HandleLogout(auth).0;
    SocketStore.TokenAbsentTearsDown(store, after.token);
  }
}
