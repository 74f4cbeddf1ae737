/** `ProtectedRoute`: what a protected page renders and where its effect
    redirects, given the session's `loading` flag and user. The effect and
    the render are written separately, as in the component, and the contract
    ties them together. */
module ProtectedRoute {
  import opened Wrappers
  import opened Api

  datatype View = Spinner | Nothing | InLayout

  datatype Decision = Decision(view: View, redirect: Option<string>)

  /** The effect: nothing while loading, then `/login` when signed out. */
  function Redirect(loading: bool, user: Option<User>): Option<string> {
    if loading then None
    else if user.None? then Some("/login")
    else None
  }

  /** The render: a spinner while loading, nothing when signed out, else
      the children inside `Layout`. */
  function Render(loading: bool, user: Option<User>): View {
    if loading then Spinner
    else if user.None? then Nothing
    else InLayout
  }

  /** Exactly one of the three outcomes, chosen by (loading, user); the
      redirect is issued exactly when nothing is rendered, so a signed-in
      user is never sent away and a loading session never redirects. */
  function Guard(loading: bool, user: Option<User>): (d: Decision)
    ensures d.view == Spinner <==> loading
    ensures d.view == Nothing <==> !loading && user.None?
    ensures d.view == InLayout <==> !loading && user.Some?
    ensures d.redirect.Some? <==> d.view == Nothing
    ensures d.redirect.Some? ==> d.redirect.value == "/login"
  {
    Decision(Render(loading, user), Redirect(loading, user))
  }
}

/** The landing page at `/`: a spinner while the session loads or while a
    signed-in user is being sent to the dashboard, the landing text otherwise. */
module HomePage {
  import opened Wrappers
  import opened Api

  datatype View = Spinner | Landing

  datatype Decision = Decision(view: View, redirect: Option<string>)

  function Redirect(loading: bool, user: Option<User>): Option<string> {
    if loading then None
    else if user.Some? then Some("/dashboard")
    else None
  }

  function Render(loading: bool, user: Option<User>): View {
    if loading || user.Some? then Spinner else Landing
  }

  /** Redirect to the dashboard exactly when loaded and signed in, and then
      only behind the spinner; the landing text exactly when loaded and
      signed out; never a redirect while loading, even with a user. */
  function Home(loading: bool, user: Option<User>): (d: Decision)
    ensures d.redirect.Some? <==> !loading && user.Some?
    ensures d.redirect.Some? ==> d.redirect.value == "/dashboard" && d.view == Spinner
    ensures d.view == Landing <==> !loading && user.None?
    ensures d.view == Spinner <==> loading || user.Some?
    ensures loading ==> d.redirect.None?
  {
    Decision(Render(loading, user), Redirect(loading, user))
  }
}
