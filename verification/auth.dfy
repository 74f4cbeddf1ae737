/** The session held by `AuthProvider`: the signed-in user, the token, the
    `loading` flag, and the one `localStorage` cell holding the token. Server
    answers are inputs; each transition also records the API calls it made. */
module AuthSession {
  import opened Wrappers
  import opened Api

  datatype AuthState = AuthState(
    user: Option<User>,
    token: Option<string>,
    loading: bool,
    stored: Option<string>)

  /** The state after a transition, the calls it made, and the error it
      rethrows to its caller, if any. */
  datatype Transition = Transition(state: AuthState, calls: seq<Endpoint>, error: Option<string>)

  /** Three `useState` cells at their initial values; storage as found. */
  function Init(stored: Option<string>): (s: AuthState)
    ensures s.user.None? && s.token.None? && s.loading && s.stored == stored
  {
    AuthState(None, None, true, stored)
  }

  /** The shared tail of `login` and `register`: on success the token is
      stored and both state cells are set; a rejected call rethrows before
      any setter runs. */
  function SignIn(s: AuthState, call: Endpoint, res: Result<(User, string), string>): (r: Transition)
    ensures r.calls == [call]
    ensures res.Success? ==> r.error.None? && r.state == AuthState(Some(res.value.0), Some(res.value.1), s.loading, Some(res.value.1))
    ensures res.Failure? ==> r.state == s && r.error == Some(res.error)
  {
    match res
    case Success((u, t)) => Transition(s.(user := Some(u), token := Some(t), stored := Some(t)), [call], None)
    case Failure(e) => Transition(s, [call], Some(e))
  }

  function Login(s: AuthState, res: Result<(User, string), string>): (r: Transition)
    ensures r.calls == [Api.Login]
    ensures res.Success? ==>
      && r.error.None? && r.state.user == Some(res.value.0)
      && r.state.token == r.state.stored == Some(res.value.1) && r.state.loading == s.loading
    ensures res.Failure? ==> r.state == s && r.error == Some(res.error)
  {
    SignIn(s, Api.Login, res)
  }

  /** `register`: the same as `login` apart from the endpoint it calls
      (see `RegisterLikeLogin`). */
  function Register(s: AuthState, res: Result<(User, string), string>): (r: Transition)
    ensures r.calls == [Api.Register]
  {
    SignIn(s, Api.Register, res)
  }

  /** Registering leaves the session exactly as logging in with the same
      server answer would, and rethrows the same error. */
  lemma RegisterLikeLogin(s: AuthState, res: Result<(User, string), string>)
    ensures Register(s, res).state == Login(s, res).state
    ensures Register(s, res).error == Login(s, res).error
    ensures Register(s, res).calls != Login(s, res).calls
  {
  }

  /** `logout`: forget the stored token and both state cells. */
  function Logout(s: AuthState): (r: AuthState)
    ensures r.user.None? && r.token.None? && r.stored.None?
    ensures r.loading == s.loading
  {
    s.(user := None, token := None, stored := None)
  }

  /** `refreshUser`: with no truthy stored token, sign out locally without
      asking the server; otherwise ask `me`, adopting the token on success
      and discarding it on failure. It always ends with loading false. */
  function RefreshUser(s: AuthState, me: Result<User, string>): (r: Transition)
    ensures !r.state.loading && r.error.None?
    ensures !Truthy(s.stored) ==> r.calls == [] && r.state == s.(user := None, token := None, loading := false)
    ensures Truthy(s.stored) ==> r.calls == [Me(s.stored.value)]
    ensures Truthy(s.stored) && me.Success? ==>
      r.state.user == Some(me.value) && r.state.token == s.stored && r.state.stored == s.stored
    ensures Truthy(s.stored) && me.Failure? ==>
      r.state.user.None? && r.state.token.None? && r.state.stored.None?
  {
    if !Truthy(s.stored) then
      Transition(s.(user := None, token := None, loading := false), [], None)
    else
      var t := s.stored.value;
      Transition(RefreshAnswer(s, t, me), [Me(t)], None)
  }

  /** What `refreshUser` does once `me(t)` answers, to the state as it is
      by then: `t` is the token it read before the call, and a failure
      removes whatever storage holds at that moment. */
  function RefreshAnswer(s: AuthState, t: string, me: Result<User, string>): (r: AuthState)
    ensures !r.loading
    ensures me.Success? ==> r.user == Some(me.value) && r.token == Some(t) && r.stored == s.stored
    ensures me.Failure? ==> r.user.None? && r.token.None? && r.stored.None?
  {
    match me
    case Success(u) => s.(user := Some(u), token := Some(t), loading := false)
    case Failure(_) => s.(user := None, token := None, stored := None, loading := false)
  }

  /** The mount effect: with no truthy stored token only `loading` drops;
      otherwise it is `refreshUser`. */
  function Mount(s: AuthState, me: Result<User, string>): (r: Transition)
    ensures !r.state.loading
    ensures !Truthy(s.stored) ==> r.calls == [] && r.state == s.(loading := false)
    ensures Truthy(s.stored) ==> r == RefreshUser(s, me)
  {
    if !Truthy(s.stored) then Transition(s.(loading := false), [], None)
    else RefreshUser(s, me)
  }

  /** Whatever the session is doing, the user is known exactly when a token
      is held, and a held token is the one in storage. */
  ghost predicate Consistent(s: AuthState) {
    && (s.user.Some? <==> s.token.Some?)
    && (s.token.Some? ==> s.stored == s.token)
  }

  datatype Op =
    | DoMount(me: Result<User, string>)
    | DoLogin(res: Result<(User, string), string>)
    | DoRegister(res: Result<(User, string), string>)
    | DoLogout
    | DoRefresh(me: Result<User, string>)

  function Apply(s: AuthState, op: Op): AuthState {
    match op
    case DoMount(me) => Mount(s, me).state
    case DoLogin(res) => Login(s, res).state
    case DoRegister(res) => Register(s, res).state
    case DoLogout => Logout(s)
    case DoRefresh(me) => RefreshUser(s, me).state
  }

  function Run(s: AuthState, ops: seq<Op>): AuthState
    decreases |ops|
  {
    if ops == [] then s else Run(Apply(s, ops[0]), ops[1..])
  }

  /** Every operation keeps the session consistent, and once loading has
      finished it never starts again. */
  lemma ApplyKeeps(s: AuthState, op: Op)
    requires Consistent(s)
    ensures Consistent(Apply(s, op))
    ensures !s.loading ==> !Apply(s, op).loading
  {
  }

  /** From the initial state, any sequence of operations leaves a
      consistent session; and after a mount, loading stays finished. */
  lemma {:induction false} RunKeeps(s: AuthState, ops: seq<Op>)
    requires Consistent(s)
    ensures Consistent(Run(s, ops))
    ensures !s.loading ==> !Run(s, ops).loading
    decreases |ops|
  {
    if ops != [] {
      ApplyKeeps(s, ops[0]);
      RunKeeps(Apply(s, ops[0]), ops[1..]);
    }
  }

  /** The operations are whole steps only in this model. The login form
      keeps its own `loading` flag, so a login can complete while the
      mount's `me(t1)` is still pending. A late acceptance then puts `t1`
      back in the token cell while storage holds the new token `t2`; a late
      rejection removes `t2` and signs the new user out. */
  lemma OverlappingLoginBreaksConsistent(t1: string, t2: string, u1: User, u2: User, e: string)
    requires t1 != "" && t2 != "" && t1 != t2
    ensures var login := Login(Init(Some(t1)), Success((u2, t2))).state;
      && Consistent(login)
      && !Consistent(RefreshAnswer(login, t1, Success(u1)))
      && RefreshAnswer(login, t1, Success(u1)).token != RefreshAnswer(login, t1, Success(u1)).stored
      && RefreshAnswer(login, t1, Failure(e)).user.None?
      && RefreshAnswer(login, t1, Failure(e)).stored.None?
  {
  }

  lemma InitConsistent(stored: Option<string>)
    ensures Consistent(Init(stored))
  {
  }

  /** Logging in and then refreshing against a server that still accepts
      the token keeps the same token: the two transitions agree. */
  lemma LoginThenRefresh(s: AuthState, u: User, t: string, u': User)
    requires t != ""
    ensures var after := Login(s, Success((u, t))).state;
      var r := RefreshUser(after, Success(u'));
      r.calls == [Me(t)] && r.state.token == Some(t) && r.state.stored == Some(t) && r.state.user == Some(u')
  {
  }

  /** Logging out and then refreshing makes no call and stays signed out. */
  lemma LogoutThenRefresh(s: AuthState, me: Result<User, string>)
    ensures var r := RefreshUser(Logout(s), me);
      r.calls == [] && r.state.user.None? && r.state.token.None? && r.state.stored.None? && !r.state.loading
  {
  }
}
