/** The authentication slice of the Redux store: four fields updated by four reducers, and
    the `login` thunk that dispatches them. */
module Auth {
  import opened Records

  /** The one failure message `login` reports, whatever made the credential check fail. */
  const InvalidCredentialsMessage: string := "Invalid Employee ID or Password"

  datatype AuthState = AuthState(
    isAuthenticated: bool,
    user: Option<User>,
    error: Option<string>,
    loading: bool)

  /** The slice's `initialState`: signed out, with both session invariants holding. */
  function InitialState(): (r: AuthState)
    ensures !r.isAuthenticated && !r.loading
    ensures NoErrorWhileLoading(r) && SessionMatchesUser(r)
  {
    AuthState(isAuthenticated := false, user := None, error := None, loading := false)
  }

  /** The actions the slice's reducers handle. A `loginSuccess` payload is whatever the
      dispatcher passes, so it may be absent. */
  datatype AuthAction =
    | LoginStart
    | LoginSuccess(user: Option<User>)
    | LoginFailure(message: string)
    | Logout

  /** The slice reducer, on values. Only `loginStart` leaves a login pending, and it keeps the
      session and user as they were; whatever the state before, a pending login shows no error;
      and the session flag and user stay in step unless a `loginSuccess` carries no user. */
  function Reduce(s: AuthState, a: AuthAction): (r: AuthState)
    ensures r.loading <==> a.LoginStart?
    ensures a.LoginStart? ==> r.isAuthenticated == s.isAuthenticated && r.user == s.user
    ensures NoErrorWhileLoading(r)
    ensures SessionMatchesUser(s) && !(a.LoginSuccess? && a.user.None?) ==> SessionMatchesUser(r)
  {
    match a
    case LoginStart => s.(loading := true, error := None)
    case LoginSuccess(u) => s.(isAuthenticated := true, user := u, loading := false, error := None)
    case LoginFailure(m) => s.(isAuthenticated := false, user := None, loading := false, error := Some(m))
    case Logout => s.(isAuthenticated := false, user := None, error := None, loading := false)
  }

  /** The state after dispatching `actions` in order. */
  function Run(s: AuthState, actions: seq<AuthAction>): AuthState
    decreases |actions|
  {
    if actions == [] then s else Run(Reduce(s, actions[0]), actions[1..])
  }

  /** The decision part of the `login` thunk: `loginStart` first, then success with the user the
      credential check returns, or failure with the fixed message when it returns nothing. */
  function LoginActions(employeeId: string, password: string,
                        authenticate: (string, string) -> Option<User>): (r: seq<AuthAction>)
    ensures |r| == 2 && r[0] == AuthAction.LoginStart
    ensures r[1].LoginSuccess? <==> authenticate(employeeId, password).Some?
    ensures r[1].LoginSuccess? ==> r[1].user == authenticate(employeeId, password)
    ensures !r[1].LoginSuccess? ==> r[1] == AuthAction.LoginFailure(InvalidCredentialsMessage)
    ensures SuccessPayloadsPresent(r)
  {
    var found := authenticate(employeeId, password);
    [AuthAction.LoginStart,
     if found.Some? then AuthAction.LoginSuccess(found) else AuthAction.LoginFailure(InvalidCredentialsMessage)]
  }

  /** A login is never pending while an error is shown. */
  predicate NoErrorWhileLoading(s: AuthState)
  {
    s.loading ==> s.error == None
  }

  /** The session flag and the stored user agree. */
  predicate SessionMatchesUser(s: AuthState)
  {
    s.isAuthenticated <==> s.user.Some?
  }

  /** Every `loginSuccess` in `actions` carries a user. */
  predicate SuccessPayloadsPresent(actions: seq<AuthAction>)
  {
    forall i :: 0 <= i < |actions| && actions[i].LoginSuccess? ==> actions[i].user.Some?
  }

  lemma InitialStateIsLoggedOut()
    ensures !InitialState().isAuthenticated && InitialState().user == None
    ensures InitialState().error == None && !InitialState().loading
    ensures NoErrorWhileLoading(InitialState()) && SessionMatchesUser(InitialState())
  {
  }

  /** Each reducer on its own: which fields it sets and which it leaves alone. */
  lemma ReducerEffects(s: AuthState, u: Option<User>, m: string)
    ensures Reduce(s, AuthAction.LoginStart)
         == AuthState(s.isAuthenticated, s.user, None, true)
    ensures Reduce(s, AuthAction.LoginSuccess(u)) == AuthState(true, u, None, false)
    ensures Reduce(s, AuthAction.LoginFailure(m)) == AuthState(false, None, Some(m), false)
    ensures Reduce(s, AuthAction.Logout) == InitialState()
  {
  }

  /** Logging out always lands in the initial state, so logging out twice is logging out once. */
  lemma LogoutIdempotent(s: AuthState)
    ensures Reduce(s, AuthAction.Logout) == InitialState()
    ensures Reduce(Reduce(s, AuthAction.Logout), AuthAction.Logout) == Reduce(s, AuthAction.Logout)
  {
  }

  /** Every reducer leaves a state in which a pending login shows no error, whatever the
      state before: only `loginStart` sets `loading`, and it clears `error`. */
  lemma ReduceEstablishesNoErrorWhileLoading(s: AuthState, a: AuthAction)
    ensures NoErrorWhileLoading(Reduce(s, a))
  {
  }

  /** "Loading implies no error" holds after every sequence of dispatches from a state where
      it holds. */
  lemma {:induction false} RunKeepsNoErrorWhileLoading(s: AuthState, actions: seq<AuthAction>)
    requires NoErrorWhileLoading(s)
    ensures NoErrorWhileLoading(Run(s, actions))
    decreases |actions|
  {
    if actions != [] {
      ReduceEstablishesNoErrorWhileLoading(s, actions[0]);
      RunKeepsNoErrorWhileLoading(Reduce(s, actions[0]), actions[1..]);
    }
  }

  /** As long as no `loginSuccess` carries an absent user, the session flag and the stored user
      agree after every sequence of dispatches from a state where they agree. */
  lemma {:induction false} RunKeepsSessionMatchesUser(s: AuthState, actions: seq<AuthAction>)
    requires SessionMatchesUser(s)
    requires SuccessPayloadsPresent(actions)
    ensures SessionMatchesUser(Run(s, actions))
    decreases |actions|
  {
    if actions != [] {
      assert actions[0].LoginSuccess? ==> actions[0].user.Some?;
      assert SuccessPayloadsPresent(actions[1..]) by {
        forall i | 0 <= i < |actions[1..]| && actions[1..][i].LoginSuccess?
          ensures actions[1..][i].user.Some?
        {
          assert actions[1..][i] == actions[i + 1];
        }
      }
      RunKeepsSessionMatchesUser(Reduce(s, actions[0]), actions[1..]);
    }
  }

  /** The payload caveat is needed: a `loginSuccess` without a user authenticates an empty session. */
  lemma AbsentSuccessPayloadBreaksSession()
    ensures !SessionMatchesUser(Reduce(InitialState(), AuthAction.LoginSuccess(None)))
  {
  }

  /** What `login` leaves behind, from any state: never loading; authenticated with the found
      user and no error when the credential check finds one; otherwise logged out, with no user
      and exactly the fixed message. */
  lemma LoginOutcome(s: AuthState, employeeId: string, password: string,
                     authenticate: (string, string) -> Option<User>)
    ensures var t := Run(s, LoginActions(employeeId, password, authenticate));
            var found := authenticate(employeeId, password);
            && !t.loading
            && (t.isAuthenticated <==> found.Some?)
            && (found.Some? ==> t.user == found && t.error == None)
            && (found.None? ==> t.user == None && t.error == Some(InvalidCredentialsMessage))
            && NoErrorWhileLoading(t) && SessionMatchesUser(t)
  {
    var acts := LoginActions(employeeId, password, authenticate);
    var pending := Reduce(s, acts[0]);
    assert acts[1..] == [acts[1]] && [acts[1]][1..] == [];
    assert Run(s, acts) == Run(pending, [acts[1]]) == Reduce(pending, acts[1]);
  }

  /** While the check is pending, the state is `loginStart`'s: loading, no error, session untouched. */
  lemma LoginPendingState(s: AuthState, employeeId: string, password: string,
                          authenticate: (string, string) -> Option<User>)
    ensures var p := Run(s, LoginActions(employeeId, password, authenticate)[..1]);
            p.loading && p.error == None && p.isAuthenticated == s.isAuthenticated && p.user == s.user
  {
    assert LoginActions(employeeId, password, authenticate)[..1][1..] == [];
  }

  /** Two failed logins cannot be told apart: whichever credentials were wrong, the resulting
      states are equal. */
  lemma FailedLoginsIndistinguishable(s: AuthState, id1: string, pw1: string, id2: string, pw2: string,
                                      authenticate: (string, string) -> Option<User>)
    requires authenticate(id1, pw1).None? && authenticate(id2, pw2).None?
    ensures Run(s, LoginActions(id1, pw1, authenticate)) == Run(s, LoginActions(id2, pw2, authenticate))
  {
    LoginOutcome(s, id1, pw1, authenticate);
    LoginOutcome(s, id2, pw2, authenticate);
  }

  /** The slice as the store holds it: one record whose fields the reducers assign in place. */
  class AuthSlice {
    var isAuthenticated: bool
    var user: Option<User>
    var error: Option<string>
    var loading: bool

    /** The record's current value. */
    function State(): AuthState
      reads this
    {
      AuthState(isAuthenticated, user, error, loading)
    }

    constructor ()
      ensures State() == InitialState()
    {
      isAuthenticated, user, error, loading := false, None, None, false;
    }

    method LoginStart()
      modifies this`loading, this`error
      ensures loading && error == None
      ensures State() == Reduce(old(State()), AuthAction.LoginStart)
    {
      loading := true;
      error := None;
    }

    method LoginSuccess(u: Option<User>)
      modifies this
      ensures isAuthenticated && user == u && !loading && error == None
      ensures State() == Reduce(old(State()), AuthAction.LoginSuccess(u))
    {
      isAuthenticated := true;
      user := u;
      loading := false;
      error := None;
    }

    method LoginFailure(message: string)
      modifies this
      ensures !isAuthenticated && user == None && !loading && error == Some(message)
      ensures State() == Reduce(old(State()), AuthAction.LoginFailure(message))
    {
      isAuthenticated := false;
      user := None;
      loading := false;
      error := Some(message);
    }

    method Logout()
      modifies this
      ensures State() == InitialState()
      ensures State() == Reduce(old(State()), AuthAction.Logout)
    {
      isAuthenticated := false;
      user := None;
      error := None;
      loading := false;
    }

    /** The store's dispatch of one action to this slice. */
    method Dispatch(a: AuthAction)
      modifies this
      ensures State() == Reduce(old(State()), a)
    {
      match a
      case LoginStart => LoginStart();
      case LoginSuccess(u) => LoginSuccess(u);
      case LoginFailure(m) => LoginFailure(m);
      case Logout => Logout();
    }

    /** The `login` thunk: dispatch `loginStart`, consult the credential check, then dispatch
        success or the fixed failure. The 500 ms delay and the local-storage write are not modelled. */
    method Login(employeeId: string, password: string, authenticate: (string, string) -> Option<User>)
      modifies this
      ensures State() == Run(old(State()), LoginActions(employeeId, password, authenticate))
      ensures !loading
      ensures isAuthenticated <==> authenticate(employeeId, password).Some?
      ensures authenticate(employeeId, password).Some? ==> user == authenticate(employeeId, password) && error == None
      ensures authenticate(employeeId, password).None? ==> user == None && error == Some(InvalidCredentialsMessage)
    {
      ghost var s0 := State();
      LoginStart();
      var found := authenticate(employeeId, password);
      if found.Some? {
        LoginSuccess(found);
      } else {
        LoginFailure(InvalidCredentialsMessage);
      }
      LoginOutcome(s0, employeeId, password, authenticate);
      ghost var acts := LoginActions(employeeId, password, authenticate);
      assert acts[1..][1..] == [];
    }
  }
}
