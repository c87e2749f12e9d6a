/** The session store of src/context/AuthContext.tsx: a reducer over
    `{ user, isAuthenticated, loading }` and a provider whose methods read and
    write the token kept in the browser's storage and dispatch in order. */
module AuthContext {
  import opened Wrappers
  import opened Backend
  import opened Types

  datatype AuthState = AuthState(user: Option<User>, isAuthenticated: bool, loading: bool)

  /** The declared actions. SET_USER's payload is whatever the server sent,
      so it may be null. SET_ERROR is declared but has no case of its own. */
  datatype AuthAction =
    | SetLoading(flag: bool)
    | SetUser(payload: Option<User>)
    | ClearUser
    | SetError(message: string)

  const InitialState := AuthState(None, false, true)

  function AuthReducer(s: AuthState, a: AuthAction): AuthState {
    match a
    case SetLoading(f) => s.(loading := f)
    case SetUser(u) => AuthState(u, true, false)
    case ClearUser => AuthState(None, false, false)
    case SetError(_) => s
  }

  /** The state after dispatching `actions` in order. */
  function Run(s: AuthState, actions: seq<AuthAction>): AuthState
    decreases |actions|
  {
    if actions == [] then s else Run(AuthReducer(s, actions[0]), actions[1..])
  }

  /** The session flag agrees with the presence of a user. */
  predicate Consistent(s: AuthState) {
    s.isAuthenticated <==> s.user.Some?
  }

  /** Every SET_USER in `actions` carries a user. */
  predicate NonNullUsers(actions: seq<AuthAction>) {
    forall i :: 0 <= i < |actions| && actions[i].SetUser? ==> actions[i].payload.Some?
  }

  /** From a consistent state (the initial one is), any run whose SET_USER
      payloads are non-null keeps `isAuthenticated` equal to `user != null`. */
  lemma {:induction false} RunKeepsConsistent(s: AuthState, actions: seq<AuthAction>)
    requires Consistent(s) && NonNullUsers(actions)
    ensures Consistent(Run(s, actions))
    decreases |actions|
  {
    if actions != [] {
      assert actions[0].SetUser? ==> actions[0].payload.Some?;
      assert NonNullUsers(actions[1..]) by {
        forall i | 0 <= i < |actions[1..]| && actions[1..][i].SetUser?
          ensures actions[1..][i].payload.Some?
        {
          assert actions[1..][i] == actions[i + 1];
        }
      }
      RunKeepsConsistent(AuthReducer(s, actions[0]), actions[1..]);
    }
  }

  lemma InitialStateConsistent()
    ensures Consistent(InitialState)
    ensures !InitialState.isAuthenticated && InitialState.user.None? && InitialState.loading
  {
  }

  /** The non-null requirement is needed: a null SET_USER payload yields a
      session that claims to be authenticated without a user. */
  lemma NullUserBreaksConsistency()
    ensures !Consistent(Run(InitialState, [SetUser(None)]))
  {
    assert Run(InitialState, [SetUser(None)]) == Run(AuthState(None, true, false), []);
  }

  /** SET_USER signs the user in and ends loading; CLEAR_USER resets everything. */
  lemma SetUserAndClearUser(s: AuthState, u: User)
    ensures AuthReducer(s, SetUser(Some(u))) == AuthState(Some(u), true, false)
    ensures AuthReducer(s, ClearUser) == AuthState(None, false, false)
  {
  }

  /** SET_LOADING changes only `loading`; SET_ERROR falls through to the
      default branch and changes nothing at all. */
  lemma SetLoadingAndSetError(s: AuthState, f: bool, m: string)
    ensures AuthReducer(s, SetLoading(f)) == s.(loading := f)
    ensures AuthReducer(s, SetError(m)) == s
  {
  }

  /** `if (token)`: a stored token counts only when present and non-empty. */
  predicate TokenPresent(token: Option<string>) {
    token.Some? && token.value != ""
  }

  /** The authentication provider. `token` is the value stored under the
      key 'token' in the browser's local storage. */
  class AuthProvider {
    var user: Option<User>
    var isAuthenticated: bool
    var loading: bool
    var token: Option<string>

    function State(): AuthState
      reads this
    {
      AuthState(user, isAuthenticated, loading)
    }

    /** Mounting the provider: the initial state, with whatever token the
        browser still holds from an earlier visit. */
    constructor (storedToken: Option<string>)
      ensures State() == InitialState && token == storedToken
    {
      user, isAuthenticated, loading := None, false, true;
      token := storedToken;
    }

    method Dispatch(a: AuthAction)
      modifies this
      ensures State() == AuthReducer(old(State()), a)
      ensures token == old(token)
    {
      var next := AuthReducer(State(), a);
      user, isAuthenticated, loading := next.user, next.isAuthenticated, next.loading;
    }

    /** `checkAuthStatus`, run once at mount. Without a token it only ends
        loading; with one it asks the server for the current user, installs
        it on success, and on failure removes the token and ends loading. */
    method CheckAuthStatus(reply: Reply<User>) returns (asked: bool, dispatched: seq<AuthAction>)
      modifies this
      ensures asked == TokenPresent(old(token))
      ensures !asked ==> dispatched == [SetLoading(false)] && token == old(token)
      ensures asked && reply.Ok? ==> dispatched == [SetUser(Some(reply.value))] && token == old(token)
      ensures asked && reply.Err? ==> dispatched == [SetLoading(false)] && token == None
      ensures State() == Run(old(State()), dispatched)
      ensures !loading
    {
      asked := TokenPresent(token);
      if !asked {
        dispatched := [SetLoading(false)];
      } else if reply.Ok? {
        dispatched := [SetUser(Some(reply.value))];
      } else {
        token := None;
        dispatched := [SetLoading(false)];
      }
      Dispatch(dispatched[0]);
      assert dispatched[1..] == [];
    }

    /** The common body of `login` and `signup`: loading on; on success store
        the token, then set the user; on failure end loading and rethrow. */
    method Authenticate(reply: Reply<AuthResponse>) returns (status: Status, dispatched: seq<AuthAction>)
      modifies this
      ensures reply.Ok? ==> status == Done && token == Some(reply.value.token) &&
                            dispatched == [SetLoading(true), SetUser(Some(reply.value.user))] &&
                            State() == AuthState(Some(reply.value.user), true, false)
      ensures reply.Err? ==> status == Failed(reply.message) && token == old(token) &&
                             dispatched == [SetLoading(true), SetLoading(false)] &&
                             State() == old(State()).(loading := false)
      ensures State() == Run(old(State()), dispatched)
    {
      ghost var before := State();
      Dispatch(SetLoading(true));
      var second;
      if reply.Ok? {
        token := Some(reply.value.token);
        second := SetUser(Some(reply.value.user));
        status := Done;
      } else {
        second := SetLoading(false);
        status := Failed(reply.message);
      }
      Dispatch(second);
      dispatched := [SetLoading(true), second];
      ghost var mid := AuthReducer(before, SetLoading(true));
      assert Run(mid, [second]) == Run(AuthReducer(mid, second), []);
      assert Run(before, dispatched) == Run(mid, [second]);
    }

    /** `login(credentials)`; the credentials go to the server unchanged. */
    method Login(credentials: LoginCredentials, reply: Reply<AuthResponse>)
      returns (sent: LoginCredentials, status: Status, dispatched: seq<AuthAction>)
      modifies this
      ensures sent == credentials
      ensures reply.Ok? ==> status == Done && token == Some(reply.value.token) &&
                            State() == AuthState(Some(reply.value.user), true, false)
      ensures reply.Err? ==> status == Failed(reply.message) && token == old(token) &&
                             State() == old(State()).(loading := false)
      ensures State() == Run(old(State()), dispatched)
    {
      sent := credentials;
      status, dispatched := Authenticate(reply);
    }

    /** `signup(credentials)`; the credentials go to the server unchanged. */
    method Signup(credentials: SignupCredentials, reply: Reply<AuthResponse>)
      returns (sent: SignupCredentials, status: Status, dispatched: seq<AuthAction>)
      modifies this
      ensures sent == credentials
      ensures reply.Ok? ==> status == Done && token == Some(reply.value.token) &&
                            State() == AuthState(Some(reply.value.user), true, false)
      ensures reply.Err? ==> status == Failed(reply.message) && token == old(token) &&
                             State() == old(State()).(loading := false)
      ensures State() == Run(old(State()), dispatched)
    {
      sent := credentials;
      status, dispatched := Authenticate(reply);
    }

    /** `logout`: remove the token, then clear the user. */
    method Logout() returns (dispatched: seq<AuthAction>)
      modifies this
      ensures token == None
      ensures dispatched == [ClearUser]
      ensures State() == AuthState(None, false, false)
    {
      token := None;
      Dispatch(ClearUser);
      dispatched := [ClearUser];
    }
  }
}
