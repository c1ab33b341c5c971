/** The client's authentication context (`AuthContext.tsx`): the signed-in
    user, the `loading` flag and the token kept in device storage under
    `auth_token`, with its four transitions (rehydrate on start, login,
    register, logout), and the start screen's routing decision
    (`app/index.tsx`). The server's replies are parameters: each transition
    is given what its API call resolves or rejects with. */
module Session {

  import opened Common
  import opened Records
  import opened Gateway

  /** What an awaited API call gives the context: its value, or the error
      it rejects with. */
  datatype Answer<T> = Answered(value: T) | Threw(error: Thrown)

  /** The body of a successful `/auth/login` or `/auth/register`. */
  datatype SignIn = SignIn(token: string, user: PublicUser)

  /** The context's state: `user`, `loading`, and the stored token (`None`
      when storage holds no `auth_token`). */
  datatype State = State(user: Option<PublicUser>, loading: bool, storedToken: Option<string>)

  /** `useState(null)`, `useState(true)`, and whatever storage already holds. */
  function Initial(stored: Option<string>): State {
    State(None, true, stored)
  }

  /** Whether rehydration asks the server who the token belongs to. */
  predicate AsksServer(s: State, readFails: bool) {
    !readFails && Truthy(s.storedToken)
  }

  /** The mount effect: read the token; if there is one, `getMe` and keep
      its user; on any failure remove the token; in all cases stop loading.
      `readFails` says whether reading storage rejects. */
  function AfterRehydrate(s: State, readFails: bool, me: Answer<PublicUser>): State {
    if readFails then State(s.user, false, None)
    else if !Truthy(s.storedToken) then State(s.user, false, s.storedToken)
    else match me
      case Answered(u) => State(Some(u), false, s.storedToken)
      case Threw(_) => State(s.user, false, None)
  }

  /** `login` and `register`: the API call comes first, so a rejection
      leaves the state as it was; otherwise the token is stored and the
      user set. */
  function AfterSignIn(s: State, reply: Answer<SignIn>): State {
    match reply
    case Answered(r) => State(Some(r.user), s.loading, Some(r.token))
    case Threw(_) => s
  }

  /** `logout`: remove the token, forget the user. */
  function AfterLogout(s: State): State {
    State(None, s.loading, None)
  }

  /** Where the start screen sends the app (`app/index.tsx`). */
  datatype Navigation = StayPut | ToTabs | ToLogin

  function NextScreen(s: State): Navigation {
    if s.loading then StayPut
    else if s.user.Some? then ToTabs
    else ToLogin
  }

  /** Rehydration fails closed: when reading storage or `getMe` fails, the
      token is gone and no user is signed in afresh. */
  lemma RehydrateFailsClosed(s: State, readFails: bool, me: Answer<PublicUser>)
    requires readFails || (Truthy(s.storedToken) && me.Threw?)
    ensures var t := AfterRehydrate(s, readFails, me);
      t.storedToken.None? && t.user == s.user && !t.loading
  {
  }

  /** From the initial state, rehydration signs in exactly the user `getMe`
      returns for a stored token, stops loading, and routes accordingly;
      without a stored token the server is not asked and the app goes to
      the login screen. */
  lemma RehydrateFromStart(stored: Option<string>, readFails: bool, me: Answer<PublicUser>)
    ensures var t := AfterRehydrate(Initial(stored), readFails, me);
      && !t.loading
      && (t.user.Some? <==> AsksServer(Initial(stored), readFails) && me.Answered?)
      && (t.user.Some? ==> t.user.value == me.value && t.storedToken == stored)
      && (!AsksServer(Initial(stored), readFails) ==> NextScreen(t) == ToLogin)
      && (AsksServer(Initial(stored), readFails) && me.Threw? ==> t.storedToken.None? && NextScreen(t) == ToLogin)
      && (AsksServer(Initial(stored), readFails) && me.Answered? ==> NextScreen(t) == ToTabs)
  {
  }

  /** Once `loading` is false no transition makes it true again. */
  lemma LoadingStaysOff(s: State, readFails: bool, me: Answer<PublicUser>, reply: Answer<SignIn>)
    requires !s.loading
    ensures !AfterRehydrate(s, readFails, me).loading
    ensures !AfterSignIn(s, reply).loading
    ensures !AfterLogout(s).loading
  {
  }

  /** A rejected login or register changes neither the token nor the user. */
  lemma FailedSignInKeepsState(s: State, e: Thrown)
    ensures AfterSignIn(s, Threw(e)) == s
  {
  }

  /** After a successful sign-in, every later request carries the new token
      (when it is non-empty) and the app routes to the tabs. */
  lemma SignInAuthorizes(s: State, r: SignIn, base: string, call: Call)
    requires r.token != "" && !s.loading
    ensures var t := AfterSignIn(s, Answered(r));
      && Send(base, t.storedToken, call).headers["Authorization"] == "Bearer " + r.token
      && NextScreen(t) == ToTabs
  {
  }

  /** After logout no request carries a token, the app routes to the login
      screen, and a later rehydration asks nothing and keeps the user out
      whatever the server would say. */
  lemma LogoutIsFinal(s: State, base: string, call: Call, readFails: bool, me: Answer<PublicUser>)
    requires !s.loading
    ensures var t := AfterLogout(s);
      && "Authorization" !in Send(base, t.storedToken, call).headers
      && NextScreen(t) == ToLogin
      && !AsksServer(t, readFails)
      && AfterRehydrate(t, readFails, me).user.None?
  {
  }

  /** The provider's state as an object whose fields the transitions update. */
  class AuthStore {
    var user: Option<PublicUser>
    var loading: bool
    var storedToken: Option<string>

    function Snapshot(): State
      reads this
    {
      State(user, loading, storedToken)
    }

    constructor (stored: Option<string>)
      ensures Snapshot() == Initial(stored)
    {
      user := None;
      loading := true;
      storedToken := stored;
    }

    /** The mount effect. Returns the `getMe` request it sends, if any. */
    method Rehydrate(base: string, readFails: bool, me: Answer<PublicUser>) returns (sent: Option<HttpRequest>)
      modifies this
      ensures Snapshot() == AfterRehydrate(old(Snapshot()), readFails, me)
      ensures sent.Some? <==> AsksServer(old(Snapshot()), readFails)
      ensures sent.Some? ==> sent.value == Send(base, old(storedToken), GetMe)
    {
      sent := None;
      if readFails {
        storedToken := None;
      } else {
        var token := storedToken;
        if Truthy(token) {
          sent := Some(Send(base, token, GetMe));
          match me
          case Answered(u) =>
            user := Some(u);
          case Threw(_) =>
            storedToken := None;
        }
      }
      loading := false;
    }

    /** `login(email, password)`. Returns the request it sends and, when the
        call rejects, the error it propagates. */
    method Login(base: string, email: string, password: string, reply: Answer<SignIn>)
      returns (sent: HttpRequest, failure: Option<Thrown>)
      modifies this
      ensures sent == Send(base, old(storedToken), Gateway.Login(email, password))
      ensures failure.Some? <==> reply.Threw?
      ensures failure.Some? ==> failure.value == reply.error
      ensures Snapshot() == AfterSignIn(old(Snapshot()), reply)
    {
      sent := Send(base, storedToken, Gateway.Login(email, password));
      failure := Accept(reply);
    }

    /** `register(email, password, name)`. */
    method Register(base: string, email: string, password: string, name: string, reply: Answer<SignIn>)
      returns (sent: HttpRequest, failure: Option<Thrown>)
      modifies this
      ensures sent == Send(base, old(storedToken), Gateway.Register(email, password, name))
      ensures failure.Some? <==> reply.Threw?
      ensures failure.Some? ==> failure.value == reply.error
      ensures Snapshot() == AfterSignIn(old(Snapshot()), reply)
    {
      sent := Send(base, storedToken, Gateway.Register(email, password, name));
      failure := Accept(reply);
    }

    /** What `login` and `register` do once their call has settled. */
    method Accept(reply: Answer<SignIn>) returns (failure: Option<Thrown>)
      modifies this
      ensures failure.Some? <==> reply.Threw?
      ensures failure.Some? ==> failure.value == reply.error
      ensures Snapshot() == AfterSignIn(old(Snapshot()), reply)
    {
      match reply
      case Threw(e) =>
        failure := Some(e);
      case Answered(r) =>
        storedToken := Some(r.token);
        user := Some(r.user);
        failure := None;
    }

    method Logout()
      modifies this
      ensures Snapshot() == AfterLogout(old(Snapshot()))
    {
      storedToken := None;
      user := None;
    }
  }

  /** A whole session: start, rehydrate, sign in, sign out, start again.
      The second start asks the server nothing and lands on the login
      screen. */
  method SignOutAndRestart(base: string, stored: Option<string>, me: Answer<PublicUser>, reply: Answer<SignIn>, email: string, password: string)
    returns (first: Option<HttpRequest>, second: Option<HttpRequest>, screen: Navigation)
    ensures second.None? && screen == ToLogin
    ensures first.Some? <==> Truthy(stored)
  {
    var store := new AuthStore(stored);
    first := store.Rehydrate(base, false, me);
    var _, _ := store.Login(base, email, password, reply);
    store.Logout();
    var restarted := new AuthStore(store.storedToken);
    second := restarted.Rehydrate(base, false, me);
    screen := NextScreen(restarted.Snapshot());
  }
}
