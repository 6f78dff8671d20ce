/**
 * The dashboard's client session store (dashboard/lib/auth-context.tsx): the signed-in
 * user, the start-up `loading` flag and the persisted token, changed only by start-up
 * resolution, `login`, `logout` and `register`.
 *
 * Backend answers are parameters: each action receives the result the backend call would
 * produce, success or failure, and the store records every request it sends in `sent`,
 * as the request interceptor leaves it.
 */
module Session {
  import opened Wrappers
  import Api

  datatype License = License(tierId: string, status: string, trialEndsAt: Option<int>, expiresAt: Option<int>)

  /** The profile `/auth/me` returns. */
  datatype User = User(id: int, email: string, fullName: string, license: Option<License>)

  /** A rejected backend call: a status when the server answered, and its `detail`. */
  datatype ApiError = ApiError(status: Option<int>, detail: Option<string>)

  /** The body of a successful `/auth/login`. */
  datatype LoginReply = LoginReply(accessToken: string, tokenType: string)

  /** Everything the store holds at one moment. */
  datatype Snapshot = Snapshot(
    user: Option<User>, loading: bool, storage: map<string, string>, sent: seq<Api.Request>)

  /** The value an action's promise settles with: the snapshot after it and its result. */
  datatype Outcome = Outcome(after: Snapshot, result: Result<(), ApiError>)

  /** A freshly mounted provider: nobody signed in yet and start-up resolution pending. */
  function Initial(storage: map<string, string>): (s: Snapshot)
    ensures s.user.None? && s.loading && s.storage == storage && s.sent == []
  {
    Snapshot(None, true, storage, [])
  }

  /** Sending a request from the browser: it goes out with the token currently stored. */
  function Issue(s: Snapshot, r: Api.Request): (t: Snapshot)
    ensures t.user == s.user && t.loading == s.loading && t.storage == s.storage
    ensures t.sent == s.sent + [Api.Intercepted(r, true, s.storage)]
  {
    s.(sent := s.sent + [Api.Intercepted(r, true, s.storage)])
  }

  /**
   * The start-up effect. Without a (non-empty) stored token it only clears `loading`.
   * Otherwise it asks `/auth/me`: on success the user is the answer; on failure the token
   * is removed. Either way `loading` ends false.
   */
  function AfterStart(s: Snapshot, c: Api.Client, me: Result<User, ApiError>): (t: Snapshot)
    ensures !t.loading
    ensures Api.StoredToken(s.storage).None? ==> t == s.(loading := false)
    ensures Api.StoredToken(s.storage).Some? ==> t.sent == s.sent + [Api.Intercepted(Api.MeCall(c), true, s.storage)]
    ensures Api.StoredToken(s.storage).Some? && me.Ok? ==> t.user == Some(me.value) && t.storage == s.storage
    ensures Api.StoredToken(s.storage).Some? && me.Err? ==>
      t.user == s.user && t.storage == s.storage - {Api.TokenKey}
  {
    if Api.StoredToken(s.storage).None? then s.(loading := false)
    else
      var asked := Issue(s, Api.MeCall(c));
      match me
      case Ok(u) => asked.(user := Some(u), loading := false)
      case Err(_) => asked.(storage := asked.storage - {Api.TokenKey}, loading := false)
  }

  /**
   * `login(email, password)`: the login call first; if it fails nothing but the request
   * log changes and the error propagates. Otherwise the returned token is stored before
   * `/auth/me` is asked, so that request carries it; the user is set only if that call
   * succeeds too (if it fails the token stays stored and its error propagates).
   */
  function AfterLogin(s: Snapshot, c: Api.Client, email: string, password: string,
                 login: Result<LoginReply, ApiError>, me: Result<User, ApiError>): (o: Outcome)
    ensures o.after.loading == s.loading
    ensures login.Err? ==> o == Outcome(Issue(s, Api.LoginCall(c, email, password)), Err(login.error))
    ensures login.Ok? ==> o.after.storage == s.storage[Api.TokenKey := login.value.accessToken]
    ensures login.Ok? ==> o.after.sent == s.sent + [
      Api.Intercepted(Api.LoginCall(c, email, password), true, s.storage),
      Api.Intercepted(Api.MeCall(c), true, o.after.storage)]
    ensures login.Ok? && me.Ok? ==> o.after.user == Some(me.value) && o.result == Ok(())
    ensures login.Ok? && me.Err? ==> o.after.user == s.user && o.result == Err(me.error)
  {
    var tried := Issue(s, Api.LoginCall(c, email, password));
    match login
    case Err(e) => Outcome(tried, Err(e))
    case Ok(reply) =>
      var stored := tried.(storage := tried.storage[Api.TokenKey := reply.accessToken]);
      var asked := Issue(stored, Api.MeCall(c));
      match me
      case Ok(u) => Outcome(asked.(user := Some(u)), Ok(()))
      case Err(e) => Outcome(asked, Err(e))
  }

  /** `logout()`: token gone and nobody signed in, from any state, with no request sent. */
  function AfterLogout(s: Snapshot): (t: Snapshot)
    ensures t.user.None? && Api.TokenKey !in t.storage
    ensures t.storage == s.storage - {Api.TokenKey}
    ensures t.loading == s.loading && t.sent == s.sent
  {
    s.(user := None, storage := s.storage - {Api.TokenKey})
  }

  /**
   * `register(email, password, fullName)`: creates the account; only if that succeeds does
   * it log in with the same credentials, ending exactly as that login would.
   */
  function AfterRegister(s: Snapshot, c: Api.Client, email: string, password: string, fullName: string,
                    created: Result<(), ApiError>, login: Result<LoginReply, ApiError>,
                    me: Result<User, ApiError>): (o: Outcome)
    ensures created.Err? ==>
      o == Outcome(Issue(s, Api.RegisterCall(c, email, password, fullName)), Err(created.error))
    ensures created.Ok? ==>
      o == AfterLogin(Issue(s, Api.RegisterCall(c, email, password, fullName)), c, email, password, login, me)
  {
    var registered := Issue(s, Api.RegisterCall(c, email, password, fullName));
    match created
    case Err(e) => Outcome(registered, Err(e))
    case Ok(_) => AfterLogin(registered, c, email, password, login, me)
  }

  /** The credential the `/auth/me` request of a successful login sends. */
  lemma LoginAsksWithNewToken(s: Snapshot, c: Api.Client, email: string, password: string,
                              reply: LoginReply, me: Result<User, ApiError>)
    requires reply.accessToken != ""
    requires "Authorization" !in c.defaultHeaders
    ensures var o := AfterLogin(s, c, email, password, Ok(reply), me);
      Api.BearerCredential(o.after.sent[|s.sent| + 1].headers) == Some(reply.accessToken)
  {
    var o := AfterLogin(s, c, email, password, Ok(reply), me);
    assert Api.StoredToken(o.after.storage) == Some(reply.accessToken);
    Api.CredentialRoundTrip(Api.MeCall(c).headers, o.after.storage);
  }

  /** A start-up with no stored token sends nothing and ends signed out. */
  lemma StartWithoutToken(storage: map<string, string>, c: Api.Client, me: Result<User, ApiError>)
    requires Api.StoredToken(storage).None?
    ensures var t := AfterStart(Initial(storage), c, me); t.user.None? && !t.loading && t.sent == []
  {
  }

  /** Logging out twice is the same as logging out once. */
  lemma LogoutIdempotent(s: Snapshot)
    ensures AfterLogout(AfterLogout(s)) == AfterLogout(s)
  {
  }

  /** After a logout the next start-up resolution sends nothing and stays signed out. */
  lemma LogoutThenResolve(s: Snapshot, c: Api.Client, me: Result<User, ApiError>)
    ensures AfterStart(AfterLogout(s), c, me).user.None?
    ensures AfterStart(AfterLogout(s), c, me).sent == s.sent
  {
  }

  /**
   * `useAuth()`: the context value inside an `AuthProvider`; outside one it throws.
   */
  function UseAuth(context: Option<Snapshot>): (r: Result<Snapshot, string>)
    ensures context.Some? ==> r == Ok(context.value)
    ensures context.None? ==> r == Err("useAuth must be used within an AuthProvider")
  {
    match context
    case Some(v) => Ok(v)
    case None => Err("useAuth must be used within an AuthProvider")
  }

  /** The `AuthProvider`'s state: React state for `user` and `loading`, plus `localStorage`. */
  class AuthStore {
    const client: Api.Client
    var user: Option<User>
    var loading: bool
    var storage: map<string, string>
    var sent: seq<Api.Request>

    function Current(): Snapshot
      reads this
    {
      Snapshot(user, loading, storage, sent)
    }

    constructor (client: Api.Client, storage: map<string, string>)
      ensures this.client == client
      ensures Current() == Initial(storage)
    {
      this.client := client;
      user, loading := None, true;
      this.storage := storage;
      sent := [];
    }

    /** Runs a request through the interceptor (as the browser does) and sends it. */
    method Send(r: Api.Request)
      modifies this`sent
      ensures Current() == Issue(old(Current()), r)
    {
      var config := new Api.RequestConfig(r);
      config := config.Intercept(true, storage);
      sent := sent + [config.Value()];
    }

    /** The mount effect. */
    method Start(me: Result<User, ApiError>)
      modifies this
      ensures Current() == AfterStart(old(Current()), client, me)
    {
      var token := Api.StoredToken(storage);
      if token.Some? {
        Send(Api.MeCall(client));
        match me {
          case Ok(u) => user := Some(u);
          case Err(_) => storage := storage - {Api.TokenKey};
        }
        loading := false;
      } else {
        loading := false;
      }
    }

    method Login(email: string, password: string,
                 login: Result<LoginReply, ApiError>, me: Result<User, ApiError>)
      returns (r: Result<(), ApiError>)
      modifies this
      ensures Outcome(Current(), r) == AfterLogin(old(Current()), client, email, password, login, me)
    {
      Send(Api.LoginCall(client, email, password));
      if login.Err? {
        return Err(login.error);
      }
      storage := storage[Api.TokenKey := login.value.accessToken];
      Send(Api.MeCall(client));
      if me.Err? {
        return Err(me.error);
      }
      user := Some(me.value);
      r := Ok(());
    }

    method Logout()
      modifies this
      ensures Current() == AfterLogout(old(Current()))
    {
      storage := storage - {Api.TokenKey};
      user := None;
    }

    method Register(email: string, password: string, fullName: string,
                    created: Result<(), ApiError>, login: Result<LoginReply, ApiError>,
                    me: Result<User, ApiError>)
      returns (r: Result<(), ApiError>)
      modifies this
      ensures Outcome(Current(), r)
        == AfterRegister(old(Current()), client, email, password, fullName, created, login, me)
    {
      Send(Api.RegisterCall(client, email, password, fullName));
      if created.Err? {
        return Err(created.error);
      }
      r := Login(email, password, login, me);
    }
  }
}
