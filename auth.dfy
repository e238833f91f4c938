/**
 * The session manager: a signed-in / signed-out machine over the bound user,
 * the id token and the storage credential derived from it, each kept twice
 * (a reactive copy for the page and a plain copy for server rendering).
 *
 * Every identity-provider call is replaced by its reply, passed in as a
 * parameter; the credential provider is replaced by the opaque value it is
 * built from.
 */
module Auth {
  import opened Wrappers
  import opened Segments

  /** A provider-side user handle: the username it was created for and the
      id token of the session last stored on it, if any. */
  datatype User = User(username: string, session: Option<string>)

  /** A storage credential, opaque: the identity pool and the logins map
      (provider key to token, or to `null`) it is resolved from. */
  datatype Credential = Credential(identityId: string, logins: map<string, Option<string>>)

  /** The five session fields of the manager. */
  datatype Session = Session(
    user: Option<User>,
    idToken: Option<string>,
    credential: Option<Credential>,
    serverIdToken: Option<string>,
    serverCredential: Option<Credential>)

  /** The manager's fixed configuration. */
  datatype Pool = Pool(identityPoolId: string, providerKey: string)

  /** What the provider does with a session request (`getSession`,
      `authenticateUser`): hand over a session with its id token, report an
      error, or call neither handler the manager listens on. */
  datatype SessionReply = Granted(idToken: string) | Refused(error: string) | Unanswered

  /** What the provider reports for an account operation. */
  datatype CallReply = Done(result: string) | Failed(error: string)

  /** How the promise an operation returns settles, if it does. */
  datatype Settled<T> = Resolved(value: T) | Rejected(error: string) | Pending

  /** The public operations, with the provider's reply to each; the username
      given to `FetchUser` is what `getCurrentUser` finds. */
  datatype Op =
    | FetchUser(current: Option<User>, reply: SessionReply)
    | SignIn(username: string, reply: SessionReply)
    | SignUp
    | SignOut
    | ConfirmRegistration(username: string)
    | ResetPassword(username: string)
    | ConfirmPassword(username: string)
    | ResendConfirmationCode(username: string)

  /** The region a user pool lives in: its id up to the first `_`. */
  function Region(userPoolId: string): (region: string)
    ensures '_' !in region
    ensures region == userPoolId || (|region| < |userPoolId| && userPoolId[..|region|] == region && userPoolId[|region|] == '_')
  {
    FirstSegment(userPoolId, '_')
  }

  /** The key of the user pool in the identity pool's logins map. */
  function ProviderKey(userPoolId: string): (key: string)
    ensures var region := Region(userPoolId);
      && |key| == 12 + |region| + 15 + |userPoolId|
      && key[..12 + |region|] == "cognito-idp." + region
      && key[12 + |region|..] == ".amazonaws.com/" + userPoolId
  {
    var region := Region(userPoolId);
    var key := "cognito-idp." + region + ".amazonaws.com/" + userPoolId;
    assert key == ("cognito-idp." + region) + (".amazonaws.com/" + userPoolId);
    key
  }

  /** An id of the usual shape `<region>_<suffix>` names its region. */
  lemma ProviderKeyOfPoolId(region: string, suffix: string)
    requires '_' !in region
    ensures ProviderKey(region + "_" + suffix) == "cognito-idp." + region + ".amazonaws.com/" + region + "_" + suffix
  {
    FirstSegmentBeforeSeparator(region, suffix, '_');
  }

  /** An id without `_` is used whole as the region. */
  lemma ProviderKeyOfBareId(userPoolId: string)
    requires '_' !in userPoolId
    ensures ProviderKey(userPoolId) == "cognito-idp." + userPoolId + ".amazonaws.com/" + userPoolId
  {
    WithoutSeparator(userPoolId, '_');
  }

  /** JavaScript truthiness of a nullable string. */
  predicate Truthy(v: Option<string>) {
    v.Some? && v.value != ""
  }

  /** `a || b` on two nullable strings. */
  function Or(a: Option<string>, b: Option<string>): Option<string> {
    if Truthy(a) then a else b
  }

  /** `isLoggedIn`: either copy of the token is a non-empty string. With no
      token at all the manager is logged out; when the copies agree, it is
      logged in exactly when the one token is non-empty. */
  predicate LoggedIn(s: Session)
    ensures s.idToken.None? && s.serverIdToken.None? ==> !LoggedIn(s)
    ensures Consistent(s) ==> (LoggedIn(s) <==> s.idToken.Some? && s.idToken.value != "")
  {
    Truthy(s.idToken) || Truthy(s.serverIdToken)
  }

  /** The two copies of the token and of the credential agree, and a token
      is held exactly when a credential is. */
  predicate Consistent(s: Session) {
    && s.idToken == s.serverIdToken
    && s.credential == s.serverCredential
    && (s.idToken.Some? <==> s.credential.Some?)
  }

  /** The state `#clearUser` leaves, whatever came before. */
  const SignedOut: Session := Session(None, None, None, None, None)

  /** `#setUser`: bind a fresh handle for `username`. */
  function WithUser(s: Session, username: string): (r: Session)
    ensures r.user == Some(User(username, None))
    ensures r.(user := s.user) == s
  {
    s.(user := Some(User(username, None)))
  }

  /** The token the logins map of a new credential carries. The source reads
      the token fields before it overwrites them with the new token, so the
      credential is built from the PREVIOUS token (`null` on a first sign-in)
      rather than the one just issued. Modelled as written. */
  function PriorLogin(s: Session): (login: Option<string>)
    ensures s == SignedOut ==> login == None
    ensures Consistent(s) ==> login == s.idToken
    ensures Truthy(s.idToken) ==> login == s.idToken
  {
    Or(s.idToken, s.serverIdToken)
  }

  /** `#onSuccess`: store the session on the user, publish the new token in
      both copies and a credential derived from the pool and the prior token. */
  function Succeeded(s: Session, token: string, pool: Pool): (r: Session)
    requires s.user.Some?
    ensures Consistent(r)
    ensures LoggedIn(r) <==> token != ""
    ensures r.idToken == Some(token)
    ensures r.credential == Some(Credential(pool.identityPoolId, map[pool.providerKey := PriorLogin(s)]))
    ensures r.user.Some? && r.user.value.username == s.user.value.username && r.user.value.session == Some(token)
  {
    var credential := Credential(pool.identityPoolId, map[pool.providerKey := Or(s.idToken, s.serverIdToken)]);
    Session(Some(s.user.value.(session := Some(token))), Some(token), Some(credential), Some(token), Some(credential))
  }

  /** `#refresh`: with no bound user, resolve `null` and change nothing;
      otherwise follow the provider's reply to `getSession`. */
  function Refreshed(s: Session, reply: SessionReply, pool: Pool): (r: (Session, Settled<Option<string>>))
    ensures s.user.None? ==> r == (s, Resolved(None))
    ensures s.user.Some? && reply.Refused? ==> r == (SignedOut, Rejected(reply.error))
    ensures s.user.Some? && reply.Granted? ==> r == (Succeeded(s, reply.idToken, pool), Resolved(Some(reply.idToken)))
    ensures s.user.Some? && reply.Granted? ==> LoggedIn(r.0) == (reply.idToken != "")
    ensures s.user.Some? && reply.Unanswered? ==> r == (s, Pending)
  {
    if s.user.None? then (s, Resolved(None))
    else match reply
      case Granted(token) => (Succeeded(s, token, pool), Resolved(Some(token)))
      case Refused(error) => (SignedOut, Rejected(error))
      case Unanswered => (s, Pending)
  }

  /** The state each public operation leaves. Every operation keeps the
      two copies in step. */
  function Step(s: Session, op: Op, pool: Pool): (r: Session)
    ensures Consistent(s) ==> Consistent(r)
  {
    match op
    case FetchUser(current, reply) => Refreshed(s.(user := current), reply, pool).0
    case SignIn(username, reply) =>
      var bound := WithUser(s, username);
      (match reply
       case Granted(token) => Succeeded(bound, token, pool)
       case Refused(_) => SignedOut
       case Unanswered => bound)
    case SignUp => s
    case SignOut => SignedOut
    case ConfirmRegistration(username) => WithUser(s, username)
    case ResetPassword(username) => WithUser(s, username)
    case ConfirmPassword(username) => WithUser(s, username)
    case ResendConfirmationCode(username) => WithUser(s, username)
  }

  /** The state a sequence of operations leaves. From a consistent state
      (the initial one is), every reachable state is consistent, so a
      logged-in manager always holds a credential. */
  function Run(s: Session, ops: seq<Op>, pool: Pool): (r: Session)
    ensures Consistent(s) ==> Consistent(r)
    ensures Consistent(s) && LoggedIn(r) ==> r.credential.Some?
    decreases |ops|
  {
    if ops == [] then s else Run(Step(s, ops[0], pool), ops[1..], pool)
  }

  /** How an account operation's promise settles: the provider's result or
      error, unchanged. */
  function Forwarded(reply: CallReply): (r: Settled<string>)
    ensures r != Pending
    ensures r.Resolved? <==> reply.Done?
    ensures reply.Done? ==> r.value == reply.result
    ensures reply.Failed? ==> r.error == reply.error
  {
    match reply
    case Done(result) => Resolved(result)
    case Failed(error) => Rejected(error)
  }

  /** Signing out clears every field from any state, bound user or not. */
  lemma SignOutClears(s: Session, pool: Pool)
    ensures Step(s, SignOut, pool) == SignedOut
    ensures !LoggedIn(Step(s, SignOut, pool)) && Step(s, SignOut, pool).credential.None?
  {
  }

  /** A refused sign-in or refresh clears the session whatever it held
      before; a refused sign-in's promise rejects with the provider's error. */
  lemma FailureClears(s: Session, username: string, user: User, error: string, pool: Pool)
    ensures Step(s, SignIn(username, Refused(error)), pool) == SignedOut
    ensures Step(s, FetchUser(Some(user), Refused(error)), pool) == SignedOut
    ensures !LoggedIn(SignedOut) && SignedOut.credential.None?
  {
  }

  /** A granted sign-in logs in exactly when the token is non-empty, always
      derives a credential, and binds the user signed in. */
  lemma SignInSucceeds(s: Session, username: string, token: string, pool: Pool)
    ensures var r := Step(s, SignIn(username, Granted(token)), pool);
      && (LoggedIn(r) <==> token != "")
      && r.idToken == r.serverIdToken == Some(token)
      && r.credential.Some? && r.credential == r.serverCredential
      && r.user.Some? && r.user.value.username == username
  {
  }

  /** The latent bug: a first sign-in derives its credential from `null`,
      and a later refresh derives it from the token it replaces, so the
      credential never carries the token it is published with (unless the
      two tokens coincide). */
  lemma CredentialUsesPreviousToken(username: string, user: User, t1: string, t2: string, pool: Pool)
    ensures var s1 := Step(SignedOut, SignIn(username, Granted(t1)), pool);
      && s1.credential.value.logins[pool.providerKey] == None
      && var s2 := Step(s1, FetchUser(Some(user), Granted(t2)), pool);
      && s2.idToken == Some(t2)
      && s2.credential.value.logins[pool.providerKey] == Some(t1)
  {
  }

  /** Fetching with no current user resolves `null` and leaves the tokens
      and credentials as they were, even when they are stale. */
  lemma FetchWithoutUserKeepsTokens(s: Session, reply: SessionReply, pool: Pool)
    ensures Step(s, FetchUser(None, reply), pool) == s.(user := None)
    ensures LoggedIn(Step(s, FetchUser(None, reply), pool)) == LoggedIn(s)
  {
  }

  /** Sign-up and the four account operations never change the tokens,
      the credentials or whether the manager is logged in. */
  lemma AccountOperationsKeepSession(s: Session, op: Op, pool: Pool)
    requires op.SignUp? || op.ConfirmRegistration? || op.ResetPassword? || op.ConfirmPassword? || op.ResendConfirmationCode?
    ensures var r := Step(s, op, pool);
      && r.idToken == s.idToken && r.serverIdToken == s.serverIdToken
      && r.credential == s.credential && r.serverCredential == s.serverCredential
      && LoggedIn(r) == LoggedIn(s)
  {
  }

  class CognitoAuth {
    var user: Option<User>
    var idToken: Option<string>
    var credential: Option<Credential>
    var serverIdToken: Option<string>
    var serverCredential: Option<Credential>
    const clientId: string
    const userPoolId: string
    const identityPoolId: string
    const identityPoolProviderKey: string

    /** The five session fields as one value. */
    function Snapshot(): Session
      reads this
    {
      Session(user, idToken, credential, serverIdToken, serverCredential)
    }

    function Config(): Pool {
      Pool(identityPoolId, identityPoolProviderKey)
    }

    ghost predicate Valid()
      reads this
    {
      Consistent(Snapshot())
    }

    predicate IsLoggedIn()
      reads this
      ensures Valid() ==> (IsLoggedIn() <==> idToken.Some? && idToken.value != "")
    {
      LoggedIn(Snapshot())
    }

    constructor (clientId: string, userPoolId: string, identityPoolId: string)
      ensures this.clientId == clientId && this.userPoolId == userPoolId && this.identityPoolId == identityPoolId
      ensures identityPoolProviderKey == ProviderKey(userPoolId)
      ensures Snapshot() == SignedOut
      ensures Valid() && !IsLoggedIn()
    {
      identityPoolProviderKey := ProviderKey(userPoolId);
      idToken := None;
      credential := None;
      serverIdToken := None;
      serverCredential := None;
      user := None;
      this.clientId := clientId;
      this.userPoolId := userPoolId;
      this.identityPoolId := identityPoolId;
    }

    method Refresh(reply: SessionReply) returns (r: Settled<Option<string>>)
      requires Valid()
      modifies this
      ensures Valid()
      ensures (Snapshot(), r) == Refreshed(old(Snapshot()), reply, Config())
    {
      if user.Some? {
        match reply {
          case Refused(error) =>
            OnFailure(error);
            r := Rejected(error);
          case Granted(token) =>
            OnSuccess(token);
            r := Resolved(Some(token));
          case Unanswered =>
            r := Pending;
        }
      } else {
        r := Resolved(None);
      }
    }

    method SetUser(username: string)
      requires Valid()
      modifies this
      ensures Valid()
      ensures Snapshot() == WithUser(old(Snapshot()), username)
    {
      user := Some(User(username, None));
    }

    method ClearUser()
      modifies this
      ensures Valid()
      ensures Snapshot() == SignedOut
      ensures !IsLoggedIn()
    {
      user := None;
      idToken := None;
      credential := None;
      serverIdToken := None;
      serverCredential := None;
    }

    method OnSuccess(token: string)
      requires user.Some?
      requires Valid()
      modifies this
      ensures Valid()
      ensures Snapshot() == Succeeded(old(Snapshot()), token, Config())
      ensures IsLoggedIn() <==> token != ""
    {
      user := Some(user.value.(session := Some(token)));
      var newCredential := Credential(identityPoolId, map[identityPoolProviderKey := Or(idToken, serverIdToken)]);
      idToken := Some(token);
      credential := Some(newCredential);
      serverIdToken := Some(token);
      serverCredential := Some(newCredential);
    }

    /** Logs the error (not modelled) and clears the session. */
    method OnFailure(error: string)
      modifies this
      ensures Valid()
      ensures Snapshot() == SignedOut
    {
      ClearUser();
    }

    /** `current` is what `getCurrentUser` finds; the promise rejects when
        the refresh does and otherwise resolves once the refresh resolves. */
    method FetchUser(current: Option<User>, reply: SessionReply) returns (r: Settled<()>)
      requires Valid()
      modifies this
      ensures Valid()
      ensures Snapshot() == Step(old(Snapshot()), Op.FetchUser(current, reply), Config())
      ensures r == match Refreshed(old(Snapshot()).(user := current), reply, Config()).1
        case Resolved(_) => Resolved(())
        case Rejected(e) => Rejected(e)
        case Pending => Pending
    {
      user := current;
      var refreshed := Refresh(reply);
      match refreshed {
        case Resolved(_) => r := Resolved(());
        case Rejected(e) => r := Rejected(e);
        case Pending => r := Pending;
      }
    }

    /** The password goes to the provider, whose verdict is `reply`. */
    method SignIn(username: string, password: string, reply: SessionReply) returns (r: Settled<string>)
      requires Valid()
      modifies this
      ensures Valid()
      ensures Snapshot() == Step(old(Snapshot()), Op.SignIn(username, reply), Config())
      ensures r == match reply
        case Granted(token) => Resolved(token)
        case Refused(error) => Rejected(error)
        case Unanswered => Pending
    {
      SetUser(username);
      match reply {
        case Granted(token) =>
          OnSuccess(token);
          r := Resolved(token);
        case Refused(error) =>
          OnFailure(error);
          r := Rejected(error);
        case Unanswered =>
          r := Pending;
      }
    }

    /** Registration binds no user and changes no field. */
    method SignUp(username: string, email: string, password: string, reply: CallReply) returns (r: Settled<string>)
      ensures r == Forwarded(reply)
    {
      match reply {
        case Failed(error) => r := Rejected(error);
        case Done(result) => r := Resolved(result);
      }
    }

    /** The provider's own sign-out of a bound user is not modelled; the
        session is cleared either way. */
    method SignOut()
      modifies this
      ensures Valid()
      ensures Snapshot() == Step(old(Snapshot()), Op.SignOut, Config())
      ensures !IsLoggedIn() && credential.None? && serverCredential.None?
    {
      ClearUser();
    }

    method ConfirmRegistration(username: string, reply: CallReply) returns (r: Settled<string>)
      requires Valid()
      modifies this
      ensures Valid()
      ensures Snapshot() == Step(old(Snapshot()), Op.ConfirmRegistration(username), Config())
      ensures r == Forwarded(reply)
    {
      SetUser(username);
      r := Forwarded(reply);
    }

    method ResetPassword(username: string, reply: CallReply) returns (r: Settled<string>)
      requires Valid()
      modifies this
      ensures Valid()
      ensures Snapshot() == Step(old(Snapshot()), Op.ResetPassword(username), Config())
      ensures r == Forwarded(reply)
    {
      SetUser(username);
      r := Forwarded(reply);
    }

    method ConfirmPassword(username: string, code: string, password: string, reply: CallReply) returns (r: Settled<string>)
      requires Valid()
      modifies this
      ensures Valid()
      ensures Snapshot() == Step(old(Snapshot()), Op.ConfirmPassword(username), Config())
      ensures r == Forwarded(reply)
    {
      SetUser(username);
      r := Forwarded(reply);
    }

    method ResendConfirmationCode(username: string, reply: CallReply) returns (r: Settled<string>)
      requires Valid()
      modifies this
      ensures Valid()
      ensures Snapshot() == Step(old(Snapshot()), Op.ResendConfirmationCode(username), Config())
      ensures r == Forwarded(reply)
    {
      SetUser(username);
      r := Forwarded(reply);
    }
  }

  /** The route guard run before every page: when the manager is not logged
      in, it awaits `fetchUser`, so the navigation fails when that rejects and
      waits for as long as it stays pending. */
  method RouteGuard(auth: CognitoAuth, current: Option<User>, reply: SessionReply) returns (r: Settled<()>)
    requires auth.Valid()
    modifies auth
    ensures auth.Valid()
    ensures old(auth.IsLoggedIn()) ==> auth.Snapshot() == old(auth.Snapshot()) && r == Resolved(())
    ensures !old(auth.IsLoggedIn()) ==> auth.Snapshot() == Step(old(auth.Snapshot()), Op.FetchUser(current, reply), auth.Config())
    ensures !old(auth.IsLoggedIn()) ==> r == match Refreshed(old(auth.Snapshot()).(user := current), reply, auth.Config()).1
      case Resolved(_) => Resolved(())
      case Rejected(e) => Rejected(e)
      case Pending => Pending
  {
    if !auth.IsLoggedIn() {
      r := auth.FetchUser(current, reply);
    } else {
      r := Resolved(());
    }
  }
}
