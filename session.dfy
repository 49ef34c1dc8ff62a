/**
 * The behaviour of `Xminds::Client` as functions of its state: the lazily
 * built endpoint groups, the logins of the three roles, the token refresh
 * and the rescue-and-retry loop around every dispatched call. The class in
 * client.dfy is proved against these functions.
 */
module Sessions {

  import opened Wrappers
  import opened JsonValues
  import opened ResponseErrors
  import opened Requests
  import opened Routing
  import Auth = AuthenticationEndpoints

  /** `@type`: the role the client logs in as. */
  datatype Role = Root | Individual | Service

  /**
   * The state a client carries between calls: its two tokens, and for each
   * endpoint group already built, the access token it captured when built
   * (`@authentication`, `@database`, ...; a missing key is a nil field).
   */
  datatype Session = Session(jwt: Option<string>, refresh: Option<string>, groups: map<Family, Option<string>>)

  /** A session before the first login: no tokens, no group built. */
  const Fresh: Session := Session(None, None, map[])

  /** A dispatched call's end: the session, the server, and the value returned or the error raised. */
  datatype Turn = Turn(session: Session, net: Net, result: Result<Json, Failure>)

  /** A login or refresh's end: the session, the server, and the error raised if any. */
  datatype Step = Step(session: Session, net: Net, failure: Option<Failure>)

  /** The identity fields a client logs in with (`@email`, `@password`, ...). */
  datatype Identity = Identity(
    email: Json,
    password: Json,
    databaseId: Json,
    serviceName: Json,
    frontendUserId: Json,
    frontendSessionId: Json)

  /** The keyword arguments of `Client.new`: an absent one is nil. */
  datatype ClientArgs = ClientArgs(endpoint: Option<string>, identity: Identity)

  /** The global configuration's values. */
  datatype Configuration = Configuration(endpoint: string, identity: Identity)

  /** Ruby's truthiness: everything but nil and false. */
  predicate Truthy(v: Json) {
    v != JNull && v != JBool(false)
  }

  /** `given || configured`. */
  function Either(given: Json, configured: Json): Json {
    if Truthy(given) then given else configured
  }

  /** The identity fields `initialize` settles on, each from the argument when given, else from the configuration. */
  function ResolveIdentity(given: Identity, configured: Identity): (r: Identity)
    ensures Truthy(given.email) ==> r.email == given.email
    ensures !Truthy(given.email) ==> r.email == configured.email
    ensures Truthy(given.password) ==> r.password == given.password
    ensures !Truthy(given.password) ==> r.password == configured.password
    ensures Truthy(given.databaseId) ==> r.databaseId == given.databaseId
    ensures !Truthy(given.databaseId) ==> r.databaseId == configured.databaseId
    ensures Truthy(given.serviceName) ==> r.serviceName == given.serviceName
    ensures !Truthy(given.serviceName) ==> r.serviceName == configured.serviceName
    ensures Truthy(given.frontendUserId) ==> r.frontendUserId == given.frontendUserId
    ensures !Truthy(given.frontendUserId) ==> r.frontendUserId == configured.frontendUserId
    ensures Truthy(given.frontendSessionId) ==> r.frontendSessionId == given.frontendSessionId
    ensures !Truthy(given.frontendSessionId) ==> r.frontendSessionId == configured.frontendSessionId
  {
    Identity(
      Either(given.email, configured.email),
      Either(given.password, configured.password),
      Either(given.databaseId, configured.databaseId),
      Either(given.serviceName, configured.serviceName),
      Either(given.frontendUserId, configured.frontendUserId),
      Either(given.frontendSessionId, configured.frontendSessionId))
  }

  /** The endpoint `initialize` settles on. */
  function ResolveEndpoint(given: Option<string>, configured: string): (r: string)
    ensures given.Some? ==> r == given.value
    ensures given.None? ==> r == configured
  {
    given.GetOr(configured)
  }

  /** `type.to_sym` matched against the three roles of `set_jwt_token`. */
  function ParseRole(typeName: string): (r: Option<Role>)
    ensures r == Some(Root) <==> typeName == "root"
    ensures r == Some(Individual) <==> typeName == "individual"
    ensures r == Some(Service) <==> typeName == "service"
  {
    if typeName == "root" then Some(Root)
    else if typeName == "individual" then Some(Individual)
    else if typeName == "service" then Some(Service)
    else None
  }

  /** A token read from a response: a JSON string, or nil. */
  function TokenOf(v: Json): Option<string> {
    if v.JStr? then Some(v.s) else None
  }

  /**
   * A group accessor (`@database ||= Endpoints::Database.new(...)`): the group
   * already built is reused; otherwise one is built capturing the current token.
   * Returns the session and the token the group sends with.
   */
  function Accessor(s: Session, f: Family): (r: (Session, Option<string>))
    ensures f in r.0.groups && r.1 == r.0.groups[f]
    ensures r.0.jwt == s.jwt && r.0.refresh == s.refresh
    ensures f in s.groups ==> r.0 == s
    ensures f !in s.groups ==> r.0.groups == s.groups[f := s.jwt]
  {
    if f in s.groups then (s, s.groups[f]) else (s.(groups := s.groups[f := s.jwt]), s.jwt)
  }

  /** A group, once built, keeps serving with the token it captured, whatever the session's token becomes. */
  lemma AccessorBuildsOnce(s: Session, f: Family, jwt: Option<string>)
    ensures var (s1, t1) := Accessor(s, f);
      var (s2, t2) := Accessor(s1.(jwt := jwt), f);
      s2 == s1.(jwt := jwt) && t2 == t1
      && (f !in s.groups ==> t1 == s.jwt)
  {
  }

  /** The groups `reset_endpoints` sets to nil. */
  const ClearedOnReset: set<Family> :=
    {Authentication, Database, UsersDataAndProperties, ItemsDataAndProperties, UserRatings, Recommendation, BackgroundTasks}

  /** The one group `reset_endpoints` does not clear is the user-interactions group. */
  lemma {:induction false} OnlyInteractionsKept()
    ensures forall f :: f !in ClearedOnReset <==> f == UserInteractions
  {
    forall f ensures f !in ClearedOnReset <==> f == UserInteractions {
      match f
      case UserInteractions =>
      case _ =>
    }
  }

  /**
   * `reset_endpoints` as the class declares it: clears seven of the eight
   * groups and leaves `@user_interactions` in place.
   */
  function ResetEndpointsAsWritten(s: Session): (r: Session)
    ensures r.jwt == s.jwt && r.refresh == s.refresh
    ensures r.groups.Keys == s.groups.Keys * {UserInteractions}
    ensures UserInteractions in s.groups ==> r.groups[UserInteractions] == s.groups[UserInteractions]
  {
    OnlyInteractionsKept();
    s.(groups := s.groups - ClearedOnReset)
  }

  /**
   * `reset_endpoints` as evidently intended: every cached group cleared, so
   * each is rebuilt with the current token (see the findings in the README).
   */
  function ResetEndpoints(s: Session): (r: Session)
    ensures r.jwt == s.jwt && r.refresh == s.refresh
    ensures forall f :: f !in r.groups
  {
    s.(groups := map[])
  }

  /** The call a role logs in with (`set_jwt_as_root`, `set_jwt_as_individual`, `set_jwt_as_service`). */
  function LoginCall(role: Role, id: Identity): Call {
    match role
    case Root => Auth.LoginAsRoot(id.email, id.password)
    case Individual =>
      Auth.LoginAsIndividual(id.email, id.password, id.databaseId, id.frontendUserId, id.frontendSessionId)
    case Service =>
      Auth.LoginAsService(id.serviceName, id.password, id.databaseId, id.frontendUserId, id.frontendSessionId)
  }

  /**
   * `set_jwt_as_root`, `set_jwt_as_individual`, `set_jwt_as_service`: the
   * role's login goes through the authentication group; root keeps only the
   * access token, the other roles both tokens.
   */
  function LoginAs(endpoint: string, role: Role, id: Identity, s: Session, n: Net): (r: Step)
    ensures |r.net.script| <= |n.script|
  {
    var (s1, token) := Accessor(s, Authentication);
    var (n1, reply) := Transmit(n, MessageFor(endpoint, token, LoginCall(role, id)));
    if reply.Err? then Step(s1, n1, Some(reply.error))
    else
      match Attribute(reply.value, "token")
      case Err(f) => Step(s1, n1, Some(f))
      case Ok(jwt) =>
        if role == Root then Step(s1.(jwt := TokenOf(jwt)), n1, None)
        else
          var refresh := Lookup(reply.value.fields, "refresh_token");
          Step(s1.(jwt := TokenOf(jwt), refresh := TokenOf(refresh)), n1, None)
  }

  /**
   * `set_jwt_token`: an unknown type raises ArgumentError before anything is
   * sent; otherwise the role's login, after which the authentication group is
   * dropped so it is rebuilt with the new token.
   */
  function Login(endpoint: string, typeName: string, id: Identity, s: Session, n: Net): (r: Step)
    ensures |r.net.script| <= |n.script|
  {
    match ParseRole(typeName)
    case None => Step(s, n, Some(ArgumentError("Invalid client type '" + typeName + "'")))
    case Some(role) =>
      var st := LoginAs(endpoint, role, id, s, n);
      if st.failure.Some? then st
      else st.(session := st.session.(groups := st.session.groups - {Authentication}))
  }

  /**
   * `reset_jwt_token`: with no refresh token it raises ClientError and sends
   * nothing; otherwise it renews both tokens through the authentication group
   * and resets the groups with `reset_endpoints` as written.
   */
  function RenewTokens(endpoint: string, s: Session, n: Net): (r: Step)
    ensures |r.net.script| <= |n.script| && |r.net.sent| <= |n.sent| + 1
    ensures r.failure.None? ==> |r.net.sent| == |n.sent| + 1
    ensures r.failure.Some? && r.failure.value.ApiError? ==>
      |r.net.sent| == |n.sent| + 1 && r.net.sent[|r.net.sent| - 1].path == "login/refresh-token/"
  {
    match s.refresh
    case None => Step(s, n, Some(ClientError("Refresh token is not set")))
    case Some(refresh) =>
      var (s1, token) := Accessor(s, Authentication);
      var (n1, reply) := Transmit(n, MessageFor(endpoint, token, Auth.RenewLoginWithRefreshToken(JStr(refresh))));
      if reply.Err? then Step(s1, n1, Some(reply.error))
      else
        match Attribute(reply.value, "token")
        case Err(f) => Step(s1, n1, Some(f))
        case Ok(jwt) =>
          var next := Lookup(reply.value.fields, "refresh_token");
          Step(ResetEndpointsAsWritten(s1.(jwt := TokenOf(jwt), refresh := TokenOf(next))), n1, None)
  }

  /**
   * `reset_jwt_token` with the corrected reset: the same exchange, after which
   * no group is left, so every group is rebuilt with the renewed token.
   */
  function RenewTokensCorrected(endpoint: string, s: Session, n: Net): (r: Step)
    ensures var w := RenewTokens(endpoint, s, n);
      r.net == w.net && r.failure == w.failure
      && r.session.jwt == w.session.jwt && r.session.refresh == w.session.refresh
    ensures r.failure.None? ==> forall f :: f !in r.session.groups
  {
    var st := RenewTokens(endpoint, s, n);
    if st.failure.Some? then st else st.(session := ResetEndpoints(st.session))
  }

  /** The error the dispatcher rescues and retries on. */
  predicate IsExpiry(f: Failure) {
    f.ApiError? && f.error.errorName == JStr("JwtTokenExpired")
  }

  /** One pass of a generated method's body: the group's method, through the group's accessor. */
  function Attempt(endpoint: string, s: Session, n: Net, f: Family, call: Call): (r: Turn)
    ensures |r.net.sent| == |n.sent| + 1
    ensures |r.net.script| <= |n.script|
    ensures r.result.Err? && IsExpiry(r.result.error) ==> |r.net.script| < |n.script|
  {
    var (s1, token) := Accessor(s, f);
    var (n1, reply) := Transmit(n, MessageFor(endpoint, token, call));
    Turn(s1, n1, reply)
  }

  /**
   * A generated method with its rescue clause: an expired token is renewed and
   * the whole call retried, with no bound on the number of retries; any other
   * error, and any error of the renewal, propagates. Every call sends at least
   * one message.
   */
  function Run(endpoint: string, s: Session, n: Net, f: Family, call: Call): (r: Turn)
    ensures |r.net.sent| > |n.sent|
    decreases |n.script|
  {
    var t := Attempt(endpoint, s, n, f, call);
    if t.result.Err? && IsExpiry(t.result.error) then
      var renewed := RenewTokens(endpoint, t.session, t.net);
      if renewed.failure.Some? then Turn(renewed.session, renewed.net, Err(renewed.failure.value))
      else Run(endpoint, renewed.session, renewed.net, f, call)
    else t
  }

  /** If the turn ended in an expired-token error, the last message it sent was the refresh. */
  predicate ExpiryFromRefresh(t: Turn) {
    t.result.Err? && IsExpiry(t.result.error) ==>
      |t.net.sent| > 0 && t.net.sent[|t.net.sent| - 1].path == "login/refresh-token/"
  }

  /** An expired-token error escapes a dispatched call only from the refresh itself. */
  lemma {:induction false} ExpiryEscapesOnlyFromRefresh(endpoint: string, s: Session, n: Net, f: Family, call: Call)
    ensures ExpiryFromRefresh(Run(endpoint, s, n, f, call))
    decreases |n.script|
  {
    var r := Run(endpoint, s, n, f, call);
    var t := Attempt(endpoint, s, n, f, call);
    if t.result.Err? && IsExpiry(t.result.error) {
      var renewed := RenewTokens(endpoint, t.session, t.net);
      if renewed.failure.None? {
        assert r == Run(endpoint, renewed.session, renewed.net, f, call);
        ExpiryEscapesOnlyFromRefresh(endpoint, renewed.session, renewed.net, f, call);
      } else {
        assert r == Turn(renewed.session, renewed.net, Err(renewed.failure.value));
      }
    } else {
      assert r == t;
    }
  }

  // Properties of logging in.

  /** A type other than root, individual or service raises ArgumentError, and nothing is sent. */
  lemma LoginRejectsUnknownType(endpoint: string, typeName: string, id: Identity, s: Session, n: Net)
    requires typeName != "root" && typeName != "individual" && typeName != "service"
    ensures Login(endpoint, typeName, id, s, n) == Step(s, n, Some(ArgumentError("Invalid client type '" + typeName + "'")))
  {
  }

  /**
   * A login answered with a JSON object: one unauthenticated message goes to
   * the server; root takes only the access token while individual and service
   * take both; the authentication group is dropped and no other group changes.
   */
  lemma LoginTokens(endpoint: string, typeName: string, id: Identity, s: Session, n: Net, fields: Hash)
    requires ParseRole(typeName).Some?
    requires n.script != [] && Parse(n.script[0]) == Ok(JObj(fields))
    ensures var r := Login(endpoint, typeName, id, s, n);
      && r.failure.None?
      && r.net == Net(n.script[1..], n.sent + [r.net.sent[|n.sent|]])
      && r.net.sent[|n.sent|].path == LoginCall(ParseRole(typeName).value, id).path
      && AuthorizationHeader !in r.net.sent[|n.sent|].headers
      && r.session.jwt == TokenOf(Lookup(fields, "token"))
      && (typeName == "root" ==> r.session.refresh == s.refresh)
      && (typeName != "root" ==> r.session.refresh == TokenOf(Lookup(fields, "refresh_token")))
      && r.session.groups == s.groups - {Authentication}
  {
    var role := ParseRole(typeName).value;
    var token := Accessor(s, Authentication).1;
    MessageHeaders(endpoint, token, LoginCall(role, id));
  }

  // Properties of the refresh.

  /** With no refresh token (always the case after a root login) the refresh raises ClientError and sends nothing. */
  lemma RefreshWithoutTokenIsLocal(endpoint: string, s: Session, n: Net)
    requires s.refresh.None?
    ensures RenewTokens(endpoint, s, n) == Step(s, n, Some(ClientError("Refresh token is not set")))
  {
  }

  /**
   * A refresh answered with a JSON object sends the refresh token, without a
   * bearer header, and replaces both tokens with the ones in the response;
   * of the groups only the user-interactions group survives, if it was built,
   * with the token it captured before.
   */
  lemma RefreshReplacesBothTokens(endpoint: string, s: Session, n: Net, fields: Hash)
    requires s.refresh.Some?
    requires n.script != [] && Parse(n.script[0]) == Ok(JObj(fields))
    ensures var r := RenewTokens(endpoint, s, n);
      var m := r.net.sent[|n.sent|];
      && r.failure.None?
      && r.net == Net(n.script[1..], n.sent + [m])
      && m.path == "login/refresh-token/"
      && m.body == Some(map["refresh_token" := JStr(s.refresh.value)])
      && AuthorizationHeader !in m.headers
      && r.session.jwt == TokenOf(Lookup(fields, "token"))
      && r.session.refresh == TokenOf(Lookup(fields, "refresh_token"))
      && (forall f :: f in r.session.groups <==> f in s.groups && f == UserInteractions)
      && (UserInteractions in s.groups ==> r.session.groups[UserInteractions] == s.groups[UserInteractions])
  {
    var call := Auth.RenewLoginWithRefreshToken(JStr(s.refresh.value));
    var token := Accessor(s, Authentication).1;
    MessageHeaders(endpoint, token, call);
    assert "refresh_token" in call.body;
  }

  /** A root login leaves no refresh token, so an expired token in a root session surfaces as ClientError. */
  lemma RootSessionCannotRefresh(endpoint: string, id: Identity, n: Net, f: Family, call: Call)
    requires Login(endpoint, "root", id, Fresh, n).failure.None?
    ensures var st := Login(endpoint, "root", id, Fresh, n);
      var t := Attempt(endpoint, st.session, st.net, f, call);
      t.result.Err? && IsExpiry(t.result.error) ==>
        Run(endpoint, st.session, st.net, f, call) == Turn(t.session, t.net, Err(ClientError("Refresh token is not set")))
  {
  }

  // Properties of the rescue-and-retry loop.

  /** A success, or an error other than an expired token, ends the call after one message: nothing is retried. */
  lemma NonExpiryPropagates(endpoint: string, s: Session, n: Net, f: Family, call: Call)
    requires var t := Attempt(endpoint, s, n, f, call); !(t.result.Err? && IsExpiry(t.result.error))
    ensures Run(endpoint, s, n, f, call) == Attempt(endpoint, s, n, f, call)
    ensures |Run(endpoint, s, n, f, call).net.sent| == |n.sent| + 1
  {
  }

  /** The error reply of an expired access token. */
  const ExpiredReply: Reply := Reply(401, Some(JsonMediaType), "", Some(JObj(map["error_name" := JStr("JwtTokenExpired")])))

  /** A JSON success reply carrying `v`. */
  function JsonReply(v: Json): Reply {
    Reply(200, Some(JsonMediaType), "", Some(v))
  }

  /** A successful refresh's reply. */
  function RenewalReply(token: string, refresh: string): Reply {
    JsonReply(JObj(map["token" := JStr(token), "refresh_token" := JStr(refresh)]))
  }

  /** `k` rounds of an expired call answered by a successful refresh. */
  function ExpiryRounds(k: nat, token: string, refresh: string): (r: seq<Reply>)
    ensures |r| == 2 * k
  {
    if k == 0 then [] else [ExpiredReply, RenewalReply(token, refresh)] + ExpiryRounds(k - 1, token, refresh)
  }

  /** A JSON reply parses to its value. */
  lemma JsonReplyParses(v: Json)
    ensures Parse(JsonReply(v)) == Ok(v)
  {
    ContainsIffOccurs(JsonMediaType, JsonMediaType);
    assert OccursAt(JsonMediaType, JsonMediaType, 0);
  }

  /**
   * There is no retry counter: however many times in a row the call meets an
   * expired token, as long as each refresh succeeds the call is re-run, and the
   * first reply that is not an expiry ends it, after 2k + 1 messages.
   */
  lemma {:induction false} RetriesWithoutBound(endpoint: string, s: Session, n: Net, f: Family, call: Call, k: nat,
                                               token: string, refresh: string, v: Json)
    requires s.refresh.Some?
    requires n.script == ExpiryRounds(k, token, refresh) + [JsonReply(v)]
    ensures Run(endpoint, s, n, f, call).result == Ok(v)
    ensures |Run(endpoint, s, n, f, call).net.sent| == |n.sent| + 2 * k + 1
    decreases k
  {
    JsonReplyParses(v);
    var t := Attempt(endpoint, s, n, f, call);
    if k == 0 {
      assert n.script[0] == JsonReply(v);
    } else {
      assert n.script[0] == ExpiredReply;
      assert Lookup(map["error_name" := JStr("JwtTokenExpired")], "error_name") == JStr("JwtTokenExpired");
      assert t.result.Err? && IsExpiry(t.result.error);
      assert t.net.script == [RenewalReply(token, refresh)] + (ExpiryRounds(k - 1, token, refresh) + [JsonReply(v)]);
      JsonReplyParses(JObj(map["token" := JStr(token), "refresh_token" := JStr(refresh)]));
      var renewed := RenewTokens(endpoint, t.session, t.net);
      assert renewed.failure.None?;
      assert renewed.session.refresh == Some(refresh);
      assert renewed.net.script == ExpiryRounds(k - 1, token, refresh) + [JsonReply(v)];
      RetriesWithoutBound(endpoint, renewed.session, renewed.net, f, call, k - 1, token, refresh, v);
    }
  }

  // The interactions group and the reset (see the findings in the README).

  /**
   * As written, a refresh leaves the user-interactions group built before it in
   * place: the next interaction call still carries the old bearer token, not
   * the renewed one.
   */
  lemma StaleInteractionsTokenAfterReset(endpoint: string, s: Session, n: Net, op: Op, stale: string)
    requires op.InteractionsOp?
    requires UserInteractions in s.groups && s.groups[UserInteractions] == Some(stale)
    requires RenewTokens(endpoint, s, n).failure.None?
    requires RenewTokens(endpoint, s, n).session.jwt.GetOr("") != stale
    ensures var st := RenewTokens(endpoint, s, n);
      var t := Attempt(endpoint, st.session, st.net, FamilyOf(op), CallOf(op));
      var h := t.net.sent[|st.net.sent|].headers;
      AuthorizationHeader in h && h[AuthorizationHeader] == "Bearer " + stale
      && h[AuthorizationHeader] != "Bearer " + st.session.jwt.GetOr("")
  {
    var st := RenewTokens(endpoint, s, n);
    var renewed := st.session.jwt.GetOr("");
    BearerExactlyOnAuthenticatedOps(endpoint, st.session.groups[UserInteractions], op);
    assert ("Bearer " + stale)[7..] == stale;
    assert ("Bearer " + renewed)[7..] == renewed;
  }

  /**
   * The dispatcher as written: an interaction call built before the token
   * expired meets the expiry, the refresh succeeds, and the retry is sent
   * with the stale token, although the session now holds the renewed one.
   */
  lemma RetriedInteractionKeepsStaleToken(endpoint: string, s: Session, n: Net, op: Op, stale: string,
                                          token: string, refresh: string, v: Json)
    requires op.InteractionsOp?
    requires s.refresh.Some? && UserInteractions in s.groups && s.groups[UserInteractions] == Some(stale)
    requires token != stale
    requires n.script == [ExpiredReply, RenewalReply(token, refresh), JsonReply(v)]
    ensures var r := Run(endpoint, s, n, FamilyOf(op), CallOf(op));
      && r.result == Ok(v) && |r.net.sent| == |n.sent| + 3
      && r.session.jwt == Some(token)
      && AuthorizationHeader in r.net.sent[|n.sent| + 2].headers
      && r.net.sent[|n.sent| + 2].headers[AuthorizationHeader] == "Bearer " + stale
  {
    var f, call := FamilyOf(op), CallOf(op);
    JsonReplyParses(v);
    var t := Attempt(endpoint, s, n, f, call);
    assert Lookup(map["error_name" := JStr("JwtTokenExpired")], "error_name") == JStr("JwtTokenExpired");
    assert t.result.Err? && IsExpiry(t.result.error);
    assert t.net.script == [RenewalReply(token, refresh), JsonReply(v)];
    assert t.session == s;
    JsonReplyParses(JObj(map["token" := JStr(token), "refresh_token" := JStr(refresh)]));
    var renewed := RenewTokens(endpoint, t.session, t.net);
    assert renewed.failure.None? && renewed.session.jwt == Some(token);
    assert renewed.net.script == [JsonReply(v)];
    StaleInteractionsTokenAfterReset(endpoint, s, t.net, op, stale);
    var t2 := Attempt(endpoint, renewed.session, renewed.net, f, call);
    assert Run(endpoint, renewed.session, renewed.net, f, call) == t2;
  }

  /** After a successful refresh with the corrected reset, every operation's next message carries the new access token. */
  lemma ResetRebindsEveryGroup(endpoint: string, s: Session, n: Net, op: Op)
    requires RenewTokensCorrected(endpoint, s, n).failure.None?
    ensures var st := RenewTokensCorrected(endpoint, s, n);
      var t := Attempt(endpoint, st.session, st.net, FamilyOf(op), CallOf(op));
      var h := t.net.sent[|st.net.sent|].headers;
      !IsLogin(op) ==> AuthorizationHeader in h && h[AuthorizationHeader] == "Bearer " + st.session.jwt.GetOr("")
  {
    var st := RenewTokensCorrected(endpoint, s, n);
    BearerExactlyOnAuthenticatedOps(endpoint, st.session.jwt, op);
  }
}
