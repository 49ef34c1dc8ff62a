/** Account and login requests (lib/xminds/endpoints/authentication.rb). */
module AuthenticationEndpoints {

  import opened JsonValues
  import opened Requests

  function ListAllAccounts(): Call {
    Get(path := "organizations/current/accounts/")
  }

  function CreateIndividualAccount(email: Json, password: Json, role: Json, firstName: Json, lastName: Json): Call {
    Post(path := "accounts/individual/",
         body := map["password" := password, "role" := role, "first_name" := firstName,
                     "last_name" := lastName, "email" := email])
  }

  function DeleteIndividualAccount(email: Json): Call {
    Delete(path := "accounts/individual/", body := map["email" := email])
  }

  function CreateServiceAccount(serviceName: Json, password: Json, role: Json): Call {
    Post(path := "accounts/service/", body := map["name" := serviceName, "password" := password, "role" := role])
  }

  function DeleteServiceAccount(serviceName: Json): Call {
    Delete(path := "accounts/service/", body := map["name" := serviceName])
  }

  function LoginAsIndividual(email: Json, password: Json, databaseId: Json,
                             frontendUserId: Json := JNull, frontendSessionId: Json := JNull): Call {
    Post(path := "login/individual/",
         body := Compact(map["email" := email, "password" := password, "db_id" := databaseId,
                             "frontend_user_id" := frontendUserId, "frontend_session_id" := frontendSessionId]),
         authRequired := false)
  }

  function LoginAsService(serviceName: Json, password: Json, databaseId: Json,
                          frontendUserId: Json := JNull, frontendSessionId: Json := JNull): Call {
    Post(path := "login/service/",
         body := Compact(map["name" := serviceName, "password" := password, "db_id" := databaseId,
                             "frontend_user_id" := frontendUserId, "frontend_session_id" := frontendSessionId]),
         authRequired := false)
  }

  function LoginAsRoot(email: Json, password: Json): Call {
    Post(path := "login/root/", body := map["email" := email, "password" := password], authRequired := false)
  }

  function RenewLoginWithRefreshToken(refreshToken: Json): Call {
    Post(path := "login/refresh-token/", body := map["refresh_token" := refreshToken], authRequired := false)
  }

  function ResendEmailVerificationCode(email: Json): Call {
    Put(path := "accounts/resend-verification-code/", body := map["email" := email])
  }

  function VerifyEmail(email: Json, code: Json): Call {
    Post(path := "accounts/verify/", body := map["email" := email, "code" := code])
  }

  function DeleteCurrentAccount(): Call {
    Delete(path := "accounts/")
  }

  /**
   * The individual login posts to `login/individual/` without a bearer
   * token; an argument left nil is absent from the body, not null, and the
   * database id travels under `db_id`.
   */
  lemma IndividualLoginBody(email: Json, password: Json, databaseId: Json, frontendUserId: Json, frontendSessionId: Json)
    ensures var c := LoginAsIndividual(email, password, databaseId, frontendUserId, frontendSessionId);
      && c.verb == POST && c.path == "login/individual/" && !c.authRequired
      && NullFree(c.body)
      && c.body.Keys <= {"email", "password", "db_id", "frontend_user_id", "frontend_session_id"}
      && SentIfSet(c.body, "email", email)
      && SentIfSet(c.body, "password", password)
      && SentIfSet(c.body, "db_id", databaseId)
      && SentIfSet(c.body, "frontend_user_id", frontendUserId)
      && SentIfSet(c.body, "frontend_session_id", frontendSessionId)
      && "database_id" !in c.body
  {
    var h := map["email" := email, "password" := password, "db_id" := databaseId,
                 "frontend_user_id" := frontendUserId, "frontend_session_id" := frontendSessionId];
    CompactSendsIfSet(h, "email");
    CompactSendsIfSet(h, "password");
    CompactSendsIfSet(h, "db_id");
    CompactSendsIfSet(h, "frontend_user_id");
    CompactSendsIfSet(h, "frontend_session_id");
  }

  /** The service login is the same request with the service name under `name`, nil entries removed. */
  lemma ServiceLoginBody(serviceName: Json, password: Json, databaseId: Json, frontendUserId: Json, frontendSessionId: Json)
    ensures var c := LoginAsService(serviceName, password, databaseId, frontendUserId, frontendSessionId);
      && c.verb == POST && c.path == "login/service/" && !c.authRequired
      && NullFree(c.body)
      && c.body.Keys <= {"name", "password", "db_id", "frontend_user_id", "frontend_session_id"}
      && SentIfSet(c.body, "name", serviceName)
      && SentIfSet(c.body, "password", password)
      && SentIfSet(c.body, "db_id", databaseId)
      && SentIfSet(c.body, "frontend_user_id", frontendUserId)
      && SentIfSet(c.body, "frontend_session_id", frontendSessionId)
      && "service_name" !in c.body
  {
    var h := map["name" := serviceName, "password" := password, "db_id" := databaseId,
                 "frontend_user_id" := frontendUserId, "frontend_session_id" := frontendSessionId];
    CompactSendsIfSet(h, "name");
    CompactSendsIfSet(h, "password");
    CompactSendsIfSet(h, "db_id");
    CompactSendsIfSet(h, "frontend_user_id");
    CompactSendsIfSet(h, "frontend_session_id");
  }

  /** The root login is not compacted: both keys are always sent, nil ones as null, and there is always a body. */
  lemma RootLoginBody(endpoint: string, token: Wrappers.Option<string>, email: Json, password: Json)
    ensures var c := LoginAsRoot(email, password);
      && c.verb == POST && c.path == "login/root/" && !c.authRequired
      && c.body == map["email" := email, "password" := password]
      && MessageFor(endpoint, token, c).body == Wrappers.Some(c.body)
  {
    assert "email" in LoginAsRoot(email, password).body;
  }

  /** The refresh call posts the refresh token, unauthenticated. */
  lemma RenewLoginBody(refreshToken: Json)
    ensures var c := RenewLoginWithRefreshToken(refreshToken);
      c.verb == POST && c.path == "login/refresh-token/" && !c.authRequired && c.body == map["refresh_token" := refreshToken]
  {
  }

  /**
   * Account management: the service name travels under `name`; account
   * deletion is a DELETE that carries a body, except for the current
   * account, which carries none.
   */
  lemma AccountRequests(endpoint: string, token: Wrappers.Option<string>, email: Json, serviceName: Json, password: Json, role: Json, code: Json)
    ensures CreateServiceAccount(serviceName, password, role).body["name"] == serviceName
    ensures "service_name" !in CreateServiceAccount(serviceName, password, role).body
    ensures DeleteServiceAccount(serviceName).verb == DELETE && DeleteServiceAccount(serviceName).body == map["name" := serviceName]
    ensures MessageFor(endpoint, token, DeleteIndividualAccount(email)).verb == DELETE
    ensures MessageFor(endpoint, token, DeleteIndividualAccount(email)).body == Wrappers.Some(map["email" := email])
    ensures ResendEmailVerificationCode(email).verb == PUT
    ensures VerifyEmail(email, code).verb == POST && VerifyEmail(email, code).path == "accounts/verify/"
    ensures var m := MessageFor(endpoint, token, DeleteCurrentAccount());
      m.verb == DELETE && m.path == "accounts/" && m.body.None? && m.query.None?
  {
    assert "email" in DeleteIndividualAccount(email).body;
  }
}
