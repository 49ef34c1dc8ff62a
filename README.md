# xminds-ruby in Dafny

A model of the Ruby client for the Crossing Minds recommendation API, with proofs about it.

- **`Xminds::Client`** is the façade callers use. It holds the caller's role, the access token (JWT) and the refresh token. It builds one endpoint group per resource family lazily, and each group captures the token that was current when it was built.
- A static table routes each public method name to its group.
- Every dispatched call is wrapped in a rescue: an error named `JwtTokenExpired` renews the tokens, resets the groups and retries the whole call.
- **`Xminds::Request`** assembles each HTTP message and classifies the reply.
- **`Xminds::ResponseError`** carries the fields of an error reply.
- **The eight endpoint groups** turn named arguments into request shapes.

Files:

- `wrappers.dfy`: `Option` (Ruby's nil) and `Result` (a value or a raised error).
- `json.dfy`: JSON values. An object is a map from keys to values. `Compact` models `Hash#compact`.
- `response_error.dfy`: `ResponseError.new`, and every error the client can raise.
- `request.dfy`:
  - the verb helpers and the message assembly, as functions;
  - the reply classification `parse`;
  - the server, a class holding a script of replies;
  - the `Request` class, whose `Build` applies the caller's headers in a loop and whose `Execute` performs a whole request.
- `endpoints_*.dfy`: one module per endpoint group, one function per endpoint method. Each returns the keyword arguments it hands to the verb helper.
- `routing.dfy`:
  - the routing table `ENDPOINT_METHODS`;
  - the operations, one datatype per group;
  - the name each operation is called by, the group that defines it, and the request it builds.
- `session.dfy`: what the client does, as functions of its state:
  - group accessors, the three logins, `set_jwt_token`, `reset_jwt_token`, `reset_endpoints`;
  - the rescue-and-retry loop, `Run`;
  - the lemmas about them.
- `client.dfy`: the `Client` class. Its fields are the tokens and the map of built groups. Each of its methods is proved equal to the corresponding function in `session.dfy`. `Dispatch` is the generated method: a `while true` loop that stops only on success, on an error other than expiry, or on a failed refresh.

The client, `RenewTokens` and `Run` follow the code as written, including its `reset_endpoints`, which keeps the user-interactions group (see Findings). The evidently intended reset, and what it would guarantee, are stated beside them (`Sessions.ResetEndpoints`, `Sessions.RenewTokensCorrected`, `Sessions.ResetRebindsEveryGroup`).

The server is a finite script of replies. A message sent once the script is exhausted fails to connect. That bound is why the retry loop terminates.

The rescue clause has no retry counter: a call is retried for as long as refreshes succeed and calls keep expiring (`Sessions.RetriesWithoutBound`).

## Model

| member | source | states |
|---|---|---|
| JsonValues.Compact | lib/xminds/request.rb:39 | the compacted hash holds no nil, keeps every non-nil entry with its value, adds no key and changes no value |
| JsonValues.CompactIdempotent | lib/xminds/request.rb:39 | compacting twice is compacting once, and a hash without nil values is left as it is |
| JsonValues.CompactSendsIfSet | lib/xminds/request.rb:39 | after compacting, an argument is present exactly when it is not nil, and then with its value |
| ResponseErrors.NewResponseError | lib/xminds/response_error.rb:8-16 | an error is built exactly when the parsed body is a JSON object, and reading a field of anything else raises; the status code and the whole body are stored as given |
| ResponseErrors.ResponseErrorRoundTrip | lib/xminds/response_error.rb:9-13 | an error built from a body carrying code, name, message and data has exactly those fields, nested data included; a key the body leaves out reads as nil |
| ResponseErrors.ErrorMessageReadsMessageKey | lib/xminds/response_error.rb:12 | `error_message` is read from the `message` key: a body with only an `error_message` key gives an error whose every field is nil |
| Requests.VerbHelpersPassThrough | lib/xminds/request.rb:13-31 | each verb helper issues its own HTTP method and passes path, query, body, headers and `auth_required` through unchanged; unset arguments take `request`'s defaults |
| Requests.CallerHeaderWins | lib/xminds/request.rb:52 | the last caller header with a given name determines that header's value |
| Requests.UntouchedHeaderKept | lib/xminds/request.rb:52 | a header no caller header names keeps its base value, or stays absent |
| Requests.MessageQueryAndBody | lib/xminds/request.rb:34-47 | the message has a query string iff the query has a non-nil entry, and then exactly the non-nil entries; it has a body iff the body hash is non-empty, and then that hash; verb and path are the call's |
| Requests.MessageHeaders | lib/xminds/request.rb:49-52 | Content-Type is `application/json` and `Authorization` is `Bearer <token>` iff auth is required, unless a caller header names them |
| Requests.ContainsIffOccurs | lib/xminds/request.rb:65 | the substring test holds iff the part occurs at some position |
| Requests.ParseClassifies | lib/xminds/request.rb:60-75 | 204 gives the empty envelope; another 2xx with a JSON content type gives the parsed body; another 2xx gives the raw body under `body`; parsing succeeds iff the status is 2xx (and a declared JSON body parses); outside 2xx an object body raises the ResponseError built from the status and that body, a non-object body fails on the key read, an unparsable body fails to parse |
| Requests.JsonContentTypeBySubstring | lib/xminds/request.rb:65-69 | a content type with a charset parameter still counts as JSON; a missing content type gives the raw body |
| Requests.Parse | lib/xminds/request.rb:60-75 | classifying a reply never reports a connection failure |
| Requests.Attribute | lib/xminds/client.rb:150-153 | reading an attribute of a response raises iff the response is not a JSON object |
| Requests.Transmit | lib/xminds/request.rb:54-56 | a send logs the message; it consumes and classifies the next scripted reply, or fails to connect when none is left |
| Requests.Server.Exchange | lib/xminds/request.rb:54 | the message is appended to those sent, and the next reply is handed back and removed from the script |
| Requests.Request.constructor | lib/xminds/request.rb:6-9 | the endpoint and token are stored unchanged |
| Requests.Request.Build | lib/xminds/request.rb:34-52 | the loop over caller headers yields exactly the message specified by `MessageFor` |
| Requests.Request.Execute | lib/xminds/request.rb:34-57 | the server's new state and the result are those of sending the specified message |
| AuthenticationEndpoints.IndividualLoginBody | lib/xminds/endpoints/authentication.rb:33-45 | POST `login/individual/` without authentication; the body has no other keys than email, password, `db_id` and the two frontend ids, and each is present exactly when its argument is not nil, with that value; `database_id` is sent as `db_id` |
| AuthenticationEndpoints.ServiceLoginBody | lib/xminds/endpoints/authentication.rb:47-59 | POST `login/service/` without authentication; the body has no other keys than `name`, password, `db_id` and the two frontend ids, each present exactly when its argument is not nil, with that value; `service_name` is sent as `name` |
| AuthenticationEndpoints.RootLoginBody | lib/xminds/endpoints/authentication.rb:61-67 | POST `login/root/` without authentication; the body is exactly {email, password}, uncompacted, and it is sent |
| AuthenticationEndpoints.RenewLoginBody | lib/xminds/endpoints/authentication.rb:69-75 | POST `login/refresh-token/` without authentication, with body {refresh_token} |
| AuthenticationEndpoints.AccountRequests | lib/xminds/endpoints/authentication.rb:7-87 | service accounts send `name`, never `service_name`; the deletions are DELETE with a body; resending the code is PUT; verifying is POST; deleting the current account is DELETE `accounts/` with no body and no query |
| DatabaseEndpoints.CreateDatabaseBody | lib/xminds/endpoints/database.rb:7-17 | POST `databases/`; the body is exactly {name, description, item_id_type, user_id_type} with the given values, nil ones included; `database_name` is sent as `name` |
| DatabaseEndpoints.ListAllDatabasesQuery | lib/xminds/endpoints/database.rb:19-27 | GET `databases/`; no query iff both values are nil; otherwise the query has no other keys than `page` and `amt`, each present exactly when given, with the given value |
| DatabaseEndpoints.CurrentDatabaseRequests | lib/xminds/endpoints/database.rb:29-39 | GET `databases/current/`; DELETE on the same path with no body; GET `databases/current/status/` |
| ItemsEndpoints.ItemPropertyRequests | lib/xminds/endpoints/items_data_and_properties.rb:7-28 | list and create use `items-properties/`; get and delete use `items-properties/<name>/`; the create body is exactly {property_name, value_type, repeated} with the given values, `repeated` false by default |
| ItemsEndpoints.ItemRequests | lib/xminds/endpoints/items_data_and_properties.rb:30-49 | GET, PUT {item} and PATCH {item, create_if_missing} on `items/<id>/`; `create_if_missing` defaults to false |
| ItemsEndpoints.ItemBulkRequests | lib/xminds/endpoints/items_data_and_properties.rb:51-83 | PUT `items-bulk/` with exactly {items}; PATCH on the same path with exactly {items, create_if_missing}, the caller's flag passed through and false by default; listing by ids is POST `items-bulk/list/` with the ids under `items_id` |
| ItemsEndpoints.ListAllItemsQuery | lib/xminds/endpoints/items_data_and_properties.rb:68-76 | GET `items-bulk/`; no query iff both values are nil; otherwise the query has no other keys than `amt` and `cursor`, each present exactly when given, with the given value |
| UsersEndpoints.UserPropertyRequests | lib/xminds/endpoints/users_data_and_properties.rb:7-28 | list and create use `users-properties/`; get and delete use `users-properties/<name>/`; the create body is exactly {property_name, value_type, repeated} with the given values, `repeated` false by default |
| UsersEndpoints.UserRequests | lib/xminds/endpoints/users_data_and_properties.rb:30-49 | GET, PUT {user} and PATCH {user, create_if_missing} on `users/<id>/`; `create_if_missing` defaults to false |
| UsersEndpoints.UserBulkRequests | lib/xminds/endpoints/users_data_and_properties.rb:51-83 | PUT `users-bulk/` with exactly {users}; PATCH on the same path with exactly {users, create_if_missing}, the caller's flag passed through and false by default; listing by ids is POST `users-bulk/list/` with the ids under `users_id` |
| UsersEndpoints.ListAllUsersQuery | lib/xminds/endpoints/users_data_and_properties.rb:68-76 | GET `users-bulk/`; no query iff both values are nil; otherwise the query has no other keys than `amt` and `cursor`, each present exactly when given, with the given value |
| RatingsEndpoints.RatingRequests | lib/xminds/endpoints/user_ratings.rb:7-18 | PUT `users/<u>/ratings/<i>/` with a body of no other keys than rating and timestamp, each present exactly when not nil, with its value; DELETE on the same path with no body |
| RatingsEndpoints.RatingCollectionRequests | lib/xminds/endpoints/user_ratings.rb:20-56 | the verbs, paths, queries and bodies of the per-user and bulk rating calls; listing a user's ratings without pagination sends no query |
| InteractionsEndpoints.InteractionRequests | lib/xminds/endpoints/user_interactions.rb:7-22 | POST `users/<u>/interactions/<i>/` with a body of no other keys than `interaction_type` and timestamp, each present exactly when not nil, with its value; POST `interactions-bulk/` with exactly {interactions} and the bearer header |
| RecommendationEndpoints.SimilarItemsRequest | lib/xminds/endpoints/recommendation.rb:7-16 | GET `recommendation/items/<id>/items/` with no body; the query has no other keys than `amt`, `cursor` and `filters`, each present exactly when not nil, with its value |
| RecommendationEndpoints.SessionItemsRequest | lib/xminds/endpoints/recommendation.rb:19-32 | POST `recommendation/sessions/items/` with no query and a nil-free body of no other keys than the six arguments |
| RecommendationEndpoints.SessionItemsArguments | lib/xminds/endpoints/recommendation.rb:19-32 | each of the six arguments is in the session body exactly when it is not nil, with its value |
| RecommendationEndpoints.ProfileItemsRequest | lib/xminds/endpoints/recommendation.rb:34-44 | GET `recommendation/users/<id>/items/` with no body; the query has no other keys than `amt`, `cursor`, `filters` and `exclude_rated_items`, each present exactly when not nil, with its value |
| RecommendationEndpoints.ExcludeRatedItemsAlwaysSent | lib/xminds/endpoints/recommendation.rb:19-44 | `exclude_rated_items` defaults to false and is then sent in the session body and the profile query; it is left out only when a caller passes nil |
| BackgroundTasksEndpoints.BackgroundTaskMessages | lib/xminds/endpoints/background_tasks.rb:7-13 | POST `tasks/<name>/` and GET `tasks/<name>/recents/`, with no body, no query and the bearer header |
| Routing.AuthenticationName | lib/xminds/client.rb:7-11 | every authentication method's name is listed under the authentication group |
| Routing.DatabaseName | lib/xminds/client.rb:12 | every database method's name is listed under the database group |
| Routing.UsersName | lib/xminds/client.rb:13-16 | every users method's name is listed under its group |
| Routing.ItemsName | lib/xminds/client.rb:17-20 | every items method's name is listed under its group |
| Routing.RatingsName | lib/xminds/client.rb:21-24 | every ratings method's name is listed under its group |
| Routing.InteractionsName | lib/xminds/client.rb:25 | every interactions method's name is listed under its group |
| Routing.RecommendationName | lib/xminds/client.rb:26-28 | every recommendation method's name is listed under its group |
| Routing.BackgroundTasksName | lib/xminds/client.rb:29 | every background-task method's name is listed under its group |
| Routing.Route | lib/xminds/client.rb:49-56 | a name routed to a group is listed under it; a name not routed is listed under no group |
| Routing.TableGroupsDisjoint | lib/xminds/client.rb:6-30 | no name is listed under two groups |
| Routing.RoutesToDefiningGroup | lib/xminds/client.rb:6-56 | every operation's name is routed to the group whose class defines it, and to no other |
| Routing.OperationNamed | lib/xminds/client.rb:49-51 | every name of the table is the name of some operation |
| Routing.EveryListedNameIsAnOperation | lib/xminds/client.rb:6-30 | every name the table lists under a group is the name of an operation of that group |
| Routing.CallOf | lib/xminds/client.rb:49-56 | an operation is sent without authentication iff it is one of the three logins or the refresh; no operation adds headers |
| Routing.AuthenticationCall | lib/xminds/endpoints/authentication.rb:7-87 | among the authentication calls, exactly the three logins and the refresh skip authentication |
| Routing.DatabaseCall | lib/xminds/endpoints/database.rb:7-39 | every database call is authenticated and adds no header |
| Routing.UsersCall | lib/xminds/endpoints/users_data_and_properties.rb:7-83 | every users call is authenticated and adds no header |
| Routing.ItemsCall | lib/xminds/endpoints/items_data_and_properties.rb:7-83 | every items call is authenticated and adds no header |
| Routing.RatingsCall | lib/xminds/endpoints/user_ratings.rb:7-56 | every ratings call is authenticated and adds no header |
| Routing.InteractionsCall | lib/xminds/endpoints/user_interactions.rb:7-22 | both interaction calls are authenticated and add no header |
| Routing.RecommendationCall | lib/xminds/endpoints/recommendation.rb:7-44 | every recommendation call is authenticated and adds no header |
| Routing.BackgroundTasksCall | lib/xminds/endpoints/background_tasks.rb:7-13 | both task calls are authenticated and add no header |
| Routing.BearerExactlyOnAuthenticatedOps | lib/xminds/request.rb:49-50 | every message declares JSON, and carries `Bearer <token>` iff the operation is not a login or the refresh |
| Routing.NoNullInAnyQuery | lib/xminds/request.rb:39 | no operation's query string holds a nil entry, and none is empty |
| Sessions.ResolveIdentity | lib/xminds/client.rb:39-44 | each identity field is the keyword argument when it is truthy, else the configuration's value |
| Sessions.ResolveEndpoint | lib/xminds/client.rb:38 | the endpoint is the argument when given, else the configuration's |
| Sessions.ParseRole | lib/xminds/client.rb:125-135 | the role is root, individual or service exactly for those three type names, and none otherwise |
| Sessions.Accessor | lib/xminds/client.rb:69-123 | a built group is reused unchanged; a missing one is built with the current token; the tokens are untouched |
| Sessions.AccessorBuildsOnce | lib/xminds/client.rb:69-123 | once built, a group keeps sending the token it captured, whatever the client's token becomes |
| Sessions.OnlyInteractionsKept | lib/xminds/client.rb:182-190 | the groups `reset_endpoints` clears are all but the user-interactions group |
| Sessions.ResetEndpointsAsWritten | lib/xminds/client.rb:182-190 | as written, the reset keeps exactly the user-interactions group, with its captured token, and no other |
| Sessions.ResetEndpoints | lib/xminds/client.rb:182-190 | the corrected reset leaves no group built and the tokens untouched |
| Sessions.RenewTokens | lib/xminds/client.rb:169-180 | a refresh consumes at most one reply and sends at most one message, exactly one when it succeeds; an API error from it comes from that message, to `login/refresh-token/` |
| Sessions.RenewTokensCorrected | lib/xminds/client.rb:169-190 | with the corrected reset, a refresh exchanges the same message and tokens as written, and when it succeeds no group is left built |
| Sessions.Attempt | lib/xminds/client.rb:51-56 | one pass sends exactly one message, and an expired-token error consumes a scripted reply |
| Sessions.Run | lib/xminds/client.rb:51-63 | a dispatched call sends at least one message |
| Sessions.ExpiryEscapesOnlyFromRefresh | lib/xminds/client.rb:57-62 | an expired-token error escapes a dispatched call only from the refresh: the last message sent is to `login/refresh-token/` |
| Sessions.LoginRejectsUnknownType | lib/xminds/client.rb:125-135 | an unknown type raises ArgumentError naming it, with nothing sent and the session unchanged |
| Sessions.LoginTokens | lib/xminds/client.rb:136-167 | a successful login sends one unauthenticated message to the role's login path; root sets only the access token, individual and service set both; the authentication group is dropped and no other group changes |
| Sessions.RefreshWithoutTokenIsLocal | lib/xminds/client.rb:170 | with no refresh token the refresh raises ClientError, sends nothing and changes nothing |
| Sessions.RefreshReplacesBothTokens | lib/xminds/client.rb:169-190 | a successful refresh sends the refresh token, without a bearer header, to `login/refresh-token/`; both tokens become those of the response; only the user-interactions group survives, if it was built, with its old token |
| Sessions.RootSessionCannotRefresh | lib/xminds/client.rb:139-170 | after a root login, an expired token surfaces as ClientError after one message |
| Sessions.NonExpiryPropagates | lib/xminds/client.rb:57-58 | a success, or an error other than an expired token, ends the call after one message with nothing retried |
| Sessions.RetriesWithoutBound | lib/xminds/client.rb:57-62 | for every k, k expiries each followed by a successful refresh are all retried, and the call succeeds after 2k+1 messages |
| Sessions.JsonReplyParses | lib/xminds/request.rb:64-66 | a 2xx reply declaring JSON parses to its body |
| Sessions.StaleInteractionsTokenAfterReset | lib/xminds/client.rb:169-190 | after a successful refresh, an interaction call through a group built before it carries the old bearer token, not the renewed one |
| Sessions.RetriedInteractionKeepsStaleToken | lib/xminds/client.rb:49-63 | an interaction call that meets an expired token is retried, after a successful refresh, with the stale token, although the client now holds the renewed one |
| Sessions.ResetRebindsEveryGroup | lib/xminds/client.rb:169-190 | after a refresh with the corrected reset, every authenticated operation carries the renewed token |
| Clients.Client.constructor | lib/xminds/client.rb:35-45 | the type is stored and defaults to root; endpoint and identity are resolved from the arguments and the configuration; no token is set and no group is built |
| Clients.Client.Open | lib/xminds/client.rb:35-47 | construction (type root by default) followed by `set_jwt_token` yields the session and server state specified by `Login` |
| Clients.Client.Group | lib/xminds/client.rb:69-123 | the accessor changes the client as `Accessor` specifies and returns a group for the client's endpoint |
| Clients.Client.SetJwtToken | lib/xminds/client.rb:125-137 | the new state and the raised error are those specified by `Login` |
| Clients.Client.SetJwtAs | lib/xminds/client.rb:139-167 | the role's login changes the client as `LoginAs` specifies |
| Clients.Client.ResetEndpoints | lib/xminds/client.rb:182-190 | the seven named groups are cleared and the user-interactions group is kept, as `ResetEndpointsAsWritten` specifies |
| Clients.Client.ResetJwtToken | lib/xminds/client.rb:169-180 | the new state and the raised error are those specified by `RenewTokens` |
| Clients.Client.Dispatch | lib/xminds/client.rb:49-63 | the retry loop ends in the state and result specified by `Run`, for the operation's group and request |

## Left out

- Network I/O: connection setup, TLS selection and the exchange are replaced by a scripted server, `Requests.Server`.
- Running out of scripted replies is modelled as a connection error. This is the bound that makes the retry loop terminate.
- JSON text: parsing, `JSON.generate` and `to_json` are left out.
  - A reply carries its body already parsed, or nothing when the body is not JSON.
  - The text of a ResponseError, the serialised message, is not modelled.
  - Key order and the symbol-versus-string distinction of keys are dropped.
  - JSON numbers are integers; floating-point values such as ratings are not modelled.
- `Xminds::Response` (an OpenStruct) is a JSON object, and reading an attribute is a key lookup (`Requests.Attribute`).
- URL handling: `URI.join` of endpoint and path, `URI.encode_www_form` of the query and the host and port split are left out. A message keeps the endpoint, the path and the query map as they are.
- Header names are compared exactly. Net::HTTP's case-insensitive header names are not modelled.
- Path arguments are strings. Ruby's `to_s` interpolation of other values is not modelled.
- Keyword arguments are typed operations.
  - Missing or unknown keywords, which raise ArgumentError in Ruby, are not modelled.
  - The `kwargs.empty?` branch is not modelled separately: with no keywords, every optional argument keeps its default.
- Tokens: a token in a login or refresh response that is not a JSON string is treated as nil.
- Configuration: it is an input record (`Sessions.Configuration`). Reading environment variables and the global configuration object is not modelled.
- `Client.new` raising from `initialize` is modelled by `Clients.Client.Open`, which returns the error beside the half-initialised client.
- `ENDPOINT_METHODS` groups are sets of symbols. Their order within a group does not affect routing.
- Concurrency: the client has no locking and is not modelled under concurrent use.

## Findings

| source | as written | input that shows it | evidently intended | confidence | as-written member | corrected member |
|---|---|---|---|---|---|---|
| lib/xminds/client.rb:182-190 | `reset_endpoints` clears seven groups but not `@user_interactions`, so after a refresh that group still sends the old access token; an interaction call that met an expired token is retried with the same expired token for as long as refreshes succeed | a session whose user-interactions group was built with token `a`, refreshed to token `b`: the retried `create_user_interaction` carries `Bearer a` | every cached group is discarded on refresh and rebuilt with the new token | not executed | Sessions.RetriedInteractionKeepsStaleToken | Sessions.ResetRebindsEveryGroup |
