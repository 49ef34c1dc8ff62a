/**
 * `Xminds::Client`: the caller's identity, the two tokens, one lazily built
 * endpoint group per family, and the generated methods that dispatch through
 * them. Each method is proved against the session functions of session.dfy.
 */
module Clients {

  import opened Wrappers
  import opened JsonValues
  import opened ResponseErrors
  import opened Requests
  import opened Routing
  import opened Sessions
  import Auth = AuthenticationEndpoints

  class Client {
    const typeName: string
    const endpoint: string
    const identity: Identity
    /** The remote API every group talks to. */
    const server: Server

    var jwtToken: Option<string>
    var refreshToken: Option<string>
    /** The groups built so far (`@authentication`, `@database`, ...); a missing key is a nil field. */
    var groups: map<Family, Request>

    /** Every group talks to the client's endpoint. */
    ghost predicate Valid()
      reads this
    {
      forall f :: f in groups ==> groups[f].endpoint == endpoint
    }

    /** The session this client is in: its tokens and the token each built group captured. */
    ghost function State(): Session
      reads this
    {
      Session(jwtToken, refreshToken, map f | f in groups :: groups[f].jwtToken)
    }

    /**
     * The attribute assignments of `initialize`: each value from its keyword
     * argument when given, else from the configuration; no token, no group.
     * The type defaults to root.
     */
    constructor (args: ClientArgs, config: Configuration, server: Server, typeName: string := "root")
      ensures this.typeName == typeName && this.server == server
      ensures endpoint == ResolveEndpoint(args.endpoint, config.endpoint)
      ensures identity == ResolveIdentity(args.identity, config.identity)
      ensures Valid() && State() == Fresh
    {
      this.typeName := typeName;
      this.server := server;
      endpoint := ResolveEndpoint(args.endpoint, config.endpoint);
      identity := ResolveIdentity(args.identity, config.identity);
      jwtToken := None;
      refreshToken := None;
      groups := map[];
    }

    /** `Client.new`: the attributes, then `set_jwt_token`; a raised error is returned beside the half-built client. */
    static method Open(args: ClientArgs, config: Configuration, server: Server, typeName: string := "root")
        returns (client: Client, failure: Option<Failure>)
      modifies server
      ensures fresh(client) && client.server == server && client.typeName == typeName && client.Valid()
      ensures client.endpoint == ResolveEndpoint(args.endpoint, config.endpoint)
      ensures client.identity == ResolveIdentity(args.identity, config.identity)
      ensures Step(client.State(), server.State(), failure)
           == Login(client.endpoint, typeName, client.identity, Fresh, old(server.State()))
    {
      client := new Client(args, config, server, typeName);
      failure := client.SetJwtToken();
    }

    /** The group accessors (`@database ||= Endpoints::Database.new(endpoint:, jwt_token:)`, ...). */
    method Group(f: Family) returns (g: Request)
      requires Valid()
      modifies this
      ensures Valid() && g.endpoint == endpoint
      ensures (State(), g.jwtToken) == Accessor(old(State()), f)
    {
      if f in groups {
        g := groups[f];
      } else {
        g := new Request(endpoint, jwtToken);
        groups := groups[f := g];
        assert State().groups == old(State()).groups[f := jwtToken];
      }
    }

    /** `set_jwt_token`: the login of the client's type, then the authentication group dropped. */
    method SetJwtToken() returns (failure: Option<Failure>)
      requires Valid()
      modifies this, server
      ensures Valid()
      ensures Step(State(), server.State(), failure) == Login(endpoint, typeName, identity, old(State()), old(server.State()))
    {
      var role := ParseRole(typeName);
      if role.None? {
        return Some(ArgumentError("Invalid client type '" + typeName + "'"));
      }
      failure := SetJwtAs(role.value);
      if failure.None? {
        ghost var s1 := State();
        groups := groups - {Authentication};
        assert State().groups == s1.groups - {Authentication};
      }
    }

    /** `set_jwt_as_root`, `set_jwt_as_individual` and `set_jwt_as_service`. */
    method SetJwtAs(role: Role) returns (failure: Option<Failure>)
      requires Valid()
      modifies this, server
      ensures Valid()
      ensures Step(State(), server.State(), failure) == LoginAs(endpoint, role, identity, old(State()), old(server.State()))
    {
      var authentication := Group(Authentication);
      var reply := authentication.Execute(LoginCall(role, identity), server);
      if reply.Err? {
        return Some(reply.error);
      }
      var jwt := Attribute(reply.value, "token");
      if jwt.Err? {
        return Some(jwt.error);
      }
      jwtToken := TokenOf(jwt.value);
      if role != Root {
        refreshToken := TokenOf(Lookup(reply.value.fields, "refresh_token"));
      }
      failure := None;
    }

    /** `reset_endpoints`: the seven groups it names are cleared; `@user_interactions` is kept. */
    method ResetEndpoints()
      requires Valid()
      modifies this
      ensures Valid()
      ensures State() == ResetEndpointsAsWritten(old(State()))
    {
      groups := groups - ClearedOnReset;
      assert State().groups == old(State()).groups - ClearedOnReset;
    }

    /** `reset_jwt_token`: renews both tokens with the refresh token, then resets the groups. */
    method ResetJwtToken() returns (failure: Option<Failure>)
      requires Valid()
      modifies this, server
      ensures Valid()
      ensures Step(State(), server.State(), failure) == RenewTokens(endpoint, old(State()), old(server.State()))
    {
      if refreshToken.None? {
        return Some(ClientError("Refresh token is not set"));
      }
      var authentication := Group(Authentication);
      var reply := authentication.Execute(Auth.RenewLoginWithRefreshToken(JStr(refreshToken.value)), server);
      if reply.Err? {
        return Some(reply.error);
      }
      var jwt := Attribute(reply.value, "token");
      if jwt.Err? {
        return Some(jwt.error);
      }
      jwtToken := TokenOf(jwt.value);
      refreshToken := TokenOf(Lookup(reply.value.fields, "refresh_token"));
      ResetEndpoints();
      failure := None;
    }

    /**
     * A generated method: the group's method through the group's accessor;
     * on an expired token, a refresh and a retry of the whole call, as often
     * as it takes.
     */
    method Dispatch(op: Op) returns (r: Result<Json, Failure>)
      requires Valid()
      modifies this, server
      ensures Valid()
      ensures Turn(State(), server.State(), r) == Run(endpoint, old(State()), old(server.State()), FamilyOf(op), CallOf(op))
    {
      var f := FamilyOf(op);
      var call := CallOf(op);
      while true
        invariant Valid()
        invariant Run(endpoint, State(), server.State(), f, call) == Run(endpoint, old(State()), old(server.State()), f, call)
        decreases |server.script|
      {
        ghost var s0, n0 := State(), server.State();
        var group := Group(f);
        r := group.Execute(call, server);
        assert Turn(State(), server.State(), r) == Attempt(endpoint, s0, n0, f, call);
        if !(r.Err? && IsExpiry(r.error)) {
          return;
        }
        var failure := ResetJwtToken();
        if failure.Some? {
          r := Err(failure.value);
          return;
        }
      }
    }
  }
}
