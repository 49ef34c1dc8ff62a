/**
 * The request layer every endpoint group inherits (lib/xminds/request.rb):
 * the verb helpers, the assembly of one outgoing HTTP message, and the
 * classification of the reply. The network itself is a scripted server.
 */
module Requests {

  import opened Wrappers
  import opened JsonValues
  import opened ResponseErrors

  datatype Verb = DELETE | GET | PATCH | POST | PUT

  /** The keyword arguments of `Request#request`, as an endpoint method passes them. */
  datatype Call = Call(
    verb: Verb,
    path: string,
    query: Hash,
    body: Hash,
    headers: seq<(string, string)>,
    authRequired: bool)

  /**
   * One outgoing HTTP message: the URL is `path` resolved against `endpoint`
   * with an optional query string; `body` is the hash serialised as JSON.
   */
  datatype Message = Message(
    verb: Verb,
    endpoint: string,
    path: string,
    query: Option<Hash>,
    body: Option<Hash>,
    headers: map<string, string>)

  /**
   * One HTTP reply: status code, Content-Type header, raw body, and what
   * `JSON.parse` makes of the raw body (None when it is not JSON).
   */
  datatype Reply = Reply(status: int, contentType: Option<string>, raw: string, parsed: Option<Json>)

  /** The server as a script of replies still to come, and the messages sent to it so far. */
  datatype Net = Net(script: seq<Reply>, sent: seq<Message>)

  const ContentTypeHeader := "Content-Type"
  const AuthorizationHeader := "Authorization"
  const JsonMediaType := "application/json"

  // The verb helpers `delete/get/patch/post/put`: the HTTP method, and every
  // other argument passed through with `request`'s defaults.

  function Delete(path: string := "", query: Hash := map[], body: Hash := map[],
                  headers: seq<(string, string)> := [], authRequired: bool := true): Call {
    Call(DELETE, path, query, body, headers, authRequired)
  }

  function Get(path: string := "", query: Hash := map[], body: Hash := map[],
               headers: seq<(string, string)> := [], authRequired: bool := true): Call {
    Call(GET, path, query, body, headers, authRequired)
  }

  function Patch(path: string := "", query: Hash := map[], body: Hash := map[],
                 headers: seq<(string, string)> := [], authRequired: bool := true): Call {
    Call(PATCH, path, query, body, headers, authRequired)
  }

  function Post(path: string := "", query: Hash := map[], body: Hash := map[],
                headers: seq<(string, string)> := [], authRequired: bool := true): Call {
    Call(POST, path, query, body, headers, authRequired)
  }

  function Put(path: string := "", query: Hash := map[], body: Hash := map[],
               headers: seq<(string, string)> := [], authRequired: bool := true): Call {
    Call(PUT, path, query, body, headers, authRequired)
  }

  /** Each helper issues its own method, and an unset argument takes `request`'s default. */
  lemma VerbHelpersPassThrough(path: string, query: Hash, body: Hash, headers: seq<(string, string)>, auth: bool)
    ensures Delete(path, query, body, headers, auth) == Call(DELETE, path, query, body, headers, auth)
    ensures Get(path, query, body, headers, auth) == Call(GET, path, query, body, headers, auth)
    ensures Patch(path, query, body, headers, auth) == Call(PATCH, path, query, body, headers, auth)
    ensures Post(path, query, body, headers, auth) == Call(POST, path, query, body, headers, auth)
    ensures Put(path, query, body, headers, auth) == Call(PUT, path, query, body, headers, auth)
    ensures Get(path).query == map[] && Get(path).body == map[] && Get(path).headers == [] && Get(path).authRequired
  {
  }

  /** The headers `request` sets itself: always Content-Type, and the bearer token when authentication is required. */
  function BaseHeaders(token: Option<string>, authRequired: bool): map<string, string> {
    var h := map[ContentTypeHeader := JsonMediaType];
    if authRequired then h[AuthorizationHeader := "Bearer " + token.GetOr("")] else h
  }

  /** The caller's headers written over `base` one after another, so a later one wins. */
  function ApplyHeaders(base: map<string, string>, hs: seq<(string, string)>): map<string, string>
    decreases |hs|
  {
    if hs == [] then base
    else ApplyHeaders(base, hs[..|hs| - 1])[hs[|hs| - 1].0 := hs[|hs| - 1].1]
  }

  /** A caller header overrides whatever `request` set under the same name: the last one given wins. */
  lemma {:induction false} CallerHeaderWins(base: map<string, string>, hs: seq<(string, string)>, i: nat)
    requires i < |hs|
    requires forall j :: i < j < |hs| ==> hs[j].0 != hs[i].0
    ensures hs[i].0 in ApplyHeaders(base, hs)
    ensures ApplyHeaders(base, hs)[hs[i].0] == hs[i].1
  {
    if i < |hs| - 1 {
      CallerHeaderWins(base, hs[..|hs| - 1], i);
    }
  }

  /** A header the caller does not name keeps the value `request` gave it, or stays absent. */
  lemma {:induction false} UntouchedHeaderKept(base: map<string, string>, hs: seq<(string, string)>, key: string)
    requires forall j :: 0 <= j < |hs| ==> hs[j].0 != key
    ensures key in ApplyHeaders(base, hs) <==> key in base
    ensures key in base ==> ApplyHeaders(base, hs)[key] == base[key]
  {
    if hs != [] {
      UntouchedHeaderKept(base, hs[..|hs| - 1], key);
    }
  }

  /**
   * The message `request` sends: nil query entries dropped and the query
   * string attached only if an entry remains; the body sent only when the
   * hash is non-empty; then the headers.
   */
  function MessageFor(endpoint: string, token: Option<string>, c: Call): Message {
    var q := Compact(c.query);
    Message(
      c.verb, endpoint, c.path,
      if q == map[] then None else Some(q),
      if c.body == map[] then None else Some(c.body),
      ApplyHeaders(BaseHeaders(token, c.authRequired), c.headers))
  }

  /** A caller's header list does not name `key`. */
  predicate Unnamed(hs: seq<(string, string)>, key: string) {
    forall j :: 0 <= j < |hs| ==> hs[j].0 != key
  }

  /**
   * What the assembled message carries: a query string only when a non-nil
   * entry exists, and then no nil in it; a body exactly when the hash is
   * non-empty, the hash itself; the verb and path of the call.
   */
  lemma MessageQueryAndBody(endpoint: string, token: Option<string>, c: Call)
    ensures var m := MessageFor(endpoint, token, c);
      && m.verb == c.verb && m.path == c.path && m.endpoint == endpoint
      && (m.query.None? <==> forall k :: k in c.query ==> c.query[k] == JNull)
      && (m.query.Some? ==> m.query.value != map[] && NullFree(m.query.value)
                            && (forall k :: k in m.query.value ==> k in c.query && c.query[k] == m.query.value[k])
                            && (forall k :: k in c.query && c.query[k] != JNull ==> k in m.query.value && m.query.value[k] == c.query[k]))
      && (m.body.None? <==> c.body == map[])
      && (m.body.Some? ==> m.body.value == c.body)
  {
    var q := Compact(c.query);
    if forall k :: k in c.query ==> c.query[k] == JNull {
      assert q == map[];
    } else {
      var k :| k in c.query && c.query[k] != JNull;
      assert k in q;
    }
  }

  /**
   * Headers: `Content-Type: application/json` is always set, and
   * `Authorization: Bearer <token>` exactly when authentication is required,
   * unless the caller's headers, applied last, override them.
   */
  lemma MessageHeaders(endpoint: string, token: Option<string>, c: Call)
    ensures var h := MessageFor(endpoint, token, c).headers;
      && (Unnamed(c.headers, ContentTypeHeader) ==> ContentTypeHeader in h && h[ContentTypeHeader] == JsonMediaType)
      && (Unnamed(c.headers, AuthorizationHeader) ==>
            (AuthorizationHeader in h <==> c.authRequired)
            && (c.authRequired ==> h[AuthorizationHeader] == "Bearer " + token.GetOr("")))
  {
    var base := BaseHeaders(token, c.authRequired);
    if Unnamed(c.headers, ContentTypeHeader) {
      UntouchedHeaderKept(base, c.headers, ContentTypeHeader);
    }
    if Unnamed(c.headers, AuthorizationHeader) {
      UntouchedHeaderKept(base, c.headers, AuthorizationHeader);
    }
  }

  /** `s` contains `part` as a contiguous piece (Ruby's `String#include?`). */
  function Contains(s: string, part: string): bool
    decreases |s|
  {
    |part| <= |s| && (s[..|part|] == part || Contains(s[1..], part))
  }

  /** `part` occurs in `s` starting at position `i`. */
  predicate OccursAt(s: string, part: string, i: nat) {
    i + |part| <= |s| && s[i..i + |part|] == part
  }

  /** `Contains` finds exactly the positions where `part` occurs. */
  lemma {:induction false} ContainsIffOccurs(s: string, part: string)
    ensures Contains(s, part) <==> exists i: nat :: OccursAt(s, part, i)
  {
    if |part| <= |s| {
      if s[..|part|] == part {
        assert OccursAt(s, part, 0);
      } else {
        ContainsIffOccurs(s[1..], part);
        if exists i: nat :: OccursAt(s, part, i) {
          var i: nat :| OccursAt(s, part, i);
          assert i != 0;
          assert s[1..][i - 1..i - 1 + |part|] == s[i..i + |part|];
          assert OccursAt(s[1..], part, i - 1);
        }
        if exists i: nat :: OccursAt(s[1..], part, i) {
          var i: nat :| OccursAt(s[1..], part, i);
          assert s[1..][i..i + |part|] == s[i + 1..i + 1 + |part|];
          assert OccursAt(s, part, i + 1);
        }
      }
    }
  }

  /** The reply declares a JSON body: its Content-Type contains `application/json`. */
  predicate DeclaresJson(reply: Reply) {
    reply.contentType.Some? && Contains(reply.contentType.value, JsonMediaType)
  }

  /** A 2xx status (Net::HTTPSuccess). */
  predicate IsSuccess(status: int) {
    200 <= status < 300
  }

  /** The empty response envelope (`Xminds::Response.new`). */
  const EmptyEnvelope: Json := JObj(map[])

  /**
   * `Request#parse`: 204 gives the empty envelope; another 2xx with a JSON
   * content type gives the parsed body; another 2xx gives the raw body under
   * `body`; anything else raises a ResponseError built from the parsed body.
   */
  function Parse(reply: Reply): (r: Result<Json, Failure>)
    ensures r != Err(ConnectionError)
  {
    if reply.status == 204 then Ok(EmptyEnvelope)
    else if IsSuccess(reply.status) then
      if DeclaresJson(reply) then
        if reply.parsed.Some? then Ok(reply.parsed.value) else Err(ParserError)
      else Ok(JObj(map["body" := JStr(reply.raw)]))
    else if reply.parsed.None? then Err(ParserError)
    else
      match NewResponseError(reply.status, reply.parsed.value)
      case Ok(e) => Err(ApiError(e))
      case Err(f) => Err(f)
  }

  /**
   * The order of `parse`'s cases: what a reply turns into depends on its
   * status first, then on its content type, then on its body; a reply
   * outside 2xx raises the ResponseError built from its body.
   */
  lemma ParseClassifies(reply: Reply)
    ensures reply.status == 204 ==> Parse(reply) == Ok(EmptyEnvelope)
    ensures IsSuccess(reply.status) && reply.status != 204 && !DeclaresJson(reply) ==>
      Parse(reply) == Ok(JObj(map["body" := JStr(reply.raw)]))
    ensures IsSuccess(reply.status) && reply.status != 204 && DeclaresJson(reply) && reply.parsed.Some? ==>
      Parse(reply) == Ok(reply.parsed.value)
    ensures Parse(reply).Ok? <==> IsSuccess(reply.status) && (reply.status == 204 || !DeclaresJson(reply) || reply.parsed.Some?)
    ensures Parse(reply).Err? && Parse(reply).error.ApiError? ==>
      !IsSuccess(reply.status)
      && Parse(reply).error.error.httpStatusCode == reply.status
      && Some(Parse(reply).error.error.message) == reply.parsed
    ensures !IsSuccess(reply.status) && reply.parsed.Some? && reply.parsed.value.JObj? ==>
      Parse(reply) == Err(ApiError(NewResponseError(reply.status, reply.parsed.value).value))
    ensures !IsSuccess(reply.status) && reply.parsed.Some? && !reply.parsed.value.JObj? ==> Parse(reply) == Err(NotAnObject)
    ensures !IsSuccess(reply.status) && reply.parsed.None? ==> Parse(reply) == Err(ParserError)
  {
  }

  /** A charset parameter does not hide a JSON content type, and a missing content type means a raw body. */
  lemma JsonContentTypeBySubstring(raw: string, v: Json)
    ensures Parse(Reply(200, Some("application/json; charset=utf-8"), raw, Some(v))) == Ok(v)
    ensures Parse(Reply(200, None, raw, Some(v))) == Ok(JObj(map["body" := JStr(raw)]))
  {
    var ct := "application/json; charset=utf-8";
    assert ct[..|JsonMediaType|] == JsonMediaType;
  }

  /** Reading an attribute of a response envelope: nil when absent; raises on a value that is not an object. */
  function Attribute(v: Json, name: string): (r: Result<Json, Failure>)
    ensures r.Err? <==> !v.JObj?
  {
    if v.JObj? then Ok(Lookup(v.fields, name)) else Err(NotAnObject)
  }

  /** Sends `m`: the next scripted reply, classified; with no reply left the connection fails. */
  function Transmit(n: Net, m: Message): (r: (Net, Result<Json, Failure>))
    ensures r.0.sent == n.sent + [m]
    ensures n.script == [] ==> r.0.script == [] && r.1 == Err(ConnectionError)
    ensures n.script != [] ==> r.0.script == n.script[1..] && r.1 == Parse(n.script[0])
  {
    if n.script == [] then (Net([], n.sent + [m]), Err(ConnectionError))
    else (Net(n.script[1..], n.sent + [m]), Parse(n.script[0]))
  }

  /** The remote API, answering each message with the next reply of its script. */
  class Server {
    var script: seq<Reply>
    var sent: seq<Message>

    constructor (script: seq<Reply>)
      ensures this.script == script && sent == []
    {
      this.script := script;
      sent := [];
    }

    ghost function State(): Net
      reads this
    {
      Net(script, sent)
    }

    /** `http.request(message)`: records the message and hands back the next reply, if any. */
    method Exchange(m: Message) returns (reply: Option<Reply>)
      modifies this
      ensures sent == old(sent) + [m]
      ensures old(script) == [] ==> reply.None? && script == []
      ensures old(script) != [] ==> reply == Some(old(script)[0]) && script == old(script)[1..]
    {
      sent := sent + [m];
      if script == [] {
        reply := None;
      } else {
        reply := Some(script[0]);
        script := script[1..];
      }
    }
  }

  /** `Xminds::Request`: the endpoint and the token an endpoint group was built with. */
  class Request {
    const endpoint: string
    const jwtToken: Option<string>

    constructor (endpoint: string, jwtToken: Option<string>)
      ensures this.endpoint == endpoint && this.jwtToken == jwtToken
    {
      this.endpoint := endpoint;
      this.jwtToken := jwtToken;
    }

    /** Assembles the message of `request`, writing the caller's headers over the base ones one at a time. */
    method Build(call: Call) returns (m: Message)
      ensures m == MessageFor(endpoint, jwtToken, call)
    {
      var query: Option<Hash> := None;
      var compacted := Compact(call.query);
      if compacted != map[] {
        query := Some(compacted);
      }
      var body: Option<Hash> := None;
      if call.body != map[] {
        body := Some(call.body);
      }
      var headers := map[ContentTypeHeader := JsonMediaType];
      if call.authRequired {
        headers := headers[AuthorizationHeader := "Bearer " + jwtToken.GetOr("")];
      }
      var i := 0;
      while i < |call.headers|
        invariant 0 <= i <= |call.headers|
        invariant headers == ApplyHeaders(BaseHeaders(jwtToken, call.authRequired), call.headers[..i])
      {
        var (key, value) := call.headers[i];
        assert call.headers[..i + 1][..i] == call.headers[..i];
        headers := headers[key := value];
        i := i + 1;
      }
      assert call.headers[..|call.headers|] == call.headers;
      m := Message(call.verb, endpoint, call.path, query, body, headers);
    }

    /** `request`: builds the message, exchanges it with the server and parses the reply. */
    method Execute(call: Call, server: Server) returns (r: Result<Json, Failure>)
      modifies server
      ensures (server.State(), r) == Transmit(old(server.State()), MessageFor(endpoint, jwtToken, call))
    {
      var m := Build(call);
      var reply := server.Exchange(m);
      if reply.None? {
        r := Err(ConnectionError);
      } else {
        r := Parse(reply.value);
      }
    }
  }
}
