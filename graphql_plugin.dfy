/** The GQL instance plugin (plugins/graphql.ts): a default client, the
    `create(config)` factory and the way a client's `query` turns an HTTP
    reply into a payload or an error. The fetch itself is an input. */
module GraphqlPlugin {
  import opened Common

  datatype CorsOptions = CorsOptions(mode: string, credentials: string)

  /** `GqlClientConfig`: the target host, the fetch mode/credentials and extra headers. */
  datatype ClientConfig = ClientConfig(host: string, corsOptions: CorsOptions, headers: map<string, string>)

  /** A client: the instance's built-in default (whose `query` posts to
      whatever `gqlInstance.default.host` is when it is called) or a client
      made by `create(config)`. The built-in client's `Origin` header is
      `process.env.APP_HOST`, read on every query; `appHost` holds the value
      read when the instance is made, which agrees with every later read as
      long as the environment does not change. */
  datatype Client = Builtin(host: string, appHost: string) | Created(config: ClientConfig)

  /** `client.host` */
  function Host(c: Client): string {
    match c
    case Builtin(h, _) => h
    case Created(cfg) => cfg.host
  }

  const DefaultGqlHost: string := "http://localhost:4000/graphql"
  const DefaultAppHost: string := "http://localhost:3000"
  const JsonContentType: string := "application/json"

  /** The built-in default client, from `GQL_HOST` and `APP_HOST` ("" when unset). */
  function InitialDefault(gqlHostEnv: string, appHostEnv: string): (c: Client)
    ensures c.Builtin?
    ensures Host(c) == (if gqlHostEnv != "" then gqlHostEnv else DefaultGqlHost)
    ensures c.appHost == (if appHostEnv != "" then appHostEnv else DefaultAppHost)
  {
    Builtin(if gqlHostEnv != "" then gqlHostEnv else DefaultGqlHost,
            if appHostEnv != "" then appHostEnv else DefaultAppHost)
  }

  /** The JSON body `{query, variables}`; `None` variables are left out by `JSON.stringify`. */
  datatype QueryBody = QueryBody(query: string, variables: Option<Json>)

  /** The `fetch` a client's `query` issues. `mode` is `None` when the request leaves it unset. */
  datatype Request = Request(
    url: string,
    verb: string,
    headers: map<string, string>,
    mode: Option<string>,
    credentials: string,
    body: QueryBody)

  /** The request `c.query(query, variables)` sends while `current` is `gqlInstance.default`. */
  function RequestFor(c: Client, current: Client, query: string, variables: Option<Json>): Request {
    match c
    case Builtin(_, appHost) =>
      Request(Host(current), "POST", map["Content-Type" := JsonContentType, "Origin" := appHost],
              None, "include", QueryBody(query, variables))
    case Created(cfg) =>
      Request(cfg.host, "POST", map["Content-Type" := JsonContentType] + cfg.headers,
              Some(cfg.corsOptions.mode), cfg.corsOptions.credentials, QueryBody(query, variables))
  }

  /** `create(config)`: a client whose host is the config's host and whose
      requests go there, whatever the instance's default is. */
  function Create(config: ClientConfig): (c: Client)
    ensures Host(c) == config.host
    ensures forall current: Client, q: string, v: Option<Json> ::
      RequestFor(c, current, q, v).url == config.host
  {
    Created(config)
  }

  /** Headers of a created client: `Content-Type: application/json` overlaid
      by the config's headers, a config key replacing the built-in one. */
  lemma CreatedHeaders(config: ClientConfig, current: Client, q: string, v: Option<Json>)
    ensures var r := RequestFor(Create(config), current, q, v);
      && r.headers.Keys == {"Content-Type"} + config.headers.Keys
      && (forall k :: k in config.headers ==> r.headers[k] == config.headers[k])
      && ("Content-Type" !in config.headers ==> r.headers["Content-Type"] == JsonContentType)
      && r.mode == Some(config.corsOptions.mode)
      && r.credentials == config.corsOptions.credentials
      && r.verb == "POST"
      && r.body == QueryBody(q, v)
  {
  }

  /** The built-in client reads `gqlInstance.default.host` at call time: once
      `default` is replaced, even the old built-in client posts to the new host. */
  lemma BuiltinFollowsDefault(host: string, appHost: string, current: Client, q: string, v: Option<Json>)
    ensures RequestFor(Builtin(host, appHost), current, q, v).url == Host(current)
  {
  }

  // ---------------------------------------------------------------------
  // Classifying the reply of `query`

  /** What `fetch` yields: a network failure, or a status, the body text and
      what `response.json()` makes of the body (`None`: not JSON). */
  datatype HttpReply = NetworkFailure(reason: string) | Reply(status: int, text: string, json: Option<Json>)

  /** `response.ok` */
  predicate IsOkStatus(status: int) {
    200 <= status <= 299
  }

  datatype QueryError =
    | TransportFailure(reason: string)   // fetch rejected
    | RequestFailed(status: int, body: string)
    | InvalidJson                         // response.json() rejected
    | GraphQLError(message: Option<Json>) // `new Error(data.errors[0].message)`
    | PayloadTypeError                    // `null.errors` or `undefined.message`

  datatype QueryOutcome = Payload(data: Json) | Failed(error: QueryError)

  /** The message of the `Error` a failed request raises. */
  function RequestFailedMessage(status: int, body: string): string {
    "GraphQL request failed: " + IntToString(status) + " " + body
  }

  /** `value[0]` for a JSON value; `None` is `undefined`. */
  function FirstEntry(j: Json): Option<Json> {
    match j
    case JArray(items) => if |items| > 0 then Some(items[0]) else None
    case JObject(fields) => if "0" in fields then Some(fields["0"]) else None
    case JString(s) => if |s| > 0 then Some(JString([s[0]])) else None
    case _ => None
  }

  /** `data.errors` is present and truthy. */
  predicate HasErrors(data: Json) {
    var errors := Member(Some(data), "errors");
    errors.Some? && Truthy(errors.value)
  }

  /** How `query` settles for a reply: a non-OK status fails with the status
      and body text, an OK payload carrying `errors` fails with the first
      error's message, anything else is the whole parsed payload. */
  function Classify(reply: HttpReply): (r: QueryOutcome)
    ensures reply.Reply? && !IsOkStatus(reply.status) ==> r == Failed(RequestFailed(reply.status, reply.text))
    ensures r.Payload? <==>
      reply.Reply? && IsOkStatus(reply.status) && reply.json.Some? && reply.json.value != JNull && !HasErrors(reply.json.value)
    ensures r.Payload? ==> r.data == reply.json.value
    ensures r.Failed? && r.error.GraphQLError? ==>
      reply.Reply? && IsOkStatus(reply.status) && reply.json.Some? && HasErrors(reply.json.value)
      && var first := FirstEntry(reply.json.value.fields["errors"]);
         first.Some? && first.value != JNull && r.error.message == Member(first, "message")
  {
    match reply
    case NetworkFailure(reason) => Failed(TransportFailure(reason))
    case Reply(status, text, json) =>
      if !IsOkStatus(status) then Failed(RequestFailed(status, text))
      else if json.None? then Failed(InvalidJson)
      else if json.value == JNull then Failed(PayloadTypeError)
      else if HasErrors(json.value) then
        var first := FirstEntry(json.value.fields["errors"]);
        if first.None? || first.value == JNull then Failed(PayloadTypeError)
        else Failed(GraphQLError(Member(first, "message")))
      else Payload(json.value)
  }

  /** An OK reply whose `errors` is a non-empty list starting with an error
      object fails with that object's `message`. */
  lemma FirstErrorWins(status: int, text: string, fields: map<string, Json>, first: map<string, Json>, rest: seq<Json>)
    requires IsOkStatus(status)
    requires "errors" in fields && fields["errors"] == JArray([JObject(first)] + rest)
    ensures Classify(Reply(status, text, Some(JObject(fields)))) ==
      Failed(GraphQLError(if "message" in first then Some(first["message"]) else None))
  {
    assert FirstEntry(fields["errors"]) == Some(JObject(first));
  }

  /** The payload is returned whole: its `data` member is not unwrapped. */
  lemma WholePayloadReturned(status: int, text: string, fields: map<string, Json>)
    requires IsOkStatus(status) && "errors" !in fields
    ensures Classify(Reply(status, text, Some(JObject(fields)))) == Payload(JObject(fields))
  {
  }

  /** The GQL instance the plugin provides as `$gql`. Other modules replace
      `defaultClient` and add to `clients` in place. */
  class GqlInstance {
    var clients: map<string, ClientConfig>
    var defaultClient: Client

    constructor (gqlHostEnv: string, appHostEnv: string)
      ensures clients == map[]
      ensures defaultClient == InitialDefault(gqlHostEnv, appHostEnv)
    {
      clients := map[];
      defaultClient := InitialDefault(gqlHostEnv, appHostEnv);
    }

    /** `gqlInstance.default.query(query, variables)`: posts to the current
        default's host and classifies the reply. */
    method DefaultQuery(query: string, variables: Option<Json>, reply: HttpReply)
      returns (request: Request, outcome: QueryOutcome)
      ensures request.url == Host(defaultClient)
      ensures request.body == QueryBody(query, variables)
      ensures request.verb == "POST"
      ensures outcome == Classify(reply)
    {
      var current := defaultClient;
      request := RequestFor(current, current, query, variables);
      outcome := Classify(reply);
    }
  }
}
