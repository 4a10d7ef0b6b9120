/** The GraphQL client manager (utils/graphqlClientManager.ts): module-level
    `currentEndpoint` and `gqlClient`, the `graphql_endpoint` localStorage
    key, and the window effects it causes, kept as a log. */
module ClientManager {
  import opened Common
  import EndpointOverride

  const NotInitializedMessage: string := "GraphQL client not initialized. Call initializeClient first."

  /** What `useGql()` does: throws, or returns a client (a handle). */
  datatype Creation = CreationFails | CreatedClient(client: nat)

  /** Window effects, in the order they happen: the global endpoint
      reference, the two events, and a page reload. */
  datatype WindowEffect =
    | GlobalEndpointSet(endpoint: string)
    | EndpointSetEvent(endpoint: string)
    | ClientResetEvent
    | PageReload

  /** The call `executeQuery` makes: `client(endpoint, {query, variables})`. */
  datatype ClientCall = ClientCall(client: nat, endpoint: string, query: string, variables: Json)

  /** `localStorage.getItem` gives a usable value: present and non-empty. */
  predicate Usable(stored: Option<string>) {
    stored.Some? && stored.value != ""
  }

  class GraphqlClientManager {
    const isClient: bool
    var currentEndpoint: Option<string>
    var gqlClient: Option<nat>
    var storedEndpoint: Option<string>
    var effects: seq<WindowEffect>

    constructor (isClient: bool, storedEndpoint: Option<string>)
      ensures this.isClient == isClient && currentEndpoint == None && gqlClient == None
      ensures this.storedEndpoint == storedEndpoint && effects == []
    {
      this.isClient := isClient;
      currentEndpoint := None;
      gqlClient := None;
      this.storedEndpoint := storedEndpoint;
      effects := [];
    }

    /** `initializeClient(endpoint)`: the endpoint is recorded first, whatever
        follows. A created client becomes the client and, in the browser, the
        endpoint is saved, published and announced by exactly one
        `graphql-endpoint-set` event; a failed creation returns null and
        leaves the client, the storage and the log as they were. */
    method InitializeClient(endpoint: string, creation: Creation) returns (r: Option<nat>)
      modifies this
      ensures currentEndpoint == Some(endpoint)
      ensures creation.CreationFails? ==>
        r == None && gqlClient == old(gqlClient) && storedEndpoint == old(storedEndpoint) && effects == old(effects)
      ensures creation.CreatedClient? ==> r == Some(creation.client) && gqlClient == r
      ensures creation.CreatedClient? && isClient ==>
        storedEndpoint == Some(endpoint) && effects == old(effects) + [GlobalEndpointSet(endpoint), EndpointSetEvent(endpoint)]
      ensures creation.CreatedClient? && !isClient ==> storedEndpoint == old(storedEndpoint) && effects == old(effects)
    {
      currentEndpoint := Some(endpoint);
      match creation {
        case CreationFails =>
          return None;
        case CreatedClient(client) =>
          gqlClient := Some(client);
          if isClient {
            storedEndpoint := Some(endpoint);
            effects := effects + [GlobalEndpointSet(endpoint), EndpointSetEvent(endpoint)];
          }
          r := gqlClient;
      }
    }

    /** `getClient()`: with no client, in the browser, re-initialises from a
        usable saved endpoint; otherwise the client as it is, nothing changed. */
    method GetClient(creation: Creation) returns (r: Option<nat>)
      modifies this
      ensures !(old(gqlClient).None? && isClient && Usable(old(storedEndpoint))) ==> r == old(gqlClient) && unchanged(this)
      ensures old(gqlClient).None? && isClient && Usable(old(storedEndpoint)) ==>
        && currentEndpoint == old(storedEndpoint)
        && storedEndpoint == old(storedEndpoint)
        && (creation.CreationFails? ==> r == None && gqlClient == None && effects == old(effects))
        && (creation.CreatedClient? ==>
              (r == Some(creation.client) && gqlClient == r
               && effects == old(effects) + [GlobalEndpointSet(old(storedEndpoint).value), EndpointSetEvent(old(storedEndpoint).value)]))
    {
      if gqlClient.None? && isClient && Usable(storedEndpoint) {
        r := InitializeClient(storedEndpoint.value, creation);
      } else {
        r := gqlClient;
      }
    }

    /** `executeQuery({query, variables})`: refuses without a client or a
        non-empty endpoint; otherwise calls the client at `currentEndpoint`
        with the query and the variables, `{}` when none were given. */
    method ExecuteQuery(query: string, variables: Option<Json>, creation: Creation) returns (r: Result<ClientCall, string>)
      modifies this
      ensures r.Err? <==> gqlClient.None? || currentEndpoint.None? || currentEndpoint.value == ""
      ensures r.Err? ==> r.error == NotInitializedMessage
      ensures r.Ok? ==> r.value == ClientCall(gqlClient.value, currentEndpoint.value, query, variables.GetOr(JObject(map[])))
      ensures !(old(gqlClient).None? && isClient && Usable(old(storedEndpoint))) ==> unchanged(this)
      ensures old(gqlClient).None? && isClient && Usable(old(storedEndpoint)) ==>
        && currentEndpoint == old(storedEndpoint)
        && storedEndpoint == old(storedEndpoint)
        && (creation.CreationFails? ==> gqlClient == None && effects == old(effects))
        && (creation.CreatedClient? ==>
              (gqlClient == Some(creation.client)
               && effects == old(effects) + [GlobalEndpointSet(old(storedEndpoint).value), EndpointSetEvent(old(storedEndpoint).value)]))
    {
      var client := GetClient(creation);
      if client.None? || currentEndpoint.None? || currentEndpoint.value == "" {
        return Err(NotInitializedMessage);
      }
      r := Ok(ClientCall(client.value, currentEndpoint.value, query, variables.GetOr(JObject(map[]))));
    }

    /** `resetClient()`: forgets the client and the endpoint; in the browser
        also removes the saved endpoint, announces the reset and reloads. */
    method ResetClient()
      modifies this
      ensures gqlClient == None && currentEndpoint == None
      ensures isClient ==> storedEndpoint == None && effects == old(effects) + [ClientResetEvent, PageReload]
      ensures !isClient ==> storedEndpoint == old(storedEndpoint) && effects == old(effects)
    {
      gqlClient := None;
      currentEndpoint := None;
      if isClient {
        storedEndpoint := None;
        effects := effects + [ClientResetEvent, PageReload];
      }
    }

    /** `getCurrentEndpoint()` */
    function GetCurrentEndpoint(): Option<string>
      reads this
    {
      currentEndpoint
    }
  }

  /** Initialising twice with the same endpoint is not de-duplicated: the
      browser sees the event twice. */
  method RepeatedInitializeAnnouncesTwice(m: GraphqlClientManager, endpoint: string, a: nat, b: nat)
    requires m.isClient
    modifies m
    ensures m.effects == old(m.effects) + [GlobalEndpointSet(endpoint), EndpointSetEvent(endpoint),
                                            GlobalEndpointSet(endpoint), EndpointSetEvent(endpoint)]
  {
    var _ := m.InitializeClient(endpoint, CreatedClient(a));
    var _ := m.InitializeClient(endpoint, CreatedClient(b));
  }

  /** After a reset no query can run until the client is initialised again,
      in the browser as on the server. */
  method QueryAfterResetFails(m: GraphqlClientManager, query: string, creation: Creation) returns (r: Result<ClientCall, string>)
    modifies m
    ensures r == Err(NotInitializedMessage)
    ensures m.GetCurrentEndpoint() == None
  {
    m.ResetClient();
    r := m.ExecuteQuery(query, None, creation);
  }

  /** The endpoint plugin's listener reloads the page for every announced
      endpoint except the empty one. */
  lemma AnnouncedEndpointReloads(endpoint: string)
    ensures EndpointOverride.ShouldReload(EndpointOverride.Detail(Some(endpoint))) <==> endpoint != ""
  {
  }
}
