/** The server-side store priming middleware
    (middleware/store-ssr-init.global.ts): on a `/store/<slug>` request the
    directory is fetched and the matching store is written to the
    `selectedStore` cookie, which the endpoint plugin reads. */
module StoreSsrInit {
  import opened Common
  import opened StoreService
  import EndpointOverride
  import StoreRouting

  /** The response's cookies this middleware writes. */
  class CookieJar {
    var selectedStore: Option<StoredRecord>

    constructor (selectedStore: Option<StoredRecord>)
      ensures this.selectedStore == selectedStore
    {
      this.selectedStore := selectedStore;
    }
  }

  /** The middleware acts only on the server and only under `/store/`. */
  predicate Acts(isServer: bool, path: string) {
    isServer && StartsWith(path, "/store/")
  }

  /** The middleware for a navigation to `path` with route parameter `slug`:
      when it acts, the directory is fetched first and then, if a store has
      that slug, the cookie holds that store; otherwise the cookie is kept. */
  method PrimeSelectedCookie(isServer: bool, path: string, slug: Option<string>, service: StoreServiceState,
                      jar: CookieJar, reply: SitesReply, hostOf: string -> Result<string, string>)
    requires service.Valid() && service.isClient == !isServer
    modifies service, jar
    ensures service.Valid()
    ensures !Acts(isServer, path) ==> unchanged(service) && unchanged(jar)
    ensures Acts(isServer, path) && !old(service.isFetching) ==>
      && !service.isLoading && !service.isFetching
      && match DirectoryOutcome(reply, hostOf) {
        case Ok(list) => service.availableStores == list && service.error == None
        case Err(message) => service.availableStores == old(service.availableStores) && service.error == Some(message)
      }
    ensures Acts(isServer, path) && old(service.isFetching) ==> unchanged(service)
    ensures Acts(isServer, path) ==>
      var found := if slug.Some? then FindBySlug(service.availableStores, slug.value) else None;
      jar.selectedStore == if found.Some? then Some(StoreJson(found.value)) else old(jar.selectedStore)
    ensures service.selectedStore == old(service.selectedStore)
    ensures service.storedSelection == old(service.storedSelection)
    ensures service.defaultClientHost == old(service.defaultClientHost)
  {
    if isServer && StartsWith(path, "/store/") {
      service.FetchStores(reply, hostOf);
      var found := if slug.Some? then FindBySlug(service.availableStores, slug.value) else None;
      if found.Some? {
        jar.selectedStore := Some(StoreJson(found.value));
      }
    }
  }

  /** What the primed cookie is for: on a later server render of
      `/store/<slug><path>`, the endpoint lookup reads the store back from the
      cookie, and it is the endpoint the lookup would have found from the path
      alone. */
  lemma PrimedCookieAgreesWithRoute(s: Store, stores: seq<Store>, slug: string, path: string,
                                    p: string, value: string, rest: string, decode: string -> EndpointOverride.CookieDecode)
    requires FindBySlug(stores, slug) == Some(s) && Mapped(s)
    requires slug != "" && forall k :: 0 <= k < |slug| ==> slug[k] !in {'/', '?', '#'}
    requires path == [] || path[0] in {'/', '?', '#'}
    requires |value| > 0 && forall k :: 0 <= k < |value| ==> value[k] != ';'
    requires rest == [] || rest[0] == ';'
    requires EndpointOverride.NoEarlierCookie(p + "selectedStore=" + value + rest, p)
    requires decode(value) == EndpointOverride.Decoded(StoreJson(s))
    ensures var url := "/store/" + slug + path;
      && EndpointOverride.GetGraphQLEndpoint(EndpointOverride.ServerSignals(p + "selectedStore=" + value + rest, decode, Some(url), stores))
         == Ok(s.graphqlEndpoint)
      && EndpointOverride.GetGraphQLEndpoint(EndpointOverride.ServerSignals("", decode, Some(url), stores))
         == Ok(s.graphqlEndpoint)
  {
    EndpointOverride.CookieValueOfHeader(p, value, rest);
    EndpointOverride.RouteSlugOfStoreUrl(path, slug);
    assert StoreRouting.GetStoreUrl(path, slug, None) == "/store/" + slug + path;
  }
}
