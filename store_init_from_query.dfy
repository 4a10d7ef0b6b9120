/** The query-parameter plugin (plugins/storeInitFromQuery.ts): in the
    browser, `?store=<slug>` selects that store through the store service,
    on load and whenever the parameter changes to a new value. */
module StoreInitFromQuery {
  import opened Common
  import opened StoreService

  /** The error the handler catches after a selection: the service it uses
      exports no `forceReloadGraphQLClient`, so calling it throws. */
  const MissingReloadMessage: string := "storeService.forceReloadGraphQLClient is not a function"

  /** How `handleStoreQuery` ends: no parameter, an unknown slug, or the store
      selected, after which the caught reload failure. */
  datatype HandleOutcome = NoQuery | NotFound(slug: string) | Selected(store: Store, caught: string)

  /** What one run of `handleStoreQuery()` does to the service and returns,
      with `route.query.store` as `query`: nothing for a missing or empty
      parameter; otherwise the directory is fetched when it is empty (a fetch
      already in flight leaves it as it is), then the first store with the
      slug is selected, stored in the browser and given to the default
      client, and no error escapes. */
  twostate predicate Handled(service: StoreServiceState, query: Option<string>, reply: SitesReply,
                             hostOf: string -> Result<string, string>, r: HandleOutcome)
    reads service
  {
    if query.None? || query.value == "" then r == NoQuery && unchanged(service)
    else
      var fetched := |old(service.availableStores)| == 0 && !old(service.isFetching);
      var found := FindBySlug(service.availableStores, query.value);
      && (fetched ==>
          && !service.isLoading && !service.isFetching
          && match DirectoryOutcome(reply, hostOf) {
            case Ok(list) => service.availableStores == list && service.error == None
            case Err(message) => service.availableStores == old(service.availableStores) && service.error == Some(message)
          })
      && (!fetched ==>
          && service.availableStores == old(service.availableStores) && service.error == old(service.error)
          && service.isLoading == old(service.isLoading) && service.isFetching == old(service.isFetching))
      && (found.Some? ==>
          && r == Selected(found.value, MissingReloadMessage) && service.selectedStore == found
          && service.storedSelection == (if service.isClient then Some(StoreJson(found.value)) else old(service.storedSelection))
          && service.defaultClientHost == (if old(service.defaultClientHost).Some? then Some(found.value.graphqlEndpoint) else None))
      && (found.None? ==>
          && r == NotFound(query.value) && service.selectedStore == old(service.selectedStore)
          && service.storedSelection == old(service.storedSelection)
          && service.defaultClientHost == old(service.defaultClientHost))
  }

  /** `handleStoreQuery()`: fetches only when the directory is empty, selects
      the first store with the slug, and lets no error escape. */
  method HandleStoreQuery(query: Option<string>, service: StoreServiceState,
                          reply: SitesReply, hostOf: string -> Result<string, string>) returns (r: HandleOutcome)
    requires service.Valid()
    modifies service
    ensures service.Valid()
    ensures Handled(service, query, reply, hostOf, r)
  {
    if query.None? || query.value == "" {
      return NoQuery;
    }
    if |service.availableStores| == 0 {
      service.FetchStores(reply, hostOf);
    }
    var found := FindBySlug(service.availableStores, query.value);
    if found.Some? {
      var _ := service.SelectStore(found.value);
      return Selected(found.value, MissingReloadMessage);
    }
    r := NotFound(query.value);
  }

  /** The watcher re-runs the handler only for a truthy value that differs from the previous one. */
  predicate ShouldRerun(newValue: Option<string>, oldValue: Option<string>) {
    newValue.Some? && newValue.value != "" && newValue != oldValue
  }

  /** The plugin's setup: in the browser the handler runs once on load; on the server nothing happens. */
  method Setup(isClient: bool, query: Option<string>, service: StoreServiceState,
               reply: SitesReply, hostOf: string -> Result<string, string>) returns (r: Option<HandleOutcome>)
    requires service.Valid()
    modifies service
    ensures service.Valid()
    ensures !isClient ==> r == None && unchanged(service)
    ensures isClient ==> r.Some? && Handled(service, query, reply, hostOf, r.value)
  {
    if !isClient {
      return None;
    }
    var outcome := HandleStoreQuery(query, service, reply, hostOf);
    r := Some(outcome);
  }

  /** A watcher event for the value already handled does not re-run, and
      clearing the parameter does not either. */
  lemma RerunOnlyOnChange(v: Option<string>, w: Option<string>)
    ensures !ShouldRerun(v, v)
    ensures !ShouldRerun(None, w) && !ShouldRerun(Some(""), w)
    ensures v.Some? && v.value != "" && v != w ==> ShouldRerun(v, w)
  {
  }
}
