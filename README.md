# Store resolution and client rebinding of the WooFrontEnd storefront

A Dafny model of the part of the multi-tenant Nuxt storefront that decides
which WooCommerce store a page belongs to and which GraphQL endpoint it
talks to. That part covers:

- how a store's slug is derived from its site URL;
- the two store services: the directory fetch with its re-entrancy guard,
  the five-minute cache, the shared fetch promise, the fallback list and
  slug-based selection;
- the store manager composable, which rebinds the GQL instance to a store;
- the precedence chain that picks the endpoint in the browser and on the
  server;
- how the GQL plugin classifies an HTTP reply;
- the client manager's state machine and its window events;
- the two route guards, the server-side cookie priming and the
  `?store=<slug>` plugin;
- the store-aware URL builder.

There is one Dafny module per source file:

| module | file |
|---|---|
| `StoreManager` | `composables/useStoreManager.ts` |
| `StoreService` | `services/storeService.ts` |
| `StoreServiceNew` | `services/storeService-new.ts` |
| `EndpointOverride` | `plugins/graphqlEndpointOverride.ts` |
| `GraphqlPlugin` | `plugins/graphql.ts` |
| `ClientManager` | `utils/graphqlClientManager.ts` |
| `StoreRouting` | `composables/useStoreRouting.ts` |
| `StoreCheck` | `middleware/store-check.ts` |
| `GlobalStoreCheck` | `middleware/global-store-check.global.ts` |
| `StoreSsrInit` | `middleware/store-ssr-init.global.ts` |
| `StoreInitFromQuery` | `plugins/storeInitFromQuery.ts` |

`Common` holds the shared pieces:

- the `Store` record, JSON values, `Option` and `Result`;
- the JavaScript string operations the code relies on (`split('.')[0]`,
  `startsWith`, `find`, `parseInt`, `String(n)`);
- a model of the leftmost match of `prefix([^stops]+)`, which the endpoint
  plugin uses on cookies and URLs.

Code that changes state in place is modelled as classes, with the state as
fields and `modifies` clauses:

- the module-level refs of the two store services;
- the composable's refs;
- the client manager's variables;
- the GQL instance's `clients` and `default`.

Pure decision code is modelled as functions, with lemmas about them.

The world outside is passed in as parameters:

- **URL parsing:** `new URL(u).hostname` is a function `hostOf`. In the
  store manager it returns `None` when the constructor throws. In
  `storeService.ts` it returns the hostname, or the message the engine's
  `URL` constructor throws, which the fetch records as its error.
- **Fetch results and `useGql()` outcomes:** datatypes naming every outcome
  the code distinguishes.
- **Time:** `Date.now()` is a parameter `now`.
- **Cookie decoding:** `decodeURIComponent` followed by `JSON.parse` is a
  function `decode`.
- **Stored JSON:** `StoredRecord` is either the store that
  `JSON.stringify` wrote or text that does not parse.
- **Browser and server:** `process.client` is a constant field or a
  parameter.

Behaviours of the code that a reader might not expect:

- The fallback slug can be empty, for a URL that does not parse and has
  no letters or digits (`StoreManager.FallbackCanBeEmpty`).
- `initializeClient` with the same endpoint twice announces the endpoint
  twice, so rebinding is not idempotent
  (`ClientManager.RepeatedInitializeAnnouncesTwice`).
- The GQL plugin's `query` returns the whole payload, not its `data`
  member (`GraphqlPlugin.WholePayloadReturned`).
- Request coalescing in `storeService-new.ts` holds per `useStoreService()`
  instance, not per process (`StoreServiceNew.SeparateInstancesFetchTwice`).
- On the server, a `selectedStore` cookie whose percent-encoding is
  malformed makes the endpoint lookup throw. `decodeURIComponent` sits
  outside the inner `try` (`EndpointOverride.MalformedCookieThrows`).
- The server reads the first `selectedStore=` anywhere in the Cookie
  header, not only at the start of a cookie: a cookie named
  `prevselectedStore` before the store's own cookie is read instead of it
  (`EndpointOverride.EarlierOccurrenceWins`). The lemmas that read the
  store's cookie therefore require that no earlier text of the header
  matches (`EndpointOverride.NoEarlierCookie`).
- `storeInitFromQuery.ts` calls `forceReloadGraphQLClient` on the
  `storeService.ts` object, which does not export it. The call throws and
  the handler swallows the error, so the selection stands
  (`StoreInitFromQuery.HandleStoreQuery`).

## Model

| member | source | states |
|---|---|---|
| Common.FirstLabel | woonuxt_base/app/services/storeService.ts:46 | the text before the first `.` of a hostname: a dot-free prefix, followed by a dot or the end |
| Common.FirstLabelOf | woonuxt_base/app/composables/useStoreManager.ts:19 | a hostname `head.rest` with a dot-free `head` has first label `head` |
| Common.LakshmiLabel | woonuxt_base/app/composables/useStoreManager.ts:18-19 | the host `lakshmi.site.cataloghub.in` has first label `lakshmi` |
| Common.FindBySlug | woonuxt_base/app/services/storeService-new.ts:293 | `find` by slug: `None` exactly when no store has the slug, otherwise the first store that has it |
| Common.ParseIntOfIntToString | woonuxt_base/app/composables/useStoreManager.ts:143 | `parseInt` reads back every id that `site_id.toString()` writes in plain digits, negative ids included (see Left out for ids of 10^21 and beyond) |
| Common.FirstCaptureSpec | woonuxt_base/app/plugins/graphqlEndpointOverride.ts:46 | the capture is absent exactly when the pattern matches nowhere; otherwise it is the greedy run after the leftmost match |
| Common.FirstCaptureShape | woonuxt_base/app/plugins/graphqlEndpointOverride.ts:64 | a capture is non-empty and holds no stop character |
| Common.FirstCaptureAtStart | woonuxt_base/app/plugins/graphqlEndpointOverride.ts:46 | on `prefix + v + rest`, where `v` is a stop-free run and `rest` starts at a stop, the capture is `v` |
| Common.FirstCaptureAfter | woonuxt_base/app/plugins/graphqlEndpointOverride.ts:46 | on `p + prefix + v + rest`, where the pattern matches at no position of `p`, the unanchored match skips `p` and the capture is `v` |
| StoreManager.ReplaceRuns | woonuxt_base/app/composables/useStoreManager.ts:27 | each run outside `[a-z0-9]` becomes one hyphen: only `[a-z0-9-]`, no `--`, and the letters and digits are kept in order |
| StoreManager.FallbackSlug | woonuxt_base/app/composables/useStoreManager.ts:25-28 | the fallback slug holds only `[a-z0-9-]`, has no `--` and no edge hyphen, and keeps exactly the letters and digits of the lower-cased URL |
| StoreManager.GetStoreSlugFromUrl | woonuxt_base/app/composables/useStoreManager.ts:13-30 | a parsed URL gives its hostname's non-empty first label, or `unknown` when that label is empty; an unparsable URL gives the fallback slug |
| StoreManager.LakshmiSlug | woonuxt_base/app/composables/useStoreManager.ts:15-21 | `https://lakshmi.site.cataloghub.in` has slug `lakshmi` |
| StoreManager.FallbackCanBeEmpty | woonuxt_base/app/composables/useStoreManager.ts:25-28 | the unparsable URL `://` has the empty slug |
| StoreManager.StoreClientConfig | woonuxt_base/app/composables/useStoreManager.ts:72-79 | a store's client config: host `site_url + "/graphql"`, mode `cors` with credentials `include`, and origin the page origin or `http://localhost:3000` |
| StoreManager.NodesOr | woonuxt_base/app/composables/useStoreManager.ts:221-223 | the payload's `data.<field>.nodes` when truthy, otherwise `[]` |
| StoreManager.NodesOrAbsent | woonuxt_base/app/composables/useStoreManager.ts:223 | a payload without `data.<field>.nodes` yields `[]` |
| StoreManager.FindById | woonuxt_base/app/composables/useStoreManager.ts:152 | `find` by `site_id`: nothing for `NaN` or an absent id, otherwise the first record with that id |
| StoreManager.StoreManagerState.constructor | woonuxt_base/app/composables/useStoreManager.ts:49-54 | no current store, an empty list, not loading, no error, and the three keys as found in localStorage |
| StoreManager.StoreManagerState.UpdateGqlEndpoint | woonuxt_base/app/composables/useStoreManager.ts:63-95 | no instance: returns nothing and changes nothing. Browser: sets `clients["store-<id>"]` to the store's config, keeps every other entry, and makes a client of that config the default and the result. Server: `window` raises |
| StoreManager.StoreManagerState.SetCurrentStore | woonuxt_base/app/composables/useStoreManager.ts:118-137 | the store becomes current; in the browser the three keys hold its id, name and URL and the instance is bound to it; the store is returned unless the server-side rebinding raises |
| StoreManager.StoreManagerState.RestoreFromStorage | woonuxt_base/app/composables/useStoreManager.ts:152-163 | returns true exactly when the loaded list holds the stored id, and then that store is current and bound; otherwise nothing changes |
| StoreManager.StoreManagerState.FetchStores | woonuxt_base/app/composables/useStoreManager.ts:98-115 | the reply's list replaces `stores`; a failed fetch, or a body that is not a list, records `Failed to fetch stores` and keeps the list and the current store, keys and instance; loading is off afterwards; with no current store in the browser, a non-empty list restores the stored store |
| StoreManager.StoreManagerState.InitializeFromStorage | woonuxt_base/app/composables/useStoreManager.ts:140-164 | in the browser with an id stored, fetches when the list is empty (loading off afterwards, `Failed to fetch stores` when that fetch fails); returns true exactly when the list then holds a store with `site_id == parseInt(id)`, which becomes current, stored and bound; otherwise the current store, the three keys and the instance are kept |
| StoreManager.StoreManagerState.QueryNodes | woonuxt_base/app/composables/useStoreManager.ts:173-223 | no instance: nothing is sent and `GraphQL client not initialized`; otherwise a POST of the query with `{first}` to the default client's host, and the classified reply's `nodes` list, or the query's error |
| StoreManager.StoreManagerState.FetchStoreProducts | woonuxt_base/app/composables/useStoreManager.ts:173-228 | no instance: nothing is sent and `GraphQL client not initialized`; otherwise the products query goes to the default client's host with `first` (10 when left out), and the result is `data.products.nodes`, or `[]`, or the query's error |
| StoreManager.StoreManagerState.FetchStoreCategories | woonuxt_base/app/composables/useStoreManager.ts:231-271 | no instance: nothing is sent and `GraphQL client not initialized`; otherwise the categories query goes to the default client's host with `first` (10 when left out), and the result is `data.productCategories.nodes`, or `[]`, or the query's error |
| StoreManager.StoredStoreIsFoundAgain | woonuxt_base/app/composables/useStoreManager.ts:125-152 | after `setCurrentStore(s)` wrote the id, the lookup by the stored id finds `s` again in any list whose first store with that id is `s` |
| StoreManager.IdRewriteFindsSame | woonuxt_base/app/composables/useStoreManager.ts:143-155 | writing back the id of the store a lookup found makes the same lookup find the same store |
| StoreManager.EmptyDirectoryNeverSettles | woonuxt_base/app/composables/useStoreManager.ts:98-164 | as written: with an id stored in the browser, no current store, and a directory that answers `[]` or a JSON value that is not a list, the pair uses up any number of replies and still asks for another fetch |
| StoreService.ToStore | woonuxt_base/app/services/storeService.ts:48-56 | a record becomes a store with id `site_id`, name `site_name`, the host's first label as slug, empty description, URL `site_url`, endpoint `site_url + "/graphql"` and no thumbnail |
| StoreService.MapSites | woonuxt_base/app/services/storeService.ts:42-57 | fails exactly when some `site_url` does not parse, with the message the first such URL makes the `URL` constructor throw; otherwise one store per record, in order |
| StoreService.DirectoryOutcome | woonuxt_base/app/services/storeService.ts:34-62 | the mapped list exactly for a 2xx list whose URLs all parse; `Failed to fetch stores` for a non-2xx status; for an unparsable `site_url` the `URL` constructor's own message; the thrown message for a failed request or body |
| StoreService.FetchedStoresAreMapped | woonuxt_base/app/services/storeService.ts:42-56 | every store a successful fetch yields has endpoint `url + "/graphql"` and a dot-free slug |
| StoreService.LakshmiRecord | woonuxt_base/app/services/storeService.ts:44-54 | a record for host `lakshmi.site.cataloghub.in` maps to slug `lakshmi`, endpoint `site_url + "/graphql"` and id `site_id` |
| StoreService.StoreServiceState.constructor | woonuxt_base/app/services/storeService.ts:13-19 | nothing selected, an empty directory, not loading, no error and not fetching |
| StoreService.StoreServiceState.StartFetch | woonuxt_base/app/services/storeService.ts:25-32 | refused, with no change, while fetching; otherwise both flags go up and the error is cleared |
| StoreService.StoreServiceState.FinishFetch | woonuxt_base/app/services/storeService.ts:34-66 | the mapped list replaces the directory, or the error is recorded and the directory kept; both flags drop |
| StoreService.StoreServiceState.FetchStores | woonuxt_base/app/services/storeService.ts:23-67 | while fetching, nothing changes; otherwise the directory or the error follows the reply, the error is cleared on success, and both flags are down afterwards |
| StoreService.StoreServiceState.SelectStore | woonuxt_base/app/services/storeService.ts:69-87 | selects and returns the store, writes it under `selectedStore` in the browser, and repoints the default client's host only when there is one |
| StoreService.StoreServiceState.InitializeStore | woonuxt_base/app/services/storeService.ts:89-101 | in the browser, re-selects the stored store (the stored text stays, the default client is repointed when there is one) and then fetches; the fetch's outcome follows the reply, or nothing changes in the directory while another fetch is in flight; a stored text that does not parse throws before any fetch and changes nothing |
| StoreServiceNew.FlatToStore | woonuxt_base/app/services/storeService-new.ts:176-182 | id: the site's id when truthy, else `String(index + 1)`; endpoint: the site's endpoint when non-empty, else `url + "/graphql"`; name, slug and URL copied |
| StoreServiceNew.MapFlat | woonuxt_base/app/services/storeService-new.ts:176-182 | throws exactly when an element is `null`; otherwise one store per site, in order |
| StoreServiceNew.MappedFlatStoresAreComplete | woonuxt_base/app/services/storeService-new.ts:177-181 | every flat-mapped store has a truthy id and a non-empty endpoint |
| StoreServiceNew.DirectNodes | woonuxt_base/app/services/storeService-new.ts:158-212 | a 2xx array gives its mapped list; a 2xx non-array leaves `data` undefined; a rejection, a non-2xx status, a non-JSON body or a `null` element gives the fixed list |
| StoreServiceNew.ResolveNodes | woonuxt_base/app/services/storeService-new.ts:96-228 | an absent client rejects with its message; otherwise the first method that answered decides, the direct fetch only in the browser, and no nodes means `No stores found` |
| StoreServiceNew.AtOnceMeansRejected | woonuxt_base/app/services/storeService-new.ts:96-106 | a fetch whose executor never reaches an `await` always rejects |
| StoreServiceNew.FallbackWhenAllFail | woonuxt_base/app/services/storeService-new.ts:187-211 | in the browser, with both client calls failing and the direct fetch failing, the directory is the fixed list; on the server it is `No stores found` |
| StoreServiceNew.FallbackSlugs | woonuxt_base/app/services/storeService-new.ts:192-211 | the fixed list's stores are found by slugs `lakshmi` and `shivshakti`, each with endpoint `url + "/graphql"` |
| StoreServiceNew.Made | woonuxt_base/app/services/storeService-new.ts:245 | one `useGql()` call stores nothing when it throws, the falsy value when it returns one, and a new client otherwise |
| StoreServiceNew.GetClientStep | woonuxt_base/app/services/storeService-new.ts:241-248 | a truthy entry is returned unchanged; otherwise the entry `useGql()` made is stored under the endpoint, the keys grow by that endpoint only, and every other entry is kept |
| StoreServiceNew.StepKeepsHandlesFresh | woonuxt_base/app/services/storeService-new.ts:243-245 | a client the dictionary makes is new: no entry held it before, and every client stays below the counter |
| StoreServiceNew.StepIsStableOnClient | woonuxt_base/app/services/storeService-new.ts:243-247 | once an endpoint has a client, asking again returns it and changes nothing, whatever `useGql()` would do |
| StoreServiceNew.FalsyEntryIsReplaced | woonuxt_base/app/services/storeService-new.ts:243-245 | a falsy `useGql()` result is stored but not kept: the next call asks `useGql()` again and can get a client |
| StoreServiceNew.SharedDirectory.constructor | woonuxt_base/app/services/storeService-new.ts:29-35 | empty stores, no selection, not fetching, no clients, timestamp 0 |
| StoreServiceNew.SharedDirectory.GetGraphQLClient | woonuxt_base/app/services/storeService-new.ts:241-248 | a truthy entry is returned with nothing changed; a missing or falsy one is filled by `useGql()`: a new client, or its falsy result, and no other entry changes; a `useGql()` that throws escapes and changes nothing |
| StoreServiceNew.SharedDirectory.ForceReloadGraphQLClient | woonuxt_base/app/services/storeService-new.ts:253-266 | no selection: null and no change; otherwise `useGql()`'s result, a new client or a falsy value, replaces the selected endpoint's entry, and only that entry; a `useGql()` that throws escapes and changes nothing |
| StoreServiceNew.SharedDirectory.LogCurrentEndpoint | woonuxt_base/app/services/storeService-new.ts:271-281 | the selected store's endpoint, and null exactly when nothing is selected |
| StoreServiceNew.StoreServiceInstance.GetStores | woonuxt_base/app/services/storeService-new.ts:63-236 | a fresh, non-forced, non-empty cache is returned with no fetch; a pending promise is returned with no new fetch; otherwise a fetch starts, stamped with the call's start time; the corrected version leaves a fetch that settled at once out of the slot |
| StoreServiceNew.StoreServiceInstance.SettleFetch | woonuxt_base/app/services/storeService-new.ts:216-232 | found nodes become `stores`, with the fetch's start time as timestamp; a rejection keeps both; the flag drops and the slot empties either way |
| StoreServiceNew.StoreServiceInstance.AwaitStores | woonuxt_base/app/services/storeService-new.ts:63-236 | awaiting `getStores`: the cache, or the outcome of the pending or new fetch, with the state left as that outcome implies |
| StoreServiceNew.StoreServiceInstance.FetchStores | woonuxt_base/app/services/storeService-new.ts:43-58 | the awaited directory: a success is copied to `availableStores` with no error, and a fetched one is the new cache with its start time; a failure's message (or `Failed to fetch stores`) is recorded and the list and cache kept; the slot is empty after a miss; loading is off |
| StoreServiceNew.StoreServiceInstance.SelectStore | woonuxt_base/app/services/storeService-new.ts:286-316 | fetches only with an empty directory, and then the cache and slot are as the awaited fetch leaves them and its rejection escapes; an unknown slug gives null and changes nothing; the selected slug returns its store without touching the selection or the clients; a new slug is selected and its endpoint's entry is filled as `getGraphQLClient` fills it, and a `useGql()` that throws there escapes with the selection made |
| StoreServiceNew.StoreServiceInstance.GetStoreBySlug | woonuxt_base/app/services/storeService-new.ts:321-329 | the first store with the slug; with an empty directory it fetches first, fails exactly when that fetch fails, and leaves the cache and slot as the fetch does; selection, clients and the public lists untouched |
| StoreServiceNew.StoreServiceInstance.InitializeStore | woonuxt_base/app/services/storeService-new.ts:331-359 | `availableStores` and the loading flag are never touched, and a true result leaves the error as it was; without a stored slug to re-select: returns true exactly when the awaited directory succeeds, with the cache and slot as that await leaves them and the selection, the clients and the next client kept; a failure records its message and returns false; a failed re-selection is ignored |
| StoreServiceNew.SeparateInstancesFetchTwice | woonuxt_base/app/services/storeService-new.ts:38 | two instances over the same state each start their own fetch: the promise is per instance |
| StoreServiceNew.SameClientTwice | woonuxt_base/app/services/storeService-new.ts:241-248 | asking twice for an endpoint's client yields the same client once the first call made or found one; after a falsy `useGql()` result the second call asks again and gets a new client |
| StoreServiceNew.RejectedPromiseIsKept | woonuxt_base/app/services/storeService-new.ts:63-79 | as written: once the slot holds a rejected promise, every later call that misses the cache, forced or not, gets that rejection; a call that hits the cache gets the cached list |
| StoreServiceNew.FirstFailureSticks | woonuxt_base/app/services/storeService-new.ts:96-102 | as written: the first call that meets a failing `useGql()` leaves its rejection in the slot |
| EndpointOverride.GetGraphQLEndpoint | woonuxt_base/app/plugins/graphqlEndpointOverride.ts:16-95 | the browser always gets an endpoint, and every endpoint found is non-empty |
| EndpointOverride.PinnedEndpointWins | woonuxt_base/app/plugins/graphqlEndpointOverride.ts:20-24 | in the browser a non-empty `graphql_endpoint` wins over everything |
| EndpointOverride.ClientFallsBackToSelection | woonuxt_base/app/plugins/graphqlEndpointOverride.ts:26-37 | with nothing pinned in the browser: the stored record's endpoint, and `https://123.com` when the record is absent, does not parse, or has no endpoint |
| EndpointOverride.CookieWins | woonuxt_base/app/plugins/graphqlEndpointOverride.ts:43-58 | on the server a cookie that names an endpoint wins over the request path |
| EndpointOverride.RouteSlugDecides | woonuxt_base/app/plugins/graphqlEndpointOverride.ts:64-81 | with no usable cookie on a `/store/<slug>` URL: the first matching store's endpoint, otherwise the `No store selected` error and never the placeholder |
| EndpointOverride.ServerPlaceholder | woonuxt_base/app/plugins/graphqlEndpointOverride.ts:84-86 | with no usable cookie and no `/store/` segment the server gets `https://123.com` |
| EndpointOverride.CookieValueOfHeader | woonuxt_base/app/plugins/graphqlEndpointOverride.ts:46 | for a header `p` + `selectedStore=` + value + rest, where no earlier text of `p` matches the pattern, the cookie value is the text after `selectedStore=` up to the next `;` |
| EndpointOverride.EarlierOccurrenceWins | woonuxt_base/app/plugins/graphqlEndpointOverride.ts:46 | the pattern is not anchored: in `prevselectedStore=x; selectedStore=v…` the value read is `x` |
| EndpointOverride.MalformedCookieThrows | woonuxt_base/app/plugins/graphqlEndpointOverride.ts:46-48 | a cookie value, behind any cookies without an earlier match, that is not valid percent-encoding makes the server lookup throw |
| EndpointOverride.SidesAgree | woonuxt_base/app/plugins/graphqlEndpointOverride.ts:26-53 | with nothing pinned, browser and server start from the same store's endpoint when localStorage and the cookie hold that store, whatever cookies come before it as long as none holds an earlier `selectedStore=` |
| EndpointOverride.PinnedEndpointDiverges | woonuxt_base/app/plugins/graphqlEndpointOverride.ts:20-53 | a pinned endpoint makes the browser's endpoint differ from the one the server takes from the cookie |
| EndpointOverride.RouteSlugOfStoreUrl | woonuxt_base/app/plugins/graphqlEndpointOverride.ts:64-66 | on a link the store router built, the route slug is the store's slug |
| EndpointOverride.Setup | woonuxt_base/app/plugins/graphqlEndpointOverride.ts:97-118 | without a Vue app nothing happens; otherwise a default client at the endpoint found (with the reload listener in the browser), or the lookup's error |
| GraphqlPlugin.InitialDefault | woonuxt_base/app/plugins/graphql.ts:9-20 | the default host is `GQL_HOST` or `http://localhost:4000/graphql`; the origin is `APP_HOST` or `http://localhost:3000` |
| GraphqlPlugin.Create | woonuxt_base/app/plugins/graphql.ts:51-62 | a created client's host is the config's host, and its requests go there whatever the default is |
| GraphqlPlugin.CreatedHeaders | woonuxt_base/app/plugins/graphql.ts:62-73 | headers: `Content-Type: application/json` overlaid by the config's headers; mode and credentials from the config; a POST of `{query, variables}` |
| GraphqlPlugin.BuiltinFollowsDefault | woonuxt_base/app/plugins/graphql.ts:16 | the built-in client posts to whatever `default.host` is when it is called |
| GraphqlPlugin.Classify | woonuxt_base/app/plugins/graphql.ts:29-44 | non-2xx: `GraphQL request failed` with the status and body; a payload with `errors`: the first error's message; otherwise, and only otherwise, the whole payload |
| GraphqlPlugin.FirstErrorWins | woonuxt_base/app/plugins/graphql.ts:86-89 | an `errors` list that starts with an error object fails with that object's `message` |
| GraphqlPlugin.WholePayloadReturned | woonuxt_base/app/plugins/graphql.ts:91 | a 2xx payload without `errors` is returned whole, not unwrapped to `data` |
| GraphqlPlugin.GqlInstance.constructor | woonuxt_base/app/plugins/graphql.ts:6-9 | no clients, and the built-in default client |
| GraphqlPlugin.GqlInstance.DefaultQuery | woonuxt_base/app/plugins/graphql.ts:10-49 | posts `{query, variables}` to the current default's host and classifies the reply |
| ClientManager.GraphqlClientManager.constructor | woonuxt_base/app/utils/graphqlClientManager.ts:12-13 | no endpoint, no client, an empty event log |
| ClientManager.GraphqlClientManager.InitializeClient | woonuxt_base/app/utils/graphqlClientManager.ts:16-45 | the endpoint is recorded first; a created client is returned and, in the browser, the endpoint is saved and announced once; a failed creation returns null and neither saves nor announces anything |
| ClientManager.GraphqlClientManager.GetClient | woonuxt_base/app/utils/graphqlClientManager.ts:48-58 | re-initialises from a usable saved endpoint only in the browser and only with no client; otherwise the client is returned unchanged |
| ClientManager.GraphqlClientManager.ExecuteQuery | woonuxt_base/app/utils/graphqlClientManager.ts:61-75 | re-initialises as `getClient` does; then fails with the not-initialised message exactly when the client or endpoint is missing; otherwise calls the client at `currentEndpoint` with the query and the variables, `{}` by default |
| ClientManager.GraphqlClientManager.ResetClient | woonuxt_base/app/utils/graphqlClientManager.ts:78-93 | no client and no endpoint; in the browser the saved endpoint is removed, then the reset event and a reload follow |
| ClientManager.RepeatedInitializeAnnouncesTwice | woonuxt_base/app/utils/graphqlClientManager.ts:25-37 | two identical initialisations announce the endpoint twice |
| ClientManager.QueryAfterResetFails | woonuxt_base/app/utils/graphqlClientManager.ts:64-66 | after a reset a query fails as not initialised, and the current endpoint is null |
| ClientManager.AnnouncedEndpointReloads | woonuxt_base/app/plugins/graphqlEndpointOverride.ts:109-115 | the endpoint listener reloads for an announced endpoint exactly when it is non-empty |
| StoreRouting.CurrentStoreSlug | woonuxt_base/app/composables/useStoreRouting.ts:8-14 | the `slug` parameter exactly on routes whose name starts with `store-`, null otherwise |
| StoreRouting.ChosenSlug | woonuxt_base/app/composables/useStoreRouting.ts:18 | a non-empty explicit slug beats the current one; an empty one falls back to it |
| StoreRouting.GetStoreUrl | woonuxt_base/app/composables/useStoreRouting.ts:17-24 | `/store/<slug><path>` with a slug, the bare path without one |
| StoreRouting.GetProductUrl | woonuxt_base/app/composables/useStoreRouting.ts:27-29 | the store prefix followed by `/product/<slug>` |
| StoreRouting.GetCategoryUrl | woonuxt_base/app/composables/useStoreRouting.ts:31-33 | the store prefix followed by `/product-category/<slug>` |
| StoreRouting.GetProductsUrl | woonuxt_base/app/composables/useStoreRouting.ts:35-37 | the store prefix followed by `/products` |
| StoreRouting.GetCategoriesUrl | woonuxt_base/app/composables/useStoreRouting.ts:39-41 | the store prefix followed by `/categories` |
| StoreRouting.GetCheckoutUrl | woonuxt_base/app/composables/useStoreRouting.ts:43-45 | the store prefix followed by `/checkout` |
| StoreRouting.GetWishlistUrl | woonuxt_base/app/composables/useStoreRouting.ts:47-49 | the store prefix followed by `/wishlist` |
| StoreRouting.StoreUrlParts | woonuxt_base/app/composables/useStoreRouting.ts:19-21 | a link built with a slug starts with `/store/`, continues with the slug, and ends with the path it was built from |
| StoreRouting.NoStoreContext | woonuxt_base/app/composables/useStoreRouting.ts:22-23 | with no slug from either source every generator returns its bare path |
| StoreCheck.IsExcludedIff | woonuxt_base/app/middleware/store-check.ts:10-18 | a path is excluded exactly when it is `/` or `/index` or lies under `/store/` |
| StoreCheck.Guard | woonuxt_base/app/middleware/store-check.ts:3-25 | on the server the guard proceeds; a redirect always goes to `/` |
| StoreCheck.GuardRedirectsIff | woonuxt_base/app/middleware/store-check.ts:21-24 | in the browser it redirects exactly when the path is not excluded and nothing is selected |
| StoreCheck.RedirectTargetIsExcluded | woonuxt_base/app/middleware/store-check.ts:10-23 | the guard run again on its redirect target proceeds |
| GlobalStoreCheck.Guard | woonuxt_base/app/middleware/global-store-check.global.ts:3-22 | skipped on the server; `/`, `/index` and `/store/` paths proceed; any other path redirects to `/` exactly when nothing is selected |
| GlobalStoreCheck.SameAsStoreCheck | woonuxt_base/app/middleware/global-store-check.global.ts:10-21 | the global guard decides as the named guard does, for every path and selection |
| StoreSsrInit.PrimeSelectedCookie | woonuxt_base/app/middleware/store-ssr-init.global.ts:3-15 | acts only on the server under `/store/`, otherwise changes nothing; fetches first, with the fetch's full outcome (nothing while another fetch is in flight); sets the cookie to the first store with the route's slug, leaves it untouched when none matches; the selection, stored text and default client are kept |
| StoreSsrInit.PrimedCookieAgreesWithRoute | woonuxt_base/app/middleware/store-ssr-init.global.ts:9-12 | on a later server render of `/store/<slug><path>`, the primed cookie, behind any cookies without an earlier `selectedStore=`, yields the store's endpoint, the same one the path alone would give |
| StoreInitFromQuery.HandleStoreQuery | woonuxt_base/app/plugins/storeInitFromQuery.ts:12-42 | no parameter: nothing happens; fetches only with an empty directory, with the fetch's full outcome; a matching slug selects that store, stores it in the browser, repoints the default client, and the failed reload is caught; an unknown slug keeps the selection, stored text and client; nothing escapes |
| StoreInitFromQuery.Setup | woonuxt_base/app/plugins/storeInitFromQuery.ts:45-56 | on the server nothing happens; in the browser the handler runs once on load, with everything `HandleStoreQuery` states |
| StoreInitFromQuery.RerunOnlyOnChange | woonuxt_base/app/plugins/storeInitFromQuery.ts:50-54 | the watcher re-runs exactly for a truthy value that differs from the previous one |

## Left out

- Network I/O (`fetch`, the `useGql()` client calls, the three directory methods) is not modelled as such. Each is an input naming the outcomes the code distinguishes.
- WHATWG URL parsing, `JSON.parse`/`JSON.stringify` and `decodeURIComponent` are not modelled. They are the parameters `hostOf` and `decode`, and `StoredRecord`.
- A stored `selectedStore` text that parses to something other than a store object is not modelled: only this code writes that key, and it writes a store.
- Promises, `await` and the async executor are not modelled. A pending fetch is a slot, and its settling is a separate step (`StoreServiceNew.StoreServiceInstance.SettleFetch`). Interleavings between separate calls are not modelled.
- Vue reactivity (`ref`, `useState`, `computed`), `watch`, `provide` and `navigateTo` are plain fields, predicates and return values.
- `window.location.reload`, `addEventListener` and `window.__NUXT_GRAPHQL_ENDPOINT` are entries of an effect log.
- Console logging is left out everywhere.
- The GraphQL query texts are opaque constants.
- Common.ParseInt: leading white space and the `0x` prefix that `parseInt` also accepts are not modelled. Only this code writes `currentStoreId`, and it writes `site_id.toString()`.
- Common.ParseIntOfIntToString: the round trip is stated for ids written in plain digits. JavaScript writes numbers of 10^21 and beyond in exponent form, which `parseInt` does not read back, and numbers are doubles, exact only below 2^53. Ids of that size are not modelled.
- StoreManager.StoreManagerState.FetchStores: a body that is JSON but not a list counts as a failed fetch. As written, such a body replaces `stores` and makes the lookup fetch again (the second finding). A `null` body, and a string, which has a `length`, are not modelled.
- The composable's own `initializeFromStorage()` call at construction time (`useStoreManager.ts:167-170`) is not part of the constructor. It is one more call of `StoreManager.StoreManagerState.InitializeFromStorage`.
- The `store` argument of `fetchStoreProducts`/`fetchStoreCategories` is only logged, so it is left out.
- The trivial getters (`getSelectedStore`, `getAvailableStores`, `getIsLoading`, `getError`) are left out. They read the fields the classes expose.
- `nuxt.config.ts`, `woonuxt_base/nuxt.config.ts` and `plugins/storeInit.ts` are not part of this model. They are configuration and a one-line caller of `initializeStore`.
- On the server, module-level state that persists across requests is not modelled. Each state object stands for one process.
- `route.query.store` and `route.params.slug` given as arrays are left out. The model takes a single string or none.
- StoreServiceNew.StoreServiceInstance.InitializeStore: when a stored slug is re-selected first, the contract states only the error bookkeeping and not the resulting directory and selection. That case chains two fetches, and its outcome is stated by `SelectStore` and `AwaitStores`.
- StoreServiceNew.StoreServiceInstance.FetchStores: the `|| 'Failed to fetch stores'` fallback is modelled but never reached, because every rejection this code produces carries a non-empty message.
- EndpointOverride.Setup: the endpoint is looked up once. The source looks it up twice (for a log line and for the client), and both lookups read the same signals.

## Findings

| source | as written | input that shows it | evidently intended | confidence | as-written member | corrected member |
|---|---|---|---|---|---|---|
| woonuxt_base/app/services/storeService-new.ts:85-233 | An async executor that never reaches an `await` settles inside `new Promise`. It rejects and runs its `finally`, which empties `fetchPromise`. Only after that does line 85 store the rejected promise, and line 76 then returns it to every later call that misses the cache. | The first `getStores()` call while `useGql()` throws (or returns a falsy value), or, on the server, while both client calls throw before returning a promise. | A failed fetch leaves `fetchPromise` empty, so the next call fetches again. | not executed | StoreServiceNew.RejectedPromiseIsKept | StoreServiceNew.StoreServiceInstance.GetStores |
| woonuxt_base/app/composables/useStoreManager.ts:98-164 | `fetchStores` calls `initializeFromStorage` after any successful list when no store is current. `initializeFromStorage` calls `fetchStores` whenever the list is empty. | In the browser, with `currentStoreId` stored, the directory answers `[]`, or a JSON value that is not a list such as an error object: the two calls fetch again without end and the first call never settles. | The stored store is restored only from a non-empty list, and a body that is not a list is a failed fetch, so the pair ends. | not executed | StoreManager.EmptyDirectoryNeverSettles | StoreManager.StoreManagerState.FetchStores |
