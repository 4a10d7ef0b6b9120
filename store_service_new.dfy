/** The second store service (services/storeService-new.ts): a directory
    cached for five minutes, a fetch promise shared by the calls of one
    `useStoreService()` instance, three ways of asking for the directory with
    a fixed two-store fallback, slug-based selection and a dictionary of
    GraphQL clients keyed by endpoint. The promise is a slot holding the
    pending fetch; its settling is a separate step. */
module StoreServiceNew {
  import opened Common

  /** `5 * 60 * 1000` milliseconds. */
  const CacheWindow: int := 300000

  const InitFailedMessage: string := "Failed to initialize GraphQL client"
  const ClientUndefinedMessage: string := "GraphQL client is undefined"
  const NoStoresMessage: string := "No stores found"
  const FetchFailedMessage: string := "Failed to fetch stores"

  // ---------------------------------------------------------------------
  // Where the directory comes from

  /** What `useGql()` does: throws, returns a falsy value, or returns a client. */
  datatype ClientInit = InitThrows | InitFalsy | InitReady

  /** What a client call resolves to: no response (so `response.data`
      throws), or a response whose `data?.wooMultisiteStores?.nodes` is absent
      or present. */
  datatype GqlResponse = NoResponse | Response(nodes: Option<seq<Store>>)

  /** A client call of method 1 or 2: it throws before returning a promise,
      its promise rejects, or it resolves. */
  datatype CallOutcome = ThrowsAtOnce | Rejects | Resolves(response: GqlResponse)

  /** An element of the `view-all-sites` array: `null` (reading its `id`
      throws) or a record; `id` is `None` when the record has none, and an
      empty `graphqlEndpoint` stands for a missing one. */
  datatype FlatSite =
    | NullSite
    | FlatSite(id: Option<StoreId>, name: string, slug: string, url: string, graphqlEndpoint: string)

  /** The body of the direct fetch: not JSON, JSON that is not an array, or an array. */
  datatype FlatBody = NotJson | NotArray | FlatList(sites: seq<FlatSite>)

  /** Method 3, the direct fetch: it rejects, or a status and a body. */
  datatype DirectOutcome = FetchRejects | Status(status: int, body: FlatBody)

  /** Everything one directory fetch meets, in the order it tries. */
  datatype DirectorySource = DirectorySource(init: ClientInit, method1: CallOutcome, method2: CallOutcome, method3: DirectOutcome)

  /** The fixed two-store list used when the direct fetch fails. */
  const FallbackStores: seq<Store> := [
    Store(TextId("1"), "Lakshmi", "lakshmi", None, "https://lakshmi.cataloghub.in",
          "https://lakshmi.cataloghub.in/graphql", None),
    Store(TextId("2"), "ShivShakti", "shivshakti", None, "https://shivshakti.cataloghub.in",
          "https://shivshakti.cataloghub.in/graphql", None)
  ]

  /** The store made of the site at `index`: its own id when truthy and
      otherwise the 1-based position as text; its own endpoint when non-empty
      and otherwise `<url>/graphql`. */
  function FlatToStore(site: FlatSite, index: nat): (s: Store)
    requires site.FlatSite?
    ensures s.id == if site.id.Some? && TruthyId(site.id.value) then site.id.value else TextId(NatToString(index + 1))
    ensures s.graphqlEndpoint == if site.graphqlEndpoint != "" then site.graphqlEndpoint else site.url + "/graphql"
    ensures s.name == site.name && s.slug == site.slug && s.url == site.url
    ensures s.description == None && s.thumbnail == None
  {
    Store(if site.id.Some? && TruthyId(site.id.value) then site.id.value else TextId(NatToString(index + 1)),
          site.name, site.slug, None, site.url,
          if site.graphqlEndpoint != "" then site.graphqlEndpoint else site.url + "/graphql", None)
  }

  /** `jsonData.map((site, index) => ...)`: throws when an element is `null`,
      otherwise one store per site, in order. */
  function MapFlat(sites: seq<FlatSite>): (r: Option<seq<Store>>)
    ensures r.None? <==> exists i :: 0 <= i < |sites| && sites[i].NullSite?
    ensures r.Some? ==>
      (|r.value| == |sites| &&
       forall i :: 0 <= i < |sites| ==> sites[i].FlatSite? && r.value[i] == FlatToStore(sites[i], i))
  {
    if exists i :: 0 <= i < |sites| && sites[i].NullSite? then None
    else Some(seq(|sites|, i requires 0 <= i < |sites| => FlatToStore(sites[i], i)))
  }

  /** Every mapped store has a truthy id and a non-empty endpoint. */
  lemma {:induction false} MappedFlatStoresAreComplete(sites: seq<FlatSite>)
    requires MapFlat(sites).Some?
    ensures forall s :: s in MapFlat(sites).value ==> TruthyId(s.id) && s.graphqlEndpoint != ""
  {
    var list := MapFlat(sites).value;
    forall s | s in list
      ensures TruthyId(s.id) && s.graphqlEndpoint != ""
    {
      var i :| 0 <= i < |list| && list[i] == s;
      assert s == FlatToStore(sites[i], i);
      assert |NatToString(i + 1)| > 0;
      assert |sites[i].url + "/graphql"| > 0;
    }
  }

  /** `data` once a client call is done: `Some(nodes)` when the call answered
      (`nodes` itself may be absent), `None` when it failed or `response.data` threw. */
  function Answered(c: CallOutcome): Option<Option<seq<Store>>> {
    if c.Resolves? && c.response.Response? then Some(c.response.nodes) else None
  }

  /** Method 3 in the browser: `Some(list)` when it ends with a list, `None`
      when it leaves `data` undefined; a failure uses the fallback list. */
  function DirectNodes(d: DirectOutcome): (r: Option<seq<Store>>)
    ensures d.Status? && 200 <= d.status <= 299 && d.body.FlatList? && MapFlat(d.body.sites).Some? ==>
      r == MapFlat(d.body.sites)
    ensures d.Status? && 200 <= d.status <= 299 && d.body.NotArray? ==> r == None
    ensures (d.FetchRejects? || !(200 <= d.status <= 299) || d.body.NotJson?
             || (d.body.FlatList? && MapFlat(d.body.sites).None?)) ==> r == Some(FallbackStores)
  {
    match d
    case FetchRejects => Some(FallbackStores)
    case Status(status, body) =>
      if !(200 <= status <= 299) then Some(FallbackStores)
      else match body
        case NotJson => Some(FallbackStores)
        case NotArray => None
        case FlatList(sites) => if MapFlat(sites).None? then Some(FallbackStores) else MapFlat(sites)
  }

  /** How the executor of a fetch settles: the client cannot be made, or the
      nodes of the first method that answered (the direct fetch only in the
      browser), or `'No stores found'` when no method yields nodes. */
  function ResolveNodes(isClient: bool, src: DirectorySource): (r: Result<seq<Store>, string>)
    ensures src.init == InitThrows ==> r == Err(InitFailedMessage)
    ensures src.init == InitFalsy ==> r == Err(ClientUndefinedMessage)
    ensures src.init == InitReady && Answered(src.method1).Some? ==>
      r == (if Answered(src.method1).value.Some? then Ok(Answered(src.method1).value.value) else Err(NoStoresMessage))
    ensures src.init == InitReady && Answered(src.method1).None? && Answered(src.method2).Some? ==>
      r == (if Answered(src.method2).value.Some? then Ok(Answered(src.method2).value.value) else Err(NoStoresMessage))
    ensures src.init == InitReady && Answered(src.method1).None? && Answered(src.method2).None? ==>
      r == (if isClient && DirectNodes(src.method3).Some? then Ok(DirectNodes(src.method3).value) else Err(NoStoresMessage))
  {
    match src.init
    case InitThrows => Err(InitFailedMessage)
    case InitFalsy => Err(ClientUndefinedMessage)
    case InitReady =>
      var data :=
        if Answered(src.method1).Some? then Answered(src.method1).value
        else if Answered(src.method2).Some? then Answered(src.method2).value
        else if isClient then DirectNodes(src.method3)
        else None;
      if data.Some? then Ok(data.value) else Err(NoStoresMessage)
  }

  /** The executor reaches its end without an `await`: `useGql()` fails, or on
      the server both client calls throw before returning a promise. The
      promise it builds is then settled before `fetchPromise` is assigned. */
  predicate SettlesAtOnce(isClient: bool, src: DirectorySource) {
    src.init != InitReady || (!isClient && src.method1.ThrowsAtOnce? && src.method2.ThrowsAtOnce?)
  }

  /** A fetch that settles at once always rejects. */
  lemma AtOnceMeansRejected(isClient: bool, src: DirectorySource)
    requires SettlesAtOnce(isClient, src)
    ensures ResolveNodes(isClient, src).Err?
  {
  }

  /** In the browser, with neither client call answering and the direct
      fetch failing, the fixed list is the directory. */
  lemma FallbackWhenAllFail(src: DirectorySource)
    requires src.init == InitReady && Answered(src.method1).None? && Answered(src.method2).None?
    requires src.method3.FetchRejects? || (src.method3.Status? && !(200 <= src.method3.status <= 299))
    ensures ResolveNodes(true, src) == Ok(FallbackStores)
    ensures ResolveNodes(false, src) == Err(NoStoresMessage)
  {
  }

  /** The fallback list's two stores, `lakshmi` and `shivshakti`, are found by slug. */
  lemma FallbackSlugs()
    ensures FindBySlug(FallbackStores, "lakshmi") == Some(FallbackStores[0])
    ensures FindBySlug(FallbackStores, "shivshakti") == Some(FallbackStores[1])
    ensures FallbackStores[0].graphqlEndpoint == FallbackStores[0].url + "/graphql"
    ensures FallbackStores[1].graphqlEndpoint == FallbackStores[1].url + "/graphql"
  {
    assert FallbackStores[0].slug != "shivshakti";
  }

  // ---------------------------------------------------------------------
  // The promise slot

  /** `fetchPromise`: no promise, or the pending fetch started at `startedAt`. */
  datatype PromiseSlot = NoPromise | Pending(startedAt: int, source: DirectorySource)

  /** What `getStores` hands back: the cached list, a promise to await, or a
      promise already rejected with `message`. */
  datatype StoresCall = FromCache(stores: seq<Store>) | AwaitPromise | RejectedAtOnce(message: string)

  /** The cached list is served: not forced, non-empty and fresher than five minutes. */
  predicate CacheHit(force: bool, stores: seq<Store>, lastFetch: int, now: int) {
    !force && |stores| > 0 && now - lastFetch < CacheWindow
  }

  /** What awaiting `getStores(force)` yields: the cache, or the outcome of
      the pending fetch when there is one, or of a new fetch of `src`. */
  function AwaitedOutcome(isClient: bool, hit: bool, cached: seq<Store>, slot: PromiseSlot, src: DirectorySource)
    : Result<seq<Store>, string>
  {
    if hit then Ok(cached) else ResolveNodes(isClient, if slot.Pending? then slot.source else src)
  }

  // ---------------------------------------------------------------------
  // The client dictionary

  /** An entry of `graphqlClients`: the falsy value `useGql()` returned, or
      the client with handle `n`. */
  datatype ClientEntry = FalsyEntry | Handle(n: nat)

  /** `getGraphQLClient` calls `useGql()` when the entry is missing or falsy. */
  predicate NeedsClient(clients: map<string, ClientEntry>, endpoint: string) {
    endpoint !in clients || clients[endpoint] == FalsyEntry
  }

  /** What one `useGql()` call stores, with `next` the next fresh handle:
      nothing when it throws. */
  function Made(init: ClientInit, next: nat): (r: Option<ClientEntry>)
    ensures r.None? <==> init == InitThrows
    ensures r == Some(FalsyEntry) <==> init == InitFalsy
    ensures init == InitReady ==> r == Some(Handle(next))
  {
    match init
    case InitThrows => None
    case InitFalsy => Some(FalsyEntry)
    case InitReady => Some(Handle(next))
  }

  /** The handle counter after `useGql()` ran and stored `entry`. */
  function Advance(next: nat, entry: ClientEntry): nat {
    if entry.Handle? then next + 1 else next
  }

  /** `getGraphQLClient(endpoint)` on the dictionary `clients` with next
      fresh handle `next`: the dictionary, the counter and the entry
      returned, or `None` when `useGql()` throws out of the call. */
  function GetClientStep(clients: map<string, ClientEntry>, next: nat, endpoint: string, init: ClientInit)
    : (r: Option<(map<string, ClientEntry>, nat, ClientEntry)>)
    ensures !NeedsClient(clients, endpoint) ==> r == Some((clients, next, clients[endpoint]))
    ensures NeedsClient(clients, endpoint) ==> (r.None? <==> init == InitThrows)
    ensures r.Some? ==>
      && endpoint in r.value.0 && r.value.0[endpoint] == r.value.2
      && r.value.0.Keys == clients.Keys + {endpoint}
      && (forall e :: e in clients && e != endpoint ==> r.value.0[e] == clients[e])
    ensures r.Some? && NeedsClient(clients, endpoint) ==>
      r.value.2 == Made(init, next).value && r.value.1 == Advance(next, r.value.2)
  {
    if !NeedsClient(clients, endpoint) then Some((clients, next, clients[endpoint]))
    else match Made(init, next)
      case None => None
      case Some(entry) => Some((clients[endpoint := entry], Advance(next, entry), entry))
  }

  /** Every handle in `clients` is below `next`. */
  ghost predicate HandlesBelow(clients: map<string, ClientEntry>, next: nat) {
    forall e :: e in clients && clients[e].Handle? ==> clients[e].n < next
  }

  /** A step keeps every handle below the counter, and a client it makes is
      new: no entry held it before. */
  lemma {:induction false} StepKeepsHandlesFresh(clients: map<string, ClientEntry>, next: nat, endpoint: string, init: ClientInit)
    requires HandlesBelow(clients, next)
    requires GetClientStep(clients, next, endpoint, init).Some?
    ensures var step := GetClientStep(clients, next, endpoint, init).value;
      && HandlesBelow(step.0, step.1) && step.1 >= next
      && (NeedsClient(clients, endpoint) && step.2.Handle? ==>
            forall e :: e in clients ==> clients[e] != step.2)
  {
    var step := GetClientStep(clients, next, endpoint, init).value;
    if NeedsClient(clients, endpoint) {
      assert step.0 == clients[endpoint := step.2];
      assert step.2.Handle? ==> step.2.n == next;
    }
  }

  /** A client once made is kept: asking again returns the same entry and
      changes nothing, whatever `useGql()` would do now. */
  lemma StepIsStableOnClient(clients: map<string, ClientEntry>, next: nat, endpoint: string, init: ClientInit, again: ClientInit)
    requires GetClientStep(clients, next, endpoint, init).Some?
    requires GetClientStep(clients, next, endpoint, init).value.2.Handle?
    ensures var step := GetClientStep(clients, next, endpoint, init).value;
      GetClientStep(step.0, step.1, endpoint, again) == Some(step)
  {
  }

  /** A falsy entry is not kept: the next call asks `useGql()` again, and
      can get a client. */
  lemma FalsyEntryIsReplaced(clients: map<string, ClientEntry>, next: nat, endpoint: string, again: ClientInit)
    requires NeedsClient(clients, endpoint)
    ensures var step := GetClientStep(clients, next, endpoint, InitFalsy).value;
      && step.2 == FalsyEntry && step.1 == next && NeedsClient(step.0, endpoint)
      && (again == InitReady ==> GetClientStep(step.0, step.1, endpoint, again).value.2 == Handle(next))
  {
  }

  /** Why `selectStore` rejects: the directory fetch failed with `message`,
      or `useGql()` threw while the new selection got its client. */
  datatype SelectError = DirectoryFailed(message: string) | ClientThrew

  /** How `forceReloadGraphQLClient()` ends: `null` without a selection, the
      new entry, or the error `useGql()` threw. */
  datatype ReloadOutcome = NoSelection | Reloaded(entry: ClientEntry) | ReloadThrew

  /** The state shared by every `useStoreService()` instance: the `useState`
      keys `stores`, `selectedStore`, `isFetchingStores`, `graphqlClients` and
      `storeLastFetch`, and the module-level `availableStores`, `isLoading`
      and `error`. A client made by `useGql()` is a handle; `nextClient` is
      the next one handed out. */
  class SharedDirectory {
    var stores: seq<Store>
    var selectedStore: Option<Store>
    var isFetchingStores: bool
    var graphqlClients: map<string, ClientEntry>
    var lastFetchTimestamp: int
    var availableStores: seq<Store>
    var isLoading: bool
    var error: Option<string>
    var nextClient: nat

    /** Every client in the dictionary was handed out before `nextClient`. */
    ghost predicate Valid()
      reads this
    {
      HandlesBelow(graphqlClients, nextClient)
    }

    constructor ()
      ensures Valid()
      ensures stores == [] && selectedStore == None && !isFetchingStores && graphqlClients == map[]
      ensures lastFetchTimestamp == 0 && availableStores == [] && !isLoading && error == None
    {
      stores := [];
      selectedStore := None;
      isFetchingStores := false;
      graphqlClients := map[];
      lastFetchTimestamp := 0;
      availableStores := [];
      isLoading := false;
      error := None;
      nextClient := 0;
    }

    /** `getGraphQLClient(endpoint)`: the endpoint's client, made with
        `useGql()` only when the entry is missing or falsy; `None` when that
        call throws, which leaves the dictionary as it was. */
    method GetGraphQLClient(endpoint: string, init: ClientInit) returns (r: Option<ClientEntry>)
      requires Valid()
      modifies this
      ensures Valid()
      ensures var step := GetClientStep(old(graphqlClients), old(nextClient), endpoint, init);
        && (step.None? ==> r.None? && unchanged(this))
        && (step.Some? ==> r == Some(step.value.2) && graphqlClients == step.value.0 && nextClient == step.value.1)
      ensures !NeedsClient(old(graphqlClients), endpoint) ==> unchanged(this)
      ensures r.Some? && r.value.Handle? && NeedsClient(old(graphqlClients), endpoint) ==>
        forall e :: e in old(graphqlClients) ==> old(graphqlClients[e]) != r.value
      ensures stores == old(stores) && selectedStore == old(selectedStore)
      ensures isFetchingStores == old(isFetchingStores) && lastFetchTimestamp == old(lastFetchTimestamp)
      ensures availableStores == old(availableStores) && isLoading == old(isLoading) && error == old(error)
    {
      if !NeedsClient(graphqlClients, endpoint) {
        return Some(graphqlClients[endpoint]);
      }
      var step := GetClientStep(graphqlClients, nextClient, endpoint, init);
      if step.None? {
        return None;
      }
      StepKeepsHandlesFresh(graphqlClients, nextClient, endpoint, init);
      graphqlClients := step.value.0;
      nextClient := step.value.1;
      r := Some(step.value.2);
    }

    /** `forceReloadGraphQLClient()`: nothing without a selection; otherwise
        `useGql()` replaces the selected endpoint's entry, and only that one,
        unless it throws, which leaves the dictionary as it was. */
    method ForceReloadGraphQLClient(init: ClientInit) returns (r: ReloadOutcome)
      requires Valid()
      modifies this
      ensures Valid()
      ensures old(selectedStore).None? ==> r == NoSelection && unchanged(this)
      ensures old(selectedStore).Some? && init == InitThrows ==> r == ReloadThrew && unchanged(this)
      ensures old(selectedStore).Some? && init != InitThrows ==>
        var endpoint := old(selectedStore).value.graphqlEndpoint;
        && r == Reloaded(Made(init, old(nextClient)).value)
        && graphqlClients == old(graphqlClients)[endpoint := r.entry]
        && nextClient == Advance(old(nextClient), r.entry)
        && (r.entry.Handle? ==> forall e :: e in old(graphqlClients) ==> old(graphqlClients[e]) != r.entry)
      ensures stores == old(stores) && selectedStore == old(selectedStore)
      ensures isFetchingStores == old(isFetchingStores) && lastFetchTimestamp == old(lastFetchTimestamp)
      ensures availableStores == old(availableStores) && isLoading == old(isLoading) && error == old(error)
    {
      if selectedStore.None? {
        return NoSelection;
      }
      var made := Made(init, nextClient);
      if made.None? {
        return ReloadThrew;
      }
      var endpoint := selectedStore.value.graphqlEndpoint;
      graphqlClients := graphqlClients[endpoint := made.value];
      nextClient := Advance(nextClient, made.value);
      r := Reloaded(made.value);
    }

    /** `logCurrentEndpoint()`: the selected store's endpoint, if any. */
    function LogCurrentEndpoint(): (endpoint: Option<string>)
      reads this
      ensures endpoint.Some? <==> selectedStore.Some?
      ensures endpoint.Some? ==> endpoint.value == selectedStore.value.graphqlEndpoint
    {
      if selectedStore.None? then None else Some(selectedStore.value.graphqlEndpoint)
    }
  }

  /** One `useStoreService()` instance: its own `fetchPromise` over the shared state. */
  class StoreServiceInstance {
    const isClient: bool
    const shared: SharedDirectory
    var fetchPromise: PromiseSlot

    constructor (isClient: bool, shared: SharedDirectory)
      ensures this.isClient == isClient && this.shared == shared && fetchPromise == NoPromise
    {
      this.isClient := isClient;
      this.shared := shared;
      fetchPromise := NoPromise;
    }

    /** `getStores(force)` at time `now` up to its first return: the cache
        when fresh; the pending promise when there is one; otherwise a new
        fetch of `src`. A fetch that settles at once is rejected and leaves the
        slot empty (see the findings for what the source does instead). */
    method GetStores(force: bool, now: int, src: DirectorySource) returns (r: StoresCall)
      modifies this, shared
      ensures CacheHit(force, old(shared.stores), old(shared.lastFetchTimestamp), now) ==>
        r == FromCache(old(shared.stores)) && unchanged(this) && unchanged(shared)
      ensures !CacheHit(force, old(shared.stores), old(shared.lastFetchTimestamp), now) && old(fetchPromise).Pending? ==>
        r == AwaitPromise && unchanged(this) && unchanged(shared)
      ensures !CacheHit(force, old(shared.stores), old(shared.lastFetchTimestamp), now) && old(fetchPromise).NoPromise? ==>
        if SettlesAtOnce(isClient, src) then
          (r == RejectedAtOnce(ResolveNodes(isClient, src).error) && fetchPromise == NoPromise && !shared.isFetchingStores)
        else
          (r == AwaitPromise && fetchPromise == Pending(now, src) && shared.isFetchingStores)
      ensures shared.stores == old(shared.stores) && shared.lastFetchTimestamp == old(shared.lastFetchTimestamp)
      ensures shared.selectedStore == old(shared.selectedStore) && shared.graphqlClients == old(shared.graphqlClients)
      ensures shared.nextClient == old(shared.nextClient) && shared.availableStores == old(shared.availableStores)
      ensures shared.isLoading == old(shared.isLoading) && shared.error == old(shared.error)
    {
      if !force && |shared.stores| > 0 && now - shared.lastFetchTimestamp < CacheWindow {
        return FromCache(shared.stores);
      }
      if fetchPromise.Pending? {
        return AwaitPromise;
      }
      shared.isFetchingStores := true;
      if SettlesAtOnce(isClient, src) {
        AtOnceMeansRejected(isClient, src);
        shared.isFetchingStores := false;
        return RejectedAtOnce(ResolveNodes(isClient, src).error);
      }
      fetchPromise := Pending(now, src);
      r := AwaitPromise;
    }

    /** The pending fetch settles: found nodes become the directory, stamped
        with the time the fetch started; a rejection keeps the directory.
        Either way the flag drops and the slot empties. */
    method SettleFetch() returns (outcome: Result<seq<Store>, string>)
      requires fetchPromise.Pending?
      modifies this, shared
      ensures outcome == ResolveNodes(isClient, old(fetchPromise).source)
      ensures outcome.Ok? ==> shared.stores == outcome.value && shared.lastFetchTimestamp == old(fetchPromise).startedAt
      ensures outcome.Err? ==> shared.stores == old(shared.stores) && shared.lastFetchTimestamp == old(shared.lastFetchTimestamp)
      ensures !shared.isFetchingStores && fetchPromise == NoPromise
      ensures shared.selectedStore == old(shared.selectedStore) && shared.graphqlClients == old(shared.graphqlClients)
      ensures shared.nextClient == old(shared.nextClient) && shared.availableStores == old(shared.availableStores)
      ensures shared.isLoading == old(shared.isLoading) && shared.error == old(shared.error)
    {
      outcome := ResolveNodes(isClient, fetchPromise.source);
      if outcome.Ok? {
        shared.stores := outcome.value;
        shared.lastFetchTimestamp := fetchPromise.startedAt;
      }
      shared.isFetchingStores := false;
      fetchPromise := NoPromise;
    }

    /** `await getStores(force)`: the call followed, when it handed back the
        pending promise, by that promise settling. */
    method AwaitStores(force: bool, now: int, src: DirectorySource) returns (outcome: Result<seq<Store>, string>)
      modifies this, shared
      ensures var hit := CacheHit(force, old(shared.stores), old(shared.lastFetchTimestamp), now);
        && outcome == AwaitedOutcome(isClient, hit, old(shared.stores), old(fetchPromise), src)
        && (hit ==> unchanged(this) && unchanged(shared))
        && (!hit ==> fetchPromise == NoPromise && !shared.isFetchingStores)
        && (!hit && outcome.Ok? ==>
              (shared.stores == outcome.value
               && shared.lastFetchTimestamp == if old(fetchPromise).Pending? then old(fetchPromise).startedAt else now))
        && (outcome.Err? ==> shared.stores == old(shared.stores) && shared.lastFetchTimestamp == old(shared.lastFetchTimestamp))
      ensures shared.selectedStore == old(shared.selectedStore) && shared.graphqlClients == old(shared.graphqlClients)
      ensures shared.nextClient == old(shared.nextClient) && shared.availableStores == old(shared.availableStores)
      ensures shared.isLoading == old(shared.isLoading) && shared.error == old(shared.error)
    {
      var call := GetStores(force, now, src);
      match call {
        case FromCache(list) => outcome := Ok(list);
        case RejectedAtOnce(message) => outcome := Err(message);
        case AwaitPromise => outcome := SettleFetch();
      }
    }

    /** What `await getStores()` leaves in the slot and the cache, given
        whether the call hit the cache and what it resolved to: a miss empties
        the slot and drops the flag; a success that was fetched is the new
        cache, stamped with the time its fetch started; a failure keeps the
        cache. */
    twostate predicate AfterAwait(hit: bool, now: int, outcome: Result<seq<Store>, string>)
      reads this, shared
    {
      && (hit ==>
            && fetchPromise == old(fetchPromise) && shared.isFetchingStores == old(shared.isFetchingStores)
            && shared.stores == old(shared.stores) && shared.lastFetchTimestamp == old(shared.lastFetchTimestamp))
      && (!hit ==> fetchPromise == NoPromise && !shared.isFetchingStores)
      && (!hit && outcome.Ok? ==>
            && shared.stores == outcome.value
            && shared.lastFetchTimestamp == if old(fetchPromise).Pending? then old(fetchPromise).startedAt else now)
      && (outcome.Err? ==>
            shared.stores == old(shared.stores) && shared.lastFetchTimestamp == old(shared.lastFetchTimestamp))
    }

    /** `fetchStores(force)`: awaits the directory; a success is copied to
        `availableStores`, a failure's message is recorded; loading is off
        afterwards. */
    method FetchStores(force: bool, now: int, src: DirectorySource) returns (r: Result<seq<Store>, string>)
      modifies this, shared
      ensures var hit := CacheHit(force, old(shared.stores), old(shared.lastFetchTimestamp), now);
        && r == AwaitedOutcome(isClient, hit, old(shared.stores), old(fetchPromise), src)
        && AfterAwait(hit, now, r)
      ensures r.Ok? ==> shared.availableStores == r.value && shared.error == None
      ensures r.Err? ==>
        (shared.availableStores == old(shared.availableStores)
         && shared.error == Some(if r.error != "" then r.error else FetchFailedMessage))
      ensures !shared.isLoading
      ensures shared.selectedStore == old(shared.selectedStore) && shared.graphqlClients == old(shared.graphqlClients)
      ensures shared.nextClient == old(shared.nextClient)
    {
      shared.isLoading := true;
      shared.error := None;
      r := AwaitStores(force, now, src);
      match r {
        case Ok(list) => shared.availableStores := list;
        case Err(message) => shared.error := Some(if message != "" then message else FetchFailedMessage);
      }
      shared.isLoading := false;
    }

    /** `selectStore(slug)`: fetches first when the directory is empty (a
        rejection escapes), then looks the slug up. An unknown slug gives
        `None` and changes nothing; the already-selected slug gives its store
        and touches neither the selection nor the clients; a new slug becomes
        the selection and then gets a client, and a `useGql()` that throws
        there escapes with the selection already made. */
    method SelectStore(slug: string, now: int, src: DirectorySource, clientInit: ClientInit)
      returns (r: Result<Option<Store>, SelectError>)
      requires shared.Valid()
      modifies this, shared
      ensures shared.Valid()
      ensures |old(shared.stores)| > 0 ==> AfterAwait(true, now, Ok(old(shared.stores)))
      ensures |old(shared.stores)| == 0 ==>
        var o := AwaitedOutcome(isClient, false, old(shared.stores), old(fetchPromise), src);
        && AfterAwait(false, now, o)
        && (o.Err? ==> r == Err(DirectoryFailed(o.error)))
      ensures r.Err? && r.error.DirectoryFailed? ==>
        && shared.selectedStore == old(shared.selectedStore)
        && shared.graphqlClients == old(shared.graphqlClients) && shared.nextClient == old(shared.nextClient)
      ensures r.Ok? ==> r.value == FindBySlug(shared.stores, slug)
      ensures r == Ok(None) || (r.Ok? && old(shared.selectedStore).Some? && old(shared.selectedStore).value.slug == slug) ==>
        && shared.selectedStore == old(shared.selectedStore)
        && shared.graphqlClients == old(shared.graphqlClients) && shared.nextClient == old(shared.nextClient)
      ensures !(r.Err? && r.error.DirectoryFailed?) ==>
        var found := FindBySlug(shared.stores, slug);
        var isNew := !(old(shared.selectedStore).Some? && old(shared.selectedStore).value.slug == slug);
        && (found.None? ==> r == Ok(None))
        && (found.Some? && !isNew ==> r == Ok(found))
        && (found.Some? && isNew ==>
              && shared.selectedStore == found
              && match GetClientStep(old(shared.graphqlClients), old(shared.nextClient), found.value.graphqlEndpoint, clientInit) {
                case None =>
                  && r == Err(ClientThrew)
                  && shared.graphqlClients == old(shared.graphqlClients) && shared.nextClient == old(shared.nextClient)
                case Some(step) =>
                  && r == Ok(found)
                  && shared.graphqlClients == step.0 && shared.nextClient == step.1
              })
      ensures shared.availableStores == old(shared.availableStores) && shared.isLoading == old(shared.isLoading)
      ensures shared.error == old(shared.error)
    {
      if |shared.stores| == 0 {
        var fetched := AwaitStores(false, now, src);
        if fetched.Err? {
          return Err(DirectoryFailed(fetched.error));
        }
      }
      var found := FindBySlug(shared.stores, slug);
      if found.None? {
        return Ok(None);
      }
      var isNew := shared.selectedStore.None? || shared.selectedStore.value.slug != slug;
      if isNew {
        shared.selectedStore := found;
        var client := shared.GetGraphQLClient(found.value.graphqlEndpoint, clientInit);
        if client.None? {
          return Err(ClientThrew);
        }
      }
      r := Ok(found);
    }

    /** `getStoreBySlug(slug)`: the first store with that slug, fetching first
        when the directory is empty; selection and clients are untouched. */
    method GetStoreBySlug(slug: string, now: int, src: DirectorySource) returns (r: Result<Option<Store>, string>)
      modifies this, shared
      ensures |old(shared.stores)| > 0 ==> r.Ok? && AfterAwait(true, now, Ok(old(shared.stores)))
      ensures |old(shared.stores)| == 0 ==>
        var o := AwaitedOutcome(isClient, false, old(shared.stores), old(fetchPromise), src);
        && AfterAwait(false, now, o)
        && (r.Err? <==> o.Err?)
        && (o.Err? ==> r == Err(o.error))
      ensures r.Ok? ==> r.value == FindBySlug(shared.stores, slug)
      ensures shared.selectedStore == old(shared.selectedStore) && shared.graphqlClients == old(shared.graphqlClients)
      ensures shared.nextClient == old(shared.nextClient) && shared.availableStores == old(shared.availableStores)
      ensures shared.isLoading == old(shared.isLoading) && shared.error == old(shared.error)
    {
      if |shared.stores| == 0 {
        var fetched := AwaitStores(false, now, src);
        if fetched.Err? {
          return Err(fetched.error);
        }
      }
      r := Ok(FindBySlug(shared.stores, slug));
    }

    /** `initializeStore()`: in the browser, re-selects the stored slug (any
        failure there is ignored), then awaits the directory; true when that
        succeeds, otherwise the failure's message is recorded and false. */
    method InitializeStore(stored: Option<StoredRecord>, now: int, selectSrc: DirectorySource,
                           selectInit: ClientInit, fetchSrc: DirectorySource) returns (ok: bool)
      requires shared.Valid()
      modifies this, shared
      ensures shared.Valid()
      ensures !ok ==> shared.error.Some?
      ensures ok ==> shared.error == old(shared.error)
      ensures shared.availableStores == old(shared.availableStores) && shared.isLoading == old(shared.isLoading)
      ensures !(isClient && stored.Some? && stored.value.StoreJson? && stored.value.store.slug != "") ==>
        var hit := CacheHit(false, old(shared.stores), old(shared.lastFetchTimestamp), now);
        var o := AwaitedOutcome(isClient, hit, old(shared.stores), old(fetchPromise), fetchSrc);
        && (ok <==> o.Ok?)
        && (!ok ==> shared.error == Some(o.error))
        && AfterAwait(hit, now, o)
        && shared.selectedStore == old(shared.selectedStore) && shared.graphqlClients == old(shared.graphqlClients)
        && shared.nextClient == old(shared.nextClient)
    {
      if isClient && stored.Some? && stored.value.StoreJson? && stored.value.store.slug != "" {
        var _ := SelectStore(stored.value.store.slug, now, selectSrc, selectInit);
      }
      var fetched := AwaitStores(false, now, fetchSrc);
      if fetched.Err? {
        shared.error := Some(fetched.error);
        return false;
      }
      ok := true;
    }
  }

  /** Two instances over the same state keep separate promises: with an
      empty directory, each starts its own fetch. */
  method SeparateInstancesFetchTwice(a: StoreServiceInstance, b: StoreServiceInstance, now: int, src: DirectorySource)
    returns (ra: StoresCall, rb: StoresCall)
    requires a != b && a.shared == b.shared
    requires a.fetchPromise == NoPromise && b.fetchPromise == NoPromise && a.shared.stores == []
    requires a.isClient && b.isClient && src.init == InitReady
    modifies a, b, a.shared
    ensures ra == AwaitPromise && rb == AwaitPromise
    ensures a.fetchPromise == Pending(now, src) && b.fetchPromise == Pending(now, src)
  {
    ra := a.GetStores(false, now, src);
    rb := b.GetStores(false, now, src);
  }

  /** Asking twice for an endpoint's client yields the same client once the
      first call made or found one; after a falsy `useGql()` result the second
      call asks again and can get a new client. */
  method SameClientTwice(d: SharedDirectory, endpoint: string, init1: ClientInit, init2: ClientInit)
    returns (first: Option<ClientEntry>, second: Option<ClientEntry>)
    requires d.Valid()
    modifies d
    ensures first.Some? && first.value.Handle? ==> second == first
    ensures endpoint in old(d.graphqlClients) && old(d.graphqlClients)[endpoint].Handle? ==>
      first == Some(old(d.graphqlClients)[endpoint]) && unchanged(d)
    ensures first == Some(FalsyEntry) && init2 == InitReady ==> second == Some(Handle(old(d.nextClient)))
  {
    first := d.GetGraphQLClient(endpoint, init1);
    second := d.GetGraphQLClient(endpoint, init2);
  }

  // ---------------------------------------------------------------------
  // As written: a promise that settles before it is stored

  /** The slot as the source leaves it: a fetch that settles at once runs its
      `finally` (emptying the slot) before line 85 stores the promise, so the
      slot keeps that rejected promise. */
  datatype SlotAsWritten = NoneHeld | PendingHeld(startedAt: int, source: DirectorySource) | RejectedHeld(message: string)

  /** `getStores` as written, up to its first return. */
  function GetStoresAsWritten(isClient: bool, slot: SlotAsWritten, stores: seq<Store>, lastFetch: int,
                              force: bool, now: int, src: DirectorySource): (SlotAsWritten, StoresCall)
  {
    if CacheHit(force, stores, lastFetch, now) then (slot, FromCache(stores))
    else match slot
      case PendingHeld(_, _) => (slot, AwaitPromise)
      case RejectedHeld(message) => (slot, RejectedAtOnce(message))
      case NoneHeld =>
        if SettlesAtOnce(isClient, src) then
          var message := ResolveNodes(isClient, src).error;
          (RejectedHeld(message), RejectedAtOnce(message))
        else (PendingHeld(now, src), AwaitPromise)
  }

  /** One later call: whether to force it, when, the shared cache it meets
      (another instance may have filled it), and what a fetch would meet. */
  datatype LaterCall = LaterCall(force: bool, now: int, stores: seq<Store>, lastFetch: int, src: DirectorySource)

  /** Whether a later call is served from the cache it meets. */
  predicate ServedFromCache(c: LaterCall) {
    CacheHit(c.force, c.stores, c.lastFetch, c.now)
  }

  /** The replies of one instance to a series of calls. */
  function RepliesAsWritten(isClient: bool, slot: SlotAsWritten, calls: seq<LaterCall>): seq<StoresCall>
    decreases |calls|
  {
    if calls == [] then []
    else
      var c := calls[0];
      var step := GetStoresAsWritten(isClient, slot, c.stores, c.lastFetch, c.force, c.now, c.src);
      [step.1] + RepliesAsWritten(isClient, step.0, calls[1..])
  }

  /** Once a fetch has settled at once, every later call of that instance
      that misses the cache, forced or not and whatever the network would now
      answer, gets the same rejection: the instance never fetches again. A
      call that hits the cache gets the cached list. */
  lemma {:induction false} RejectedPromiseIsKept(isClient: bool, message: string, calls: seq<LaterCall>)
    ensures var replies := RepliesAsWritten(isClient, RejectedHeld(message), calls);
      && |replies| == |calls|
      && (forall i :: 0 <= i < |replies| && !ServedFromCache(calls[i]) ==> replies[i] == RejectedAtOnce(message))
      && (forall i :: 0 <= i < |replies| && ServedFromCache(calls[i]) ==> replies[i] == FromCache(calls[i].stores))
  {
    if calls != [] {
      RejectedPromiseIsKept(isClient, message, calls[1..]);
      var replies := RepliesAsWritten(isClient, RejectedHeld(message), calls);
      assert forall i :: 1 <= i < |calls| ==> calls[i] == calls[1..][i - 1] && replies[i] == replies[1..][i - 1];
    }
  }

  /** The first call that meets an absent client leaves the slot holding its rejection. */
  lemma FirstFailureSticks(isClient: bool, now: int, src: DirectorySource, force: bool)
    requires src.init == InitThrows
    ensures GetStoresAsWritten(isClient, NoneHeld, [], 0, force, now, src) ==
      (RejectedHeld(InitFailedMessage), RejectedAtOnce(InitFailedMessage))
  {
  }
}
