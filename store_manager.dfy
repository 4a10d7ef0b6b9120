/** The store manager composable (composables/useStoreManager.ts): the slug
    of a site URL, the current store with its three localStorage keys, the
    rebinding of the GQL instance to a store's endpoint, and the product and
    category fetch helpers. */
module StoreManager {
  import opened Common
  import opened GraphqlPlugin

  // ---------------------------------------------------------------------
  // getStoreSlugFromUrl

  /** A character of the class `[a-z0-9]`. */
  predicate IsSlugAlnum(c: char) {
    'a' <= c <= 'z' || '0' <= c <= '9'
  }

  /** `toLowerCase` of one character, as far as the `[a-z0-9]` test that follows
      it can tell: ASCII capitals become small letters, KELVIN SIGN becomes `k`
      and LATIN CAPITAL LETTER I WITH DOT ABOVE becomes `i` and a combining dot;
      these are the only characters whose lower case meets `[a-z0-9]`, so every
      other character is kept as it is. */
  function LowerChar(c: char): string {
    if 'A' <= c <= 'Z' then [(c as int + 32) as char]
    else if c == '\U{212A}' then "k"
    else if c == '\U{0130}' then "i\U{0307}"
    else [c]
  }

  function Lower(s: string): string {
    if s == [] then [] else LowerChar(s[0]) + Lower(s[1..])
  }

  /** The `[a-z0-9]` characters of `s`, in order. */
  function Alnums(s: string): string {
    if s == [] then [] else (if IsSlugAlnum(s[0]) then [s[0]] else []) + Alnums(s[1..])
  }

  lemma {:induction false} AlnumsAppend(a: string, b: string)
    ensures Alnums(a + b) == Alnums(a) + Alnums(b)
  {
    if a == [] {
      assert a + b == b;
    } else {
      assert (a + b)[1..] == a[1..] + b;
      AlnumsAppend(a[1..], b);
    }
  }

  /** `.replace(/[^a-z0-9]+/g, '-')`: every maximal run of characters outside
      `[a-z0-9]` becomes one hyphen. `inRun` says the previous character began
      or continued such a run. */
  function ReplaceRuns(s: string, inRun: bool): (r: string)
    ensures forall i :: 0 <= i < |r| ==> IsSlugAlnum(r[i]) || r[i] == '-'
    ensures forall i :: 0 <= i < |r| - 1 ==> r[i] != '-' || r[i + 1] != '-'
    ensures inRun && |r| > 0 ==> r[0] != '-'
    ensures Alnums(r) == Alnums(s)
    decreases |s|
  {
    if s == [] then []
    else if IsSlugAlnum(s[0]) then
      var rest := ReplaceRuns(s[1..], false);
      assert ([s[0]] + rest)[1..] == rest;
      [s[0]] + rest
    else if inRun then ReplaceRuns(s[1..], true)
    else
      var rest := ReplaceRuns(s[1..], true);
      assert ("-" + rest)[1..] == rest;
      "-" + rest
  }

  /** `.replace(/(^-|-$)/g, '')`: drop one hyphen at each end. */
  function TrimEdgeHyphens(s: string): string {
    var a := if |s| > 0 && s[0] == '-' then s[1..] else s;
    if |a| > 0 && a[|a| - 1] == '-' then a[..|a| - 1] else a
  }

  /** The slug used when the site URL does not parse: lower-cased, each run of
      characters outside `[a-z0-9]` made one hyphen, edge hyphens removed. It
      keeps exactly the `[a-z0-9]` characters of the lower-cased text, holds
      nothing but `[a-z0-9-]`, never two hyphens in a row and no hyphen at
      either end, and is empty when the text has no letter or digit. */
  function FallbackSlug(siteUrl: string): (r: string)
    ensures forall i :: 0 <= i < |r| ==> IsSlugAlnum(r[i]) || r[i] == '-'
    ensures forall i :: 0 <= i < |r| - 1 ==> r[i] != '-' || r[i + 1] != '-'
    ensures |r| > 0 ==> r[0] != '-' && r[|r| - 1] != '-'
    ensures Alnums(r) == Alnums(Lower(siteUrl))
  {
    var replaced := ReplaceRuns(Lower(siteUrl), false);
    var a := if |replaced| > 0 && replaced[0] == '-' then replaced[1..] else replaced;
    assert Alnums(a) == Alnums(replaced) by {
      if |replaced| > 0 && replaced[0] == '-' {
        assert replaced == "-" + a;
        AlnumsAppend("-", a);
      }
    }
    var r := if |a| > 0 && a[|a| - 1] == '-' then a[..|a| - 1] else a;
    assert Alnums(r) == Alnums(a) by {
      if |a| > 0 && a[|a| - 1] == '-' {
        assert a == r + "-";
        AlnumsAppend(r, "-");
      }
    }
    assert r == TrimEdgeHyphens(replaced);
    r
  }

  /** `getStoreSlugFromUrl(siteUrl)`, with `hostOf` standing for
      `new URL(siteUrl).hostname` (`None` when the constructor throws). A
      parsed URL gives the hostname's first label, or `'unknown'` when that
      label is empty; otherwise the fallback slug. */
  function GetStoreSlugFromUrl(siteUrl: string, hostOf: string -> Option<string>): (r: string)
    ensures hostOf(siteUrl).Some? ==>
      var h := hostOf(siteUrl).value;
      if |h| == 0 || h[0] == '.' then r == "unknown"
      else (0 < |r| <= |h| && r == h[..|r|] && (forall i :: 0 <= i < |r| ==> r[i] != '.')
            && (|r| == |h| || h[|r|] == '.'))
    ensures hostOf(siteUrl).None? ==> r == FallbackSlug(siteUrl)
  {
    match hostOf(siteUrl)
    case Some(h) => if FirstLabel(h) == "" then "unknown" else FirstLabel(h)
    case None => FallbackSlug(siteUrl)
  }

  /** `https://lakshmi.site.cataloghub.in` has slug `lakshmi`. */
  lemma LakshmiSlug(hostOf: string -> Option<string>)
    requires hostOf("https://lakshmi.site.cataloghub.in") == Some("lakshmi.site.cataloghub.in")
    ensures GetStoreSlugFromUrl("https://lakshmi.site.cataloghub.in", hostOf) == "lakshmi"
  {
    LakshmiLabel();
  }

  /** The fallback slug can be empty: a URL made only of punctuation has none. */
  lemma FallbackCanBeEmpty(hostOf: string -> Option<string>)
    requires hostOf("://") == None
    ensures GetStoreSlugFromUrl("://", hostOf) == ""
  {
    assert Lower("://") == "://";
    assert ReplaceRuns("://", false) == "-";
  }

  // ---------------------------------------------------------------------
  // The GQL rebinding of updateGqlEndpoint

  const LocalOrigin: string := "http://localhost:3000"
  const NotInitializedMessage: string := "GraphQL client not initialized"
  const FetchFailedMessage: string := "Failed to fetch stores"
  const WindowUndefinedMessage: string := "window is not defined"

  /** `` `store-${store.site_id}` `` */
  function ClientKey(siteId: int): string {
    "store-" + IntToString(siteId)
  }

  /** The client config of a store: its `/graphql` endpoint, CORS mode with
      credentials, and the page origin (`localhost:3000` when it has none). */
  function StoreClientConfig(store: SiteRecord, windowOrigin: string): (c: ClientConfig)
    ensures c.host == store.site_url + "/graphql"
    ensures c.corsOptions == CorsOptions("cors", "include")
    ensures c.headers == map["Origin" := if windowOrigin != "" then windowOrigin else LocalOrigin]
  {
    ClientConfig(store.site_url + "/graphql", CorsOptions("cors", "include"),
                 map["Origin" := if windowOrigin != "" then windowOrigin else LocalOrigin])
  }

  /** What `updateGqlEndpoint` ends with: no instance (returns `undefined`), the
      new default client, or the `ReferenceError` `window` raises on the server. */
  datatype EndpointUpdate = NoInstance | Updated(client: Client) | WindowUndefined

  /** `result?.data?.[field]?.nodes || []` */
  function NodesOr(payload: Json, field: string): (r: Json)
    ensures var nodes := Member(Member(Member(Some(payload), "data"), field), "nodes");
      r == (if nodes.Some? && Truthy(nodes.value) then nodes.value else JArray([]))
  {
    var nodes := Member(Member(Member(Some(payload), "data"), field), "nodes");
    if nodes.Some? && Truthy(nodes.value) then nodes.value else JArray([])
  }

  datatype FetchNodesError = ClientNotInitialized | QueryFailed(error: QueryError)

  const ProductsQuery: string := "query GetProducts($first: Int!)"
  const CategoriesQuery: string := "query GetCategories($first: Int!)"

  /** The page size both node fetches use when `first` is left out. */
  const DefaultPageSize: int := 10

  /** `sites.find(s => s.site_id === id)`; `None` ids (`NaN`) match nothing. */
  function FindById(sites: seq<SiteRecord>, id: Option<int>): (r: Option<SiteRecord>)
    ensures r.None? <==> id.None? || forall i :: 0 <= i < |sites| ==> sites[i].site_id != id.value
    ensures r.Some? ==> id.Some? && exists i :: (0 <= i < |sites| && sites[i] == r.value
      && r.value.site_id == id.value && forall j :: 0 <= j < i ==> sites[j].site_id != id.value)
  {
    if id.None? || sites == [] then None
    else if sites[0].site_id == id.value then Some(sites[0])
    else
      var r := FindById(sites[1..], id);
      assert r.Some? ==> exists i :: (1 <= i < |sites| && sites[i] == r.value && r.value.site_id == id.value
        && forall j :: 0 <= j < i ==> sites[j].site_id != id.value) by {
        if r.Some? {
          var k :| 0 <= k < |sites[1..]| && sites[1..][k] == r.value && r.value.site_id == id.value
            && forall j :: 0 <= j < k ==> sites[1..][j].site_id != id.value;
          assert sites[k + 1] == r.value;
        }
      }
      r
  }

  /** A directory reply: the fetch or its JSON failed, the body is JSON but
      not an array and has no `length` (an error object, say), or the list of
      site records. */
  datatype DirectoryReply = Unreachable | NotAList | Sites(sites: seq<SiteRecord>)

  /** The composable's state. `gql` is the shared `$gql` instance (null before
      the GQL plugin ran); the three `stored` fields are the localStorage keys
      `currentStoreId`, `currentStoreName` and `currentStoreUrl`. */
  class StoreManagerState {
    const isClient: bool
    const gql: GqlInstance?
    const windowOrigin: string
    var currentStore: Option<SiteRecord>
    var stores: seq<SiteRecord>
    var loading: bool
    var error: Option<string>
    var storedId: Option<string>
    var storedName: Option<string>
    var storedUrl: Option<string>

    constructor (isClient: bool, gql: GqlInstance?, windowOrigin: string,
                 storedId: Option<string>, storedName: Option<string>, storedUrl: Option<string>)
      ensures this.isClient == isClient && this.gql == gql && this.windowOrigin == windowOrigin
      ensures currentStore == None && stores == [] && !loading && error == None
      ensures this.storedId == storedId && this.storedName == storedName && this.storedUrl == storedUrl
    {
      this.isClient := isClient;
      this.gql := gql;
      this.windowOrigin := windowOrigin;
      currentStore := None;
      stores := [];
      loading := false;
      error := None;
      this.storedId := storedId;
      this.storedName := storedName;
      this.storedUrl := storedUrl;
    }

    /** The id text `initializeFromStorage` finds under `currentStoreId` ("" = absent). */
    function StoredIdText(): string
      reads this
    {
      storedId.GetOr("")
    }

    /** The store `initializeFromStorage` would select from the given list. */
    function StoredChoice(list: seq<SiteRecord>): Option<SiteRecord>
      reads this
    {
      if isClient && StoredIdText() != "" then FindById(list, ParseInt(StoredIdText())) else None
    }

    /** `store` is current and, in the browser, written to the three keys. */
    ghost predicate Holds(store: SiteRecord)
      reads this
    {
      && currentStore == Some(store)
      && (isClient ==> storedId == Some(IntToString(store.site_id))
                       && storedName == Some(store.site_name) && storedUrl == Some(store.site_url))
    }

    /** The GQL instance is bound to `store` as `updateGqlEndpoint` leaves it. */
    ghost predicate BoundTo(store: SiteRecord)
      reads this, gql
    {
      gql != null && isClient ==>
        && ClientKey(store.site_id) in gql.clients
        && gql.clients[ClientKey(store.site_id)] == StoreClientConfig(store, windowOrigin)
        && gql.defaultClient == Create(StoreClientConfig(store, windowOrigin))
    }

    /** `updateGqlEndpoint(store)`: registers the store's config under
        `store-<site_id>`, keeps every other entry, and makes a client of that
        config the instance's default. */
    method UpdateGqlEndpoint(store: SiteRecord) returns (r: EndpointUpdate)
      modifies gql
      ensures gql == null ==> r == NoInstance
      ensures gql != null && !isClient ==> r == WindowUndefined && unchanged(gql)
      ensures gql != null && isClient ==>
        && r == Updated(Create(StoreClientConfig(store, windowOrigin)))
        && Host(r.client) == store.site_url + "/graphql"
        && gql.clients == old(gql.clients)[ClientKey(store.site_id) := StoreClientConfig(store, windowOrigin)]
        && (forall k :: k in old(gql.clients) && k != ClientKey(store.site_id) ==>
              k in gql.clients && gql.clients[k] == old(gql.clients)[k])
        && gql.defaultClient == Create(StoreClientConfig(store, windowOrigin))
    {
      if gql == null {
        return NoInstance;
      }
      if !isClient {
        return WindowUndefined;
      }
      var config := StoreClientConfig(store, windowOrigin);
      gql.clients := gql.clients[ClientKey(store.site_id) := config];
      var client := Create(config);
      gql.defaultClient := client;
      r := Updated(gql.defaultClient);
    }

    /** `setCurrentStore(store)`: makes `store` current, writes the three keys
        in the browser, rebinds the GQL instance and returns the store. On the
        server the rebinding raises once `store` is current. */
    method SetCurrentStore(store: SiteRecord) returns (r: Result<SiteRecord, string>)
      modifies this, gql
      ensures Holds(store) && BoundTo(store)
      ensures stores == old(stores) && loading == old(loading) && error == old(error)
      ensures !isClient ==> storedId == old(storedId) && storedName == old(storedName)
                            && storedUrl == old(storedUrl) && (gql != null ==> unchanged(gql))
      ensures gql != null && !isClient ==> r == Err(WindowUndefinedMessage)
      ensures gql == null || isClient ==> r == Ok(store)
      ensures gql != null && isClient ==>
        forall k :: k in old(gql.clients) && k != ClientKey(store.site_id) ==>
          k in gql.clients && gql.clients[k] == old(gql.clients)[k]
    {
      currentStore := Some(store);
      if isClient {
        storedId := Some(IntToString(store.site_id));
        storedName := Some(store.site_name);
        storedUrl := Some(store.site_url);
      }
      var updated := UpdateGqlEndpoint(store);
      if updated.WindowUndefined? {
        return Err(WindowUndefinedMessage);
      }
      r := Ok(store);
    }

    /** The lookup half of `initializeFromStorage` (lines 142-159 once the
        list is loaded): selects the stored store when the list holds it. */
    method RestoreFromStorage() returns (found: bool)
      modifies this, gql
      ensures found <==> old(StoredChoice(stores)).Some?
      ensures found ==> Holds(old(StoredChoice(stores)).value) && BoundTo(old(StoredChoice(stores)).value)
      ensures !found ==> unchanged(this) && (gql != null ==> unchanged(gql))
      ensures stores == old(stores) && loading == old(loading) && error == old(error)
    {
      var choice := StoredChoice(stores);
      if choice.Some? {
        var _ := SetCurrentStore(choice.value);
        return true;
      }
      return false;
    }

    /** `fetchStores()` with the re-entry into `initializeFromStorage` made
        safe: the list replaces `stores` (no status check), a failed fetch
        records the error, and a non-empty list restores the stored store
        when none is current. Unlike the source, an empty list does not start
        another lookup that would fetch again, and a body that is not a list
        counts as a failed fetch instead of replacing `stores` (see the
        findings). */
    method FetchStores(reply: DirectoryReply)
      modifies this, gql
      ensures !loading
      ensures !reply.Sites? ==>
        (error == Some(FetchFailedMessage) && stores == old(stores)
         && currentStore == old(currentStore) && storedId == old(storedId)
         && storedName == old(storedName) && storedUrl == old(storedUrl) && (gql != null ==> unchanged(gql)))
      ensures reply.Sites? ==> stores == reply.sites && error == old(error)
      ensures reply.Sites? ==>
        var restore := isClient && old(currentStore).None? && |reply.sites| > 0;
        var choice := old(StoredChoice(reply.sites));
        if restore && choice.Some? then Holds(choice.value) && BoundTo(choice.value)
        else (currentStore == old(currentStore) && storedId == old(storedId)
              && storedName == old(storedName) && storedUrl == old(storedUrl) && (gql != null ==> unchanged(gql)))
    {
      loading := true;
      match reply {
        case Unreachable =>
          error := Some(FetchFailedMessage);
        case NotAList =>
          error := Some(FetchFailedMessage);
        case Sites(list) =>
          stores := list;
          if isClient && currentStore.None? && |list| > 0 {
            var _ := RestoreFromStorage();
          }
      }
      loading := false;
    }

    /** `initializeFromStorage()`: in the browser, with a `currentStoreId`
        stored, fetches the directory when it is empty, then selects the store
        whose `site_id` is `parseInt` of the stored id. Returns true exactly
        when such a store is in the list; otherwise the current store is kept. */
    method InitializeFromStorage(reply: DirectoryReply) returns (found: bool)
      modifies this, gql
      ensures var list := if isClient && old(StoredIdText()) != "" && |old(stores)| == 0 && reply.Sites?
                          then reply.sites else old(stores);
        && stores == list
        && (found <==> old(StoredChoice(list)).Some?)
        && (found ==> Holds(old(StoredChoice(list)).value) && BoundTo(old(StoredChoice(list)).value))
      ensures var fetched := isClient && old(StoredIdText()) != "" && |old(stores)| == 0;
        && loading == (if fetched then false else old(loading))
        && error == (if fetched && !reply.Sites? then Some(FetchFailedMessage) else old(error))
      ensures !found ==>
        && currentStore == old(currentStore) && storedId == old(storedId)
        && storedName == old(storedName) && storedUrl == old(storedUrl)
        && (gql != null ==> unchanged(gql))
    {
      if isClient && StoredIdText() != "" {
        if |stores| == 0 {
          ghost var choice := StoredChoice(if reply.Sites? then reply.sites else stores);
          FetchStores(reply);
          if choice.Some? {
            // a lookup inside the fetch may have rewritten the id; it still names the same store
            IdRewriteFindsSame(stores, ParseInt(old(StoredIdText())));
          }
        }
        found := RestoreFromStorage();
      } else {
        found := false;
      }
    }

    /** The shared body of `fetchStoreProducts` and `fetchStoreCategories`:
        the request sent, if any, and the nodes of its reply. */
    method QueryNodes(query: string, field: string, first: int, reply: HttpReply)
      returns (sent: Option<Request>, r: Result<Json, FetchNodesError>)
      ensures gql == null ==> sent == None && r == Err(ClientNotInitialized)
      ensures gql != null ==>
        && sent.Some? && sent.value.url == Host(gql.defaultClient) && sent.value.verb == "POST"
        && sent.value.body == QueryBody(query, Some(JObject(map["first" := JNumber(first)])))
      ensures gql != null ==> match Classify(reply) {
        case Payload(data) => r == Ok(NodesOr(data, field))
        case Failed(e) => r == Err(QueryFailed(e))
      }
    {
      if gql == null {
        return None, Err(ClientNotInitialized);
      }
      var request, outcome := gql.DefaultQuery(query, Some(JObject(map["first" := JNumber(first)])), reply);
      sent := Some(request);
      match outcome
      case Payload(data) => r := Ok(NodesOr(data, field));
      case Failed(e) => r := Err(QueryFailed(e));
    }

    /** `fetchStoreProducts(store, first)`: fails when there is no GQL instance,
        otherwise asks the default client for `first` products (10 when the
        argument is left out) and returns the `products.nodes` of its reply,
        or `[]` when the payload has none. */
    method FetchStoreProducts(first: Option<int>, reply: HttpReply)
      returns (sent: Option<Request>, r: Result<Json, FetchNodesError>)
      ensures gql == null ==> sent == None && r == Err(ClientNotInitialized)
      ensures gql != null ==>
        && sent.Some? && sent.value.url == Host(gql.defaultClient)
        && sent.value.body == QueryBody(ProductsQuery, Some(JObject(map["first" := JNumber(first.GetOr(DefaultPageSize))])))
      ensures gql != null && Classify(reply).Payload? ==> r == Ok(NodesOr(Classify(reply).data, "products"))
      ensures gql != null && Classify(reply).Failed? ==> r == Err(QueryFailed(Classify(reply).error))
    {
      sent, r := QueryNodes(ProductsQuery, "products", first.GetOr(DefaultPageSize), reply);
    }

    /** `fetchStoreCategories(store, first)`: as the product fetch, for
        `productCategories.nodes`. */
    method FetchStoreCategories(first: Option<int>, reply: HttpReply)
      returns (sent: Option<Request>, r: Result<Json, FetchNodesError>)
      ensures gql == null ==> sent == None && r == Err(ClientNotInitialized)
      ensures gql != null ==>
        && sent.Some? && sent.value.url == Host(gql.defaultClient)
        && sent.value.body == QueryBody(CategoriesQuery, Some(JObject(map["first" := JNumber(first.GetOr(DefaultPageSize))])))
      ensures gql != null && Classify(reply).Payload? ==> r == Ok(NodesOr(Classify(reply).data, "productCategories"))
      ensures gql != null && Classify(reply).Failed? ==> r == Err(QueryFailed(Classify(reply).error))
    {
      sent, r := QueryNodes(CategoriesQuery, "productCategories", first.GetOr(DefaultPageSize), reply);
    }
  }

  /** Re-selecting after a reload: once `setCurrentStore(s)` has written the
      keys, `initializeFromStorage` on a list whose first store with that id is
      `s` selects `s` again. */
  lemma StoredStoreIsFoundAgain(s: SiteRecord, list: seq<SiteRecord>, i: nat)
    requires i < |list| && list[i] == s
    requires forall j :: 0 <= j < i ==> list[j].site_id != s.site_id
    ensures FindById(list, ParseInt(IntToString(s.site_id))) == Some(s)
  {
    ParseIntOfIntToString(s.site_id);
    assert list[i].site_id == s.site_id;
    var r := FindById(list, Some(s.site_id));
    var k :| 0 <= k < |list| && list[k] == r.value && r.value.site_id == s.site_id
      && forall j :: 0 <= j < k ==> list[j].site_id != s.site_id;
    assert k == i;
  }

  /** Writing back the id of the store a lookup found finds that store again. */
  lemma IdRewriteFindsSame(list: seq<SiteRecord>, id: Option<int>)
    requires FindById(list, id).Some?
    ensures FindById(list, ParseInt(IntToString(FindById(list, id).value.site_id))) == FindById(list, id)
  {
    ParseIntOfIntToString(FindById(list, id).value.site_id);
  }

  lemma NodesOrAbsent(payload: Json, field: string)
    requires Member(Member(Member(Some(payload), "data"), field), "nodes").None?
    ensures NodesOr(payload, field) == JArray([])
  {
  }

  // ---------------------------------------------------------------------
  // As written: fetchStores and initializeFromStorage call each other

  /** The part of the composable's state the as-written loop touches;
      `stores == None` when `stores.value` holds a value with no `length`. */
  datatype LoopState = LoopState(current: Option<SiteRecord>, stores: Option<seq<SiteRecord>>)

  /** How an as-written run ends: settled with the store found or not and the
      replies left over, thrown out of a lookup (`find` on a value that is not
      a list) with the replies left over, or still wanting another fetch when
      the replies ran out. */
  datatype Run =
    | Settled(state: LoopState, found: bool, left: seq<DirectoryReply>)
    | Threw(state: LoopState, left: seq<DirectoryReply>)
    | WantsAnotherFetch

  function LookupAsWritten(isClient: bool, storedId: string, st: LoopState, left: seq<DirectoryReply>): Run {
    match st.stores
    case None => Threw(st, left)
    case Some(list) =>
      var s := FindById(list, ParseInt(storedId));
      if s.Some? then Settled(st.(current := s), true, left) else Settled(st, false, left)
  }

  /** `initializeFromStorage` as written (lines 140-164), on a script of
      replies: `!stores.value.length` holds for an empty list and for a value
      with no `length`. */
  function InitializeAsWritten(isClient: bool, storedId: string, st: LoopState, replies: seq<DirectoryReply>): Run
    decreases |replies|, 1
  {
    if isClient && storedId != "" then
      if st.stores.None? || |st.stores.value| == 0 then
        match FetchAsWritten(isClient, storedId, st, replies)
        case WantsAnotherFetch => WantsAnotherFetch
        case Threw(st2, left) => Threw(st2, left)
        case Settled(st2, _, left) => LookupAsWritten(isClient, storedId, st2, left)
      else LookupAsWritten(isClient, storedId, st, replies)
    else Settled(st, false, replies)
  }

  /** `fetchStores` as written (lines 98-115): whatever JSON arrives replaces
      `stores`, and then, with no current store in the browser, it calls
      `initializeFromStorage` again; a throw inside that call is caught. */
  function FetchAsWritten(isClient: bool, storedId: string, st: LoopState, replies: seq<DirectoryReply>): Run
    decreases |replies|, 0
  {
    if replies == [] then WantsAnotherFetch
    else
      var st2 := match replies[0]
        case Unreachable => st
        case NotAList => st.(stores := None)
        case Sites(list) => st.(stores := Some(list));
      if replies[0].Unreachable? then Settled(st, false, replies[1..])
      else if isClient && st2.current.None? then
        match InitializeAsWritten(isClient, storedId, st2, replies[1..])
        case Threw(st3, left) => Settled(st3, false, left)
        case other => other
      else Settled(st2, false, replies[1..])
  }

  /** A reply that leaves `stores.value.length` falsy. */
  predicate Lengthless(reply: DirectoryReply) {
    reply == Sites([]) || reply == NotAList
  }

  /** With a stored id and a directory that keeps answering `[]` or a value
      that is not a list, the as-written pair never settles: however many
      replies it is given, it uses them all and asks for one more. */
  lemma {:induction false} EmptyDirectoryNeverSettles(storedId: string, st: LoopState, replies: seq<DirectoryReply>)
    requires storedId != "" && st.current.None?
    requires st.stores.None? || st.stores.value == []
    requires forall i :: 0 <= i < |replies| ==> Lengthless(replies[i])
    ensures InitializeAsWritten(true, storedId, st, replies) == WantsAnotherFetch
    decreases |replies|
  {
    if replies != [] {
      assert Lengthless(replies[0]);
      var st2 := if replies[0] == NotAList then st.(stores := None) else st.(stores := Some([]));
      assert forall i :: 0 <= i < |replies[1..]| ==> Lengthless(replies[1..][i]) by {
        forall i | 0 <= i < |replies[1..]| ensures Lengthless(replies[1..][i]) {
          assert replies[1..][i] == replies[i + 1];
        }
      }
      EmptyDirectoryNeverSettles(storedId, st2, replies[1..]);
    }
  }
}
