/** The endpoint override plugin (plugins/graphqlEndpointOverride.ts): which
    GraphQL endpoint a page starts with. In the browser that is a pinned
    endpoint, then the stored selection; on the server the `selectedStore`
    cookie, then the store named by a `/store/<slug>` request path; a fixed
    placeholder when nothing applies. */
module EndpointOverride {
  import opened Common
  import StoreRouting

  /** The placeholder endpoint used when no store is known. */
  const DummyEndpoint: string := "https://123.com"

  const NoStoreSelectedMessage: string := "No store selected. Please select a store."

  /** What `decodeURIComponent` and then `JSON.parse` make of the cookie value:
      malformed percent-encoding (a `URIError`), or the parsed record. */
  datatype CookieDecode = BadEncoding | Decoded(record: StoredRecord)

  /** What the endpoint lookup reads. In the browser: the `graphql_endpoint`
      and `selectedStore` localStorage keys (`None` when absent or empty). On
      the server: the request's `cookie` header (`""` when absent), the
      decoding of a cookie value, the request URL (`None` without an SSR
      event) and the store service's current directory. */
  datatype Signals =
    | ClientSignals(pinned: Option<string>, selection: Option<StoredRecord>)
    | ServerSignals(cookieHeader: string, decode: string -> CookieDecode,
                    requestUrl: Option<string>, availableStores: seq<Store>)

  /** What the lookup throws. */
  datatype EndpointError = MalformedCookie | NoStoreSelected

  /** `cookieHeader.match(/selectedStore=([^;]+)/)[1]` */
  function CookieValue(cookieHeader: string): Option<string> {
    FirstCapture(cookieHeader, "selectedStore=", {';'})
  }

  /** `url.match(/\/store\/([^/?#]+)/)[1]` */
  function RouteSlug(url: string): Option<string> {
    FirstCapture(url, "/store/", {'/', '?', '#'})
  }

  /** The endpoint a stored record names, when it names a non-empty one. */
  function RecordEndpoint(record: StoredRecord): Option<string> {
    if record.StoreJson? && record.store.graphqlEndpoint != "" then Some(record.store.graphqlEndpoint) else None
  }

  /** The cookie's endpoint: `None` when there is no cookie value or it does
      not name an endpoint; an error when its encoding is malformed. */
  function CookieEndpoint(cookieHeader: string, decode: string -> CookieDecode): Result<Option<string>, EndpointError> {
    match CookieValue(cookieHeader)
    case None => Ok(None)
    case Some(v) =>
      match decode(v)
      case BadEncoding => Err(MalformedCookie)
      case Decoded(record) => Ok(RecordEndpoint(record))
  }

  /** `getGraphQLEndpoint()`, a chain of early returns over the signals. */
  function GetGraphQLEndpoint(signals: Signals): (r: Result<string, EndpointError>)
    ensures signals.ClientSignals? ==> r.Ok?
    ensures r.Ok? ==> r.value != ""
  {
    match signals
    case ClientSignals(pinned, selection) =>
      if pinned.Some? && pinned.value != "" then Ok(pinned.value)
      else if selection.Some? && RecordEndpoint(selection.value).Some? then Ok(RecordEndpoint(selection.value).value)
      else Ok(DummyEndpoint)
    case ServerSignals(cookieHeader, decode, requestUrl, stores) =>
      match CookieEndpoint(cookieHeader, decode)
      case Err(e) => Err(e)
      case Ok(Some(endpoint)) => Ok(endpoint)
      case Ok(None) =>
        var slug := if requestUrl.Some? then RouteSlug(requestUrl.value) else None;
        if slug.None? then Ok(DummyEndpoint)
        else
          var store := FindBySlug(stores, slug.value);
          if store.Some? && store.value.graphqlEndpoint != "" then Ok(store.value.graphqlEndpoint)
          else Err(NoStoreSelected)
  }

  /** Browser: a non-empty pinned endpoint wins over everything. */
  lemma PinnedEndpointWins(pinned: string, selection: Option<StoredRecord>)
    requires pinned != ""
    ensures GetGraphQLEndpoint(ClientSignals(Some(pinned), selection)) == Ok(pinned)
  {
  }

  /** Browser, nothing pinned: the stored record's endpoint, and the
      placeholder when the record is absent, corrupt or names none. */
  lemma ClientFallsBackToSelection(pinned: Option<string>, selection: Option<StoredRecord>)
    requires pinned.None? || pinned.value == ""
    ensures selection.Some? && RecordEndpoint(selection.value).Some? ==>
      GetGraphQLEndpoint(ClientSignals(pinned, selection)) == Ok(selection.value.store.graphqlEndpoint)
    ensures selection.None? || RecordEndpoint(selection.value).None? ==>
      GetGraphQLEndpoint(ClientSignals(pinned, selection)) == Ok(DummyEndpoint)
  {
  }

  /** Server: a cookie naming an endpoint wins over the request path. */
  lemma CookieWins(cookieHeader: string, decode: string -> CookieDecode, requestUrl: Option<string>, stores: seq<Store>)
    requires CookieEndpoint(cookieHeader, decode).Ok? && CookieEndpoint(cookieHeader, decode).value.Some?
    ensures GetGraphQLEndpoint(ServerSignals(cookieHeader, decode, requestUrl, stores)) ==
      Ok(CookieEndpoint(cookieHeader, decode).value.value)
  {
  }

  /** Server, no usable cookie, a `/store/<slug>` path: the endpoint of the
      first store with that slug, and otherwise an error, never the placeholder. */
  lemma RouteSlugDecides(cookieHeader: string, decode: string -> CookieDecode, url: string, stores: seq<Store>)
    requires CookieEndpoint(cookieHeader, decode) == Ok(None)
    requires RouteSlug(url).Some?
    ensures var r := GetGraphQLEndpoint(ServerSignals(cookieHeader, decode, Some(url), stores));
      var store := FindBySlug(stores, RouteSlug(url).value);
      r == if store.Some? && store.value.graphqlEndpoint != "" then Ok(store.value.graphqlEndpoint) else Err(NoStoreSelected)
  {
  }

  /** Server, no usable cookie and no `/store/` segment: the placeholder. */
  lemma ServerPlaceholder(cookieHeader: string, decode: string -> CookieDecode, requestUrl: Option<string>, stores: seq<Store>)
    requires CookieEndpoint(cookieHeader, decode) == Ok(None)
    requires requestUrl.None? || RouteSlug(requestUrl.value).None?
    ensures GetGraphQLEndpoint(ServerSignals(cookieHeader, decode, requestUrl, stores)) == Ok(DummyEndpoint)
  {
  }

  /** No text of `header` starting inside its first `|p|` characters matches
      `selectedStore=([^;]+)`: the cookies before it do not contain that text,
      not even at the end of another cookie's name. */
  predicate NoEarlierCookie(header: string, p: string) {
    forall i :: 0 <= i < |p| ==> !MatchAt(header, i, "selectedStore=", {';'})
  }

  /** The server's cookie value: everything after `selectedStore=` up to the
      next `;`, behind whatever cookies `p` comes first, provided none of them
      holds an earlier `selectedStore=` followed by a value. */
  lemma CookieValueOfHeader(p: string, value: string, rest: string)
    requires |value| > 0 && forall k :: 0 <= k < |value| ==> value[k] != ';'
    requires rest == [] || rest[0] == ';'
    requires NoEarlierCookie(p + "selectedStore=" + value + rest, p)
    ensures CookieValue(p + "selectedStore=" + value + rest) == Some(value)
  {
    FirstCaptureAfter(p, "selectedStore=", value, rest, {';'});
  }

  /** The match is not anchored to a cookie name: a cookie named
      `prevselectedStore` before the store's own cookie is read instead of it. */
  lemma EarlierOccurrenceWins(other: string, value: string, rest: string)
    requires |other| > 0 && forall k :: 0 <= k < |other| ==> other[k] != ';'
    ensures CookieValue("prev" + "selectedStore=" + other + "; selectedStore=" + value + rest) == Some(other)
  {
    var tail := "; selectedStore=" + value + rest;
    var header := "prev" + "selectedStore=" + other + tail;
    assert tail[0] == ';';
    forall i | 0 <= i < |"prev"|
      ensures !MatchAt(header, i, "selectedStore=", {';'})
    {
      assert header[i] == "prev"[i];
      if i + |"selectedStore="| < |header| {
        assert header[i..i + |"selectedStore="|][0] == header[i];
      }
    }
    CookieValueOfHeader("prev", other, tail);
    assert "prev" + "selectedStore=" + other + tail
        == "prev" + "selectedStore=" + other + "; selectedStore=" + value + rest;
  }

  /** Server: a cookie whose value is not valid percent-encoding makes the lookup throw. */
  lemma MalformedCookieThrows(p: string, value: string, rest: string, decode: string -> CookieDecode,
                              requestUrl: Option<string>, stores: seq<Store>)
    requires |value| > 0 && forall k :: 0 <= k < |value| ==> value[k] != ';'
    requires rest == [] || rest[0] == ';'
    requires NoEarlierCookie(p + "selectedStore=" + value + rest, p)
    requires decode(value) == BadEncoding
    ensures GetGraphQLEndpoint(ServerSignals(p + "selectedStore=" + value + rest, decode, requestUrl, stores)) ==
      Err(MalformedCookie)
  {
    CookieValueOfHeader(p, value, rest);
  }

  /** With nothing pinned, browser and server agree: when localStorage and
      the cookie hold the same store, and no cookie before it holds an
      earlier `selectedStore=`, both start from its endpoint. */
  lemma SidesAgree(s: Store, p: string, value: string, rest: string, decode: string -> CookieDecode,
                   requestUrl: Option<string>, stores: seq<Store>)
    requires s.graphqlEndpoint != ""
    requires |value| > 0 && forall k :: 0 <= k < |value| ==> value[k] != ';'
    requires rest == [] || rest[0] == ';'
    requires NoEarlierCookie(p + "selectedStore=" + value + rest, p)
    requires decode(value) == Decoded(StoreJson(s))
    ensures GetGraphQLEndpoint(ClientSignals(None, Some(StoreJson(s)))) == Ok(s.graphqlEndpoint)
    ensures GetGraphQLEndpoint(ServerSignals(p + "selectedStore=" + value + rest, decode, requestUrl, stores)) ==
      Ok(s.graphqlEndpoint)
  {
    CookieValueOfHeader(p, value, rest);
  }

  /** A pinned endpoint breaks that agreement: the browser uses it while the
      server still follows the cookie. */
  lemma PinnedEndpointDiverges(s: Store, pinned: string, value: string, decode: string -> CookieDecode)
    requires s.graphqlEndpoint != "" && pinned != "" && pinned != s.graphqlEndpoint
    requires |value| > 0 && forall k :: 0 <= k < |value| ==> value[k] != ';'
    requires decode(value) == Decoded(StoreJson(s))
    ensures GetGraphQLEndpoint(ClientSignals(Some(pinned), Some(StoreJson(s)))) !=
      GetGraphQLEndpoint(ServerSignals("selectedStore=" + value, decode, None, []))
  {
    CookieValueOfHeader([], value, []);
    assert [] + "selectedStore=" + value + [] == "selectedStore=" + value;
  }

  /** A server request for a link the store router built finds that store's
      slug: `/store/<slug><path>` with a path starting at `/`, `?` or `#`. */
  lemma RouteSlugOfStoreUrl(path: string, slug: string)
    requires slug != "" && forall k :: 0 <= k < |slug| ==> slug[k] !in {'/', '?', '#'}
    requires path == [] || path[0] in {'/', '?', '#'}
    ensures RouteSlug(StoreRouting.GetStoreUrl(path, slug, None)) == Some(slug)
  {
    FirstCaptureAtStart("/store/", slug, path, {'/', '?', '#'});
  }

  /** The `detail` of a `graphql-endpoint-set` event: none, or an object whose
      `endpoint` may be missing. */
  datatype EventDetail = NoDetail | Detail(endpoint: Option<string>)

  /** The listener reloads the page exactly when the event's endpoint is truthy. */
  predicate ShouldReload(detail: EventDetail) {
    detail.Detail? && detail.endpoint.Some? && detail.endpoint.value != ""
  }

  /** What the plugin's setup does: nothing without a Vue app; otherwise it
      provides a default client at the endpoint found (and, in the browser,
      listens for endpoint changes), or fails with the lookup's error. */
  datatype SetupOutcome = NotPatched | Provided(host: string, listens: bool) | SetupFailed(error: EndpointError)

  function Setup(hasVueApp: bool, signals: Signals): (r: SetupOutcome)
    ensures !hasVueApp ==> r == NotPatched
    ensures hasVueApp && GetGraphQLEndpoint(signals).Ok? ==>
      r == Provided(GetGraphQLEndpoint(signals).value, signals.ClientSignals?)
    ensures hasVueApp && GetGraphQLEndpoint(signals).Err? ==> r == SetupFailed(GetGraphQLEndpoint(signals).error)
  {
    if !hasVueApp then NotPatched
    else match GetGraphQLEndpoint(signals)
      case Err(e) => SetupFailed(e)
      case Ok(host) => Provided(host, signals.ClientSignals?)
  }
}
