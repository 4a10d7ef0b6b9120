/** The store service the plugins and middleware use
    (services/storeService.ts): module-level directory and selection state,
    an `isFetching` re-entrancy guard around the directory fetch, the mapping
    of site records to stores, and `selectStore`, which writes the selection
    to localStorage and points the default client at the store's endpoint. */
module StoreService {
  import opened Common

  /** How the directory fetch went: the request rejected (with the engine's
      message), or a status and what `response.json()` made of the body. */
  datatype SitesReply = Unreachable(message: string) | Answered(status: int, body: SitesBody)

  /** The parsed body: not JSON, JSON that has no `map`, or a list of site records. */
  datatype SitesBody = Unparsable(message: string) | NotAList(message: string) | SiteList(records: seq<SiteRecord>)

  const FetchFailedMessage: string := "Failed to fetch stores"

  /** One site record as a store; `host` is the hostname of its `site_url`. */
  function ToStore(record: SiteRecord, host: string): (s: Store)
    ensures s.id == NumId(record.site_id) && s.name == record.site_name && s.url == record.site_url
    ensures s.slug == FirstLabel(host) && s.description == Some("") && s.thumbnail == None
    ensures s.graphqlEndpoint == record.site_url + "/graphql"
  {
    Store(NumId(record.site_id), record.site_name, FirstLabel(host), Some(""),
          record.site_url, record.site_url + "/graphql", None)
  }

  /** `data.map(...)` with `hostOf` standing for `new URL(u).hostname`: `Err`
      carries the message the engine's `URL` constructor throws. The mapping
      fails with the message of the first `site_url` that does not parse;
      otherwise one store per record, in order. */
  function MapSites(records: seq<SiteRecord>, hostOf: string -> Result<string, string>): (r: Result<seq<Store>, string>)
    ensures r.Err? <==> exists i :: 0 <= i < |records| && hostOf(records[i].site_url).Err?
    ensures r.Err? ==> exists i :: (0 <= i < |records| && hostOf(records[i].site_url) == Err(r.error)
      && forall j :: 0 <= j < i ==> hostOf(records[j].site_url).Ok?)
    ensures r.Ok? ==> |r.value| == |records| && forall i :: 0 <= i < |records| ==>
      hostOf(records[i].site_url).Ok? && r.value[i] == ToStore(records[i], hostOf(records[i].site_url).value)
  {
    if records == [] then Ok([])
    else match hostOf(records[0].site_url)
      case Err(message) =>
        assert hostOf(records[0].site_url) == Err(message);
        Err(message)
      case Ok(host) =>
        var rest := MapSites(records[1..], hostOf);
        assert rest.Err? ==> exists i :: (0 <= i < |records| && hostOf(records[i].site_url) == Err(rest.error)
          && forall j :: 0 <= j < i ==> hostOf(records[j].site_url).Ok?) by {
          if rest.Err? {
            var k :| 0 <= k < |records[1..]| && hostOf(records[1..][k].site_url) == Err(rest.error)
              && forall j :: 0 <= j < k ==> hostOf(records[1..][j].site_url).Ok?;
            assert hostOf(records[k + 1].site_url) == Err(rest.error);
            assert forall j :: 1 <= j < k + 1 ==> records[j] == records[1..][j - 1];
          }
        }
        assert rest.Err? ==> exists i :: 0 <= i < |records| && hostOf(records[i].site_url).Err?;
        assert (exists i :: 0 <= i < |records| && hostOf(records[i].site_url).Err?) ==> rest.Err? by {
          if i :| 0 <= i < |records| && hostOf(records[i].site_url).Err? {
            assert i > 0;
            assert hostOf(records[1..][i - 1].site_url).Err?;
          }
        }
        if rest.Err? then Err(rest.error) else Ok([ToStore(records[0], host)] + rest.value)
  }

  /** What the fetch leaves in `availableStores` or `error`: the mapped list,
      or the message of whatever was thrown. */
  function DirectoryOutcome(reply: SitesReply, hostOf: string -> Result<string, string>): (r: Result<seq<Store>, string>)
    ensures r.Ok? <==> reply.Answered? && 200 <= reply.status <= 299 && reply.body.SiteList?
                       && MapSites(reply.body.records, hostOf).Ok?
    ensures r.Ok? ==> r.value == MapSites(reply.body.records, hostOf).value
    ensures reply.Unreachable? ==> r == Err(reply.message)
    ensures reply.Answered? && !(200 <= reply.status <= 299) ==> r == Err(FetchFailedMessage)
    ensures (reply.Answered? && 200 <= reply.status <= 299 && !reply.body.SiteList?) ==> r == Err(reply.body.message)
    ensures (reply.Answered? && 200 <= reply.status <= 299 && reply.body.SiteList?
             && MapSites(reply.body.records, hostOf).Err?) ==> r == Err(MapSites(reply.body.records, hostOf).error)
  {
    match reply
    case Unreachable(message) => Err(message)
    case Answered(status, body) =>
      if !(200 <= status <= 299) then Err(FetchFailedMessage)
      else match body
        case Unparsable(message) => Err(message)
        case NotAList(message) => Err(message)
        case SiteList(records) => MapSites(records, hostOf)
  }

  /** A store as the fetch makes it: endpoint `<url>/graphql` and a dot-free slug. */
  predicate Mapped(s: Store) {
    s.graphqlEndpoint == s.url + "/graphql" && forall i :: 0 <= i < |s.slug| ==> s.slug[i] != '.'
  }

  /** Every store a successful fetch yields is mapped. */
  lemma {:induction false} FetchedStoresAreMapped(reply: SitesReply, hostOf: string -> Result<string, string>)
    requires DirectoryOutcome(reply, hostOf).Ok?
    ensures forall s :: s in DirectoryOutcome(reply, hostOf).value ==> Mapped(s)
  {
    var list := DirectoryOutcome(reply, hostOf).value;
    forall s | s in list
      ensures Mapped(s)
    {
      var i :| 0 <= i < |list| && list[i] == s;
      assert s == ToStore(reply.body.records[i], hostOf(reply.body.records[i].site_url).value);
    }
  }

  /** A one-record directory maps to that record's store. */
  lemma MapSingle(hostOf: string -> Result<string, string>, r: SiteRecord, h: string)
    requires hostOf(r.site_url) == Ok(h)
    ensures MapSites([r], hostOf) == Ok([ToStore(r, h)])
  {
    assert [r][1..] == [];
    assert MapSites([], hostOf) == Ok([]);
    assert [ToStore(r, h)] + [] == [ToStore(r, h)];
  }

  /** A record whose URL has host `lakshmi.site.cataloghub.in` maps to the
      store with slug `lakshmi`. */
  lemma LakshmiRecord(hostOf: string -> Result<string, string>, r: SiteRecord)
    requires hostOf(r.site_url) == Ok("lakshmi.site.cataloghub.in")
    ensures MapSites([r], hostOf).Ok?
    ensures var s := MapSites([r], hostOf).value[0];
      s.slug == "lakshmi" && s.graphqlEndpoint == r.site_url + "/graphql" && s.id == NumId(r.site_id)
  {
    MapSingle(hostOf, r, "lakshmi.site.cataloghub.in");
    LakshmiLabel();
  }

  /** What `initializeStore` can throw: `JSON.parse` of the stored selection. */
  datatype InitError = SelectionNotJson

  /** The module-level state. `storedSelection` is the localStorage key
      `selectedStore`; `defaultClientHost` is `$graphql.clients.default.host`,
      `None` when the app has no such client. */
  class StoreServiceState {
    const isClient: bool
    var selectedStore: Option<Store>
    var availableStores: seq<Store>
    var isLoading: bool
    var error: Option<string>
    var isFetching: bool
    var storedSelection: Option<StoredRecord>
    var defaultClientHost: Option<string>

    /** Loading is shown exactly while a fetch is in flight, and the
        directory holds only mapped stores. */
    ghost predicate Valid()
      reads this
    {
      isLoading == isFetching && forall s :: s in availableStores ==> Mapped(s)
    }

    constructor (isClient: bool, storedSelection: Option<StoredRecord>, defaultClientHost: Option<string>)
      ensures Valid()
      ensures this.isClient == isClient && selectedStore == None && availableStores == []
      ensures !isLoading && error == None && !isFetching
      ensures this.storedSelection == storedSelection && this.defaultClientHost == defaultClientHost
    {
      this.isClient := isClient;
      selectedStore := None;
      availableStores := [];
      isLoading := false;
      error := None;
      isFetching := false;
      this.storedSelection := storedSelection;
      this.defaultClientHost := defaultClientHost;
    }

    /** The synchronous start of `fetchStores` (lines 25-32): refused while a
        fetch is in flight, otherwise raises both flags and clears the error. */
    method StartFetch() returns (started: bool)
      requires Valid()
      modifies this
      ensures Valid()
      ensures started <==> !old(isFetching)
      ensures !started ==> unchanged(this)
      ensures started ==>
        (isFetching && isLoading && error == None
         && availableStores == old(availableStores) && selectedStore == old(selectedStore)
         && storedSelection == old(storedSelection) && defaultClientHost == old(defaultClientHost))
    {
      if isFetching {
        return false;
      }
      isFetching := true;
      isLoading := true;
      error := None;
      started := true;
    }

    /** The rest of `fetchStores` once the reply is in (lines 34-66): the
        mapped list replaces the directory, or the error is recorded and the
        directory kept; both flags drop whatever happened. */
    method FinishFetch(reply: SitesReply, hostOf: string -> Result<string, string>)
      requires Valid() && isFetching
      modifies this
      ensures Valid()
      ensures !isLoading && !isFetching
      ensures match DirectoryOutcome(reply, hostOf) {
        case Ok(list) => availableStores == list && error == old(error)
        case Err(message) => availableStores == old(availableStores) && error == Some(message)
      }
      ensures selectedStore == old(selectedStore) && storedSelection == old(storedSelection)
      ensures defaultClientHost == old(defaultClientHost)
    {
      var outcome := DirectoryOutcome(reply, hostOf);
      match outcome {
        case Ok(list) =>
          FetchedStoresAreMapped(reply, hostOf);
          availableStores := list;
        case Err(message) =>
          error := Some(message);
      }
      isLoading := false;
      isFetching := false;
    }

    /** `fetchStores()` run to completion: nothing at all while another fetch
        is in flight; otherwise the outcome of the reply, with the error
        cleared on success and both flags down afterwards. */
    method FetchStores(reply: SitesReply, hostOf: string -> Result<string, string>)
      requires Valid()
      modifies this
      ensures Valid()
      ensures old(isFetching) ==> unchanged(this)
      ensures !old(isFetching) ==> !isLoading && !isFetching && match DirectoryOutcome(reply, hostOf) {
        case Ok(list) => availableStores == list && error == None
        case Err(message) => availableStores == old(availableStores) && error == Some(message)
      }
      ensures selectedStore == old(selectedStore) && storedSelection == old(storedSelection)
      ensures defaultClientHost == old(defaultClientHost)
    {
      var started := StartFetch();
      if started {
        FinishFetch(reply, hostOf);
      }
    }

    /** `selectStore(store)`: selects it, stores it under `selectedStore` in
        the browser, repoints the default client when there is one, and
        returns it. The directory is not consulted. */
    method SelectStore(store: Store) returns (r: Store)
      requires Valid()
      modifies this
      ensures Valid()
      ensures r == store && selectedStore == Some(store)
      ensures storedSelection == if isClient then Some(StoreJson(store)) else old(storedSelection)
      ensures defaultClientHost == if old(defaultClientHost).Some? then Some(store.graphqlEndpoint) else None
      ensures availableStores == old(availableStores) && isLoading == old(isLoading)
      ensures error == old(error) && isFetching == old(isFetching)
    {
      selectedStore := Some(store);
      if isClient {
        storedSelection := Some(StoreJson(store));
      }
      if defaultClientHost.Some? {
        defaultClientHost := Some(store.graphqlEndpoint);
      }
      r := store;
    }

    /** `initializeStore()`: in the browser, a stored selection is selected
        again before the fetch; a corrupt one makes `JSON.parse` throw out of
        the call before any fetch. */
    method InitializeStore(reply: SitesReply, hostOf: string -> Result<string, string>) returns (r: Result<(), InitError>)
      requires Valid()
      modifies this
      ensures Valid()
      ensures r.Err? <==> isClient && old(storedSelection) == Some(Corrupt)
      ensures r.Err? ==> unchanged(this)
      ensures r.Ok? && isClient && old(storedSelection).Some? ==>
        selectedStore == Some(old(storedSelection).value.store)
      ensures r.Ok? && !(isClient && old(storedSelection).Some?) ==> selectedStore == old(selectedStore)
      ensures r.Ok? ==> storedSelection == old(storedSelection)
      ensures r.Ok? ==> (defaultClientHost ==
        if isClient && old(storedSelection).Some? && old(defaultClientHost).Some?
        then Some(old(storedSelection).value.store.graphqlEndpoint) else old(defaultClientHost))
      ensures r.Ok? && !old(isFetching) ==> !isLoading && !isFetching && match DirectoryOutcome(reply, hostOf) {
        case Ok(list) => availableStores == list && error == None
        case Err(message) => availableStores == old(availableStores) && error == Some(message)
      }
      ensures r.Ok? && old(isFetching) ==>
        && isFetching && isLoading == old(isLoading)
        && availableStores == old(availableStores) && error == old(error)
    {
      if isClient && storedSelection.Some? {
        match storedSelection.value {
          case Corrupt =>
            return Err(SelectionNotJson);
          case StoreJson(s) =>
            var _ := SelectStore(s);
        }
      }
      FetchStores(reply, hostOf);
      r := Ok(());
    }
  }
}
