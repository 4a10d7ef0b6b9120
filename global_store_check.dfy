/** The global route guard (middleware/global-store-check.global.ts), which
    runs on every navigation with the same intent as the named guard. */
module GlobalStoreCheck {
  import opened Common
  import StoreCheck

  const ExcludedRoutes: seq<string> := ["/", "/index"]

  /** The guard for a navigation to `path`: skipped on the server, always
      passes `/`, `/index` and paths under `/store/`, and otherwise
      redirects to `/` exactly when nothing is selected. */
  function Guard(isServer: bool, path: string, selected: Option<Store>): (d: StoreCheck.Decision)
    ensures isServer ==> d == StoreCheck.Proceed
    ensures !isServer && (path in ExcludedRoutes || StartsWith(path, "/store/")) ==> d == StoreCheck.Proceed
    ensures !isServer && !(path in ExcludedRoutes || StartsWith(path, "/store/")) ==>
      (d == StoreCheck.Redirect("/") <==> selected.None?)
  {
    if isServer then StoreCheck.Proceed
    else if path in ExcludedRoutes || StartsWith(path, "/store/") then StoreCheck.Proceed
    else if selected.None? then StoreCheck.Redirect("/")
    else StoreCheck.Proceed
  }

  /** Both guards decide alike on every path and selection. */
  lemma SameAsStoreCheck(isServer: bool, path: string, selected: Option<Store>)
    ensures Guard(isServer, path, selected) == StoreCheck.Guard(isServer, path, selected)
  {
    StoreCheck.IsExcludedIff(path);
  }
}
