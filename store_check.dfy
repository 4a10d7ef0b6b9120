/** The named route guard (middleware/store-check.ts): in the browser, a
    page outside the excluded routes needs a selected store, otherwise the
    visitor is sent to `/`. */
module StoreCheck {
  import opened Common

  /** Where a guard sends the navigation. */
  datatype Decision = Proceed | Redirect(to: string)

  const ExcludedRoutes: seq<string> := ["/", "/index", "/store-[slug]"]

  /** `s.includes(t)` */
  predicate Contains(s: string, t: string)
    decreases |s|
  {
    StartsWith(s, t) || (|s| > 0 && Contains(s[1..], t))
  }

  lemma {:induction false} ContainsAt(s: string, t: string, i: nat)
    requires i + |t| <= |s| && s[i..i + |t|] == t
    ensures Contains(s, t)
  {
    if i > 0 {
      assert s[1..][i - 1..i - 1 + |t|] == s[i..i + |t|];
      ContainsAt(s[1..], t, i - 1);
    }
  }

  /** The test `excludedRoutes.some` applies to one entry: a `[slug]` entry
      covers every path under `/store/`, any other entry only itself. */
  predicate RouteExcludes(route: string, path: string) {
    if Contains(route, "[slug]") then StartsWith(path, "/store/") else path == route
  }

  /** `routes.some(route => ...)` */
  predicate AnyExcludes(routes: seq<string>, path: string)
    decreases |routes|
  {
    |routes| > 0 && (RouteExcludes(routes[0], path) || AnyExcludes(routes[1..], path))
  }

  predicate IsExcluded(path: string) {
    AnyExcludes(ExcludedRoutes, path)
  }

  /** A path is excluded exactly when it is `/` or `/index` or lies under `/store/`. */
  lemma IsExcludedIff(path: string)
    ensures IsExcluded(path) <==> path == "/" || path == "/index" || StartsWith(path, "/store/")
  {
    assert Contains("/store-[slug]", "[slug]") by {
      ContainsAt("/store-[slug]", "[slug]", 7);
    }
    assert !Contains("/", "[slug]") by {
      assert "/"[1..] == "";
    }
    assert !Contains("/index", "[slug]") by {
      assert "/index"[0] != "[slug]"[0];
      assert !StartsWith("/index", "[slug]");
      assert "/index"[1..] == "index";
    }
    assert ExcludedRoutes[1..][1..] == ["/store-[slug]"];
  }

  /** The guard for a navigation to `path`; `selected` is the store service's selection. */
  function Guard(isServer: bool, path: string, selected: Option<Store>): (d: Decision)
    ensures isServer ==> d == Proceed
    ensures d.Redirect? ==> d.to == "/"
  {
    if isServer then Proceed
    else if !IsExcluded(path) && selected.None? then Redirect("/")
    else Proceed
  }

  /** In the browser the guard redirects exactly when the path is not
      excluded and nothing is selected. */
  lemma GuardRedirectsIff(path: string, selected: Option<Store>)
    ensures Guard(false, path, selected).Redirect? <==>
      !(path == "/" || path == "/index" || StartsWith(path, "/store/")) && selected.None?
  {
    IsExcludedIff(path);
  }

  /** The redirect target is excluded, so the guard never redirects twice. */
  lemma RedirectTargetIsExcluded(isServer: bool, path: string, selected: Option<Store>)
    requires Guard(isServer, path, selected).Redirect?
    ensures Guard(isServer, Guard(isServer, path, selected).to, selected) == Proceed
  {
    IsExcludedIff("/");
  }
}
