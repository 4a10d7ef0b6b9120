/** Store-aware links (composables/useStoreRouting.ts): the slug of the
    current store route and the `/store/<slug>` prefix put in front of a path. */
module StoreRouting {
  import opened Common

  /** The parts of the current route the composable reads: its name and its
      `slug` parameter (`None` when the route has neither). */
  datatype Route = Route(name: Option<string>, slugParam: Option<string>)

  /** `currentStoreSlug`: the `slug` parameter on a route whose name starts
      with `store-`, otherwise `null`. */
  function CurrentStoreSlug(route: Route): (r: Option<string>)
    ensures route.name.Some? && StartsWith(route.name.value, "store-") ==> r == route.slugParam
    ensures !(route.name.Some? && StartsWith(route.name.value, "store-")) ==> r == None
  {
    if route.name.Some? && StartsWith(route.name.value, "store-") then route.slugParam else None
  }

  /** `storeSlug || currentStoreSlug.value`, with `""` for an absent slug. */
  function ChosenSlug(storeSlug: string, current: Option<string>): (slug: string)
    ensures storeSlug != "" ==> slug == storeSlug
    ensures storeSlug == "" ==> slug == current.GetOr("")
  {
    if storeSlug != "" then storeSlug else current.GetOr("")
  }

  /** `getStoreUrl(path, storeSlug)` on a route whose current slug is `current`. */
  function GetStoreUrl(path: string, storeSlug: string, current: Option<string>): (url: string)
    ensures var slug := ChosenSlug(storeSlug, current);
      (slug != "" ==> url == "/store/" + slug + path) && (slug == "" ==> url == path)
  {
    var slug := ChosenSlug(storeSlug, current);
    if slug != "" then "/store/" + slug + path else path
  }

  /** The prefix a link gets: `/store/<slug>` when a slug is chosen, nothing otherwise. */
  function StorePrefix(storeSlug: string, current: Option<string>): string {
    var slug := ChosenSlug(storeSlug, current);
    if slug != "" then "/store/" + slug else ""
  }

  function GetProductUrl(productSlug: string, storeSlug: string, current: Option<string>): (url: string)
    ensures url == StorePrefix(storeSlug, current) + "/product/" + productSlug
  {
    GetStoreUrl("/product/" + productSlug, storeSlug, current)
  }

  function GetCategoryUrl(categorySlug: string, storeSlug: string, current: Option<string>): (url: string)
    ensures url == StorePrefix(storeSlug, current) + "/product-category/" + categorySlug
  {
    GetStoreUrl("/product-category/" + categorySlug, storeSlug, current)
  }

  function GetProductsUrl(storeSlug: string, current: Option<string>): (url: string)
    ensures url == StorePrefix(storeSlug, current) + "/products"
  {
    GetStoreUrl("/products", storeSlug, current)
  }

  function GetCategoriesUrl(storeSlug: string, current: Option<string>): (url: string)
    ensures url == StorePrefix(storeSlug, current) + "/categories"
  {
    GetStoreUrl("/categories", storeSlug, current)
  }

  function GetCheckoutUrl(storeSlug: string, current: Option<string>): (url: string)
    ensures url == StorePrefix(storeSlug, current) + "/checkout"
  {
    GetStoreUrl("/checkout", storeSlug, current)
  }

  function GetWishlistUrl(storeSlug: string, current: Option<string>): (url: string)
    ensures url == StorePrefix(storeSlug, current) + "/wishlist"
  {
    GetStoreUrl("/wishlist", storeSlug, current)
  }

  /** A link built with a slug lies under `/store/`, and the path it was
      built from is its tail: stripping `/store/<slug>` gives the path back. */
  lemma StoreUrlParts(path: string, storeSlug: string, current: Option<string>)
    requires ChosenSlug(storeSlug, current) != ""
    ensures var url := GetStoreUrl(path, storeSlug, current);
      var slug := ChosenSlug(storeSlug, current);
      && StartsWith(url, "/store/")
      && url[|"/store/"|..|"/store/"| + |slug|] == slug
      && url[|"/store/"| + |slug|..] == path
  {
    var slug := ChosenSlug(storeSlug, current);
    var url := "/store/" + slug + path;
    assert url[..|"/store/"|] == "/store/";
    assert url[|"/store/"|..|"/store/"| + |slug|] == slug;
    assert url[|"/store/"| + |slug|..] == path;
  }

  /** Without a slug from either source, every generator returns its bare path. */
  lemma NoStoreContext(storeSlug: string, current: Option<string>, p: string)
    requires storeSlug == "" && current.GetOr("") == ""
    ensures GetProductUrl(p, storeSlug, current) == "/product/" + p
    ensures GetCategoryUrl(p, storeSlug, current) == "/product-category/" + p
    ensures GetProductsUrl(storeSlug, current) == "/products"
    ensures GetCategoriesUrl(storeSlug, current) == "/categories"
    ensures GetCheckoutUrl(storeSlug, current) == "/checkout"
    ensures GetWishlistUrl(storeSlug, current) == "/wishlist"
  {
  }
}
