/** The route table of eswika-frontend/src/App.jsx and its `ProtectedRoute`
    guard: what the page area shows for a path, given the session user. */
module Router {
  import opened Common
  import opened StoredUser

  /** What the route outlet produces. */
  datatype View = RedirectTo(target: string) | Page(name: string) | Blank

  /** A route element: a page on its own, or a page wrapped in
      `ProtectedRoute`. `None` roles is an absent `allowedRoles` prop. */
  datatype Element = Open(page: string) | Protected(allowedRoles: Option<seq<string>>, page: string)

  /** `ProtectedRoute`: `isAuthenticated` is `!!user`; an `allowedRoles`
      array, even an empty one, is truthy, so only its contents decide. */
  function Guard(user: Option<UserData>, allowedRoles: Option<seq<string>>, page: string): (v: View)
    ensures user.None? ==> v == RedirectTo("/login")
    ensures v == RedirectTo("/") <==>
              user.Some? && allowedRoles.Some? && user.value.userType !in allowedRoles.value
    ensures v == Page(page) <==>
              user.Some? && (allowedRoles.None? || user.value.userType in allowedRoles.value)
  {
    if user.None? then RedirectTo("/login")
    else if allowedRoles.Some? && user.value.userType !in allowedRoles.value then RedirectTo("/")
    else Page(page)
  }

  /** The `<Routes>` of `App`, by path; every path is declared once, so the
      route React Router picks is the one under that path. No `path="*"`. */
  const Routes: map<string, Element> := map[
    "/" := Open("Home"),
    "/products" := Open("Products"),
    "/cart" := Protected(Some(["customer"]), "Cart"),
    "/login" := Open("Login"),
    "/register" := Open("Register"),
    "/admin" := Protected(Some(["admin"]), "Admin"),
    "/validate" := Protected(Some(["admin"]), "AdminPendingProducts"),
    "/add-product" := Protected(Some(["farmer"]), "AddProduct"),
    "/my-products" := Protected(Some(["farmer"]), "MyProducts"),
    "/farmer-orders" := Protected(Some(["farmer"]), "FarmerOrders"),
    "/orders" := Protected(Some(["customer", "merchant", "farmer"]), "Orders")
  ]

  /** What the page area shows at `path` once the session is settled. The
      provider renders its children only when `loading` is false, so before
      `Auth.AuthProvider.Init` finishes, and for good after it throws, the
      page area is empty whatever the path. */
  function Render(user: Option<UserData>, path: string): View
  {
    if path !in Routes then Blank
    else match Routes[path]
      case Open(page) => Page(page)
      case Protected(roles, page) => Guard(user, roles, page)
  }

  /** The paths `App` declares. */
  const DeclaredPaths: set<string> :=
    {"/", "/products", "/cart", "/login", "/register", "/admin", "/validate",
     "/add-product", "/my-products", "/farmer-orders", "/orders"}

  /** Signed in as `u`, one sees the page at `path`. */
  predicate Admits(path: string, u: UserData)
  {
    Render(Some(u), path).Page?
  }

  /** With no route for it, a path renders nothing, whoever is signed in. */
  lemma NoCatchAll(user: Option<UserData>, path: string)
    ensures Render(user, path) == Blank <==> path !in DeclaredPaths
  {
  }

  /** The roles each guarded route lets in. */
  lemma RouteRoles(u: UserData)
    ensures Admits("/cart", u) <==> u.userType == "customer"
    ensures Admits("/admin", u) <==> u.userType == "admin"
    ensures Admits("/validate", u) <==> u.userType == "admin"
    ensures Admits("/add-product", u) <==> u.userType == "farmer"
    ensures Admits("/my-products", u) <==> u.userType == "farmer"
    ensures Admits("/farmer-orders", u) <==> u.userType == "farmer"
    ensures Admits("/orders", u) <==> u.userType in {"customer", "merchant", "farmer"}
  {
  }

  /** The four unguarded routes show their page to everyone, signed in or not. */
  lemma OpenRoutes(user: Option<UserData>)
    ensures Render(user, "/") == Page("Home")
    ensures Render(user, "/products") == Page("Products")
    ensures Render(user, "/login") == Page("Login")
    ensures Render(user, "/register") == Page("Register")
  {
  }

  /** Without a session user every guarded route sends to the login page. */
  lemma GuardedNeedLogin(path: string)
    requires path in DeclaredPaths - {"/", "/products", "/login", "/register"}
    ensures Render(None, path) == RedirectTo("/login")
  {
  }

  /** A signed-in user is never sent to the login page: a refused role goes home. */
  lemma SignedInNeverToLogin(u: UserData, path: string)
    ensures Render(Some(u), path) != RedirectTo("/login")
    ensures Render(Some(u), path).RedirectTo? ==> Render(Some(u), path) == RedirectTo("/")
  {
  }
}
