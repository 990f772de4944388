/** `Navbar` (eswika-frontend/src/components/Navbar.jsx): which links it
    shows. It reads the session user from the auth context and, separately,
    the user type from the `userData` text in browser storage. */
module Navbar {
  import opened Common
  import opened Browser
  import opened StoredUser
  import Router

  /** What `getUserType` gives: `null` when nothing truthy is stored, the
      stored `type`, or a `JSON.parse` that throws. */
  datatype UserTypeRead = NoUserData | TypeIs(userType: string) | Unreadable

  function GetUserType(storage: map<string, string>): (r: UserTypeRead)
    ensures r == NoUserData <==> !Truthy(storage, UserDataKey)
    ensures r.TypeIs? <==> Truthy(storage, UserDataKey) && Decode(storage[UserDataKey]).Some?
    ensures r.TypeIs? ==> r.userType == Decode(storage[UserDataKey]).value.userType
  {
    if !Truthy(storage, UserDataKey) then NoUserData
    else match Decode(storage[UserDataKey])
      case None => Unreadable
      case Some(u) => TypeIs(u.userType)
  }

  /** The links of the bar, named after the page they open. */
  datatype Link =
    | Home | ProductList | AdminDashboard | PendingProducts
    | MyProducts | AddProduct | FarmerOrders | Cart | Orders
    | Login | Register

  /** The `to` of each link. */
  function Target(l: Link): string
  {
    match l
    case Home => "/"
    case ProductList => "/products"
    case AdminDashboard => "/admin"
    case PendingProducts => "/validate"
    case MyProducts => "/my-products"
    case AddProduct => "/add-product"
    case FarmerOrders => "/farmer-orders"
    case Cart => "/cart"
    case Orders => "/orders"
    case Login => "/login"
    case Register => "/register"
  }

  /** The links shown, in page order. `getUserType` runs during the render,
      so a stored record `JSON.parse` rejects throws there and no bar is
      drawn at all, whoever is signed in. */
  function Links(user: Option<UserData>, userType: UserTypeRead): Option<seq<Link>>
  {
    if userType.Unreadable? then None
    else Some(
      [Home, ProductList]
      + (if user.Some? && userType == TypeIs("admin") then [AdminDashboard, PendingProducts] else [])
      + (if user.Some? && userType == TypeIs("farmer") then [MyProducts, AddProduct, FarmerOrders] else [])
      + (if user.Some? && userType == TypeIs("customer") then [Cart, Orders] else [])
      + (if user.None? then [Login, Register] else []))
  }

  /** The logout button replaces the login and register links. */
  predicate ShowsLogout(user: Option<UserData>)
  {
    user.Some?
  }

  /** The bar, case by case: a visitor's, then a signed-in user's by the
      type storage gives. */
  lemma LinksByCase(user: Option<UserData>, t: UserTypeRead)
    ensures user.None? && !t.Unreadable? ==> Links(user, t) == Some([Home, ProductList, Login, Register])
    ensures user.Some? && t == TypeIs("admin") ==> Links(user, t) == Some([Home, ProductList, AdminDashboard, PendingProducts])
    ensures user.Some? && t == TypeIs("farmer") ==> Links(user, t) == Some([Home, ProductList, MyProducts, AddProduct, FarmerOrders])
    ensures user.Some? && t == TypeIs("customer") ==> Links(user, t) == Some([Home, ProductList, Cart, Orders])
    ensures user.Some? && !t.Unreadable? && t !in {TypeIs("admin"), TypeIs("farmer"), TypeIs("customer")} ==>
              Links(user, t) == Some([Home, ProductList])
  {
    if !t.Unreadable? {
      var bar := Links(user, t).value;
      if user.None? {
        assert bar == [Home, ProductList] + [] + [] + [] + [Login, Register];
        assert bar == [Home, ProductList, Login, Register];
      } else if t == TypeIs("admin") {
        assert bar == [Home, ProductList] + [AdminDashboard, PendingProducts] + [] + [] + [];
        assert bar == [Home, ProductList, AdminDashboard, PendingProducts];
      } else if t == TypeIs("farmer") {
        assert bar == [Home, ProductList] + [] + [MyProducts, AddProduct, FarmerOrders] + [] + [];
        assert bar == [Home, ProductList, MyProducts, AddProduct, FarmerOrders];
      } else if t == TypeIs("customer") {
        assert bar == [Home, ProductList] + [] + [] + [Cart, Orders] + [];
        assert bar == [Home, ProductList, Cart, Orders];
      } else {
        assert bar == [Home, ProductList] + [] + [] + [] + [];
        assert bar == [Home, ProductList];
      }
    }
  }

  /** Home and products always; each role's group exactly when a user is
      signed in and storage says that role; login and register exactly when
      nobody is signed in. */
  predicate Shown(l: Link, user: Option<UserData>, t: UserTypeRead)
  {
    match l
    case Home | ProductList => true
    case AdminDashboard | PendingProducts => user.Some? && t == TypeIs("admin")
    case MyProducts | AddProduct | FarmerOrders => user.Some? && t == TypeIs("farmer")
    case Cart | Orders => user.Some? && t == TypeIs("customer")
    case Login | Register => !ShowsLogout(user)
  }

  /** No bar exactly when the stored record cannot be read; otherwise the
      bar shows a link exactly when `Shown` says it should. */
  lemma LinkGroups(user: Option<UserData>, t: UserTypeRead)
    ensures Links(user, t).None? <==> t.Unreadable?
    ensures Links(user, t).Some? ==> forall l :: l in Links(user, t).value <==> Shown(l, user, t)
  {
    LinksByCase(user, t);
  }

  /** `getUserType` reads back the type of the record stored under `userData`. */
  lemma StoredType(u: UserData, storage: map<string, string>)
    requires UserDataKey in storage && Decode(storage[UserDataKey]) == Some(u)
    ensures GetUserType(storage) == TypeIs(u.userType)
  {
    assert storage[UserDataKey] != "";
  }

  /** Each link shown to a signed-in user whose stored type is their own
      opens a route that admits that user. */
  lemma SignedInLinksRender(u: UserData)
    ensures Links(Some(u), TypeIs(u.userType)).Some?
    ensures forall l :: l in Links(Some(u), TypeIs(u.userType)).value ==> Router.Render(Some(u), Target(l)).Page?
  {
    forall l | l in Links(Some(u), TypeIs(u.userType)).value
      ensures Router.Render(Some(u), Target(l)).Page?
    {
      LinkGroups(Some(u), TypeIs(u.userType));
      Router.RouteRoles(u);
      Router.OpenRoutes(Some(u));
    }
  }

  /** When storage holds the record of the signed-in user, every link the
      bar shows opens its page rather than a redirect or nothing; with a
      signed-in user the bar is then always drawn. */
  lemma {:induction false} ShownLinksRender(user: Option<UserData>, storage: map<string, string>)
    requires user.Some? ==> UserDataKey in storage && Decode(storage[UserDataKey]) == user
    ensures user.Some? ==> Links(user, GetUserType(storage)).Some?
    ensures Links(user, GetUserType(storage)).Some? ==>
              forall l :: l in Links(user, GetUserType(storage)).value ==> Router.Render(user, Target(l)).Page?
  {
    if user.None? {
      Router.OpenRoutes(user);
      LinksByCase(user, GetUserType(storage));
    } else {
      StoredType(user.value, storage);
      SignedInLinksRender(user.value);
    }
  }
}
