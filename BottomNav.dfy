/** The bottom navigation bar (`src/components/layout/BottomNavigationBar.tsx`): a
    fixed table of four tabs and the test that lights a tab for the current path. */
module BottomNavigationBar {
  import opened Text
  import opened Seqs

  /** A tab: its path and the text under its icon (the source's `label` field,
      renamed because `label` is a Dafny keyword). */
  datatype NavItem = NavItem(path: string, name: string)

  const HomeItem := NavItem("/", "Home")
  const OrdersItem := NavItem("/orders", "Orders")
  const CartItem := NavItem("/cart", "Cart")
  const ProfileItem := NavItem("/profile", "Profile")

  /** `navItems`, in display order. */
  const NavItems: seq<NavItem> := [HomeItem, OrdersItem, CartItem, ProfileItem]

  /** `isActive`: the exact path, or any path that starts with the tab's path, except
      that "/" never matches by prefix. */
  predicate IsActive(pathname: string, item: NavItem) {
    pathname == item.path || (item.path != "/" && StartsWith(pathname, item.path))
  }

  function ActiveFor(pathname: string): NavItem -> bool {
    (item: NavItem) => IsActive(pathname, item)
  }

  /** The tabs lit for a path, in display order. */
  function ActiveItems(pathname: string): seq<NavItem> {
    Filter(NavItems, ActiveFor(pathname))
  }

  /** Four tabs, Home, Orders, Cart and Profile, with four different paths. */
  lemma NavTable()
    ensures |NavItems| == 4
    ensures NavItems[0].name == "Home" && NavItems[1].name == "Orders"
    ensures NavItems[2].name == "Cart" && NavItems[3].name == "Profile"
    ensures forall i, j :: 0 <= i < j < |NavItems| ==> NavItems[i].path != NavItems[j].path
  {
  }

  /** Home is lit on "/" and on no other path. */
  lemma HomeOnlyOnRoot(pathname: string)
    ensures IsActive(pathname, HomeItem) <==> pathname == "/"
  {
  }

  /** Any other tab is lit exactly on the paths that start with its own path; there
      is no segment boundary, so "/cartx" lights Cart, and so does the checkout
      route "/cart-checkout". */
  lemma PrefixActivates(pathname: string, item: NavItem)
    requires item in NavItems && item != HomeItem
    ensures IsActive(pathname, item) <==> StartsWith(pathname, item.path)
  {
  }

  lemma CartPrefixExamples()
    ensures IsActive("/cartx", CartItem)
    ensures IsActive("/cart-checkout", CartItem)
    ensures !IsActive("/car", CartItem)
  {
    assert "/cartx"[..5] == "/cart";
    assert "/cart-checkout"[..5] == "/cart";
  }

  /** The four tab paths cannot be prefixes of one path at the same time, so at most
      one tab is ever lit, whatever the path. */
  lemma AtMostOneActive(pathname: string)
    ensures |ActiveItems(pathname)| <= 1
  {
    var p := pathname;
    ActiveItemsUnfold(p);
    if IsActive(p, OrdersItem) {
      assert p[1] == 'o';
    } else if IsActive(p, CartItem) {
      assert p[1] == 'c';
    }
  }

  lemma ActiveItemsUnfold(p: string)
    ensures ActiveItems(p) ==
      (if IsActive(p, HomeItem) then [HomeItem] else []) +
      (if IsActive(p, OrdersItem) then [OrdersItem] else []) +
      (if IsActive(p, CartItem) then [CartItem] else []) +
      (if IsActive(p, ProfileItem) then [ProfileItem] else [])
  {
    FilterOfFour(HomeItem, OrdersItem, CartItem, ProfileItem, ActiveFor(p));
  }

  lemma FilterOfFour<T>(a: T, b: T, c: T, d: T, f: T -> bool)
    ensures Filter([a, b, c, d], f) ==
      (if f(a) then [a] else []) + (if f(b) then [b] else []) +
      (if f(c) then [c] else []) + (if f(d) then [d] else [])
  {
    var ab, abc := [a] + [b], [a] + [b] + [c];
    assert [a, b, c, d] == abc + [d];
    FilterSingleton(a, f);
    FilterSingleton(b, f);
    FilterSingleton(c, f);
    FilterSingleton(d, f);
    FilterAppend([a], [b], f);
    FilterAppend(ab, [c], f);
    FilterAppend(abc, [d], f);
  }

  lemma FilterSingleton<T>(x: T, f: T -> bool)
    ensures Filter([x], f) == if f(x) then [x] else []
  {
    assert [x][1..] == [];
  }

  /** In particular, a path that starts with none of "/orders", "/cart" or "/profile"
      lights Home if it is "/" and nothing otherwise. */
  lemma OnlyHomeOutsideSections(pathname: string)
    requires !StartsWith(pathname, "/orders") && !StartsWith(pathname, "/cart") && !StartsWith(pathname, "/profile")
    ensures ActiveItems(pathname) == if pathname == "/" then [HomeItem] else []
  {
    ActiveItemsUnfold(pathname);
  }
}
