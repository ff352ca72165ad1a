/**
 * The Starbucks app's cart and menu logic: the cart is a list of (menu item, quantity) entries that
 * the add-to-cart and update-quantity handlers replace with new lists; the menu screen filters
 * the sample menu by category and the cart screen totals the prices. Prices are in cents.
 */
module StarbucksCart {

  datatype MenuItem = MenuItem(id: int, name: string, description: string, price: int, imageRes: int, category: string)

  datatype CartItem = CartItem(menuItem: MenuItem, quantity: int)

  /** `cartItems.find { it.menuItem.id == id } != null` */
  predicate InCart(cart: seq<CartItem>, id: int)
    ensures InCart(cart, id) <==> exists i :: 0 <= i < |cart| && cart[i].menuItem.id == id
  {
    exists c :: c in cart && c.menuItem.id == id
  }

  /** At most one entry per menu-item id. */
  predicate OneEntryPerId(cart: seq<CartItem>) {
    forall i, j :: 0 <= i < j < |cart| ==> cart[i].menuItem.id != cart[j].menuItem.id
  }

  /** Every quantity is at least 1. */
  predicate AllPositive(cart: seq<CartItem>) {
    forall c :: c in cart ==> c.quantity >= 1
  }

  /** The cart invariant that the two handlers keep. */
  predicate WellFormed(cart: seq<CartItem>) {
    OneEntryPerId(cart) && AllPositive(cart)
  }

  /** `cartItems.map { if (it.menuItem.id == id) it.copy(quantity = f(it.quantity)) else it }` for f = +1. */
  function Increment(cart: seq<CartItem>, id: int): (r: seq<CartItem>)
    ensures |r| == |cart|
    ensures forall i :: 0 <= i < |cart| ==>
      r[i].menuItem == cart[i].menuItem &&
      r[i].quantity == if cart[i].menuItem.id == id then cart[i].quantity + 1 else cart[i].quantity
  {
    if cart == [] then []
    else
      var c := cart[0];
      [if c.menuItem.id == id then c.(quantity := c.quantity + 1) else c] + Increment(cart[1..], id)
  }

  /** The same map with f = constant `q`. */
  function SetQuantity(cart: seq<CartItem>, id: int, q: int): (r: seq<CartItem>)
    ensures |r| == |cart|
    ensures forall i :: 0 <= i < |cart| ==>
      r[i].menuItem == cart[i].menuItem &&
      r[i].quantity == if cart[i].menuItem.id == id then q else cart[i].quantity
  {
    if cart == [] then []
    else
      var c := cart[0];
      [if c.menuItem.id == id then c.(quantity := q) else c] + SetQuantity(cart[1..], id, q)
  }

  /** `cartItems.filter { it.menuItem.id != id }` */
  function RemoveItem(cart: seq<CartItem>, id: int): (r: seq<CartItem>)
    ensures forall c :: c in r <==> c in cart && c.menuItem.id != id
    ensures |r| <= |cart|
  {
    if cart == [] then []
    else if cart[0].menuItem.id == id then RemoveItem(cart[1..], id)
    else [cart[0]] + RemoveItem(cart[1..], id)
  }

  /** The `onAddToCart` handler: an entry already there gains one, otherwise the item is appended with quantity 1. */
  function AddToCart(cart: seq<CartItem>, item: MenuItem): (r: seq<CartItem>)
    ensures InCart(cart, item.id) ==> |r| == |cart| && forall i :: 0 <= i < |cart| ==>
      r[i].menuItem == cart[i].menuItem &&
      r[i].quantity == if cart[i].menuItem.id == item.id then cart[i].quantity + 1 else cart[i].quantity
    ensures !InCart(cart, item.id) ==> r == cart + [CartItem(item, 1)]
  {
    if InCart(cart, item.id) then Increment(cart, item.id) else cart + [CartItem(item, 1)]
  }

  /** The `onUpdateQuantity` handler: a positive quantity is set, any other removes the entry. */
  function UpdateQuantity(cart: seq<CartItem>, id: int, newQuantity: int): (r: seq<CartItem>)
    ensures newQuantity > 0 ==> |r| == |cart| && forall i :: 0 <= i < |cart| ==>
      r[i].menuItem == cart[i].menuItem &&
      r[i].quantity == if cart[i].menuItem.id == id then newQuantity else cart[i].quantity
    ensures newQuantity <= 0 ==> !InCart(r, id) && forall c :: c in r <==> c in cart && c.menuItem.id != id
  {
    if newQuantity > 0 then SetQuantity(cart, id, newQuantity) else RemoveItem(cart, id)
  }

  /** `cartItems.sumOf { it.menuItem.price * it.quantity }` */
  function CartTotal(cart: seq<CartItem>): (total: int)
    ensures cart == [] ==> total == 0
    ensures |cart| == 1 ==> total == cart[0].menuItem.price * cart[0].quantity
  {
    if cart == [] then 0 else cart[0].menuItem.price * cart[0].quantity + CartTotal(cart[1..])
  }

  /** With no negative price or quantity the total is not negative. */
  lemma {:induction false} CartTotalNonNegative(cart: seq<CartItem>)
    requires forall c :: c in cart ==> c.menuItem.price >= 0 && c.quantity >= 0
    ensures CartTotal(cart) >= 0
  {
    if cart != [] {
      assert cart[0] in cart && forall c :: c in cart[1..] ==> c in cart;
      CartTotalNonNegative(cart[1..]);
    }
  }

  /** The menu screen's list: everything for "All", otherwise the items of that category in menu order. */
  function FilterMenu(menu: seq<MenuItem>, selectedCategory: string): (r: seq<MenuItem>)
    ensures selectedCategory == "All" ==> r == menu
    ensures selectedCategory != "All" ==> forall m :: m in r <==> m in menu && m.category == selectedCategory
  {
    if selectedCategory == "All" then menu else FilterByCategory(menu, selectedCategory)
  }

  /** `menuItems.filter { it.category == category }` */
  function FilterByCategory(menu: seq<MenuItem>, category: string): (r: seq<MenuItem>)
    ensures forall m :: m in r <==> m in menu && m.category == category
    ensures |r| <= |menu|
  {
    if menu == [] then []
    else if menu[0].category == category then [menu[0]] + FilterByCategory(menu[1..], category)
    else FilterByCategory(menu[1..], category)
  }

  /** The category filter keeps menu order: filtering a concatenation concatenates the filtered parts. */
  lemma {:induction false} FilterByCategoryKeepsOrder(a: seq<MenuItem>, b: seq<MenuItem>, category: string)
    ensures FilterByCategory(a + b, category) == FilterByCategory(a, category) + FilterByCategory(b, category)
  {
    if a == [] {
      assert a + b == b;
    } else {
      assert (a + b)[1..] == a[1..] + b;
      FilterByCategoryKeepsOrder(a[1..], b, category);
    }
  }

  /** Removing an entry keeps the order of the others: removal from a concatenation concatenates the parts. */
  lemma {:induction false} RemoveItemKeepsOrder(a: seq<CartItem>, b: seq<CartItem>, id: int)
    ensures RemoveItem(a + b, id) == RemoveItem(a, id) + RemoveItem(b, id)
  {
    if a == [] {
      assert a + b == b;
    } else {
      assert (a + b)[1..] == a[1..] + b;
      RemoveItemKeepsOrder(a[1..], b, id);
    }
  }

  /** The chips of the menu screen. */
  function MenuCategories(): (r: seq<string>)
    ensures |r| == 5 && r[0] == "All"
    ensures forall i, j :: 0 <= i < j < |r| ==> r[i] != r[j]
  {
    ["All", "Coffee", "Tea", "Frappuccino", "Food"]
  }

  /** The ten sample menu items, with ids 1 to 10 in order and prices in cents. */
  function SampleMenuItems(): (r: seq<MenuItem>)
    ensures |r| == 10
    ensures forall i :: 0 <= i < |r| ==> r[i].id == i + 1 && r[i].price > 0 && r[i].category in MenuCategories()[1..]
  {
    [ MenuItem(1, "Americano", "Rich espresso with hot water", 345, 0, "Coffee"),
      MenuItem(2, "Cappuccino", "Espresso with steamed milk foam", 425, 0, "Coffee"),
      MenuItem(3, "Latte", "Espresso with steamed milk", 445, 0, "Coffee"),
      MenuItem(4, "Mocha", "Espresso with chocolate and steamed milk", 495, 0, "Coffee"),
      MenuItem(5, "Green Tea", "Premium green tea blend", 295, 0, "Tea"),
      MenuItem(6, "Earl Grey", "Classic black tea with bergamot", 295, 0, "Tea"),
      MenuItem(7, "Caramel Frappuccino", "Blended coffee with caramel", 525, 0, "Frappuccino"),
      MenuItem(8, "Vanilla Frappuccino", "Blended coffee with vanilla", 525, 0, "Frappuccino"),
      MenuItem(9, "Croissant", "Buttery flaky pastry", 295, 0, "Food"),
      MenuItem(10, "Blueberry Muffin", "Fresh baked muffin with blueberries", 325, 0, "Food") ]
  }

  // ---------------------------------------------------------------------------------------------
  // Invariants and totals
  // ---------------------------------------------------------------------------------------------

  /** Adding to the cart keeps one entry per id and every quantity at least 1. */
  lemma AddToCartKeepsWellFormed(cart: seq<CartItem>, item: MenuItem)
    requires WellFormed(cart)
    ensures WellFormed(AddToCart(cart, item))
  {
    var r := AddToCart(cart, item);
    if InCart(cart, item.id) {
      forall c | c in r ensures c.quantity >= 1 {
        var i :| 0 <= i < |r| && r[i] == c;
        assert cart[i] in cart;
      }
    } else {
      forall i, j | 0 <= i < j < |r| ensures r[i].menuItem.id != r[j].menuItem.id {
        if j == |cart| {
          assert r[i] == cart[i] && cart[i] in cart;
        }
      }
    }
  }

  /** Updating a quantity keeps one entry per id and every quantity at least 1. */
  lemma {:induction false} UpdateQuantityKeepsWellFormed(cart: seq<CartItem>, id: int, newQuantity: int)
    requires WellFormed(cart)
    ensures WellFormed(UpdateQuantity(cart, id, newQuantity))
  {
    var r := UpdateQuantity(cart, id, newQuantity);
    if newQuantity > 0 {
      forall c | c in r ensures c.quantity >= 1 {
        var i :| 0 <= i < |r| && r[i] == c;
        assert cart[i] in cart;
      }
    } else {
      RemoveItemKeepsOneEntryPerId(cart, id);
    }
  }

  lemma {:induction false} RemoveItemKeepsOneEntryPerId(cart: seq<CartItem>, id: int)
    requires OneEntryPerId(cart)
    ensures OneEntryPerId(RemoveItem(cart, id))
  {
    if cart != [] {
      var tail := cart[1..];
      assert OneEntryPerId(tail) by {
        forall i, j | 0 <= i < j < |tail| ensures tail[i].menuItem.id != tail[j].menuItem.id {
          assert tail[i] == cart[i + 1] && tail[j] == cart[j + 1];
        }
      }
      RemoveItemKeepsOneEntryPerId(tail, id);
      if cart[0].menuItem.id != id {
        var rt := RemoveItem(tail, id);
        var r := [cart[0]] + rt;
        forall i, j | 0 <= i < j < |r| ensures r[i].menuItem.id != r[j].menuItem.id {
          if i == 0 {
            assert r[j] in tail;
            var k :| 0 <= k < |tail| && tail[k] == r[j];
            assert cart[k + 1] == r[j];
          } else {
            assert r[i] == rt[i - 1] && r[j] == rt[j - 1];
          }
        }
      }
    }
  }

  /** Every entry with the given id holds that same menu item (true of carts filled from one menu). */
  predicate SameItemFor(cart: seq<CartItem>, item: MenuItem) {
    forall c :: c in cart && c.menuItem.id == item.id ==> c.menuItem == item
  }

  lemma {:induction false} CartTotalAppend(a: seq<CartItem>, b: seq<CartItem>)
    ensures CartTotal(a + b) == CartTotal(a) + CartTotal(b)
  {
    if a == [] {
      assert a + b == b;
    } else {
      assert (a + b)[1..] == a[1..] + b;
      CartTotalAppend(a[1..], b);
    }
  }

  /** Sum of the prices of the entries with a given id: what one more unit of that id adds. */
  function PriceOfEntries(cart: seq<CartItem>, id: int): int {
    if cart == [] then 0
    else (if cart[0].menuItem.id == id then cart[0].menuItem.price else 0) + PriceOfEntries(cart[1..], id)
  }

  lemma {:induction false} IncrementTotal(cart: seq<CartItem>, id: int)
    ensures CartTotal(Increment(cart, id)) == CartTotal(cart) + PriceOfEntries(cart, id)
  {
    if cart != [] {
      IncrementTotal(cart[1..], id);
      assert Increment(cart, id)[1..] == Increment(cart[1..], id);
    }
  }

  lemma {:induction false} PriceOfMatchingEntry(cart: seq<CartItem>, item: MenuItem)
    requires OneEntryPerId(cart) && SameItemFor(cart, item) && InCart(cart, item.id)
    ensures PriceOfEntries(cart, item.id) == item.price
  {
    var tail := cart[1..];
    assert OneEntryPerId(tail) by {
      forall i, j | 0 <= i < j < |tail| ensures tail[i].menuItem.id != tail[j].menuItem.id {
        assert tail[i] == cart[i + 1] && tail[j] == cart[j + 1];
      }
    }
    if cart[0].menuItem.id == item.id {
      assert cart[0] in cart;
      NoEntriesNoPrice(tail, item.id, cart);
    } else {
      var c :| c in cart && c.menuItem.id == item.id;
      assert c in tail;
      PriceOfMatchingEntry(tail, item);
    }
  }

  lemma {:induction false} NoEntriesNoPrice(tail: seq<CartItem>, id: int, cart: seq<CartItem>)
    requires cart != [] && tail == cart[1..] && OneEntryPerId(cart) && cart[0].menuItem.id == id
    ensures PriceOfEntries(tail, id) == 0
  {
    NoIdNoPrice(tail, id) by {
      forall k | 0 <= k < |tail| ensures tail[k].menuItem.id != id {
        assert tail[k] == cart[k + 1];
      }
    }
  }

  lemma {:induction false} NoIdNoPrice(s: seq<CartItem>, id: int)
    requires forall k :: 0 <= k < |s| ==> s[k].menuItem.id != id
    ensures PriceOfEntries(s, id) == 0
  {
    if s != [] {
      assert forall k :: 0 <= k < |s[1..]| ==> s[1..][k] == s[k + 1];
      NoIdNoPrice(s[1..], id);
    }
  }

  /** Adding an item raises the cart total by exactly that item's price. */
  lemma AddToCartRaisesTotalByPrice(cart: seq<CartItem>, item: MenuItem)
    requires OneEntryPerId(cart) && SameItemFor(cart, item)
    ensures CartTotal(AddToCart(cart, item)) == CartTotal(cart) + item.price
  {
    if InCart(cart, item.id) {
      IncrementTotal(cart, item.id);
      PriceOfMatchingEntry(cart, item);
    } else {
      CartTotalAppend(cart, [CartItem(item, 1)]);
    }
  }

  /** Sum of price times quantity over the entries with a given id. */
  function LineTotal(cart: seq<CartItem>, id: int): int {
    if cart == [] then 0
    else (if cart[0].menuItem.id == id then cart[0].menuItem.price * cart[0].quantity else 0) + LineTotal(cart[1..], id)
  }

  lemma {:induction false} SetQuantityTotal(cart: seq<CartItem>, id: int, q: int)
    ensures CartTotal(SetQuantity(cart, id, q)) == CartTotal(cart) - LineTotal(cart, id) + q * PriceOfEntries(cart, id)
  {
    if cart != [] {
      SetQuantityTotal(cart[1..], id, q);
      assert SetQuantity(cart, id, q)[1..] == SetQuantity(cart[1..], id, q);
      var p := if cart[0].menuItem.id == id then cart[0].menuItem.price else 0;
      assert q * (p + PriceOfEntries(cart[1..], id)) == q * p + q * PriceOfEntries(cart[1..], id);
    }
  }

  lemma {:induction false} RemoveItemTotal(cart: seq<CartItem>, id: int)
    ensures CartTotal(RemoveItem(cart, id)) == CartTotal(cart) - LineTotal(cart, id)
  {
    if cart != [] {
      RemoveItemTotal(cart[1..], id);
      if cart[0].menuItem.id != id {
        assert RemoveItem(cart, id)[1..] == RemoveItem(cart[1..], id);
      }
    }
  }

  /**
   * Updating a quantity changes the total by the entry's line: a positive quantity replaces the
   * line by price times the new quantity, anything else takes the line away.
   */
  lemma UpdateQuantityChangesTotal(cart: seq<CartItem>, id: int, newQuantity: int)
    ensures CartTotal(UpdateQuantity(cart, id, newQuantity)) ==
      CartTotal(cart) - LineTotal(cart, id) + (if newQuantity > 0 then newQuantity * PriceOfEntries(cart, id) else 0)
  {
    if newQuantity > 0 {
      SetQuantityTotal(cart, id, newQuantity);
    } else {
      RemoveItemTotal(cart, id);
    }
  }

  /** Pressing "decrease" on an entry of quantity 1 removes it and keeps every other entry. */
  lemma DecreaseFromOneRemoves(cart: seq<CartItem>, i: nat)
    requires WellFormed(cart) && i < |cart| && cart[i].quantity == 1
    ensures var r := UpdateQuantity(cart, cart[i].menuItem.id, cart[i].quantity - 1);
      !InCart(r, cart[i].menuItem.id) &&
      forall j :: 0 <= j < |cart| && j != i ==> cart[j] in r
  {
  }

  // ---------------------------------------------------------------------------------------------
  // Screen state
  // ---------------------------------------------------------------------------------------------

  /** The app-level state: the selected bottom tab and the cart. */
  class StarbucksApp {
    var selectedTab: int
    var cartItems: seq<CartItem>

    ghost predicate Valid()
      reads this
    {
      WellFormed(cartItems)
    }

    constructor ()
      ensures Valid()
      ensures selectedTab == 0 && cartItems == []
    {
      selectedTab := 0;
      cartItems := [];
    }

    method OnTabSelected(index: int)
      requires Valid()
      modifies this
      ensures Valid()
      ensures selectedTab == index && cartItems == old(cartItems)
    {
      selectedTab := index;
    }

    /** The add-to-cart handler of the home and menu screens. */
    method OnAddToCart(item: MenuItem)
      requires Valid()
      modifies this
      ensures Valid()
      ensures cartItems == AddToCart(old(cartItems), item)
      ensures selectedTab == old(selectedTab)
    {
      AddToCartKeepsWellFormed(cartItems, item);
      cartItems := AddToCart(cartItems, item);
    }

    /** The cart screen's quantity handler. */
    method OnUpdateQuantity(itemId: int, newQuantity: int)
      requires Valid()
      modifies this
      ensures Valid()
      ensures cartItems == UpdateQuantity(old(cartItems), itemId, newQuantity)
      ensures selectedTab == old(selectedTab)
    {
      UpdateQuantityKeepsWellFormed(cartItems, itemId, newQuantity);
      cartItems := UpdateQuantity(cartItems, itemId, newQuantity);
    }

    /** The cart screen's total. */
    function TotalPrice(): (total: int)
      reads this
      ensures total == CartTotal(cartItems)
      ensures cartItems == [] ==> total == 0
      ensures (forall c :: c in cartItems ==> c.menuItem.price >= 0) && AllPositive(cartItems) ==> total >= 0
    {
      if (forall c :: c in cartItems ==> c.menuItem.price >= 0) && AllPositive(cartItems) then
        CartTotalNonNegative(cartItems);
        CartTotal(cartItems)
      else
        CartTotal(cartItems)
    }
  }

  /** The menu screen's own state: the selected category chip, "All" at first. */
  class MenuScreen {
    var selectedCategory: string

    constructor ()
      ensures selectedCategory == "All"
    {
      selectedCategory := "All";
    }

    method OnCategoryChipClick(category: string)
      modifies this
      ensures selectedCategory == category
    {
      selectedCategory := category;
    }

    /** The items the menu screen lists. */
    function FilteredItems(): (r: seq<MenuItem>)
      reads this
      ensures selectedCategory == "All" ==> r == SampleMenuItems()
      ensures selectedCategory != "All" ==> forall m :: m in r <==> m in SampleMenuItems() && m.category == selectedCategory
      ensures forall m :: m in r ==> m in SampleMenuItems()
    {
      FilterMenu(SampleMenuItems(), selectedCategory)
    }
  }
}
