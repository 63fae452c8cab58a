/**
 * The storefront application's state: the cart, the section on screen and the
 * category filter. Each user action is a transition of that state; `Dispatch`
 * states the transitions as a function and the `Store` class performs them on
 * its fields.
 */
module Storefront {
  import opened Optional
  import Catalog
  import opened ShoppingCart

  /** The top-level sections of the page. */
  datatype Section = Home | ProductPage | Contact | Cart

  /** The whole application state. */
  datatype AppState = AppState(cart: seq<CartItem>, section: Section, category: Option<Catalog.Category>)

  /** The state at start-up: an empty cart, the home section, no category filter. */
  function Initial(): (r: AppState)
    ensures WellFormed(r.cart) && ItemCount(r.cart) == 0 && Total(r.cart) == 0
    ensures Listed(r) == Catalog.Products()
  {
    AppState([], Home, None)
  }

  /** The user actions that change the state. */
  datatype Event =
    | NavHome                                // "Home" menu button
    | NavProducts                            // "Products" menu button
    | NavContact                             // "Contact" menu button
    | NavCart                                // cart menu button
    | PickCategory(c: Option<Catalog.Category>)  // "All Products" (None) or a category pill
    | Add(p: Catalog.Product)                // "Add to Cart"
    | Adjust(id: int, delta: int)            // the minus (-1) and plus (+1) buttons of a cart line

  /** The state after one action. */
  function Dispatch(s: AppState, e: Event): (r: AppState)
    ensures r.cart != s.cart ==> e.Add? || e.Adjust?
    ensures r.section != s.section ==> e.NavHome? || e.NavProducts? || e.NavContact? || e.NavCart?
    ensures r.category != s.category ==> e.NavProducts? || e.PickCategory?
  {
    match e
    case NavHome => s.(section := Home)
    case NavProducts => s.(section := ProductPage, category := None)
    case NavContact => s.(section := Contact)
    case NavCart => s.(section := Cart)
    case PickCategory(c) => s.(category := c)
    case Add(p) => s.(cart := AddedToCart(s.cart, p))
    case Adjust(id, delta) => s.(cart := UpdatedQuantity(s.cart, id, delta))
  }

  /** The state after a sequence of actions, applied in order. */
  function Run(s: AppState, events: seq<Event>): AppState
    decreases events
  {
    if events == [] then s else Run(Dispatch(s, events[0]), events[1..])
  }

  /** The products listed on the product page in state `s`. */
  function Listed(s: AppState): seq<Catalog.Product>
  {
    Catalog.FilteredProducts(s.category)
  }

  /** Every action keeps the cart well formed. */
  lemma {:induction false} DispatchKeepsWellFormed(s: AppState, e: Event)
    requires WellFormed(s.cart)
    ensures WellFormed(Dispatch(s, e).cart)
  {
    match e
    case Add(p) => AddKeepsWellFormed(s.cart, p);
    case Adjust(id, delta) => UpdateKeepsWellFormed(s.cart, id, delta);
    case _ =>
  }

  /** Every state reachable from start-up has a well-formed cart. */
  lemma {:induction false} ReachableIsWellFormed(events: seq<Event>)
    ensures WellFormed(Run(Initial(), events).cart)
  {
    RunKeepsWellFormed(Initial(), events);
  }

  /** Any sequence of actions keeps the cart well formed. */
  lemma {:induction false} RunKeepsWellFormed(s: AppState, events: seq<Event>)
    requires WellFormed(s.cart)
    ensures WellFormed(Run(s, events).cart)
    decreases events
  {
    if events != [] {
      DispatchKeepsWellFormed(s, events[0]);
      RunKeepsWellFormed(Dispatch(s, events[0]), events[1..]);
    }
  }

  /** Running two sequences of actions one after the other is running their concatenation. */
  lemma {:induction false} RunAppend(s: AppState, a: seq<Event>, b: seq<Event>)
    ensures Run(s, a + b) == Run(Run(s, a), b)
    decreases a
  {
    if a != [] {
      assert (a + b)[0] == a[0] && (a + b)[1..] == a[1..] + b;
      RunAppend(Dispatch(s, a[0]), a[1..], b);
    } else {
      assert a + b == b;
    }
  }

  /** Running a single action is dispatching it. */
  lemma {:induction false} RunOne(s: AppState, e: Event)
    ensures Run(s, [e]) == Dispatch(s, e)
  {
    assert [e][1..] == [];
  }

  /**
   * The Products menu button shows the product page with the category filter
   * cleared, so the page lists the whole catalog; the cart is untouched.
   */
  lemma {:induction false} ProductsMenuShowsAll(s: AppState)
    ensures Dispatch(s, NavProducts).section == ProductPage
    ensures Dispatch(s, NavProducts).category == None
    ensures Listed(Dispatch(s, NavProducts)) == Catalog.Products()
    ensures Dispatch(s, NavProducts).cart == s.cart
  {
  }

  /** A category pill changes only the filter: the section and the cart stay as they were. */
  lemma {:induction false} PickChangesOnlyCategory(s: AppState, c: Option<Catalog.Category>)
    ensures Dispatch(s, PickCategory(c)) == s.(category := c)
    ensures Dispatch(s, PickCategory(c)).section == s.section
    ensures Dispatch(s, PickCategory(c)).cart == s.cart
  {
  }

  /** The event neither clears nor picks a category filter. */
  predicate KeepsCategory(e: Event)
  {
    !e.NavProducts? && !e.PickCategory?
  }

  /**
   * The category filter persists across visits to the home, contact and cart
   * sections and across cart changes: only the Products menu button and the
   * pills change it.
   */
  lemma {:induction false} CategoryPersists(s: AppState, events: seq<Event>)
    requires forall i :: 0 <= i < |events| ==> KeepsCategory(events[i])
    ensures Run(s, events).category == s.category
    decreases events
  {
    if events != [] {
      CategoryPersists(Dispatch(s, events[0]), events[1..]);
    }
  }

  /** The event is a cart action. */
  predicate IsCartAction(e: Event)
  {
    e.Add? || e.Adjust?
  }

  /** Cart actions never move the view: the section and the filter stay as they were. */
  lemma {:induction false} CartActionsKeepView(s: AppState, events: seq<Event>)
    requires forall i :: 0 <= i < |events| ==> IsCartAction(events[i])
    ensures Run(s, events).section == s.section
    ensures Run(s, events).category == s.category
    decreases events
  {
    if events != [] {
      CartActionsKeepView(Dispatch(s, events[0]), events[1..]);
    }
  }

  /** Navigation and filter actions never touch the cart. */
  lemma {:induction false} ViewActionsKeepCart(s: AppState, events: seq<Event>)
    requires forall i :: 0 <= i < |events| ==> !IsCartAction(events[i])
    ensures Run(s, events).cart == s.cart
    decreases events
  {
    if events != [] {
      ViewActionsKeepCart(Dispatch(s, events[0]), events[1..]);
    }
  }

  /** Each "Add to Cart" adds exactly one unit to the cart badge's item count. */
  lemma {:induction false} AddsCountOneEach(s: AppState, events: seq<Event>)
    requires WellFormed(s.cart)
    requires forall i :: 0 <= i < |events| ==> events[i].Add?
    ensures ItemCount(Run(s, events).cart) == ItemCount(s.cart) + |events|
    decreases events
  {
    if events != [] {
      AddCountsOne(s.cart, events[0].p);
      DispatchKeepsWellFormed(s, events[0]);
      AddsCountOneEach(Dispatch(s, events[0]), events[1..]);
    }
  }

  /** From start-up, adding product `p` twice gives one line with quantity 2. */
  lemma {:induction false} AddTwice(p: Catalog.Product)
    ensures Run(Initial(), [Add(p), Add(p)]).cart == [CartItem(p, 2)]
    ensures ItemCount(Run(Initial(), [Add(p), Add(p)]).cart) == 2
    ensures Total(Run(Initial(), [Add(p), Add(p)]).cart) == 2 * p.price
  {
    AddTwiceCart(p);
    SingleLine(CartItem(p, 2));
  }

  /** The cart part of `AddTwice`, one action at a time. */
  lemma {:induction false} AddTwiceCart(p: Catalog.Product)
    ensures Run(Initial(), [Add(p), Add(p)]).cart == [CartItem(p, 2)]
  {
    var s0 := Initial();
    var s1 := Dispatch(s0, Add(p));
    AddNew([], p);
    AddExisting([CartItem(p, 1)], p, 0);
    RunOne(s1, Add(p));
    RunAppend(s0, [Add(p)], [Add(p)]);
    assert [Add(p)] + [Add(p)] == [Add(p), Add(p)];
  }

  /**
   * From start-up, adding product `p` twice and then changing its quantity by
   * -2 empties the cart again.
   */
  lemma {:induction false} AddTwiceThenRemove(p: Catalog.Product)
    ensures Run(Initial(), [Add(p), Add(p), Adjust(p.id, -2)]).cart == []
  {
    var s0 := Initial();
    var s2 := Run(s0, [Add(p), Add(p)]);
    AddTwice(p);
    RunOne(s2, Adjust(p.id, -2));
    RunAppend(s0, [Add(p), Add(p)], [Adjust(p.id, -2)]);
    assert [Add(p), Add(p)] + [Adjust(p.id, -2)] == [Add(p), Add(p), Adjust(p.id, -2)];
    UpdatePresent([CartItem(p, 2)], p.id, -2, 0);
  }

  /** From start-up, adding two different products costs the sum of their prices. */
  lemma {:induction false} AddTwoProducts(p: Catalog.Product, q: Catalog.Product)
    requires p.id != q.id
    ensures Run(Initial(), [Add(p), Add(q)]).cart == [CartItem(p, 1), CartItem(q, 1)]
    ensures Total(Run(Initial(), [Add(p), Add(q)]).cart) == p.price + q.price
  {
    AddTwoProductsCart(p, q);
    TwoLines(CartItem(p, 1), CartItem(q, 1));
  }

  /** The cart part of `AddTwoProducts`, one action at a time. */
  lemma {:induction false} AddTwoProductsCart(p: Catalog.Product, q: Catalog.Product)
    requires p.id != q.id
    ensures Run(Initial(), [Add(p), Add(q)]).cart == [CartItem(p, 1), CartItem(q, 1)]
  {
    var s0 := Initial();
    var s1 := Dispatch(s0, Add(p));
    AddNew([], p);
    AddNew([CartItem(p, 1)], q);
    RunOne(s1, Add(q));
    RunAppend(s0, [Add(p)], [Add(q)]);
    assert [Add(p)] + [Add(q)] == [Add(p), Add(q)];
  }

  /** A two-line cart costs the sum of its lines. */
  lemma {:induction false} TwoLines(x: CartItem, y: CartItem)
    ensures Total([x, y]) == x.product.price * x.quantity + y.product.price * y.quantity
  {
    assert [x, y] == [x] + [y];
    TotalAppend([x], [y]);
    SingleLine(x);
    SingleLine(y);
  }

  /**
   * With the catalog's first two products (29.99 and 49.99): adding the first
   * twice totals 59.98, and taking 2 off empties the cart; adding one of each
   * totals 79.98.
   */
  lemma {:induction false} CheckoutScenario()
    ensures ItemCount(Run(Initial(), [Add(Catalog.Products()[0]), Add(Catalog.Products()[0])]).cart) == 2
    ensures Total(Run(Initial(), [Add(Catalog.Products()[0]), Add(Catalog.Products()[0])]).cart) == 5998
    ensures Run(Initial(), [Add(Catalog.Products()[0]), Add(Catalog.Products()[0]), Adjust(1, -2)]).cart == []
    ensures Total(Run(Initial(), [Add(Catalog.Products()[0]), Add(Catalog.Products()[1])]).cart) == 7998
  {
    var p1, p2 := Catalog.Products()[0], Catalog.Products()[1];
    assert p1.id == 1 && p1.price == 2999 && p2.id == 2 && p2.price == 4999;
    AddTwice(p1);
    AddTwiceThenRemove(p1);
    AddTwoProducts(p1, p2);
  }

  /** The running application: the state the page's handlers replace. */
  class Store {
    var cart: seq<CartItem>
    var activeSection: Section
    var selectedCategory: Option<Catalog.Category>

    /** The object invariant: the cart is well formed. */
    ghost predicate Valid()
      reads this
    {
      WellFormed(cart)
    }

    /** The fields as one state value. */
    function State(): AppState
      reads this
    {
      AppState(cart, activeSection, selectedCategory)
    }

    constructor ()
      ensures Valid()
      ensures State() == Initial()
    {
      cart := [];
      activeSection := Home;
      selectedCategory := None;
    }

    /** "Add to Cart" for product `p`. */
    method AddToCart(p: Catalog.Product)
      requires Valid()
      modifies this
      ensures Valid()
      ensures State() == Dispatch(old(State()), Add(p))
      ensures cart == AddedToCart(old(cart), p)
      ensures activeSection == old(activeSection) && selectedCategory == old(selectedCategory)
      ensures ItemCount(cart) == old(ItemCount(cart)) + 1
    {
      AddKeepsWellFormed(cart, p);
      AddCountsOne(cart, p);
      cart := AddedToCart(cart, p);
    }

    /** The minus/plus buttons of a cart line: change the quantity of product `productId` by `delta`. */
    method UpdateQuantity(productId: int, delta: int)
      requires Valid()
      modifies this
      ensures Valid()
      ensures State() == Dispatch(old(State()), Adjust(productId, delta))
      ensures cart == UpdatedQuantity(old(cart), productId, delta)
      ensures activeSection == old(activeSection) && selectedCategory == old(selectedCategory)
      ensures !HasLine(old(cart), productId) ==> cart == old(cart)
    {
      UpdateKeepsWellFormed(cart, productId, delta);
      if !HasLine(cart, productId) {
        UpdateAbsent(cart, productId, delta);
      }
      cart := UpdatedQuantity(cart, productId, delta);
    }

    /** The "Home" menu button. */
    method ShowHome()
      requires Valid()
      modifies this
      ensures Valid()
      ensures State() == Dispatch(old(State()), NavHome)
      ensures activeSection == Home
      ensures cart == old(cart) && selectedCategory == old(selectedCategory)
    {
      activeSection := Home;
    }

    /** The "Products" menu button: show the product page and clear the category filter. */
    method ShowProducts()
      requires Valid()
      modifies this
      ensures Valid()
      ensures State() == Dispatch(old(State()), NavProducts)
      ensures activeSection == ProductPage && selectedCategory == None
      ensures cart == old(cart)
      ensures Catalog.FilteredProducts(selectedCategory) == Catalog.Products()
    {
      activeSection := ProductPage;
      selectedCategory := None;
    }

    /** The "Contact" menu button. */
    method ShowContact()
      requires Valid()
      modifies this
      ensures Valid()
      ensures State() == Dispatch(old(State()), NavContact)
      ensures activeSection == Contact
      ensures cart == old(cart) && selectedCategory == old(selectedCategory)
    {
      activeSection := Contact;
    }

    /** The cart menu button. */
    method ShowCart()
      requires Valid()
      modifies this
      ensures Valid()
      ensures State() == Dispatch(old(State()), NavCart)
      ensures activeSection == Cart
      ensures cart == old(cart) && selectedCategory == old(selectedCategory)
    {
      activeSection := Cart;
    }

    /** The category pills: "All Products" (`None`) or one category. */
    method SelectCategory(c: Option<Catalog.Category>)
      requires Valid()
      modifies this
      ensures Valid()
      ensures State() == Dispatch(old(State()), PickCategory(c))
      ensures selectedCategory == c
      ensures cart == old(cart) && activeSection == old(activeSection)
    {
      selectedCategory := c;
    }
  }
}
