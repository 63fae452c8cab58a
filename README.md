# Digital Store: cart and catalog state

A model of the state behind the single-page "Digital Store" storefront
(`src/App.tsx`). The page holds three pieces of state: the shopping cart, the
section on screen (home, products, contact, cart), and an optional category
filter for the product list. It derives three values from them: the cart's item
count, its total, and the filtered product list. Everything else on the page is
markup.

The project has four modules:

- `Optional` (`optional.dfy`): `Option`, which stands in for JavaScript's `null`.
- `Catalog` (`catalog.dfy`): the `Product` record, the four categories, and
  the fixed eight-product catalog. It also holds the category filter
  (`InCategory`, `FilteredProducts`). The filter is characterised three ways:
  which products it keeps, that it preserves catalog order (a subsequence),
  and that it is the largest such selection, which makes it unique.
- `ShoppingCart` (`shopping_cart.dfy`): the cart lines and the two updaters as
  functions from the old list to the new one, following the source's
  `find`/`map`/spread and `map`/`filter` steps. The item count and total are
  left folds, matching `reduce`. The lemmas state what each updater does to
  the list and to the two folds. They also prove that the invariant is kept:
  one line per product id, and every quantity at least 1.
- `Storefront` (`storefront.dfy`): the whole state as an `AppState` value, the
  user actions as `Event`s, and `Dispatch`/`Run` as the state machine. The
  `Store` class has one field per piece of state and one method per handler.
  Each method's postcondition ties the new fields to `Dispatch` of the old
  ones.

Prices are natural numbers of cents (29.99 is 2999), so totals are exact
integers. Product ids, quantities and quantity changes are integers.

Only the "Products" menu button (`src/App.tsx:164-167`) opens the product
page, and it also clears the category filter (`Storefront.Store.ShowProducts`).
The "All Products" and category pills (`src/App.tsx:268`, `281`) change only
the filter.
When a product is already in the cart, "Add to Cart" raises the quantity on the
existing line. That line keeps the product record it already held (`...item`),
not the record passed in, and the model does the same (`AddedToCart`).

## Model

| member | source | states |
|---|---|---|
| `Catalog.Products` | src/App.tsx:18-83 | The fixed catalog: eight products whose ids are 1 to 8 in catalog order. |
| `Catalog.CatalogIsValid` | src/App.tsx:18-83 | The catalog has eight products; their ids are positive and pairwise distinct. |
| `Catalog.InCategory` | src/App.tsx:140 | The `filter` by category, kept in input order; the result is never longer than the input. |
| `Catalog.FilteredProducts` | src/App.tsx:139-141 | The product page's list for the selected category: it holds only catalog products, all of the selected category when one is selected, and never more than the catalog. |
| `Catalog.InCategoryMembers` | src/App.tsx:140 | A product is in the filtered list exactly when it is in the input and has the selected category. |
| `Catalog.InCategoryIsSubsequence` | src/App.tsx:140 | The filtered list keeps the input's order (it is a subsequence of it). |
| `Catalog.InCategoryIsMaximal` | src/App.tsx:140 | Every order-preserving selection of products of the category is contained, in order, in the filtered list. |
| `Catalog.InCategoryIsUnique` | src/App.tsx:140 | The filtered list is the only order-preserving selection of the category's products that is at least as long as it. |
| `Catalog.InCategoryAppend` | src/App.tsx:140 | Filtering two lists laid end to end is filtering each and concatenating. |
| `Catalog.FilteredProductsSpec` | src/App.tsx:139-141 | With no category selected the page lists the whole catalog. With one selected, it lists exactly the catalog products of that category, in catalog order. |
| `Catalog.FilteredByCategory` | src/App.tsx:139-141 | Each category pill lists exactly its two catalog products, in catalog order. |
| `ShoppingCart.Find` | src/App.tsx:107 | The lookup finds a line exactly when some line has the product's id. What it returns is the first cart line with that id: no earlier line has it. |
| `ShoppingCart.AddedToCart` | src/App.tsx:105-117 | Add to cart: afterwards the product's id has a line. The cart keeps its length when the id already had a line, and grows by one line otherwise. |
| `ShoppingCart.AddExisting` | src/App.tsx:107-113 | Adding a product already in the cart keeps the length and adds exactly one unit to that product's line. Every other line is unchanged, in the same position. |
| `ShoppingCart.AddNew` | src/App.tsx:115 | Adding a product not in the cart appends a line with quantity 1 after the unchanged old lines. |
| `ShoppingCart.AddCountsOne` | src/App.tsx:105-117 | With one line per product, adding to the cart raises the item count by exactly 1. |
| `ShoppingCart.AddChargesPrice` | src/App.tsx:105-117 | Adding a product raises the total by its price, provided any line for its id holds that product. |
| `ShoppingCart.AddKeepsWellFormed` | src/App.tsx:105-117 | Adding to the cart keeps the invariant: one line per product id, and every quantity at least 1. |
| `ShoppingCart.AddRepeatedly` | src/App.tsx:105-117 | Adding one product n >= 1 times to the empty cart gives a single line with quantity n and an item count of n. |
| `ShoppingCart.UpdatedQuantity` | src/App.tsx:119-131 | The quantity change (`map` to a line or `null`, then `filter`): the cart never grows. `UpdateAbsent` and `UpdatePresent` give the result exactly. |
| `ShoppingCart.ItemCount` | src/App.tsx:133 | The cart badge's item count: a left fold of the quantities, starting at 0. Its properties are stated by `ItemCountAppend`, `SingleLine` and `CountAndTotalBounds`. |
| `ShoppingCart.Total` | src/App.tsx:134 | The cart total in cents: a left fold of price × quantity, starting at 0. Its properties are stated by `TotalAppend`, `SingleLine` and `CountAndTotalBounds`. |
| `ShoppingCart.UpdatedAppend` | src/App.tsx:121-129 | The quantity update works line by line: it distributes over concatenation. |
| `ShoppingCart.UpdateAbsent` | src/App.tsx:121-129 | Updating a product id with no line in the cart leaves the cart unchanged. |
| `ShoppingCart.UpdatePresent` | src/App.tsx:122-129 | Updating a present id: if quantity + delta > 0, the line takes that quantity in the same position; otherwise the line is removed. All other lines keep their values and relative order. |
| `ShoppingCart.UpdateCount` | src/App.tsx:119-133 | After updating a present line, the item count goes up by delta if the line stays, or down by the line's old quantity if it is removed. |
| `ShoppingCart.UpdateRemoves` | src/App.tsx:122-129 | Once an update removes a line, the id is absent, and a further update of that id changes nothing. |
| `ShoppingCart.UpdateKeepsWellFormed` | src/App.tsx:119-131 | Updating a quantity keeps the invariant: one line per product id, and every quantity at least 1. |
| `ShoppingCart.ItemCountAppend` | src/App.tsx:133 | The item count is additive over concatenation of carts. |
| `ShoppingCart.TotalAppend` | src/App.tsx:134 | The total is additive over concatenation of carts. |
| `ShoppingCart.SingleLine` | src/App.tsx:133-134 | A one-line cart counts that line's quantity and costs its price times its quantity. Together with additivity, this makes both folds the sums over lines (0 for the empty cart). |
| `ShoppingCart.SplitAround` | src/App.tsx:133-134 | The count and the total of a cart split around one line are the parts' values plus that line's quantity (count) or price × quantity (total). |
| `ShoppingCart.CountAndTotalBounds` | src/App.tsx:133-134 | With positive quantities, the item count is at least the number of lines and is positive exactly when the cart is non-empty. The total is never negative. |
| `Storefront.Initial` | src/App.tsx:100-103 | The start-up state: a well-formed, empty cart (count 0, total 0), and the whole catalog listed. |
| `Storefront.Dispatch` | src/App.tsx:105-281 | One user action. Only add and quantity changes alter the cart. Only the four menu buttons alter the section. Only the "Products" button and the pills alter the category. |
| `Storefront.DispatchKeepsWellFormed` | src/App.tsx:105-131 | Every user action keeps the cart invariant. |
| `Storefront.RunKeepsWellFormed` | src/App.tsx:105-131 | Any sequence of user actions keeps the cart invariant. |
| `Storefront.ReachableIsWellFormed` | src/App.tsx:100-131 | Every state reachable from start-up (empty cart) has one line per product id and positive quantities. |
| `Storefront.RunAppend` | src/App.tsx:100-103 | Running two sequences of actions one after the other is running their concatenation. |
| `Storefront.ProductsMenuShowsAll` | src/App.tsx:164-167 | The Products menu button sets the section to products and clears the category, so the whole catalog is listed. The cart is unchanged. |
| `Storefront.PickChangesOnlyCategory` | src/App.tsx:268-281 | A category pill (or "All Products") sets only the category; the section and the cart are unchanged. |
| `Storefront.CategoryPersists` | src/App.tsx:157-179 | Through any sequence of actions other than the Products menu button and the pills, the category filter keeps its value. |
| `Storefront.CartActionsKeepView` | src/App.tsx:105-131 | Cart actions never change the section or the category. |
| `Storefront.ViewActionsKeepCart` | src/App.tsx:157-179 | Navigation and filter actions never change the cart. |
| `Storefront.AddsCountOneEach` | src/App.tsx:105-133 | Starting from a well-formed cart, n "Add to Cart" actions raise the item count by exactly n. |
| `Storefront.AddTwice` | src/App.tsx:105-134 | From start-up, adding a product twice gives a single line of that product with quantity 2, an item count of 2 and a total of twice its price. |
| `Storefront.AddTwiceThenRemove` | src/App.tsx:105-131 | From start-up, adding a product twice and then changing its quantity by -2 empties the cart. |
| `Storefront.AddTwoProducts` | src/App.tsx:105-134 | From start-up, adding two distinct products gives two lines of quantity 1, and the total is the sum of their prices. |
| `Storefront.CheckoutScenario` | src/App.tsx:18-34 | With the first two catalog products: adding the first twice gives count 2 and total 59.98. Taking 2 off then empties the cart. Adding one of each gives 79.98. |
| `Storefront.Store.constructor` | src/App.tsx:100-103 | At start-up the cart is empty, the section is home and no category is selected. |
| `Storefront.Store.AddToCart` | src/App.tsx:105-117 | The new cart is `AddedToCart` of the old one, the view is unchanged, the item count rises by 1, and the invariant holds. |
| `Storefront.Store.UpdateQuantity` | src/App.tsx:119-131 | The new cart is `UpdatedQuantity` of the old one, and it is unchanged when the id is absent. The view is unchanged and the invariant holds. |
| `Storefront.Store.ShowHome` | src/App.tsx:157 | Sets the section to home; the cart and the category are unchanged. |
| `Storefront.Store.ShowProducts` | src/App.tsx:164-167 | Sets the section to products and clears the category, so the whole catalog is listed. The cart is unchanged. |
| `Storefront.Store.ShowContact` | src/App.tsx:173 | Sets the section to contact; the cart and the category are unchanged. |
| `Storefront.Store.ShowCart` | src/App.tsx:179 | Sets the section to cart; the cart and the category are unchanged. |
| `Storefront.Store.SelectCategory` | src/App.tsx:268-281 | Sets only the category filter; the section and the cart are unchanged. |

## Left out

- Rendering: the JSX markup, CSS classes, icons, and the category display names and icons (`src/App.tsx:85-97`, `145-440`). They hold no logic.
- The home page's "Featured Products" list (`products.slice(0, 3)`, `src/App.tsx:208`): it only affects display.
- Floating-point prices and the `toFixed(2)` display of the total. Prices are whole cents, so the total is exact; display rounding is not modelled.
- The numeric type of ids, quantities and quantity changes. They are modelled as integers; fractional, infinite or NaN values of JavaScript's `number` are not.
- React's `useState` updater semantics and render scheduling. Each handler is modelled as one atomic transition of the state.
- The chat-options toggle, the WhatsApp and Instagram links, and the contact panel: a boolean flip and static links.
- The "Pay with WorldCoin" and "Pay with PayPal" buttons: they have no handlers.
- The products' names, descriptions and image URLs (`src/App.tsx:18-83`): display data that no handler or derived value reads. A `Product` carries id, price and category only.
