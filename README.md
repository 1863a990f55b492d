# Storefront cart and catalog search, in Dafny

This project models the core of `script.js`, the browser script of a small
electronics storefront. It has four parts:

- the built-in product list;
- the shopping cart: `addToCart`, `removeFromCart`, `updateCartQuantity`,
  and the item count and total that `updateCartUI` computes;
- the category filter (`filterProducts`);
- the text search (`searchProducts`).

Modules:

- `Seqs`: the array primitives the script is built from. `Filter` models
  `Array.prototype.filter`. `Sum` and `Reduce` model the summing
  `Array.prototype.reduce`. `Option` models a `find` that may come back empty.
- `Text`: the string operations the search uses. `Lower` models
  `toLowerCase`, `Trim` models `trim` (with the ECMAScript set of whitespace
  and line-terminator code points) and `Contains` models `includes`.
- `Catalog`: the `Product` record, the three built-in products, lookup by
  identifier, the category filter and the search.
- `Cart`: the cart as a list of lines. Each line is a copy of a product plus
  a quantity. The operations are first defined as functions on that list
  (`Add`, `Remove`, `SetQuantity`, `ItemCount`, `Total`), and their
  properties are proved as lemmas. The class `ShoppingCart` holds the list in
  a field and changes it in place. Each of its three mutating methods is
  proved to leave the field equal to the matching function applied to the
  old list, and to keep the invariant:
  - at most one line per product identifier;
  - every line has at least one unit;
  - every line is a catalog product.

  Its fourth method, `Summary`, changes nothing. It returns the item count
  and the total.

Modelling decisions:

- Prices are whole cents (24.99 becomes 2499). Ratings are tenths of a star
  (4.8 becomes 48). The script uses floating-point dollars, so its total can
  carry rounding error before `toFixed(2)`. The model's total is the exact
  sum in cents.
- The text of the search box (`searchInput.value`) is a parameter of
  `SearchProducts`.
- The output of the filter and the search is the list that the script
  passes to `displayProducts`. Rendering that list is outside the model.

## Model

| member | source | states |
|---|---|---|
| Catalog.Products | script.js:2-36 | a constant with no contract of its own: the three built-in products, with prices in cents and ratings in tenths; BuiltInCatalogIsWellFormed, FilterBuiltInSensors and SampleCartTotal state facts about it |
| Catalog.BuiltInCatalogIsWellFormed | script.js:2-36 | the built-in products have pairwise distinct ids and ratings of at most five stars |
| Catalog.Lookup | script.js:104 | a found product is in the catalog and has the requested id; nothing is found exactly when no product has that id |
| Catalog.LookupFirst | script.js:104 | when `k` is the first position whose product has the id, the lookup returns exactly that product |
| Catalog.LookupFindsProduct | script.js:104 | with unique ids, looking up a product's id returns that very product |
| Catalog.HasCategory | script.js:185 | no ensures of its own: the predicate `p.category === category`; FilterProducts states its meaning for the filter |
| Catalog.FilterProducts | script.js:185 | "all" returns the whole catalog; any other category returns products of that category only, and every catalog product of that category appears |
| Catalog.FilterProductsInOrder | script.js:185 | the filter result is a subsequence of the catalog, so catalog order is kept |
| Catalog.FilterProductsAppend | script.js:185 | filtering a concatenation is the concatenation of the filtered parts |
| Catalog.FilterBuiltInSensors | script.js:185 | filtering the built-in list by "sensors" gives exactly the DHT22 sensor |
| Catalog.SearchTerm | script.js:191 | no ensures of its own: the input lower-cased, then trimmed; Lower, Trim, SearchBlankShowsAll and SearchIgnoresCase state its meaning |
| Catalog.MatchesTerm | script.js:197-201 | no ensures of its own: the `includes` test on the three lower-cased fields; Contains ties it to occurrences, and SearchProducts states it against Mentions |
| Catalog.SearchProducts | script.js:191-201 | an empty lower-cased, trimmed term returns the whole catalog; otherwise the result holds exactly the catalog products whose lower-cased name, description or category contains the term |
| Catalog.SearchBlankShowsAll | script.js:191-195 | an input made only of whitespace, or empty, shows the whole catalog |
| Catalog.SearchIgnoresCase | script.js:191 | lower-casing the input first does not change the result |
| Catalog.SearchProductsInOrder | script.js:197-201 | the search result is a subsequence of the catalog |
| Catalog.SearchProductsAppend | script.js:197-201 | searching a concatenation is the concatenation of the searched parts |
| Text.LowerChar | script.js:191 | the result is never an upper-case ASCII letter; other characters are unchanged; an upper-case letter moves to its lower-case partner |
| Text.Lower | script.js:191 | lower-casing keeps the length, maps each character by LowerChar, and leaves no upper-case ASCII letter |
| Text.LowerIdempotent | script.js:191 | lower-casing twice is the same as lower-casing once |
| Text.LowerKeepsWhitespace | script.js:191 | lower-casing keeps whitespace at the same positions |
| Text.LeadingSpace | script.js:191 | the number of leading characters `trim` cuts: all of them are whitespace, and the next character, if any, is not |
| Text.TrailingStart | script.js:191 | where the trailing whitespace `trim` cuts begins: every character from there on is whitespace, and the one before, if any, is not |
| Text.Trim | script.js:191 | the result is the slice of the input that follows its leading whitespace and precedes a whitespace-only tail; it is empty exactly when the input is all whitespace; otherwise neither end is whitespace |
| Text.Contains | script.js:198-200 | `includes` holds exactly when the term occurs at some position |
| Text.ContainsEmpty | script.js:198-200 | a fact about `includes` alone: every string contains the empty string (the search never asks, since it returns early on an empty term) |
| Seqs.Filter | script.js:124 | the result is no longer than the input, and `keep` accepts each of its elements |
| Seqs.FilterMembers | script.js:124 | the filter result holds elements of the input only, and every element of the input that `keep` accepts |
| Seqs.FilterIsSubsequence | script.js:124 | the filter result is a subsequence of the input |
| Seqs.FilterDropsOne | script.js:124 | when exactly one element is rejected, filtering deletes that element and keeps the rest in order |
| Seqs.Sum | script.js:145-148 | no ensures of its own: the sum of the terms over the list; ReduceIsSum, SumLowerBound, SumAppend, SumUpdate and SumDelete state its meaning |
| Seqs.Reduce | script.js:145-148 | no ensures of its own: the literal left fold of `reduce` with an accumulator; ReduceIsSum ties it to Sum |
| Seqs.ReduceIsSum | script.js:145-148 | the left-to-right `reduce` from seed `acc` equals `acc` plus the sum of the terms |
| Seqs.SumUpdate | script.js:145-148 | replacing one element changes the sum by the difference of the two terms |
| Seqs.SumDelete | script.js:145-148 | deleting one element lowers the sum by that element's term |
| Cart.FindLine | script.js:107 | a found position holds a line for the id and is the first such line; nothing is found exactly when no line has the id |
| Cart.FindLineUnique | script.js:107 | in a well-formed cart the line of a product is the one found for its id |
| Cart.Add | script.js:103-116 | no ensures of its own: `addToCart` on the list of lines; AddUnknownIsNoop, AddExistingIncrements, AddNewAppends, AddPreservesInvariant, AddQuantities and AddAggregates state its meaning |
| Cart.AddUnknownIsNoop | script.js:104-105 | adding an id no catalog product has leaves the cart unchanged |
| Cart.AddExistingIncrements | script.js:107-110 | adding a product already in the cart raises only that line's quantity, by exactly one; every other line and the length are unchanged |
| Cart.AddNewAppends | script.js:111-116 | adding a catalog product the cart lacks keeps the old lines as a prefix and appends one line: the looked-up product with quantity 1 |
| Cart.AddPreservesInvariant | script.js:103-116 | adding keeps at most one line per id, positive quantities and lines taken from the catalog |
| Cart.AddQuantities | script.js:103-116 | one addition raises the quantity of that product by one and leaves every other product's quantity unchanged |
| Cart.AddRepeatedKeepsInvariant | script.js:103-116 | any number of additions keep the cart invariant |
| Cart.AddRepeated | script.js:107-116 | n additions of one product raise its quantity by exactly n and leave other products alone |
| Cart.AddRepeatedToEmpty | script.js:107-116 | n > 0 additions of one product to an empty cart give a single line with quantity n |
| Cart.Remove | script.js:124 | no ensures of its own: `removeFromCart` on the list of lines; RemoveDropsOnlyThatProduct, RemoveAbsentIsNoop, RemoveExisting, RemovePreservesInvariant and RemoveAggregates state its meaning |
| Cart.RemoveDropsOnlyThatProduct | script.js:124 | after removal no line has the id; every other line is kept; order is kept |
| Cart.RemoveAbsentIsNoop | script.js:124 | removing an id the cart lacks changes nothing |
| Cart.RemoveExisting | script.js:124 | removing a product's id deletes exactly its line and keeps the others in place |
| Cart.RemovePreservesInvariant | script.js:124 | removal keeps the cart invariant |
| Cart.RemoveKeepsWellFormed | script.js:124 | removal keeps unique ids and positive quantities |
| Cart.SetQuantity | script.js:130-141 | no ensures of its own: `updateCartQuantity` on the list of lines; SetNonPositiveIsRemove, SetPositiveReplaces, SetAbsentIsNoop, SetPreservesInvariant and SetAggregates state its meaning |
| Cart.SetNonPositiveIsRemove | script.js:133-134 | a quantity of zero or less gives the same cart as `removeFromCart` |
| Cart.SetPositiveReplaces | script.js:135-136 | a positive quantity sets exactly that line's quantity and changes nothing else |
| Cart.SetAbsentIsNoop | script.js:131-132 | for an id the cart lacks, any quantity leaves the cart unchanged |
| Cart.SetPreservesInvariant | script.js:130-141 | updating a quantity keeps the cart invariant |
| Cart.LineAmount | script.js:148 | no ensures of its own: `item.price * item.quantity` in cents; LineAmountOneMore and OneMoreUnitAggregates state how it moves |
| Cart.ItemCount | script.js:145 | no ensures of its own: the sum of the line quantities; AggregateBounds, EmptyCartAggregates and the aggregate lemmas below state its meaning |
| Cart.Total | script.js:148 | no ensures of its own: the sum of the line amounts; AggregateBounds, EmptyCartAggregates and the aggregate lemmas below state its meaning |
| Cart.AggregateBounds | script.js:145-148 | in a well-formed cart the item count is at least the number of lines and the total is not negative |
| Cart.EmptyCartAggregates | script.js:145-148 | the item count is 0 exactly when the cart is empty; an empty cart totals 0 |
| Cart.AddAggregates | script.js:144-148 | adding a catalog product raises the item count by one and the total by its price |
| Cart.OneMoreUnitAggregates | script.js:144-148 | one more unit on a line raises the count by one and the total by its price |
| Cart.NewLineAggregates | script.js:144-148 | a new one-unit line raises the count by one and the total by its price |
| Cart.RemoveAggregates | script.js:144-148 | removing a line lowers the count by its quantity and the total by its amount |
| Cart.SetAggregates | script.js:144-148 | setting a line's quantity to q changes the count and the total by the difference |
| Cart.ThreeAdditions | script.js:144-148 | adding product a once and product b twice gives 3 items costing a's price plus twice b's |
| Cart.SampleCartTotal | script.js:144-148 | one Arduino and two DHT22 sensors give 3 items and 4999 cents |
| Cart.ShoppingCart.constructor | script.js:39 | the cart starts empty, satisfying the invariant |
| Cart.ShoppingCart.AddToCart | script.js:103-117 | the new lines are `Add` of the old ones, and the invariant holds |
| Cart.ShoppingCart.RemoveFromCart | script.js:123-125 | the new lines are `Remove` of the old ones, and the invariant holds |
| Cart.ShoppingCart.UpdateCartQuantity | script.js:130-141 | the new lines are `SetQuantity` of the old ones, and the invariant holds |
| Cart.ShoppingCart.Summary | script.js:144-148 | the two `reduce` results are the item count, at least the number of lines, and the total, never negative |

## Left out

- Rendering is not modelled: `displayProducts`, `createProductCard`,
  `displayCartItems`, the `viewProduct` alert and the badge and total text
  nodes. The model stops at the values these would show.
- `showNotification`, its timers, the event listeners, the scroll effects and
  the modal toggling are user-interface effects with no state that the cart or
  the search reads.
- Prices are not modelled as floating point, and `toFixed(2)` is left out.
  Cents are used instead, so the total is exact where the script may round.
- Quantities, ids and `newQuantity` are unbounded integers. In the script
  they are JavaScript numbers (doubles): `quantity += 1` stops being exact
  past 2^53, and `updateCartQuantity` would store a fractional value or NaN
  (`NaN <= 0` is false). The only callers, the cart's `-` and `+` buttons,
  pass integers, so these cases are left out; Cart.AddRepeated's "exactly n"
  holds for the integers of the model.
- Text.Lower: maps only the ASCII letters. JavaScript's `toLowerCase` also
  maps other Unicode letters.
- Seller accounts, sign-in, storage and uploaded images are not part of this
  model. `script.js` has no code for them. The catalog is the built-in
  `products` list passed as a parameter.
- Cart lines are values, not shared objects. The script mutates a line object
  in place (`existingItem.quantity += 1`). Each line is a fresh spread copy of
  its product, so nothing else sees that change.
