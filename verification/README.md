# QuickCart cart store in Dafny

QuickCart's storefront keeps its shopping cart in a client-side context
(`context/AppContext.jsx`): a map from product identifier to quantity, next to
the product catalog, a list of product records. Two mutators change the cart,
`addToCart` and `updateCartQuantity`; two readers derive figures from it,
`getCartCount` (the badge count) and `getCartAmount` (the order amount). Every
mutator clones the cart, edits the clone and installs it, so this model treats
the cart as an immutable `map<string, int>` and each mutator as a pure function
from the old cart to the new one.

- `catalog.dfy` (module `Catalog`): product records and the first-match lookup
  of a product by identifier (`Array.prototype.find`).
- `cart.dfy` (module `Cart`): the cart, `AddToCart`, `UpdateCartQuantity`, the
  property "every line has quantity at least 1", repeated additions
  and runs of mixed actions.
- `totals.dfy` (module `CartTotals`): the count and the amount. The storefront
  visits cart lines with `for...in`; the model leaves the visiting order open.
  `PositiveTotal` and `AmountTotal` are reference sums that peel off an
  arbitrarily chosen line. The lemmas `PositiveTotalRemove` and
  `AmountTotalRemove` prove that any line may be peeled first. The methods
  `GetCartCount` and `GetCartAmount` are the storefront's loops, and they pick
  the next line non-deterministically.
- `scenarios.dfy` (module `Scenarios`): worked examples: a product added twice
  and then removed, an unknown product, and the direction of the rounding.

Three readings that the program's own comments suggest are not what the code
does; the model follows the code:

- `updateCartQuantity` removes a line set to 0 ("Remove item if quantity is 0",
  `context/AppContext.jsx:61`), which suggests every line should hold at least
  1. But any other quantity is stored unchecked, negatives included. Adding a
  product whose line holds -1 then stores a line of quantity 0
  (`Cart.ZeroLineReachable`). Lines stay at least 1 only while no update asks
  for a negative quantity (`Cart.RunPreservesWellFormed`).
- `getCartCount` is commented as "the total number of items in the cart"
  (`context/AppContext.jsx:68`), but it sums only the strictly positive
  quantities (`CartTotals.GetCartCount`).
- The amount is commented as "rounded to two decimal places"
  (`context/AppContext.jsx:89`), but `Math.floor` rounds down, and negative
  totals move away from zero (`Scenarios.FloorRoundsDown`).

## Model

| member | source | states |
|---|---|---|
| Catalog.IndexOf | context/AppContext.jsx:84 | the lookup finds nothing exactly when no product has the identifier, and otherwise finds the position of the first product that has it |
| Catalog.Find | context/AppContext.jsx:84 | `find` returns nothing exactly when no product has the identifier, and otherwise returns the product at the first position carrying it |
| Catalog.FindFirstOfDuplicates | context/AppContext.jsx:84 | when several products share an identifier, the lookup returns the earliest one |
| Catalog.FindIgnoresOtherIds | context/AppContext.jsx:84 | inserting a product anywhere in the catalog does not change the lookup of any other identifier |
| Cart.AddToCart | context/AppContext.jsx:45-54 | the product's quantity becomes its old quantity plus one (a missing line counts as 0, so a missing or 0 line becomes 1); the product's line is added if missing; every other line is unchanged and no other line appears |
| Cart.UpdateCartQuantity | context/AppContext.jsx:57-66 | a quantity of 0 removes exactly that product's line; any other quantity, negative included, is stored unchecked as the line's value; every other line is unchanged |
| Cart.AddToCartPreservesWellFormed | context/AppContext.jsx:45-53 | adding a product to a cart whose lines are all at least 1 keeps them all at least 1 |
| Cart.UpdateCartQuantityWellFormed | context/AppContext.jsx:57-66 | from a cart whose lines are all at least 1, an update keeps that property if and only if the requested quantity is not negative |
| Cart.ZeroLineReachable | context/AppContext.jsx:48-63 | setting a line to -1 and then adding that product leaves a stored line of quantity 0 |
| Cart.AddTimesQuantity | context/AppContext.jsx:48-51 | n additions of a product raise its quantity by exactly n (a missing line counts as 0) and leave every other line unchanged |
| Cart.AddTimesFromEmpty | context/AppContext.jsx:48-51 | n ≥ 1 additions of a product to an empty cart give the cart holding only that product with quantity n |
| Cart.RunPreservesWellFormed | context/AppContext.jsx:45-66 | any sequence of additions and non-negative updates keeps every line at least 1 |
| Cart.RunAddsCountsOccurrences | context/AppContext.jsx:45-53 | after a sequence of additions, each product's quantity has grown by the number of times it was added |
| Cart.RunAddsLines | context/AppContext.jsx:45-53 | after a sequence of additions, the lines are the old ones plus every product added |
| CartTotals.PositiveTotal | context/AppContext.jsx:69-77 | the sum of the strictly positive quantities is never negative and is 0 for an empty cart |
| CartTotals.PositiveTotalRemove | context/AppContext.jsx:71-75 | the count is the same whichever line is visited first |
| CartTotals.GetCartCount | context/AppContext.jsx:69-77 | the loop over the lines, in any order, returns the sum of the strictly positive quantities, which is never negative |
| CartTotals.PositiveTotalZero | context/AppContext.jsx:69-77 | the count is 0 if and only if no line holds a positive quantity |
| CartTotals.PositiveTotalAtLeastLines | context/AppContext.jsx:72-74 | when every line is at least 1, the count is at least the number of lines |
| CartTotals.AddToCartCount | context/AppContext.jsx:45-77 | an addition raises the count by exactly one, except when the product's line held a negative quantity, in which case the count is unchanged |
| CartTotals.UpdateCartQuantityCount | context/AppContext.jsx:57-77 | an update replaces the line's positive part in the count by the new quantity's positive part and leaves the rest of the count unchanged |
| CartTotals.FloorToCents | context/AppContext.jsx:90 | the result is a whole number of hundredths, at most the total and less than one hundredth below it |
| CartTotals.FloorToCentsNonNegative | context/AppContext.jsx:90 | flooring a non-negative total to hundredths gives a non-negative amount |
| CartTotals.AmountTotalRemove | context/AppContext.jsx:82-88 | the unrounded amount is the same whichever line is visited first |
| CartTotals.GetCartAmount | context/AppContext.jsx:80-91 | the loop over the lines, in any order, returns the floor to hundredths of the sum, over matched lines of positive quantity, of the first matching product's offer price times the quantity |
| CartTotals.SkippedLineIgnored | context/AppContext.jsx:85-87 | a line with no matching product or a quantity ≤ 0 does not change the amount |
| CartTotals.AmountDependsOnlyOnCartLookups | context/AppContext.jsx:82-88 | two catalogs that resolve every cart line to the same product give the same amount |
| CartTotals.UnrelatedProductIgnored | context/AppContext.jsx:84-87 | a catalog product whose identifier is not in the cart does not affect the amount, wherever it is inserted |
| CartTotals.SubtotalNonNegative | context/AppContext.jsx:86 | a positive quantity at a non-negative offer price costs a non-negative amount |
| CartTotals.FirstDuplicatePriced | context/AppContext.jsx:84-86 | a line whose identifier several products share is priced at the offer price of the first of them times its quantity |
| CartTotals.AmountNonNegative | context/AppContext.jsx:85-90 | with non-negative offer prices the amount is non-negative both before and after flooring |
| Scenarios.SingleLineCount | context/AppContext.jsx:69-77 | a one-line cart counts the positive part of that line's quantity |
| Scenarios.SingleLineAmount | context/AppContext.jsx:80-88 | a one-line cart's unrounded amount is that line's amount |
| Scenarios.AddTwiceScenario | context/AppContext.jsx:45-91 | with a product priced 19.995, two additions give {p1: 2}, count 2 and amount 39.99 |
| Scenarios.RemoveScenario | context/AppContext.jsx:57-91 | setting the only line to 0 empties the cart, and the count and the amount are then 0 |
| Scenarios.UnknownProductScenario | context/AppContext.jsx:45-91 | adding a product missing from the catalog gives count 1 and amount 0 |
| Scenarios.FloorRoundsDown | context/AppContext.jsx:90 | a total of -0.005 floors to -0.01, not to 0 |

## Left out

- Loading the catalog and the user profile (`fetchProductData`, `fetchUserData`): they install fixed fixture data from a module that is not part of this model. The catalog is a parameter of the amount instead.
- The identity SDK's user, the router, the configured currency and the seller flag: external services and configuration with no logic of their own.
- The UI framework's state hooks, effects and context provider: the cart and the catalog are explicit values that the operations take and return. The `async` markers on the mutators contain no awaits and are ignored.
- Several mutator calls before one re-render: each mutator clones the cart captured at the last render and installs its result, so two calls from one event handler keep only the last result (`addToCart("a")` twice leaves `{a: 1}`). `Cart.Run`, `Cart.AddTimes` and the lemmas about them model calls separated by re-renders, each seeing the cart the previous call installed.
- Cart.AddToCart: quantities are unbounded integers; the program's numbers are doubles, where adding 1 stops changing a quantity of 2^53 or more. The contract assumes quantities stay below 2^53.
- Cart.AddTimesQuantity: assumes quantities stay below 2^53, for the same reason as `Cart.AddToCart`.
- Cart.RunAddsCountsOccurrences: assumes quantities stay below 2^53, for the same reason as `Cart.AddToCart`.
- CartTotals.GetCartCount: assumes the count stays below 2^53, above which double additions are no longer exact.
- The raw cart setter: it can install any cart, so every operation accepts an arbitrary map instead.
- Floating-point arithmetic: prices and amounts are exact reals, and `Math.floor(x * 100) / 100` is the exact floor to hundredths. Every statement about the amount, the scenarios included, is proved for exact reals only.
- Quantities that are not integers (strings, fractions, NaN) passed to `updateCartQuantity`: quantities are integers. The strict `=== 0` test is then plain integer equality, and the truthiness test in `addToCart` is "non-zero".
- Object-key behaviour: identifiers are plain strings. Keys inherited from the object prototype (such as `toString`) are not modelled. The key-ordering rules of `for...in` are not modelled either, because every order is shown to give the same sums for exact integers and reals. With floating-point prices the additions of the amount can depend on that order.
- Product fields other than the identifier, the list price and the offer price.
