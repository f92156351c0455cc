# TinyMart in Dafny

A model of TinyMart's product catalogue and bounded shopping cart (`TinyMart.ts`).

- **Identity allocation.** Product IDs come from one process-wide counter. It starts at 1, and each product constructor takes its current value and then increments it. The original keeps this counter in a static field of the abstract `Product` class. Here it is an explicit `Identity.IdAllocator` object that every product constructor receives and advances.
- **Products.** The abstract `Product` and its four concrete kinds (`AudioProduct`, `VideoProduct`, and the `BookProduct` leaves `EBook` and `PaperBook`) become one `Catalogue.Product` class.
  - Its common fields are a `const id` and the mutable name, price and review rate.
  - The kind-specific payload is the `Details` datatype, which the kind-specific setters update in place.
  - The three subclass constructors become the named constructors `Music`, `Movie` and `Book`, with the original's default arguments. `EBook` and `PaperBook` share the book constructor and differ only in a `BookFormat`.
  - The constructor's two normalisation rules are the functions `NormalizeName` and `NormalizePrice`. A name that trims to the empty string becomes `"!No Name Product!"`. A price outside (0, 1000) becomes 1.0.
  - The setters are not symmetric with the constructor, and the model keeps that. `SetPrice` silently ignores an out-of-range price. `SetName` and `SetReviewRate` overwrite without any check.
- **Trimming.** `String.prototype.trim` is modelled in `Text`. It strips leading and trailing ECMAScript white space and line terminators. `Text.TrimEmptyIffBlank` proves that a name trims to nothing exactly when every character of it is white space.
- **Cart.** `Shopping.Cart` keeps the ordered sequence of product references `purchasedItems` together with the redundant counter `itemNum`.
  - Its invariant is `itemNum == |purchasedItems| <= 7`.
  - `AddItem` appends unless the cart is full.
  - `RemoveItem` splices out the first item with the given ID (`findIndex` is `FindIndex`, `splice(i, 1)` is `RemoveAt`).
  - `Summary` computes the two figures of the purchase summary: the number of items, and the in-order sum of their current prices.
- **Demonstration.** `Demo` restates the original demonstration run as methods with postconditions. It fills a cart with seven items and removes two items by ID. `FillCart` also offers the eighth product, which the original never adds, to show that a full cart refuses it. Five items are then left, totalling 82.55.

Prices and review rates are Dafny `real`s, so the range check `0 < p < 1000` is exact.

## Model

| member | source | states |
|---|---|---|
| Identity.IdsBefore | TinyMart.ts:18 | with the counter at `next`, the IDs handed out so far are exactly 1, 2, ..., next - 1, in issue order |
| Identity.IdsBeforeAscending | TinyMart.ts:31-33 | the issued IDs start at 1, strictly increase in issue order (so they are pairwise distinct), and the next ID is not among them |
| Identity.IdAllocator.constructor | TinyMart.ts:18 | a new counter starts at 1 and has issued nothing |
| Identity.IdAllocator.CreateNewId | TinyMart.ts:31-33 | returns the counter's current value and increments it by exactly 1; the ID is appended to the issued IDs and is greater than every earlier one |
| Text.TrimStart | TinyMart.ts:26 | the leading-white-space half of `trim()`: the result is the suffix left after a blank prefix is dropped, and it does not start with white space |
| Text.TrimEnd | TinyMart.ts:26 | the trailing-white-space half of `trim()`: the result is the prefix left after a blank suffix is dropped, and it does not end with white space |
| Text.Trim | TinyMart.ts:26 | `trim()`: the result is the infix of the input left after a blank prefix and a blank suffix are dropped, and it neither starts nor ends with white space |
| Text.TrimEmptyIffBlank | TinyMart.ts:26 | `trim()` yields the empty string exactly when every character is white space or a line terminator |
| Catalogue.NormalizeName | TinyMart.ts:26 | a blank name becomes "!No Name Product!"; any other name is kept unchanged and untrimmed; the result is never blank |
| Catalogue.NormalizePrice | TinyMart.ts:27 | a price in (0, 1000) is kept; any other price becomes 1.0; the result always lies in (0, 1000) |
| Catalogue.NormalizeIdempotent | TinyMart.ts:26-27 | applying either constructor rule to its own output changes nothing |
| Catalogue.TypeLabel | TinyMart.ts:66-146 | `getProdTypeStr`: the label is "Music" exactly for songs, "Movie" exactly for movies, "E book" exactly for e-books and "Paper book" exactly for paper books |
| Catalogue.TypeLabelIdentifiesKind | TinyMart.ts:66-146 | the labels "Music", "Movie", "E book" and "Paper book" agree exactly when the two products are of the same concrete kind |
| Catalogue.IsNewRelease | TinyMart.ts:103-105 | `isNewRelease(year)` holds exactly when year <= releaseYear |
| Catalogue.NewReleaseBoundary | TinyMart.ts:103-105 | a movie is a new release for its own release year but not the year after (inclusive boundary), and stays one for every earlier threshold |
| Catalogue.Product.Music | TinyMart.ts:60-64 | takes the allocator's next ID and advances it by 1; stores the normalised name and price; review rate 0.0; the given singer; genre Pop |
| Catalogue.Product.Movie | TinyMart.ts:86-92 | the same ID and base-field rules; stores the given director, release year (default 2000) and run time (default 90); film rating NotRated |
| Catalogue.Product.Book | TinyMart.ts:123-127 | the same ID and base-field rules; stores the given author and page count (default 0) for an e-book or a paper book |
| Catalogue.Product.SetName | TinyMart.ts:40 | overwrites the name with no blank check; price, review rate and payload unchanged |
| Catalogue.Product.SetPrice | TinyMart.ts:41 | the price becomes the argument iff it lies in (0, 1000), else stays as it was; a valid price stays valid; name, review rate and payload unchanged |
| Catalogue.Product.SetReviewRate | TinyMart.ts:42 | overwrites the review rate with no check; name, price and payload unchanged |
| Catalogue.Product.SetSinger | TinyMart.ts:75 | replaces only the singer of a song |
| Catalogue.Product.SetGenre | TinyMart.ts:76 | replaces only the genre of a song |
| Catalogue.Product.SetDirector | TinyMart.ts:107 | replaces only the director of a movie |
| Catalogue.Product.SetFilmRate | TinyMart.ts:108 | replaces only the film rating of a movie |
| Catalogue.Product.SetReleaseYear | TinyMart.ts:109 | replaces only the release year of a movie |
| Catalogue.Product.SetRunTime | TinyMart.ts:110 | replaces only the run time of a movie |
| Catalogue.Product.SetAuthor | TinyMart.ts:135 | replaces only the author of a book |
| Catalogue.Product.SetPages | TinyMart.ts:136 | replaces only the page count of a book |
| Shopping.FindIndex | TinyMart.ts:172 | the index of the first item with the given ID, or -1 exactly when no item has it |
| Shopping.RemoveAt | TinyMart.ts:174 | removes one position: the items before it keep their places, the ones after it move down by one, and the length drops by one |
| Shopping.RemoveAtMultiset | TinyMart.ts:174 | exactly the removed element leaves the multiset of items |
| Shopping.RemoveFirstMatchCounts | TinyMart.ts:171-179 | removing the first match lowers the number of items with that ID by exactly one and leaves the count for every other ID unchanged |
| Shopping.RemoveUniqueLeavesNone | TinyMart.ts:171-179 | when IDs in the cart are unique, after the removal no item has that ID and the IDs stay unique |
| Shopping.SumPrices | TinyMart.ts:183-188 | the `total +=` accumulation over the items in order: an empty cart totals 0, and a total of non-negative prices is non-negative |
| Shopping.SumPricesAppend | TinyMart.ts:183-188 | appending an item adds exactly its price to the running total |
| Shopping.SumPricesRemoveAt | TinyMart.ts:183-188 | removing the item at a position subtracts exactly its price from the total |
| Shopping.SumPricesBounds | TinyMart.ts:183-188 | with every price in (0, 1000), an empty cart totals 0 and n > 0 items total strictly between 0 and 1000 n |
| Shopping.Cart.constructor | TinyMart.ts:150-158 | a new cart has the given owner, no items and a zero counter |
| Shopping.Cart.IsCartFull | TinyMart.ts:160-162 | `itemNum >= 7` holds exactly when the cart holds seven items |
| Shopping.Cart.AddItem | TinyMart.ts:164-169 | returns true iff the cart held fewer than 7 items; then the item is appended at the end, else nothing changes; the counter keeps agreeing with the sequence |
| Shopping.Cart.RemoveItem | TinyMart.ts:171-179 | returns true iff some item has the ID; then the first such item is spliced out, else nothing changes; the counter keeps agreeing with the sequence |
| Shopping.Cart.Summary | TinyMart.ts:183-191 | the count is the number of items and the total is the in-order sum of their current prices |
| Demo.StarWarsRelease | TinyMart.ts:215 | the 1977 movie is a new release for 1900 and 1977, not for 1978 |
| Demo.NewSong | TinyMart.ts:199-201 | a song built and configured as in the demonstration gets the next ID and keeps its price, singer, genre and review rate |
| Demo.NewMovie | TinyMart.ts:211-213 | a movie built and configured as in the demonstration gets the next ID and keeps its price, director, release year, run time, film rating and review rate |
| Demo.NewBook | TinyMart.ts:219-220 | a book built as in the demonstration gets the next ID, keeps its price, author, page count and review rate, and carries its format's label |
| Demo.CreateProducts | TinyMart.ts:199-227 | the demonstration's eight products get IDs 1 to 8 in creation order and keep their given prices |
| Demo.FillCart | TinyMart.ts:229-236 | seven additions fill the cart and an eighth is refused |
| Demo.RemainingTotal | TinyMart.ts:238-242 | the five remaining items total 82.55 |
| Demo.Shop | TinyMart.ts:229-242 | after filling the cart and removing the paper book and the second song by ID, the cart is no longer full, holds 5 items and totals 82.55 |
| Demo.PurchaseScenario | TinyMart.ts:198-243 | the whole demonstration run ends with 5 items totalling 82.55 |

## Left out

- All console rendering is left out: `displayProdInfo`, `displayContentsInfo` and the text that `displayCart` prints. It is presentation only. The polymorphic `displayContentsInfo` has no counterpart in the model.
- The average cost `total / length` and the two-decimal `toFixed` formatting are left out. The average is a floating-point division that yields NaN for an empty cart. `Cart.Summary` gives only the count and the exact total.
- IEEE floating point is not modelled. Prices and review rates are exact reals, so NaN, infinities and rounding in the running total are not captured. The review rate is never checked, and the model does not check it either.
- `getProdID`, `getProdName`, `getPrice`, `getReviewRate` and the kind-specific getters are not separate members. They return a field unchanged, and the model reads that field directly.
- Showing an enumeration value by its symbolic name (`GenreType[...]`, `FilmRateType[...]`) is left out. It is runtime behaviour of TypeScript enums; here the enumerations are plain datatypes.
- All of the demonstration `main` is modelled, as methods with postconditions, except what `displayCart` prints and the average.
- The demonstration never adds its eighth product, `extra`. `Demo.FillCart` does offer it to the full cart, to show that a full cart refuses it.
- The allocator is a single object passed to the constructors, not a static field. A program that uses two allocators would get overlapping IDs; the original has no such option.
- Integer widths are not modelled. The counter, years, run times and page counts are unbounded integers, whereas the original uses JavaScript numbers, which stay exact up to 2^53.
- JavaScript numbers may be fractional. Release years, run times, page counts, the `isNewRelease` threshold and the ID given to `removeItem` are `int`s here, so fractional arguments such as `isNewRelease(1977.5)` are not modelled. No rule of the core depends on them being fractional.
- `NameType` values are objects held by reference in the original, so a singer, director, author or owner could be shared and changed through another holder. Here `PersonName` is an immutable value, so that aliasing is not modelled. The core never changes a name object in place.
