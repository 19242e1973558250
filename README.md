# Storefront page logic in Dafny

This project models the logic inside a small React storefront for printed
apparel. The storefront is almost entirely markup. Four of its components
hold decidable logic, and each is modelled here:

- **Catalogue page** (`CatalogPage`, catalog.dfy). The shipped product and
  category lists. A category and search filter on lower-cased names. A
  sort-by comparator (price or name, up or down, or none for "featured").
  The stable sort of a copy of the filtered list. The Clear Filters reset.
- **Product gallery** (`ProductGallery`, gallery.dfy). The carousel's
  `currentIndex` and `isZoomed` state as a class. It has wrap-around
  next/previous, thumbnail selection, the zoom toggle, and the re-render
  that hands the component a new image list.
- **Cart page** (`CartPage`, cart.dfy). Line amounts, the subtotal, the flat
  shipping fee, the pre-discount total and the displayed total. The
  promo-code form as a class whose Apply button stores a discount snapshot.
  The store calls made by the quantity and remove buttons.
- **Product page** (`ProductPage`, product.dfy). The lookup of the route id in
  the page's product list. The size, colour, quantity and custom-design
  state as a class, with the quantity clamp and the Add to Cart gate and
  call. The image list handed to the gallery. The "You Might Also Like"
  list.

Shared helpers:

- `Text` (text.dfy): `toLowerCase` on ASCII, `includes` with its slice
  meaning, `localeCompare` as code-point order, and JavaScript truthiness of
  an optional string.
- `Sequences` (sequences.dfy): `filter`, `find` and a stable `sort`, with
  their subsequence, first-match, permutation and ordering lemmas.
- `Wrappers` (wrappers.dfy): `Option`.

Modelling choices:

- **Money.** Prices and the subtotal are integer cents (59.99 is 5999, the
  fee 5.99 is 599). The discount and the displayed total are Dafny `real`,
  because 20% of a cent amount need not be whole.
- **Sort.** ECMAScript requires `Array.prototype.sort` to be stable. It is
  modelled as a stable insertion sort.
- **Cart lines.** The cart store is not part of this model. Its lines arrive
  as a sequence, and `getCartTotal()` is taken to be the sum of
  price × quantity over them. `ValidCart` states the assumption that no
  price or quantity is negative.

## Model

| member | source | states |
|---|---|---|
| Text.IncludesFromIsSlice | src/pages/CatalogPage.tsx:76-77 | The left-to-right `includes` search from offset i succeeds exactly when the needle equals some slice of the haystack starting at or after i. |
| Text.Lower | src/pages/CatalogPage.tsx:76-77 | `toLowerCase` keeps the length, lowers each character and leaves no ASCII capital. |
| Text.LowerIdempotent | src/pages/CartPage.tsx:20 | Lowering twice is lowering once. |
| Text.IncludesIsSlice | src/pages/CatalogPage.tsx:76-77 | `includes` holds exactly when the needle equals some slice of the haystack. |
| Text.IncludesTransitive | src/pages/CatalogPage.tsx:76 | If h includes m and m includes n, then h includes n. |
| Text.CompareStrings | src/pages/CatalogPage.tsx:89-91 | The name comparison returns -1, 0 or 1, and returns 0 exactly when the names are equal. |
| Text.CompareStringsAntisymmetric | src/pages/CatalogPage.tsx:89-91 | Swapping the operands of the name comparison flips its sign. |
| Text.CompareStringsTransitive | src/pages/CatalogPage.tsx:89-91 | "Sorts no later than" on names is transitive. |
| Sequences.Filter | src/pages/CatalogPage.tsx:75 | `filter` keeps exactly the elements that pass, and never lengthens the list. |
| Sequences.FilterIsSubsequence | src/pages/CatalogPage.tsx:75-79 | The filtered list is an order-preserving subsequence of its input. |
| Sequences.FilterCount | src/pages/CatalogPage.tsx:75-79 | `filter` keeps every copy of a passing element and no copy of a failing one: the count of x in the result is its count in the input, or zero when x fails. |
| Sequences.FilterDropsOne | src/pages/ProductPage.tsx:306 | When exactly the element at k fails, the filter is the list with that one element removed. |
| Sequences.FilterKeepsAll | src/pages/CatalogPage.tsx:75-79 | When every element passes, `filter` returns the list unchanged. |
| Sequences.FilterKeepsNone | src/pages/CatalogPage.tsx:75-79 | When no element passes, `filter` returns the empty list. |
| Sequences.Find | src/pages/ProductPage.tsx:65 | `find` returns nothing exactly when no element passes, and otherwise returns an element that passes. |
| Sequences.FindIsFirst | src/pages/ProductPage.tsx:65 | `find` returns the first element that passes. |
| Sequences.Sort | src/pages/CatalogPage.tsx:82 | The sorted copy is a permutation of its input. |
| Sequences.SortSorted | src/pages/CatalogPage.tsx:82 | With a total-preorder comparator, the sorted copy is ordered pairwise. |
| Sequences.SortKeepsSortedInput | src/pages/CatalogPage.tsx:82 | An input already in comparator order comes back unchanged. |
| Sequences.FilterSameTest | src/pages/CatalogPage.tsx:75 | Proof helper for PriceTiesKeepOrder: filters by two tests that agree on every element give the same list. |
| Sequences.FilterInsert | src/pages/CatalogPage.tsx:82 | One insertion step puts the new element in front of the members of its own rank class and leaves every other class as it was. |
| Sequences.SortStable | src/pages/CatalogPage.tsx:82 | Stability: for every rank class (elements the comparator ranks equal to some k), the class appears in the sorted copy in its input order. |
| CatalogPage.FilterProducts | src/pages/CatalogPage.tsx:75-79 | A product is kept iff it passes the category test ('all' or lowered name includes lowered id) and the search test (empty query or lowered name includes lowered query); the result is a subsequence of the catalogue. |
| CatalogPage.MatchesCategory | src/pages/CatalogPage.tsx:76 | The category test holds iff the category is 'all' or the lowered id occurs as a slice of the lowered name. |
| CatalogPage.MatchesSearch | src/pages/CatalogPage.tsx:77 | The search test holds iff the query is empty or the lowered query occurs as a slice of the lowered name. |
| CatalogPage.SortProducts | src/pages/CatalogPage.tsx:82-95 | The sorted list is a permutation of the filtered list. |
| CatalogPage.Compare | src/pages/CatalogPage.tsx:82-95 | Under 'price-asc' a sorts no later than b iff its price is not higher; under 'price-desc' iff not lower; under a name key the comparison is 0 iff the names are equal; under any other key it is 0. |
| CatalogPage.ComparatorIsTotalPreorder | src/pages/CatalogPage.tsx:82-95 | For every sort key, the comparator is total and transitive. |
| CatalogPage.PriceAscNonDecreasing | src/pages/CatalogPage.tsx:84-85 | 'price-asc' output is non-decreasing in price. |
| CatalogPage.PriceDescNonIncreasing | src/pages/CatalogPage.tsx:86-87 | 'price-desc' output is non-increasing in price. |
| CatalogPage.NameAscOrdered | src/pages/CatalogPage.tsx:88-89 | 'name-asc' output is in ascending name order. |
| CatalogPage.NameDescOrdered | src/pages/CatalogPage.tsx:90-91 | 'name-desc' output is in descending name order. |
| CatalogPage.UnrecognisedKeyKeepsOrder | src/pages/CatalogPage.tsx:92-93 | For 'featured' or any key outside the four, the sorted copy equals the filtered list, in the same order. |
| CatalogPage.SortKeepsTiesInOrder | src/pages/CatalogPage.tsx:82-95 | For every sort key, products ranked level keep their filtered order in the grid. |
| CatalogPage.PriceTiesKeepOrder | src/pages/CatalogPage.tsx:84-87 | Under either price key, products with equal prices appear in the order the filter left them. |
| CatalogPage.NoFilterKeepsAll | src/pages/CatalogPage.tsx:76-77 | With category 'all' and an empty query, every product is kept, in order. |
| CatalogPage.ClearFilters | src/pages/CatalogPage.tsx:254-257 | The reset sets category 'all' and an empty query and keeps the sort key (ClearFiltersShowsWholeCatalog is what it achieves). |
| CatalogPage.Shown | src/pages/CatalogPage.tsx:75-95 | A product is in the grid iff it is in the catalogue and passes both tests. |
| CatalogPage.ClearFiltersShowsWholeCatalog | src/pages/CatalogPage.tsx:254-257 | After the empty state's Clear Filters, the grid is the whole catalogue sorted by the unchanged key, and so a permutation of it. |
| CatalogPage.UnfilteredFeaturedShowsCatalogOrder | src/pages/CatalogPage.tsx:69-95 | With category 'all', no query and no recognised sort key, the grid is the catalogue in its own order. |
| CatalogPage.InitialGridIsCatalogue | src/pages/CatalogPage.tsx:69-72 | On first render the grid is the catalogue in its own order. |
| CatalogPage.CategoryIdsHaveMarkers | src/pages/CatalogPage.tsx:60-66 | Every category id except 'all' contains "ies" or "rts". |
| CatalogPage.NamesHaveNoMarker | src/pages/CatalogPage.tsx:8-57 | No lower-cased product name contains "ies" or "rts". |
| CatalogPage.PluralCategoryShowsNothing | src/pages/CatalogPage.tsx:8-66 | With the shipped data, every category other than 'all' filters the grid down to nothing, whatever the query. |
| ProductGallery.Next | src/components/ui/ProductGallery.tsx:13-15 | The next index stays in [0, n). |
| ProductGallery.Prev | src/components/ui/ProductGallery.tsx:17-19 | The previous index stays in [0, n). |
| ProductGallery.NextSteps | src/components/ui/ProductGallery.tsx:14 | Next from i < n is i + 1, except from n − 1, which wraps to 0. |
| ProductGallery.PrevSteps | src/components/ui/ProductGallery.tsx:18 | Previous from i < n is i − 1, except from 0, which wraps to n − 1. |
| ProductGallery.PrevAfterNext | src/components/ui/ProductGallery.tsx:13-19 | Previous undoes next. |
| ProductGallery.NextAfterPrev | src/components/ui/ProductGallery.tsx:13-19 | Next undoes previous. |
| ProductGallery.NextTimesRotates | src/components/ui/ProductGallery.tsx:14 | Up to n presses of next move the index on by that many places, wrapping past the end at most once. |
| ProductGallery.NextAroundIsIdentity | src/components/ui/ProductGallery.tsx:14 | n presses of next return to the starting image. |
| ProductGallery.Gallery.constructor | src/components/ui/ProductGallery.tsx:9-11 | The gallery mounts on its first image, not zoomed. |
| ProductGallery.Gallery.IsActive | src/components/ui/ProductGallery.tsx:83 | Thumbnail k has the active ring iff k is the current index (its partner is SelectThumbnail's exactly-one-active clause). |
| ProductGallery.Gallery.GoToNext | src/components/ui/ProductGallery.tsx:13-15 | The right arrow moves the index to Next of the old index and changes nothing else; the index ends in range. |
| ProductGallery.Gallery.GoToPrevious | src/components/ui/ProductGallery.tsx:17-19 | The left arrow moves the index to Prev of the old index and changes nothing else; the index ends in range. |
| ProductGallery.Gallery.ToggleZoom | src/components/ui/ProductGallery.tsx:21-23 | The zoom flag flips, so two toggles restore it; the image and index are unchanged. |
| ProductGallery.Gallery.SelectThumbnail | src/components/ui/ProductGallery.tsx:83-85 | A thumbnail click shows that image, and exactly that thumbnail is marked active. |
| ProductGallery.Gallery.ReceiveImages | src/components/ui/ProductGallery.tsx:9-10 | A new image list keeps the old index; the index is still in range iff it was 0 or below the new length. |
| ProductGallery.Gallery.ReceiveImagesResetting | src/components/ui/ProductGallery.tsx:10 | The corrected re-render resets the index to 0, so the index is in range for any new list. |
| ProductGallery.Gallery.CurrentImage | src/components/ui/ProductGallery.tsx:31 | `images[currentIndex]` for any index: the image at the index when it is below the length, and no source (undefined) at or past the end; with the index in range and a non-empty list there is always a source. |
| CartPage.LineAmount | src/pages/CartPage.tsx:103 | A line's amount is non-negative for a non-negative price and quantity, and 0 at quantity 0. |
| CartPage.Subtotal | src/pages/CartPage.tsx:126 | The subtotal of a cart with no negative price or quantity is non-negative. |
| CartPage.SubtotalAppend | src/pages/CartPage.tsx:126 | The subtotal of two runs of lines is the sum of their subtotals. |
| CartPage.SubtotalWithout | src/pages/CartPage.tsx:106 | Removing a line takes exactly its amount off the subtotal. |
| CartPage.SubtotalWithQuantity | src/pages/CartPage.tsx:87-96 | Setting a line's quantity to q moves the subtotal by price × (q − old quantity). |
| CartPage.Shipping | src/pages/CartPage.tsx:12 | Shipping is the 599-cent fee iff the cart has a line, and 0 iff it is empty. |
| CartPage.OrderTotal | src/pages/CartPage.tsx:13 | The pre-discount total minus shipping is the subtotal, and it is at least the shipping. |
| CartPage.SuggestedCodeIsAccepted | src/pages/CartPage.tsx:20 | The suggested code "DISCOUNT20", and "discount20" as well, pass the case-insensitive coupon test. |
| CartPage.CouponAccepted | src/pages/CartPage.tsx:20 | A code is accepted only if it has ten characters (and its lower-cased form is "discount20"). |
| CartPage.CouponIgnoresCase | src/pages/CartPage.tsx:20 | A code is accepted iff its lower-cased form is: the test ignores case. |
| CartPage.DisplayedTotal | src/pages/CartPage.tsx:140 | The displayed total plus the stored discount is subtotal plus shipping. |
| CartPage.DiscountFor | src/pages/CartPage.tsx:20-26 | An accepted code stores a discount of one fifth of the subtotal (shipping excluded); any other code stores 0. |
| CartPage.AppliedTotalCoversShipping | src/pages/CartPage.tsx:19-27 | At the moment a coupon is applied, the displayed total is at least the shipping, and for an accepted code it is 80% of the subtotal plus shipping. |
| CartPage.StaleDiscountGoesNegative | src/pages/CartPage.tsx:16-27 | A discount taken on a large cart and kept after a line is removed gives a negative displayed total. |
| CartPage.LiveDisplayedTotal | src/pages/CartPage.tsx:140 | Corrected total, with the discount following the current subtotal: never below shipping, and the plain total when no coupon is applied. |
| CartPage.LineImage | src/pages/CartPage.tsx:63 | The design when it is truthy, otherwise the line's `image` field, which may be missing. |
| CartPage.LineImageTruthiness | src/pages/CartPage.tsx:63 | The picture is truthy iff the design or the image is, and it is missing iff the design is falsy and the line has no `image` field. |
| CartPage.MinusClick | src/pages/CartPage.tsx:87 | The minus button asks the store for this line's id at one less than its quantity, with no clamp. |
| CartPage.MinusClickTakesPrice | src/pages/CartPage.tsx:87 | Granting the minus request lowers the subtotal by exactly the line's price; from quantity 1 or less the request is below 1 (no clamp, unlike the product page's stepper). |
| CartPage.PlusClick | src/pages/CartPage.tsx:96 | The plus button asks the store for this line's id at one more than its quantity. |
| CartPage.WithQuantity | src/pages/CartPage.tsx:87-96 | The cart after a quantity request for line k is granted: line k gets the requested quantity with its other fields kept, and every other line is unchanged. |
| CartPage.PlusClickAddsPrice | src/pages/CartPage.tsx:96 | Granting the plus request raises the subtotal by exactly the line's price. |
| CartPage.MinusUndoesPlus | src/pages/CartPage.tsx:87-96 | Granting plus and then minus on the same line gives back the cart it started from. |
| CartPage.RemoveClick | src/pages/CartPage.tsx:106 | The Remove link asks the store to drop this line's id. |
| CartPage.RemoveClickTakesLine | src/pages/CartPage.tsx:106 | The Remove request names the line's id; with that line dropped the subtotal falls by exactly its amount and never rises on a valid cart. |
| CartPage.CouponForm.constructor | src/pages/CartPage.tsx:10-17 | The form mounts with an empty code, no discount and no coupon applied. |
| CartPage.CouponForm.SetCouponCode | src/pages/CartPage.tsx:153 | Typing changes only the code; the invalid-code message then shows for any non-empty code while no coupon is applied, even before Apply. |
| CartPage.CouponForm.ApplyCoupon | src/pages/CartPage.tsx:19-27 | Apply sets `couponApplied` to whether the code is accepted and stores DiscountFor of the current subtotal. For a non-empty code exactly one of the applied and invalid messages shows. For a positive subtotal the discount row shows iff the coupon is applied. |
| CartPage.CouponForm.Total | src/pages/CartPage.tsx:140 | The Total row (order total minus the stored discount) equals the live total iff the stored discount still equals 20% of the current subtotal when a coupon is applied, and 0 otherwise. |
| CartPage.CouponForm.ShowsDiscountRow | src/pages/CartPage.tsx:132 | The discount row shows for a positive stored discount; ApplyCoupon relates it to `couponApplied`. |
| CartPage.CouponForm.ShowsAppliedMessage | src/pages/CartPage.tsx:162 | "Coupon applied" shows while `couponApplied` holds; ApplyCoupon makes it exclusive with the invalid message. |
| CartPage.CouponForm.ShowsInvalidMessage | src/pages/CartPage.tsx:165 | "Invalid coupon code" shows for a non-empty code that is not applied; SetCouponCode shows it appears while typing. |
| CartPage.StaleDiscountScenario | src/pages/CartPage.tsx:16-27 | Through the form: apply "DISCOUNT20" on a two-line cart, then read the total for the cart left after the dearer line goes; the displayed total is negative. |
| ProductPage.FindProduct | src/pages/ProductPage.tsx:65 | The lookup yields nothing (the not-found view) iff no product has the id, and otherwise a listed product with that id. |
| ProductPage.FindProductIsFirst | src/pages/ProductPage.tsx:65 | The lookup yields the first product carrying the id. |
| ProductPage.ShippedProductsAreFound | src/pages/ProductPage.tsx:12-58 | Each shipped product is found under its own id. |
| ProductPage.Recommendations | src/pages/ProductPage.tsx:306 | A product is recommended iff it is listed and its id differs from the route id; the list keeps catalogue order. |
| ProductPage.RecommendationsExcludeCurrent | src/pages/ProductPage.tsx:306 | No recommendation carries the route id; as an expression, for an unknown id it keeps the whole list (the page never renders it then, since it returns its not-found view first). |
| ProductPage.RecommendationsOfShownProduct | src/pages/ProductPage.tsx:306 | On a listed product's page the list is every other listed product, in list order, one fewer than the catalogue. |
| ProductPage.GalleryImages | src/pages/ProductPage.tsx:108 | With a truthy design, the gallery gets the product's first image (if any) followed by the design; otherwise it gets the product's own images. |
| ProductPage.StepDown | src/pages/ProductPage.tsx:163 | The minus button gives one less, never below 1. |
| ProductPage.StepUp | src/pages/ProductPage.tsx:172 | The plus button from a valid quantity gives at least 2. |
| ProductPage.StepsUndo | src/pages/ProductPage.tsx:163-172 | Minus undoes plus from any quantity ≥ 1, and plus undoes minus from any quantity ≥ 2. |
| ProductPage.ProductView.constructor | src/pages/ProductPage.tsx:65-70 | First mount on a product route looks the product up, selects no size or colour, sets quantity 1 and no design; Add to Cart starts disabled. |
| ProductPage.ProductView.ChangeRoute | src/pages/ProductPage.tsx:65-70 | A link to another product id on the mounted page looks the product up again and keeps size, colour, quantity, design and so the Add to Cart gate. |
| ProductPage.ProductView.ChangeRouteResetting | src/pages/ProductPage.tsx:67-70 | The corrected navigation (page remounted per id) restarts every choice: nothing selected, quantity 1, no design, Add to Cart disabled. |
| ProductPage.ProductView.CanAddToCart | src/pages/ProductPage.tsx:188 | The button is enabled iff a size and a colour are both non-empty; the select methods state how each click moves it. |
| ProductPage.ProductView.Gallery | src/pages/ProductPage.tsx:108 | The gallery's list for the current product and design (GalleryImages states its shape). |
| ProductPage.ProductView.SelectSize | src/pages/ProductPage.tsx:150 | A size button sets the size only; Add to Cart is enabled iff both size and colour are non-empty. |
| ProductPage.ProductView.SelectColor | src/pages/ProductPage.tsx:131 | A colour button sets the colour only; Add to Cart is enabled iff both size and colour are non-empty. |
| ProductPage.ProductView.Decrement | src/pages/ProductPage.tsx:163 | The minus button applies StepDown and keeps quantity ≥ 1. |
| ProductPage.ProductView.Increment | src/pages/ProductPage.tsx:172 | The plus button applies StepUp and keeps quantity ≥ 1. |
| ProductPage.ProductView.SetCustomDesign | src/pages/ProductPage.tsx:297 | A generated design is stored and nothing else changes. |
| ProductPage.ProductView.HandleAddToCart | src/pages/ProductPage.tsx:73-80 | Nothing is added without a product. Otherwise the store receives the product, the design (dropped when falsy) and the quantity, and no size or colour. |
| ProductPage.ProductView.ClickAddToCart | src/pages/ProductPage.tsx:182-190 | The button adds to the cart iff a size and a colour are chosen and the product exists. |
| ProductPage.StaleGalleryIndexScenario | src/pages/ProductPage.tsx:108 | On the first product, the left arrow and then a custom design leave the gallery's index at or past the end of its non-empty image list, and the main picture has no source. |
| ProductPage.ResettingGalleryScenario | src/pages/ProductPage.tsx:108 | With the corrected reset, the same steps show the product's first image. |
| ProductPage.RouteChangeScenario | src/pages/ProductPage.tsx:65-80 | Size, colour, quantity 2 and a design chosen on product 1, then a link to product 2: Add to Cart is enabled on arrival and sends product 2 with product 1's design and quantity. |
| ProductPage.ResettingRouteScenario | src/pages/ProductPage.tsx:67-70 | With the page remounted per id, the same steps send nothing. |

## Left out

- Rendering: the JSX markup, framer-motion animation, Tailwind classes and
  icons are not modelled.
- The cart store (`useCart`) is not part of this model. No claim is made
  about how it merges lines, applies a quantity of 0 or removes a line; the
  page's calls to it are modelled as values (`StoreCall`, `CartAdd`).
- Floating-point money and `toFixed(2)` display rounding: amounts are exact
  cents and rationals instead.
- `toLowerCase` is ASCII-only and `localeCompare` is code-point
  lexicographic order; locale-dependent collation and Unicode case mapping
  are not modelled.
- The filter panel's own Clear Filters button (src/pages/CatalogPage.tsx:229)
  has an empty handler, and the panel's price, colour and size inputs are
  not connected to any state; neither is modelled.
- `isFilterOpen` on the catalogue page and `activeTab` on the product page
  only switch what is drawn; they are not modelled.
- The route id is taken as a plain string; routing itself is not modelled.
- The image editor that calls `setCustomDesign`
  (src/components/ui/AiImageEditor.tsx) is not part of this model. Its
  result arrives as the argument of `ProductView.SetCustomDesign`.
- The static pages, header, footer and product cards are not modelled.
- ProductGallery.Gallery.GoToNext: requires a non-empty image list. The
  arrows only render for lists of two or more, and the JavaScript result
  for an empty list (NaN) is not modelled.
- ProductGallery.Gallery.GoToPrevious: requires a non-empty image list, for
  the same reason.
- ProductGallery.NextTimesRotates: stated for up to n presses only; the
  general rotation by any number of presses is not proved.
- CartPage.LineImage: a line's `image` is None when the record has no such
  field; lines added from the product page spread its records, which carry
  `images` and no `image`, so unless the store adds the field such a line
  without a design has no picture. Whether the store adds it is not known
  here.
- CartPage.RemoveClickTakesLine: states the effect of the request as if
  the store dropped just that line; the store's own policy (several lines
  with one id) is not part of this model.
- CartPage.PlusClickAddsPrice: states the effect as if the store set that
  one line to the requested quantity.
- CartPage.MinusClickTakesPrice: the same; what the store does with a
  request for 0 or less is not part of this model.
- CartPage.Subtotal: the store's `getCartTotal` is not part of this model
  and is taken to be this sum.

## Findings

| source | as written | input that shows it | evidently intended | confidence | as-written member | corrected member |
|---|---|---|---|---|---|---|
| src/pages/CartPage.tsx:16-27 | The discount is stored when Apply is pressed and is never recomputed when the lines change. | Lines at 1.00 × 1 and 100.00 × 1; apply DISCOUNT20 (discount 20.20); remove the 100.00 line. The total shown is 1.00 + 5.99 − 20.20 = −13.21. | The discount follows the current subtotal, so the total never drops below shipping. | not executed | CartPage.StaleDiscountGoesNegative | CartPage.LiveDisplayedTotal |
| src/components/ui/ProductGallery.tsx:10 | The gallery keeps `currentIndex` when its `images` prop changes. | On product 1 (3 images), press the left arrow (index 2), then generate a custom design (2 images). `images[2]` is undefined, so the main picture has no source. | The index is reset (or clamped) when the image list changes. | not executed | ProductPage.StaleGalleryIndexScenario | ProductGallery.Gallery.ReceiveImagesResetting |
| src/pages/ProductPage.tsx:67-70 | The page's choices live in component state, and the product route renders the same element for every id, so a link to another product keeps them. | On product 1 choose size M, colour Black, quantity 2 and a design, then follow the recommendation link to product 2. Add to Cart is already enabled and sends product 2 with product 1's design and quantity 2. | Each product starts with nothing chosen, quantity 1 and no design. | not executed | ProductPage.RouteChangeScenario | ProductPage.ProductView.ChangeRouteResetting |
