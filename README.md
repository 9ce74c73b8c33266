# ShopSavvy storefront logic in Dafny

A model of the client-side logic of the ShopSavvy React storefront, with
proofs about it:

- the cart store's reducer and totals;
- the product catalogue's filter, sort and pagination, used both by the
  products page and the home page showcase;
- the favourites toggle;
- the checkout page's pricing and step machine;
- the deals store and the deals page;
- the category index and the category page;
- the order-tracking store and the tracking page;
- the help centre's FAQ filter and accordion;
- the controlled forms of the help, contact and returns pages;
- the shipping information page.

Each source file gets its own module. Values become datatypes and pure
functions. State the source replaces through its setters becomes a class
whose methods name what they change and relate the new state to functions
of the old. Shared JavaScript behaviour is written out once:

- `Seqs`: `Array.prototype.filter`, `find` and `slice`, and counting;
- `Text`: ASCII `toLowerCase`/`toUpperCase`, `includes`, `trim`,
  `slice(-n)`, `substring`, `indexOf`, the first-occurrence `replace` and
  number-to-decimal conversion;
- `Sorting`: a stable sort by key, the way `Array.prototype.sort` behaves
  with a comparator.

A clock reading (`Date.now()`), the random string
(`Math.random().toString(36)`) and the ISO date formatter are parameters.
Money and discounts are `real`.

## Model

| member | source | states |
|---|---|---|
| Cart.Reduce | src/contexts/CartContext.jsx:10-66 | every action keeps the state's other fields; SET_CART_ITEMS installs the payload; after UPDATE_QUANTITY every line has a positive quantity; CLEAR_CART empties the list; an unknown action returns the state unchanged |
| Cart.IncrementProduct | src/contexts/CartContext.jsx:22-26 | same length; each line of the product gains one unit and every other line is untouched |
| Cart.SetQuantity | src/contexts/CartContext.jsx:53-57 | same length; the target's lines take the new quantity and the others are untouched |
| Cart.WithoutLine | src/contexts/CartContext.jsx:48 | no remaining line has the removed id |
| Cart.PositiveLines | src/contexts/CartContext.jsx:57 | every remaining line has a positive quantity |
| Cart.AddExisting | src/contexts/CartContext.jsx:18-28 | adding a product already present keeps the length, adds exactly one unit to its line and leaves every other line unchanged |
| Cart.AddNew | src/contexts/CartContext.jsx:31-43 | adding a new product appends one line at the end with that product, its name and price, and quantity 1, keeping the old lines as a prefix |
| Cart.AddTwiceToEmpty | src/contexts/CartContext.jsx:17-43 | two adds of one product to an empty cart give one line with quantity 2 |
| Cart.RemoveExact | src/contexts/CartContext.jsx:45-49 | REMOVE_FROM_CART keeps, in order and with their multiplicity, exactly the lines whose id differs from the payload |
| Cart.SetQuantityOthers | src/contexts/CartContext.jsx:50-58 | lines with another id are present after the quantity map exactly when they were before |
| Cart.UpdatedLines | src/contexts/CartContext.jsx:50-58 | the result is a subsequence of the quantity map with `Math.max(0, q)`, and every line in it has a positive quantity |
| Cart.UpdateNonPositiveRemoves | src/contexts/CartContext.jsx:50-58 | a quantity of 0 or less removes every line of the target |
| Cart.UpdatePositiveSets | src/contexts/CartContext.jsx:50-58 | a positive quantity is given to every line of the target, and each such line stays |
| Cart.UpdateKeepsOthers | src/contexts/CartContext.jsx:50-58 | another line stays exactly when it was there with a positive quantity |
| Cart.TotalsAppend | src/contexts/CartContext.jsx:179-180 | `getTotalItems` and `getTotalPrice` are additive over concatenation |
| Cart.IncrementUnits | src/contexts/CartContext.jsx:18-28 | with one line per product, incrementing a present product raises the unit total by exactly 1 |
| Cart.AddToCartUnits | src/contexts/CartContext.jsx:17-43 | every ADD_TO_CART raises `getTotalItems` by 1 and keeps one line per product |
| Cart.TotalsExample | src/contexts/CartContext.jsx:179-180 | lines (20, 2) and (50, 1) total 90 over 3 units |
| Cart.MissingPriceCountsZero | src/contexts/CartContext.jsx:180 | a line without a price adds nothing to the total price |
| Cart.Units | src/contexts/CartContext.jsx:179 | `getTotalItems` sums the quantities; when every line is positive there is at least one unit per line |
| Cart.LinePrice | src/contexts/CartContext.jsx:180 | a line's price times its quantity, a missing price counting as 0, is non-negative for non-negative inputs |
| Cart.TotalPrice | src/contexts/CartContext.jsx:180 | `getTotalPrice` sums price times quantity; it is non-negative when every price and quantity is |
| Catalog.FilterProducts | src/pages/Products.jsx:36-46 | exactly the products satisfying the category, price, brand, size and search predicates, as a subsequence and with their multiplicity |
| Catalog.WildcardsKeepAll | src/pages/Products.jsx:38-43 | 'all' category, brand and size, an empty term and a covering price range keep every product in order |
| Catalog.PriceBoundsInclusive | src/pages/Products.jsx:39 | a price equal to either bound passes |
| Catalog.EmptySearchMatches | src/pages/Products.jsx:42-43 | an empty search term matches every product |
| Catalog.SortProducts | src/pages/Products.jsx:47-60 | the sort is a permutation; an unknown mode (relevance) keeps the filter order |
| Catalog.SortProductsOrdered | src/pages/Products.jsx:47-60 | price_low is non-decreasing by price, price_high non-increasing, rating non-increasing, newest non-increasing by id |
| Catalog.SortProductsStable | src/pages/Products.jsx:47-60 | products with equal keys keep their relative order |
| Catalog.Visible | src/components/MainFeature.jsx:132-161 | the shown products are exactly the matching ones, a permutation of the filter's output, in filter order for an unknown mode |
| ProductsContext.ProductTableIds | src/contexts/ProductsContext.jsx:14-127 | the table has 7 entries with ids 1..7 in order |
| ProductsContext.TablePricesInRange | src/contexts/ProductsContext.jsx:14-127 | every table price lies in the default range [0, 1000] |
| ProductsContext.Without | src/contexts/ProductsContext.jsx:133 | the id is gone; every other id keeps its membership, its count and the relative order |
| ProductsContext.Toggle | src/contexts/ProductsContext.jsx:131-137 | the id's membership flips; an absent id is appended once at the end; other ids keep their membership; a duplicate-free list stays duplicate-free |
| ProductsContext.ToggleTwiceAbsent | src/contexts/ProductsContext.jsx:131-137 | toggling an absent id twice restores the list |
| ProductsContext.ToggleTwicePresent | src/contexts/ProductsContext.jsx:131-137 | toggling a present id twice in a duplicate-free list gives the same members, with that id moved to the end |
| ProductsPage.TotalPages | src/pages/Products.jsx:66 | `ceil(n / 9)`: the pages hold all n products and the last page is non-empty |
| ProductsPage.CurrentProducts | src/pages/Products.jsx:62-65 | page p holds the list's elements from (p-1)·9, at most 9 of them, and a page past the end is empty |
| ProductsPage.EveryProductOnItsPage | src/pages/Products.jsx:62-66 | each product appears on page i/9 + 1 at position i mod 9, and that page exists |
| ProductsPage.Prev | src/pages/Products.jsx:454 | never below 1; otherwise one page back |
| ProductsPage.Next | src/pages/Products.jsx:476 | never above `totalPages`; otherwise one page forward |
| ProductsPage.NavigationStaysInRange | src/pages/Products.jsx:454-477 | from a page in 1..totalPages both buttons stay in 1..totalPages |
| ProductsPage.PageView | src/pages/Products.jsx:36-66 | every product on the page is a matching product of the catalogue |
| ProductsPage.ClearFilters | src/pages/Products.jsx:68-76 | every control returns to its default and the page to 1 |
| ProductsPage.ClearedShowsAll | src/pages/Products.jsx:68-76 | after clearing, a list of at most 9 products priced in [0, 1000] is shown whole on a single page |
| ProductsPage.ClearedShowsWholeTable | src/pages/Products.jsx:68-76 | after clearing, the page shows the whole product table |
| MainFeature.Increment | src/components/MainFeature.jsx:165-171 | same length; the product's line gains a unit and every other line is untouched |
| MainFeature.AddLine | src/components/MainFeature.jsx:164-176 | an id already present gains one unit with the length kept; a new id is appended with quantity 1 |
| MainFeature.CartCountAppend | src/components/MainFeature.jsx:276 | the counter is additive over concatenation |
| MainFeature.CartCount | src/components/MainFeature.jsx:276 | the counter sums the quantities; with every line positive it is at least the number of lines |
| MainFeature.IncrementCount | src/components/MainFeature.jsx:165-171 | with one line per id, incrementing raises the counter by exactly 1 |
| MainFeature.AddLineCount | src/components/MainFeature.jsx:164-176 | every add raises the counter by 1 and keeps one line per id |
| MainFeature.Showcase.Shown | src/components/MainFeature.jsx:132-161 | the shown products are exactly the matching ones |
| MainFeature.Showcase.AddToCart | src/components/MainFeature.jsx:164-176 | the cart becomes `AddLine` of the old cart, the counter rises by 1 and the rest is unchanged |
| MainFeature.Showcase.ToggleFavorite | src/components/MainFeature.jsx:179-187 | the favourites become the toggled list, so the id's membership flips |
| MainFeature.Showcase.ClearFilters | src/components/MainFeature.jsx:189-197 | the filters return to their defaults and every product is shown |
| Checkout.Shipping | src/pages/Checkout.jsx:39 | free exactly when the subtotal exceeds 50, otherwise 9.99 |
| Checkout.Tax | src/pages/Checkout.jsx:40 | 8% of a non-negative subtotal lies between 0 and the subtotal |
| Checkout.OrderTotal | src/pages/Checkout.jsx:41 | 1.08 × subtotal above 50, and that plus 9.99 otherwise |
| Checkout.ShippingThreshold | src/pages/Checkout.jsx:39-41 | a subtotal of exactly 50 pays shipping, for a total of 63.99; 50.01 ships free |
| Checkout.ExampleCartTotal | src/pages/Checkout.jsx:38-41 | the cart (20, 2) and (50, 1) ships free, pays 7.2 tax and totals 97.2 |
| Checkout.OrderNumberFormat | src/pages/Checkout.jsx:76 | the order number is 'ORD-' followed by one to six decimal digits |
| Checkout.OrderNumberDigits | src/pages/Checkout.jsx:76 | for a timestamp of 6 or more digits the number is 'ORD-' plus its last 6 digits; two such numbers agree exactly when the timestamps agree mod 10^6 |
| Checkout.OrderNumber | src/pages/Checkout.jsx:76 | 'ORD-' and the last six characters of the clock's decimal string; its format is stated by OrderNumberFormat and its digits by OrderNumberDigits |
| Checkout.CheckoutPage.View | src/pages/Checkout.jsx:82-111 | the empty-cart screen shows exactly when the cart is empty and no order is placed; the confirmation exactly when an order is placed |
| Checkout.CheckoutPage.SubmitCustomerInfo | src/pages/Checkout.jsx:50-55 | advances to step 2 only when first name, last name and email are filled; phone is not checked |
| Checkout.CheckoutPage.SubmitShipping | src/pages/Checkout.jsx:57-62 | advances to step 3 only when address, city, state and zip code are filled; country is not checked |
| Checkout.CheckoutPage.SubmitPayment | src/pages/Checkout.jsx:64-73 | with 'card' advances to 4 only when all four card fields are filled; any other method advances |
| Checkout.CheckoutPage.Back | src/pages/Checkout.jsx:275-285 | one step back from a step above 1, staying within 1..4 |
| Checkout.CheckoutPage.Continue | src/pages/Checkout.jsx:290-292 | one step forward below step 4, staying within 1..4 |
| Checkout.CheckoutPage.PlaceOrder | src/pages/Checkout.jsx:75-80 | sets the order number from the clock, marks the order placed, clears the cart and shows the confirmation |
| DealsContext.SampleDeals | src/contexts/DealsContext.jsx:13-58 | four deals with ids 1..4, each expiring after the load time |
| DealsContext.SortDeals | src/contexts/DealsContext.jsx:74-80 | a permutation; an unknown key keeps the order |
| DealsContext.SortDealsOrdered | src/contexts/DealsContext.jsx:74-80 | 'featured' puts every featured deal before every other; 'discount' is non-increasing by discount; 'price' non-decreasing by discounted price |
| DealsContext.SortFeaturedStable | src/contexts/DealsContext.jsx:74-75 | the featured sort keeps the order within the featured and within the other deals |
| DealsContext.ContextFiltered | src/contexts/DealsContext.jsx:67-82 | exactly the deals in the category ('All' a wildcard) with discount at least the threshold, with multiplicity, sorted by the store's own key |
| DealsContext.FeaturedDeals | src/contexts/DealsContext.jsx:85 | exactly the first min(3, f) of the f featured deals, in their original order: all featured, a subsequence of the deals |
| DealsContext.FeaturedOfFour | src/contexts/DealsContext.jsx:85 | of four deals with the third not featured, the first, second and fourth are returned |
| DealsContext.SampleFeatured | src/contexts/DealsContext.jsx:13-58 | the sample's featured deals are deals 1, 2 and 4 |
| DealsContext.DealsStore.FilterDeals | src/contexts/DealsContext.jsx:67-82 | the filtered list becomes the filter of the arguments sorted by the `sortBy` state, which stays unchanged |
| DealsContext.DealsStore.GetFeaturedDeals | src/contexts/DealsContext.jsx:85 | at most 3 deals, all featured, in their original order; the store's featured strip is `FeaturedDeals` of its deals |
| DealsPage.PageFiltered | src/pages/Deals.jsx:40-65 | exactly the qualifying deals with their multiplicity: the category test only when not 'All', the discount test only when the threshold is positive; an unknown key keeps their order |
| DealsPage.PageAgreesWithContext | src/pages/Deals.jsx:44-51 | the page and the store agree for a positive threshold, or when no deal falls below the threshold |
| DealsPage.NegativeThresholdDiffers | src/pages/Deals.jsx:49-51 | with threshold -5 a deal at -10 is kept by the page and dropped by the store |
| DealsPage.ClaimPayload | src/pages/Deals.jsx:74-82 | the product has the deal's id, its title as name, its discounted price and its image |
| DealsPage.ClaimDealAddsLine | src/pages/Deals.jsx:74-83 | claiming adds one unit to the cart and keeps one line per product; an unclaimed deal is appended at its discounted price with quantity 1 |
| DealsPage.DealsView.Refilter | src/pages/Deals.jsx:38-68 | the step-by-step copy, filters and sort store exactly `PageFiltered` of the current controls, and the deals and controls are unchanged |
| DealsPage.DealsView.Load | src/pages/Deals.jsx:21-35 | `deals` becomes the fetched list or `[]`, then the filter effect runs |
| DealsPage.DealsView.SelectCategory | src/pages/Deals.jsx:133 | the category changes and the list is refiltered |
| DealsPage.DealsView.SelectMinDiscount | src/pages/Deals.jsx:149 | the threshold changes and the list is refiltered |
| DealsPage.DealsView.SelectSort | src/pages/Deals.jsx:165 | the sort key changes and the list is refiltered |
| CategoryView.CategoryIdsResolve | src/pages/CategoryView.jsx:14-25 | an id resolves exactly when it is the decimal string of 1..8 |
| CategoryView.TableKeys | src/pages/CategoryView.jsx:14-23 | the table's keys are exactly the one-character strings '1' to '8' |
| CategoryView.CurrentCategory | src/pages/CategoryView.jsx:25 | the lookup finds an entry exactly for a single digit 1 to 8 |
| CategoryView.SortItems | src/pages/CategoryView.jsx:57-68 | the sorted copy is a permutation of the products |
| CategoryView.SortItemsOrdered | src/pages/CategoryView.jsx:57-68 | price-low ascending, price-high and rating descending, every other key by name in code-point order |
| CategoryView.StockFilter | src/pages/CategoryView.jsx:70-74 | 'in-stock' and 'out-of-stock' keep exactly the matching items in order; any other choice keeps the list |
| CategoryView.StockPartition | src/pages/CategoryView.jsx:70-74 | the two stock choices together hold every item exactly as often as the list does |
| CategoryView.View | src/pages/CategoryView.jsx:25-76 | the not-found screen exactly for an unknown id; otherwise the table entry with products drawn from the list, all of them unless a stock filter is chosen |
| Categories.FilteredCategories | src/pages/Categories.jsx:22-24 | the subsequence of categories whose lower-cased name contains the lower-cased term, each kept with its multiplicity |
| Categories.EmptyTermKeepsAll | src/pages/Categories.jsx:22-24 | an empty term keeps every category in order |
| Categories.InitialShowsEight | src/pages/Categories.jsx:8-24 | the page opens on all 8 categories |
| Categories.CategoryPath | src/pages/Categories.jsx:26-29 | '/category/' followed by the id's decimal string |
| Categories.EveryCategoryResolves | src/pages/Categories.jsx:11-29 | every card's path resolves on the category page to an entry of the same name |
| TrackingContext.DeliveryDays | src/contexts/TrackingContext.jsx:156-163 | 7, 3 and 1 for standard, express and overnight; 5 exactly for every other method |
| TrackingContext.StatusConfig | src/contexts/TrackingContext.jsx:165-175 | 'Unknown Status' exactly for a status outside the six known ones |
| TrackingContext.LocationCoordinates | src/contexts/TrackingContext.jsx:177-186 | the default coordinates exactly for an unknown hub |
| TrackingContext.TrackingNumber | src/contexts/TrackingContext.jsx:149-154 | starts with 'SS' and is at most 14 characters long |
| TrackingContext.TrackingNumberShape | src/contexts/TrackingContext.jsx:149-154 | after 'SS' come the clock's last 8 digits, then characters 2 to 5 (at most four) of the random string upper-cased, with no lower-case letter |
| TrackingContext.NewOrderShape | src/contexts/TrackingContext.jsx:37-80 | a new record is 'processing' with one timeline event: id 1, status 'processing', the configured title, its own description and the current city; the coordinates are the default; delivery is due after the method's days; order number and items come from the data |
| TrackingContext.NewOrder | src/contexts/TrackingContext.jsx:37-70 | the record is 'processing' with one timeline event, its tracking number starts with 'SS', and order number and items come from the data |
| TrackingContext.UpdateAppendsOneEvent | src/contexts/TrackingContext.jsx:89-104 | the status becomes the new one; the timeline gains exactly one event, numbered old length + 1 with the new status; identity fields are kept |
| TrackingContext.UpdatedOrder | src/contexts/TrackingContext.jsx:90-113 | the order takes the new status and one more timeline event, and keeps its id, order number and tracking number |
| TrackingContext.UpdateLocation | src/contexts/TrackingContext.jsx:98-109 | without a truthy location the current location is kept and the event names its city; with one the city changes, the coordinates are spread beside it and `coordinates` itself is kept |
| TrackingContext.NoForwardOnlyGuard | src/contexts/TrackingContext.jsx:87-104 | a delivered order can be moved back to 'processing' |
| TrackingContext.UpdateAll | src/contexts/TrackingContext.jsx:87-120 | same length; the matching orders are updated and every other order is untouched |
| TrackingContext.FindByTrackingNumber | src/contexts/TrackingContext.jsx:82-84 | none exactly when no order has the number; otherwise the first order that has it |
| TrackingContext.SearchOrders | src/contexts/TrackingContext.jsx:131-140 | a blank query returns every order; otherwise the subsequence matching on tracking number, order number or an item name, case-insensitively, each kept with its multiplicity |
| TrackingContext.PendingShipmentsCount | src/contexts/TrackingContext.jsx:142-146 | never more than the number of orders |
| TrackingContext.PendingCons | src/contexts/TrackingContext.jsx:142-146 | an order adds one to the count exactly when its status is processing, shipped or in_transit, and nothing otherwise |
| TrackingContext.TrackingStore.CreateOrderTracking | src/contexts/TrackingContext.jsx:37-80 | the new record is prepended and returned, and every record keeps a consecutively numbered timeline |
| TrackingContext.TrackingStore.UpdateOrderStatus | src/contexts/TrackingContext.jsx:87-120 | the orders become `UpdateAll` of the old ones, and the timelines stay numbered |
| TrackingContext.TrackingStore.GetOrderByTrackingNumber | src/contexts/TrackingContext.jsx:82-84 | none exactly when no stored order has the number; otherwise a stored order with that number |
| TrackingContext.TrackingStore.Search | src/contexts/TrackingContext.jsx:131-140 | a blank query returns the stored orders; any result is a subsequence of them |
| TrackingContext.TrackingStore.PendingCount | src/contexts/TrackingContext.jsx:142-146 | never more than the number of stored orders |
| TrackingContext.CreatedIsFound | src/contexts/TrackingContext.jsx:72-84 | a prepended record is what the lookup returns for its tracking number |
| TrackingContext.CreateAddsPending | src/contexts/TrackingContext.jsx:37-80 | creating a record adds exactly one pending shipment |
| TrackingContext.PendingExcludes | src/contexts/TrackingContext.jsx:142-146 | out for delivery, delivered and exception are not pending |
| TrackingContext.UpdateChangesOnlyTarget | src/contexts/TrackingContext.jsx:87-120 | an order with another id survives the update unchanged |
| TrackingPage.LookupMemberMissing | src/pages/Tracking.jsx:10 | the page's `getTrackingByNumber` is not among the store's members, while `getOrderByTrackingNumber` is |
| TrackingPage.TrackingView.SetQuery | src/pages/Tracking.jsx:97 | the query takes the typed text; the selection and the searching flag are unchanged |
| TrackingPage.TrackingView.Search | src/pages/Tracking.jsx:15-37 | a blank query changes nothing; otherwise `isSearching` ends false, a missing lookup leaves the selection, and a present one selects the first order with the trimmed number or clears the selection |
| TrackingPage.TrackingView.HandleSearchAsWritten | src/pages/Tracking.jsx:10-37 | as written no search changes the selection |
| TrackingPage.TrackingView.HandleSearch | src/pages/Tracking.jsx:15-37 | with the store's lookup, a non-blank query selects the first order with the trimmed number, or clears the selection |
| TrackingPage.PaddedQueryFinds | src/pages/Tracking.jsx:24 | a query that trims to an order's tracking number finds the first such order |
| TrackingPage.StatusColor | src/pages/Tracking.jsx:56-71 | the default colour exactly for a status outside the five styled ones |
| TrackingPage.StatusIcon | src/pages/Tracking.jsx:39-54 | the default icon exactly for a status outside the five styled ones |
| TrackingPage.ExceptionUnstyled | src/pages/Tracking.jsx:39-71 | 'exception' takes the default colour and icon |
| TrackingPage.StatusLabel | src/pages/Tracking.jsx:125 | same length; only the first underscore becomes a space and every other character is upper-cased |
| TrackingPage.LabelSplit | src/pages/Tracking.jsx:125 | a status whose first underscore follows `a` reads upper(a), a space, upper(rest) |
| TrackingPage.OutForDeliveryLabel | src/pages/Tracking.jsx:125 | 'out_for_delivery' is shown as 'OUT FOR_DELIVERY' |
| Forms.Change | src/pages/HelpCenter.jsx:103-108 | the named field takes the value and every other field keeps its own |
| Forms.ChangeOutsideRequired | src/pages/ContactUs.jsx:75-78 | changing a field the check does not read never changes its verdict |
| Forms.EventsKeepUntouched | src/pages/Returns.jsx:84-89 | a field no change event names keeps its value |
| Forms.LastEventWins | src/pages/ContactUs.jsx:99-104 | a field holds the value of the last event that named it |
| Forms.FormState.InputChange | src/pages/ContactUs.jsx:99-104 | the fields become the old fields with only the named one replaced |
| Forms.FormState.Submit | src/pages/Returns.jsx:57-82 | accepted exactly when every required field is truthy; a rejected submit leaves the fields; an accepted one restores the defaults |
| HelpCenter.FilteredFaqs | src/pages/HelpCenter.jsx:68-73 | the subsequence of FAQs in the topic ('all' a wildcard) whose lower-cased question or answer contains the lower-cased term, each kept with its multiplicity |
| HelpCenter.EmptyTermFiltersByTopic | src/pages/HelpCenter.jsx:68-73 | an empty term keeps every FAQ under 'all', and for another topic exactly that topic's FAQs |
| HelpCenter.InitialShowsSix | src/pages/HelpCenter.jsx:29-73 | the page opens on all six FAQs in order |
| HelpCenter.Toggle | src/pages/HelpCenter.jsx:199 | a click closes the FAQ when it is open and otherwise opens it |
| HelpCenter.AtMostOneExpanded | src/pages/HelpCenter.jsx:29-66 | no two FAQs are open at once; a click opens a closed FAQ and closes every other |
| HelpCenter.SupportRequiredFields | src/pages/HelpCenter.jsx:78 | the submit accepts exactly when name, email, subject and message are all non-empty |
| HelpCenter.PriorityNotChecked | src/pages/HelpCenter.jsx:78-81 | the priority never decides a submit |
| HelpCenter.UiSubmitAlwaysRejected | src/pages/HelpCenter.jsx:238-259 | whatever is typed into the rendered name and email inputs, a submit is rejected |
| HelpCenter.SubjectStaysEmpty | src/pages/HelpCenter.jsx:78-81 | while no event names the subject, an empty subject keeps every submit rejected |
| HelpCenter.HelpCenterPage.ToggleFaq | src/pages/HelpCenter.jsx:199 | the expanded FAQ becomes `Toggle` of the old one |
| HelpCenter.HelpCenterPage.Visible | src/pages/HelpCenter.jsx:68-73 | the FAQs on screen are the subsequence of the six matching the selected topic and the term |
| HelpCenter.HelpCenterPage.SetSearchTerm | src/pages/HelpCenter.jsx:144 | the term takes the typed text; topic and open FAQ are unchanged |
| HelpCenter.HelpCenterPage.SelectCategory | src/pages/HelpCenter.jsx:166 | the topic becomes the button's id; term and open FAQ are unchanged |
| ContactUs.NewContactForm | src/pages/ContactUs.jsx:9-15 | the form starts from the defaults and requires name, email, subject and message |
| ContactUs.ContactRequiredFields | src/pages/ContactUs.jsx:75-78 | the submit accepts exactly when name, email, subject and message are all non-empty |
| ContactUs.DepartmentNotChecked | src/pages/ContactUs.jsx:75-78 | the department never decides a submit |
| ContactUs.DefaultsRejected | src/pages/ContactUs.jsx:90-96 | the reset form has department 'general' and is rejected until filled again |
| ContactUs.RequiredAreRendered | src/pages/ContactUs.jsx:183-240 | every required field has a rendered input |
| ContactUs.FilledInFormAccepted | src/pages/ContactUs.jsx:75-104 | typing non-empty name, email, subject and message makes the form acceptable |
| Returns.NewReturnForm | src/pages/Returns.jsx:9-15 | the form starts from the defaults and requires order number, email and reason |
| Returns.ReturnRequiredFields | src/pages/Returns.jsx:60-63 | the submit accepts exactly when order number, email and reason are all non-empty |
| Returns.OptionalFieldsNotChecked | src/pages/Returns.jsx:60-63 | the description and refund method never decide a submit |
| Returns.DefaultsRejected | src/pages/Returns.jsx:75-81 | the reset form has refund method 'original' and is rejected until filled again |
| Returns.ChosenReasonFills | src/pages/Returns.jsx:205-215 | a listed reason fills the reason field; the placeholder option leaves it empty |
| ShippingInfo.FindZone | src/pages/ShippingInfo.jsx:203 | none exactly when no zone has the id; otherwise a zone with that id |
| ShippingInfo.FindDistinct | src/pages/ShippingInfo.jsx:203-219 | with distinct ids the lookup returns exactly the zone carrying the id |
| ShippingInfo.ZoneIds | src/pages/ShippingInfo.jsx:36-55 | the three ids are distinct and the first is 'domestic' |
| ShippingInfo.EveryZoneFound | src/pages/ShippingInfo.jsx:10-55 | every tab's id finds its zone, and the initial 'domestic' finds the first |
| ShippingInfo.ShippingInfoPage.TrackOrder | src/pages/ShippingInfo.jsx:57-74 | a number blank after trimming is rejected and left in place; any other is accepted and cleared |
| ShippingInfo.ShippingInfoPage.SetTrackingNumber | src/pages/ShippingInfo.jsx:117 | the number takes the typed text; the selected zone is unchanged |
| ShippingInfo.ShippingInfoPage.SelectZone | src/pages/ShippingInfo.jsx:190 | the selection becomes the tab's zone, and its panel is found |
| ShippingInfo.ShippingInfoPage.CurrentZone | src/pages/ShippingInfo.jsx:203-219 | the panel's zone is one of the zones and carries the selected id |

## Left out

- The cart store's asynchronous methods (src/contexts/CartContext.jsx:75-178) are left out: the service calls, the loading flags, the refetch after a write and the ordering of overlapping requests. Only the reducer they dispatch to is modelled.
- The `src/services/*.js` network clients are not part of this model. They sit on an SDK object that is not visible.
- The tracking store's localStorage persistence and the `simulateDeliveryProgress` timers are left out, as are the deals page's fetch and the category page's timer. What a load delivers is a parameter.
- `Date.now()`, `Math.random().toString(36)` and `toISOString()` are parameters. So the daylight-saving behaviour of `setDate` is not modelled: the due date is the clock plus the days in milliseconds, handed to the formatter.
- Cart.CartItem: every cart line is taken to carry an integer quantity. A line without one, which `item?.quantity || 0` would count as 0 in both totals, cannot be represented, and the NaN that `undefined + 1` or `undefined > 0` would produce in the reducer is not modelled.
- Money, discounts and coordinates are exact `real`s. JavaScript floating-point rounding and `toFixed` display formatting are not modelled.
- JavaScript's in-place `Array.prototype.sort` is modelled on values, as a stable sort returning a new sequence. So the copy-before-sort property (src/pages/Deals.jsx:41, src/pages/CategoryView.jsx:57) holds by construction, and aliasing between the sorted array and the state is not modelled.
- `localeCompare` on names is modelled as code-point order (`Sorting.StrAsc`). Locale collation is not modelled.
- Lookups in object literals (`days[method] || 5`, `categories[id]`, the status and hub tables) ignore keys inherited from `Object.prototype`. An input such as 'constructor' would hit an inherited member in the source.
- The home page showcase declares `addToCart` twice: once from the cart store (src/components/MainFeature.jsx:12) and once locally (src/components/MainFeature.jsx:164-176). It also defines `handleAddToCart` inside the sort comparator (src/components/MainFeature.jsx:143-148). The model takes the local cart and leaves the store call out.
- The checkout page's shipping and payment submit handlers are never attached to a rendered form. They are modelled as written, but no UI path reaches them.
- The tracking page is not routed and no tracking provider is mounted (src/App.jsx). The page is modelled against a store value passed in.
- The category page's add-to-cart and product-click handlers are no-ops and are not modelled.
- The deals' `featured` flag is taken to be a boolean, so `b.featured - a.featured` compares 1 and 0.
- The tracking store's `updateNotifications`, `notifications` and `setSelectedOrder` are plain setters and toasts; they are not modelled beyond the members they sit beside.
- Toasts, animations, routing and rendering are left out. The form pages' rendered inputs are modelled only as lists of field names.
- The shipping page's `shippingOptions` are display text and are not modelled.
- Checkout.OrderNumber: carries no contract of its own, because any postcondition on it makes the proof of `PlaceOrder` too costly. Its format and digits are stated by the lemmas OrderNumberFormat and OrderNumberDigits.
- TrackingContext.PendingShipmentsCount: its own contract gives only the bound. Which statuses count is stated by PendingCons: one for processing, shipped and in_transit, none for any other status.
- TrackingPage.StatusColor and TrackingPage.StatusIcon: the contracts say which statuses get the default, not that the five styles differ from each other.

## Findings

| source | as written | input that shows it | evidently intended | confidence | as-written member | corrected member |
|---|---|---|---|---|---|---|
| src/pages/Tracking.jsx:10-24 | the page takes `getTrackingByNumber` from the store and calls it, but the store provides only `getOrderByTrackingNumber`, so the call throws and the catch leaves the selection as it was | any non-blank query, e.g. an existing order's tracking number | call `getOrderByTrackingNumber(searchQuery.trim())` and select the hit or clear the selection | high, not executed | TrackingPage.TrackingView.HandleSearchAsWritten | TrackingPage.TrackingView.HandleSearch |
