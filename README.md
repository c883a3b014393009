# Junk-marketplace store and page rules in Dafny

The model covers the in-memory back end of a scrap-collection and
eco-marketplace web application. It also covers the selection rules of
three client pages.

- **The store (`MemStorage`).** One insertion-ordered map per entity:
  users, scrap categories, pickup bookings, dealers, marketplace products,
  cart items and notifications. A single counter, `currentId`, hands out
  ids to all of them. Operations create records, look them up, list them
  through linear scans, update one field, and delete cart items.
- **The schema.** Record and insert shapes and column defaults.
- **The pages.** Three selection rules:
  - the dealer directory's search and rating bands;
  - the category browser's drill-down;
  - the marketplace's product search, sort orders and featured categories.

Files:

- `wrappers.dfy`: `Option`.
- `seqs.dfy`: `filter`, `find`, `[...new Set(xs)]` and occurrence counting over sequences.
- `strings.dfy`: `toLowerCase`, `includes` and integer rendering.
- `ordered_maps.dfy`: the JavaScript `Map`, as a key list in insertion order plus a finite map.
- `schema.dfy`: row datatypes, insert datatypes without `id` and creation time, and column defaults.
- `storage.dfy`: the `MemStorage` class, plus the value-level rules its methods are proved against.
- `dealers.dfy`, `categories.dfy`, `marketplace.dfy`: the page rules. The category browser's click handling is a small class.

Representation choices:

- **Nullable columns** are `Option`.
- **Money** is an integer count of cents. Ratings and weights are integer hundredths, because the decimal columns have scale 2.
- **Timestamps** are integers passed in by the caller.
- **The `Valid()` invariant of `MemStorage`:**
  - each map's key list and domain agree;
  - every record is stored under its own id;
  - every id is below `currentId`.
- **State changes.** Every mutator ensures `Valid()` again. It states its whole new state through the `State()` snapshot.

## Model

| member | source | states |
|---|---|---|
| Storage.MemStorage.constructor | server/storage.ts:68-70 | a new store is valid and equals `InitialState`: the seeded categories, dealers and products, all other maps empty, counter 100 |
| Storage.MemStorage.InitializeData | server/storage.ts:72-120 | inserting the three seed lists one by one into empty maps and setting the counter to 100 gives exactly `InitialState` |
| Storage.InsertAll | server/storage.ts:92-117 | a `forEach` of `set(x.id, x)` over seeds numbered 1, 2, 3, … on an empty map gives the map with key list 1..n holding seed k under key k |
| Storage.InitialStateContents | server/storage.ts:72-120 | a fresh store lists categories 1..15, dealers 1..3 and products 1..4 in seed order; users, bookings, cart and notifications are empty |
| Storage.InitialStateValid | server/storage.ts:119 | in a fresh store every seeded record is under its own id, and every id is below the counter value 100, so every later id exceeds every seeded one |
| Storage.MemStorage.GetUser | server/storage.ts:123-125 | found exactly when the id is stored, and then it is the record under that id |
| Storage.MemStorage.GetUserByEmail | server/storage.ts:127-129 | absent exactly when no stored user has the email; otherwise the first user with that email in insertion order |
| Storage.MemStorage.CreateUser | server/storage.ts:131-141 | the new user has the old counter as id, `isActive` true and the given time; it is stored under that id; the counter grows by one; the id is above every stored id; nothing else changes; get-after-create returns it |
| Storage.MemStorage.UpdateUser | server/storage.ts:143-150 | an unknown id gives absent and an unchanged state; a known id stores and returns the merged record, whose id is unchanged; nothing else changes |
| Storage.ApplyUserPatch | server/storage.ts:147 | for each of the ten non-id columns, a supplied value wins and otherwise the old value stays; the id never changes; an empty patch is the identity |
| Storage.ApplyUserPatchIdempotent | server/storage.ts:147 | merging the same partial record twice is merging it once |
| Storage.MemStorage.GetCategories | server/storage.ts:153-155 | one entry per stored category, exactly the stored ones, in insertion order |
| Storage.MemStorage.GetCategory | server/storage.ts:157-159 | found exactly when the id is stored, and then it is the record under that id |
| Storage.MemStorage.GetCategoryByName | server/storage.ts:161-163 | absent exactly when no stored category has the name; otherwise the first category with that name in insertion order |
| Storage.MemStorage.CreateCategory | server/storage.ts:165-170 | the record gets the old counter as id and is stored under it; the counter grows by one; the id is fresh; get-after-create returns it |
| Storage.MemStorage.UpdateCategoryPrice | server/storage.ts:172-180 | an unknown id gives absent and an unchanged state; a known id changes only that category's price |
| Storage.MemStorage.GetBookings | server/storage.ts:182-184 | one entry per stored booking, exactly the stored ones, in insertion order |
| Storage.MemStorage.GetBookingsByUser | server/storage.ts:186-188 | exactly the stored bookings of the user, in store order |
| Storage.MemStorage.GetBooking | server/storage.ts:190-192 | found exactly when the id is stored, and then it is the record under that id |
| Storage.MemStorage.CreateBooking | server/storage.ts:194-204 | a new booking is "pending" whatever status was supplied, and that is a documented status; fresh id; counter plus one; get-after-create returns it |
| Storage.MemStorage.UpdateBookingStatus | server/storage.ts:206-214 | an unknown id gives absent and an unchanged state; a known id changes only that booking's status |
| Storage.MemStorage.GetDealers | server/storage.ts:216-218 | one entry per stored dealer, exactly the stored ones, in insertion order |
| Storage.MemStorage.GetDealersByCity | server/storage.ts:220-222 | exactly the stored dealers in that city, in store order |
| Storage.MemStorage.GetDealer | server/storage.ts:224-226 | found exactly when the id is stored, and then it is the record under that id |
| Storage.MemStorage.CreateDealer | server/storage.ts:228-234 | fresh id from the counter; stored under it; counter plus one; get-after-create returns it |
| Storage.MemStorage.GetProducts | server/storage.ts:236-238 | one entry per stored product, exactly the stored ones, in insertion order |
| Storage.MemStorage.GetProductsByCategory | server/storage.ts:240-242 | exactly the stored products of the category, in store order |
| Storage.MemStorage.GetProductsBySeller | server/storage.ts:244-246 | exactly the stored products of the seller, in store order |
| Storage.MemStorage.GetProduct | server/storage.ts:248-250 | found exactly when the id is stored, and then it is the record under that id |
| Storage.MemStorage.CreateProduct | server/storage.ts:252-262 | a new product is available whatever was supplied; fresh id; counter plus one; get-after-create returns it |
| Storage.MemStorage.UpdateProductAvailability | server/storage.ts:264-272 | an unknown id gives absent and an unchanged state; a known id changes only that product's availability |
| Storage.MemStorage.GetCartItems | server/storage.ts:274-276 | exactly the stored items of the user, in store order |
| Storage.MemStorage.AddToCart | server/storage.ts:278-287 | the item is stored as given, with the time and a fresh id from the counter; counter plus one |
| Storage.MemStorage.UpdateCartItemQuantity | server/storage.ts:289-296 | an unknown id gives absent and an unchanged state; a known id changes only that item's quantity |
| Storage.MemStorage.RemoveFromCart | server/storage.ts:298-300 | returns true exactly when the id was in the cart; afterwards it is absent; nothing else changes |
| Storage.MemStorage.ClearCart | server/storage.ts:302-306 | returns true; the cart becomes `ClearedCart`; the user has no item left; no other map changes |
| Storage.DeleteUserItems | server/storage.ts:303-304 | deleting one by one the items the scan returned gives exactly the cart without that user's items |
| Storage.DeleteOne | server/storage.ts:304 | deleting one more key after a set of keys is deleting the union |
| Storage.DeletedAllScanned | server/storage.ts:303-304 | once every scanned id is deleted, and only ids of that user's items, the user's items are exactly the ones gone |
| Storage.ClearedCart | server/storage.ts:302-306 | the cart keeps exactly the items of other users, unchanged and in their order |
| Storage.ClearedCartKeepsOthers | server/storage.ts:302-306 | every other user's cart list is the same before and after clearing |
| Storage.ClearedCartEmpty | server/storage.ts:302-306 | after clearing, the user's cart list is empty |
| Storage.MemStorage.GetNotifications | server/storage.ts:309-311 | exactly the stored notifications of the user, in store order |
| Storage.MemStorage.GetUnreadNotifications | server/storage.ts:313-317 | exactly the stored notifications of the user whose read flag is not true; a null flag counts as unread |
| Storage.MemStorage.CreateNotification | server/storage.ts:319-329 | a new notification is unread whatever was supplied; fresh id; counter plus one |
| Storage.MemStorage.MarkNotificationAsRead | server/storage.ts:331-338 | an unknown id gives absent and an unchanged state; a known id changes only that notification's read flag |
| Storage.MarkRead | server/storage.ts:335 | the copy is read and otherwise equal to the original |
| Storage.MemStorage.MarkAllNotificationsAsRead | server/storage.ts:340-347 | returns true; the notifications become `MarkAllRead`; the user has no unread one left; no other map changes |
| Storage.MarkUserNotifications | server/storage.ts:341-345 | storing a read copy of each scanned notification, one by one, gives exactly `MarkAllRead` |
| Storage.StoreRead | server/storage.ts:343-344 | storing the read copy of one more stored record extends the set of marked keys by its id |
| Storage.MarkedAllScanned | server/storage.ts:341-345 | once every scanned id is marked, and only ids of that user's notifications, the map is `MarkAllRead` |
| Storage.MarkAllRead | server/storage.ts:340-347 | same keys in the same order; the user's records marked read, all others untouched; no record of the user is unread |
| Storage.MarkAllReadKeepsOthers | server/storage.ts:340-347 | every other user's notification list is the same before and after |
| Storage.MarkAllReadNoUnread | server/storage.ts:313-317 | after marking, the user's unread list is empty |
| Storage.MarkAllReadKeyed | server/storage.ts:340-347 | marking keeps every record under its own id, with every id below the bound |
| Storage.StoreUserUnique | shared/schema.ts:8-9 | storing a user under a fresh id keeps usernames and emails unique exactly when both of its values are unused |
| Storage.UniqueEmailLookup | server/storage.ts:127-129 | with unique emails, the lookup by a stored user's email finds that user |
| Storage.ScanFacts | server/storage.ts:303 | a filtering scan returns only records stored under their own id that pass the test, and every such record |
| Storage.KeyedValue | server/storage.ts:304 | a listed record of a keyed map is stored under its id |
| Storage.MemStorage.ValidIdsBelow | server/storage.ts:66 | in a valid store no id of any kind reaches the counter |
| Storage.SeedConditionsDocumented | server/storage.ts:108-113 | every seeded product's condition is one of the documented values new, like-new, good, fair and poor |
| OrderedMaps.Put | server/storage.ts:139 | `set`: the key maps to the value; others unchanged; an existing key keeps its place, a new one goes last |
| OrderedMaps.Get | server/storage.ts:124 | `get`: present exactly when stored |
| OrderedMaps.Delete | server/storage.ts:299 | `delete`: the key is absent; others unchanged; the remaining keys keep their order |
| OrderedMaps.RemoveKeys | server/storage.ts:304 | deleting a set of keys: removed ones absent, others unchanged, remaining keys in order |
| OrderedMaps.RemoveKeysTwice | server/storage.ts:304 | deleting in two rounds equals deleting the union |
| OrderedMaps.Values | server/storage.ts:154 | `Array.from(values())`: one value per key in insertion order, and exactly the stored values |
| OrderedMaps.Listed | server/storage.ts:154 | every stored value is listed |
| OrderedMaps.ValuesRemoveKeys | server/storage.ts:302-306 | when records carry their keys, deleting keys removes exactly the records carrying them from the value list, keeping the order of the rest |
| Schema.UserOf | shared/schema.ts:99-102 | a user row from an insert carries the given id and creation time |
| Schema.InsertOfUser | shared/schema.ts:99-102 | the insert part of a row rebuilds the row |
| Schema.InsertRoundTrips | shared/schema.ts:99-130 | for every entity, erasing id and creation time from a row built from an insert gives back the insert |
| Schema.UserDefaults | shared/schema.ts:16 | `isActive` defaults to true; a supplied value is kept; nothing else changes |
| Schema.CategoryDefaults | shared/schema.ts:27-28 | `priceUnit` defaults to "kg" and `isActive` to true |
| Schema.BookingDefaults | shared/schema.ts:48 | `status` defaults to "pending", a documented status |
| Schema.DealerDefaults | shared/schema.ts:61 | `isActive` defaults to true |
| Schema.ProductDefaults | shared/schema.ts:75-76 | `isAvailable` defaults to true and `isRecycled` to false |
| Schema.CartItemDefaults | shared/schema.ts:84 | `quantity` defaults to 1 |
| Schema.NotificationDefaults | shared/schema.ts:94 | `isRead` defaults to false |
| Schema.DefaultsIdempotent | shared/schema.ts:16-94 | filling defaults twice is filling once, and a booking with a status keeps it |
| Dealers.FilterDealers | client/src/pages/Dealers.tsx:18-24 | a dealer is listed iff it passes the location and city tests; the result is a subsequence; with a city selected, every result has exactly that city |
| Dealers.FilterDealersCount | client/src/pages/Dealers.tsx:18-24 | a dealer that passes both tests is listed as many times as it occurs in the input, any other dealer never |
| Dealers.MatchesLocationIffSubstring | client/src/pages/Dealers.tsx:19-21 | the location test holds iff the lower-cased search occurs in the lower-cased address or city |
| Dealers.NoFilterListsAll | client/src/pages/Dealers.tsx:18-24 | with no search and no city, all dealers are listed in order |
| Dealers.Cities | client/src/pages/Dealers.tsx:26 | each dealer city exactly once, in order of first appearance |
| Dealers.CityOfferedIsInhabited | client/src/pages/Dealers.tsx:22-26 | filtering by any offered city lists at least one dealer |
| Dealers.SpecialtyName | client/src/pages/Dealers.tsx:31-39 | a name exists exactly for ids 1..7 |
| Dealers.DealerSpecialties | client/src/pages/Dealers.tsx:28-44 | text on which `JSON.parse` throws, or that does not parse to an array, gives the empty list |
| Dealers.SpecialtiesAreKnownIdsInOrder | client/src/pages/Dealers.tsx:40 | the names equal the names of the ids in 1..7, in input order, with every other id dropped |
| Dealers.RatingColor | client/src/pages/Dealers.tsx:46-51 | green iff rating ≥ 4.50, yellow iff 4.00 ≤ rating < 4.50, orange iff below 4.00 or missing: the bands are disjoint and cover every input |
| Dealers.RatingColorMonotone | client/src/pages/Dealers.tsx:46-51 | a higher rating never gets a lower band |
| Categories.MainCategories | client/src/pages/Categories.tsx:18 | exactly the categories with null or falsy parent, order kept |
| Categories.SubCategories | client/src/pages/Categories.tsx:19 | exactly the categories whose parent strictly equals the selection, order kept |
| Categories.SubcategoriesIffListed | client/src/pages/Categories.tsx:19-22 | a category has subcategories exactly when selecting it lists some |
| Categories.DisplayedCategories | client/src/pages/Categories.tsx:64 | subcategories when a truthy category is selected, top-level categories otherwise |
| Categories.DisplayedCategoriesCount | client/src/pages/Categories.tsx:18-19 | the top-level list, the subcategory list and the displayed list each keep every copy of a category that passes their test, and no copy of any other |
| Categories.ButtonLabel | client/src/pages/Categories.tsx:99 | "View Subcategories" iff the category has subcategories, "Get Quote" otherwise |
| Categories.LabelMatchesClick | client/src/pages/Categories.tsx:21-29 | the label says "View Subcategories" exactly when the drill-down list is non-empty |
| Categories.ServicesUrl | client/src/pages/Categories.tsx:27 | the address is "/services?category=" followed by the id in decimal: after the prefix (and a minus sign for a negative id) come only digits, with no leading zero, that read back as the id |
| Categories.ServicesUrlInjective | client/src/pages/Categories.tsx:27 | different categories lead to different addresses |
| Strings.IntToStringDecimal | client/src/pages/Categories.tsx:27 | `${n}` is a run of digits without a leading zero, after a minus sign for a negative n, and the digits read back as the magnitude of n |
| Categories.SelectedName | client/src/pages/Categories.tsx:31 | the heading is present exactly when some category has the selected id, and is then the name of the first such category in list order |
| Categories.CategoriesPage.HandleCategoryClick | client/src/pages/Categories.tsx:21-29 | with subcategories it selects the category and does not navigate; otherwise it keeps the selection and navigates to the services address |
| Categories.CategoriesPage.Back | client/src/pages/Categories.tsx:41 | clears the selection, so the top-level categories are shown |
| Categories.CategoriesPage.Displayed | client/src/pages/Categories.tsx:64 | exactly the fetched categories under the selected one when a truthy category is selected, and the top-level ones otherwise, in fetched order |
| Categories.CategoriesPage.constructor | client/src/pages/Categories.tsx:12 | the page starts with nothing selected and no navigation |
| Marketplace.FilterProducts | client/src/pages/Marketplace.tsx:55-60 | a product is listed iff the search occurs in the title or the description, and no category or its own category is selected; the result is a subsequence |
| Marketplace.FilterProductsCount | client/src/pages/Marketplace.tsx:55-60 | a product that passes the search and category tests is listed as many times as it occurs in the input, any other product never |
| Marketplace.NoFilterListsAll | client/src/pages/Marketplace.tsx:55-60 | with an empty search and no category, every product is listed in order |
| Marketplace.SortedProducts | client/src/pages/Marketplace.tsx:62-72 | a permutation of the listed products: prices non-decreasing for "price-low", non-increasing for "price-high", creation times non-increasing otherwise (a missing one counts as 0) |
| Marketplace.SortedProductsStable | client/src/pages/Marketplace.tsx:62-72 | products that tie under the order keep their listed order |
| Marketplace.SortBy | client/src/pages/Marketplace.tsx:62 | a sorted permutation of the input |
| Marketplace.Insert | client/src/pages/Marketplace.tsx:62 | inserting into a sorted list keeps it sorted and adds exactly that element |
| Marketplace.SortByStable | client/src/pages/Marketplace.tsx:62 | for every key value, the elements with that key appear in input order |
| Marketplace.InsertKeepsGroups | client/src/pages/Marketplace.tsx:62 | inserting leaves every group of equal keys as if the element were put in front |
| Marketplace.SortedByAllPairs | client/src/pages/Marketplace.tsx:62 | sorted neighbours give sorted pairs |
| Marketplace.ProductCategories | client/src/pages/Marketplace.tsx:74 | each product category exactly once, in order of first appearance |
| Marketplace.FeaturedCategories | client/src/pages/Marketplace.tsx:98 | the first four categories in order of first appearance, or all of them when there are fewer |
| Marketplace.CategoryCount | client/src/pages/Marketplace.tsx:106 | the count never exceeds the number of products |
| Marketplace.CategoryCountOccurrences | client/src/pages/Marketplace.tsx:106 | a category's count is its number of occurrences among the products |
| Marketplace.ListedCategoryCounted | client/src/pages/Marketplace.tsx:74-106 | every listed category has a positive count |
| Marketplace.CountsCoverProducts | client/src/pages/Marketplace.tsx:74-106 | the counts of all categories add up to the number of products |

## Left out

- **`DatabaseStorage`** (server/storage.ts:353-560) is left out. It forwards to SQL queries, so its behaviour lives in the database. It also differs from the in-memory store:
  - its unread list does not filter on the read flag (server/storage.ts:532-534);
  - `clearCart` and `markAllNotificationsAsRead` return `rowCount >= 0`, which is always true (server/storage.ts:525,558).
- **server/seed.ts** is database input/output. Its data repeats the baseline data.
- **Page rendering is left out.** That covers React rendering, data fetching, POST requests, toasts, the random trend badges and the price ticker's timer.
- **Number formatting and parsing.** `toFixed(2)` and `parseFloat` are not modelled as such. Prices are cents, so a price is stored as given. A rating is a number of hundredths; a missing rating plays the part of a value that does not parse.
- **JSON.** Parsing the specialties text is left out. `Dealers.DealerSpecialties`: takes the parse result, where "none" means `JSON.parse` threw or did not return an array (the cases that reach the `catch` or lack `.map`).
- `Dealers.DealerSpecialties`: arrays whose elements are not integer ids are outside the model. In the source each element is used as a key of the name table (Dealers.tsx:40), so `'["1","2"]'` also yields Electronics and Metals, and a nested `'[[2]]'` yields Metals.
- **Time.** `new Date()` is a timestamp parameter of each create method. The four seeded products share one `now` (`Storage.SeedProducts`). The source calls `new Date()` once per product (server/storage.ts:109-112), so a clock tick between the calls can give them different times. That would change their order under the "newest" sort.
- **Async.** `async`/`Promise` are treated as synchronous calls.
- **Number width.** Ids, the counter and quantities are JavaScript numbers (doubles) in the source and unbounded integers here. Past 2^53, `currentId++` would stop yielding fresh ids, and `${categoryId}` renders ids of 1e21 or more in exponent form. Neither is reachable at the store's scale.
- `Storage.MemStorage.UpdateUser`: the partial record cannot carry an `id`. In the source, a partial user with an id would overwrite it and split the record from its map key.
- `Storage.MemStorage.CreateUser`: does not enforce unique usernames or emails, and neither does the source's in-memory store. `Storage.StoreUserUnique` states when a create keeps the unique constraints.
- **Documented value lists.** The schema documents allowed values for four columns: booking service type, booking status, product condition and notification type (shared/schema.ts:41, 48, 72, 93). The store validates none of them:
  - `createBooking` copies the service type;
  - `updateBookingStatus` stores any status string;
  - `createProduct` copies the condition;
  - `createNotification` copies the type.

  The model stores such values unchecked in the same way. `Schema.IsBookingStatus` and `Schema.IsProductCondition` state two of the lists. They are used for the status a new booking gets and for the seeded conditions.
- **Column defaults.** The in-memory store does not apply column defaults other than the ones it writes itself. For example, a cart item without a quantity stays without one. The defaults are modelled separately in `Schema`.
- `Strings.ToLower`: folds only the ASCII letters A-Z. Unicode case mapping is outside the model.
- **Loop placement.** The loops of `clearCart` and `markAllNotificationsAsRead` run on map values:
  - `Storage.DeleteUserItems` and `Storage.MarkUserNotifications` perform them;
  - the class methods assign the results to their fields.
- `Marketplace.SortedProducts`: the comparator is turned into an integer sort key. For creation times the comparator's difference is a difference of integer milliseconds. For prices it is a floating-point difference of the parsed prices. Prices have two decimals, so that difference has the same sign as the difference in cents. Only the sign matters to the sort:
  - a negative difference means "before";
  - zero ties, and ties keep their input order.
