# SmartStoreFront, modelled in Dafny

SmartStoreFront is a storefront in three parts:

- a React client: the product listing, product page, product card, cart, account page, sign-in modal and a floating chat widget;
- an Express server over SQLite: catalogue queries, cart, wishlist and profile routes, and a data access layer;
- a Flask chat service: it recognises the intent of a message and hands it to a product recommendation agent, an order tracking agent or a customer support agent.

This project models the logic of those parts that decides state and replies.

- **Listing page and AI bridge.** The listing page keeps a filter state. The chat widget's filter commands update it through one global slot on the browser window. The grid shows a filter-then-sort pipeline over the fetched products. Pages and the window are classes (`Listing.ListingView`, `Listing.Window`), and mount, unmount and the widget's delayed dispatch are methods that can interleave in any order.
- **Chat widget.** `ChatWidget.Widget` holds the transcript, input, loading flag, open flag, location and the queue of dispatches whose 500 ms timer has been started. The timer is an event (`FireTimer`), not a clock.
- **Filter-command extractor.** The product agent's `extract_filter_criteria` is a method with its loops, proved equal to a specification function (`ProductRecommendation.FilterCriteria`). Lemmas about keys, precedence and order are proved about that function.
- **Server.** `Storage.Store` is the data layer over in-memory tables (sequences of rows). The route handlers of `Routes` and `ProductsRoute` are methods over a store. Each handler returns its status code, and the new table contents are stated in its contract.
- **Order grouping.** The grouping of `getUserOrders` is the `Map`-filling loop, proved equal to a grouping function.
- **Small pure rules.** Intent mapping, user-id conversion, order status by age, FAQ lookup, cart totals, form validators, quantity steppers, discount, stars and labels are functions with lemmas.

Outside code becomes a parameter. This covers the language model, email validity, the clock, date and money formatting, query results and the outcome of network requests. Money is `real`. Times are integers (seconds, or milliseconds for `createdAt`).

Modules: `Wrappers` (Option), `Seqs` (filter, subsequence, JavaScript `slice`), `Text` (case mapping, whitespace, `strip`, `split`, `join`, decimal digits), `Sorting` (a stable sort by key), `Catalog` (categories, products, sort keys), `Wire` (the filter command and chat reply JSON), `Forms` (field rules shared by two forms), and one module per source file below.

## Model

| member | source | states |
|---|---|---|
| Listing.ListingView.constructor | client/src/pages/products.tsx:37-41 | a new page starts with no categories, price range [0, 1000], sort "featured", empty search, grid view, and the AI flag off with no remembered command |
| Listing.ListingView.SeedFromUrl | client/src/pages/products.tsx:45-62 | the new state is `Seeded` of the old state and the three URL parameters (a non-empty `category` becomes the only selected slug, a non-empty `filter` the sort key, a non-empty `search` the query) |
| Listing.ListingView.ToggleCategory | client/src/pages/products.tsx:85-91 | only the selection changes, to `Toggled` of the old selection |
| Listing.ToggledMembership | client/src/pages/products.tsx:85-91 | after a toggle the slug is selected exactly when it was not before, and every other slug keeps its membership |
| Listing.ToggledTwice | client/src/pages/products.tsx:85-91 | toggling a slug twice restores the set of selected slugs, and restores the exact sequence when the slug was not selected |
| Listing.ListingView.ResetFilters | client/src/pages/products.tsx:99-115 | the new state is `Reset` of the old |
| Listing.ResetDefaults | client/src/pages/products.tsx:99-115 | reset restores categories [], price [0, 1000], sort "featured" and search "", turns the AI indicator off with no remembered command, and keeps the view mode |
| Listing.ListingView.ApplyFiltersFromAI | client/src/pages/products.tsx:128-153 | the field-by-field updates give exactly `Applied(old state, cmd)` |
| Listing.AppliedIgnoresOtherActions | client/src/pages/products.tsx:129 | a command whose action is not "filter" changes nothing |
| Listing.AppliedFields | client/src/pages/products.tsx:131-153 | an accepted command sets the AI flag and records itself; a present categories array, price range or search replaces its field, even when empty; a non-empty sort replaces the sort key, and an absent or empty one keeps it; "grid" and "compact" set the view mode and any other view keeps it; absent keys leave their fields alone |
| Listing.AppliedUnknownView | client/src/pages/products.tsx:147-149 | an invalid view value does not stop the other keys of the command from applying |
| Listing.AppliedIdempotent | client/src/pages/products.tsx:128-153 | applying the same command twice equals applying it once |
| Listing.OperationsKeepConsistent | client/src/pages/products.tsx:45-153 | apply, reset, toggle and URL seeding all keep the AI indicator on exactly when a command is remembered |
| Listing.Window.constructor | client/src/pages/products.tsx:166 | the global `applyAIFilters` slot starts empty |
| Listing.ListingView.Mount | client/src/pages/products.tsx:166 | mounting puts this page in the slot, replacing any page registered before |
| Listing.ListingView.Unmount | client/src/pages/products.tsx:169-171 | unmounting empties the slot, whichever page is in it |
| Listing.StaleUnmount | client/src/pages/products.tsx:166-171 | when a later page mounts and then the earlier page unmounts, the slot is left empty although the later page is still mounted |
| Listing.DisplayedSpec | client/src/pages/products.tsx:440-464 | a product is shown exactly when it was fetched, lies within the inclusive price range and passes the category selection, and as many times as it was fetched; for a value that is not a sort key the grid keeps fetch order |
| Listing.DisplayedNoSelection | client/src/pages/products.tsx:444-450 | with no category selected, every fetched product within the price range is shown |
| Catalog.OrderBySpec | server/routes.ts:326-343 | each sort key orders the list as its comparator asks (a missing createdAt or rating counts as 0) and keeps the same products; any other key keeps the order |
| Catalog.OrderByStable | server/routes.ts:326-343 | the sort is stable: products with equal keys keep their relative order |
| Sorting.StableSortIsStable | client/src/pages/products.tsx:452-464 | the insertion sort under both sort steps keeps the relative order of equal keys |
| Sorting.InsertSorted | client/src/pages/products.tsx:452-464 | inserting into a key-sorted list keeps it sorted |
| Catalog.FindCategoryById | client/src/pages/cart.tsx:31 | `find` by id gives a category with that id, and nothing only when none has it |
| Catalog.FindCategoryBySlug | server/storage.ts:300-306 | the lookup by slug gives a category with that slug, and nothing only when none has it |
| Catalog.FindProduct | server/storage.ts:360-369 | the lookup by id gives a product with that id, and nothing only when none has it |
| ChatWidget.ResolveUserId | client/src/components/widgets/chat-widget.tsx:50-52 | the id sent is never empty |
| ChatWidget.ResolveUserIdCases | client/src/components/widgets/chat-widget.tsx:50-52 | when authenticated, the user's positive id as decimal text, and with no id or id 0 the same as unauthenticated; when not authenticated, the stored `userId` if non-empty, else "anonymous" |
| ChatWidget.Widget.constructor | client/src/components/widgets/chat-widget.tsx:29-35 | the widget starts closed, with an empty transcript, input and pending queue, and not loading |
| ChatWidget.Widget.Greet | client/src/components/widgets/chat-widget.tsx:55-71 | the welcome entry is added only to an empty transcript; nothing else changes |
| ChatWidget.Widget.ToggleChat | client/src/components/widgets/chat-widget.tsx:73-75 | only the open flag flips |
| ChatWidget.Widget.HandleSendMessage | client/src/components/widgets/chat-widget.tsx:77-151 | blank input changes nothing; otherwise the transcript gains the user's entry and then the reply's entry or the apology, the input is cleared, loading ends false, and a dispatch is queued, the widget closed and "/products" opened exactly when the reply has a filter command and a true `should_navigate` |
| ChatWidget.TranscriptShape | client/src/components/widgets/chat-widget.tsx:89-147 | a send adds exactly two entries after the old transcript: the user's text, then the reply's message or the apology |
| ChatWidget.ReplyMessage | client/src/components/widgets/chat-widget.tsx:109-117 | the reply entry is an AI entry with the reply's message and its `suggested_actions` |
| ChatWidget.SuggestionsKeyIgnored | client/src/components/widgets/chat-widget.tsx:116 | the `suggestions` key of a reply never reaches the transcript |
| ChatWidget.Widget.FireTimer | client/src/components/widgets/chat-widget.tsx:130-135 | the oldest queued command goes to the page in the slot (its state becomes `Applied` of the old), and nothing happens when the slot is empty |
| ChatWidget.Widget.HandleActionClick | client/src/components/widgets/chat-widget.tsx:153-156 | a suggested action becomes the input; nothing else changes |
| ChatWidget.Widget.HandleProductClick | client/src/components/widgets/chat-widget.tsx:158-161 | a product opens "/products/" plus its slug and closes the widget |
| ChatWidget.StatusColorSpec | client/src/components/widgets/chat-widget.tsx:196-207 | processing, shipped and delivered get their colours without regard to case, each only for that status, and every other status gets gray |
| ChatWidget.AgentLabelSpec | client/src/components/widgets/chat-widget.tsx:182-193 | a label appears exactly on AI entries with a non-empty agent type; the three known agents get their own label and icon, any other type "Shop Assistant" with the generic icon |
| ChatWidget.DropJsSpaces | client/src/components/widgets/chat-widget.tsx:288 | the result is a suffix of the input that does not start with whitespace |
| ChatWidget.DashRuns | client/src/components/widgets/chat-widget.tsx:288 | `replace(/\s+/g, "-")` leaves no whitespace |
| ChatWidget.DashRunsOfJoin | client/src/components/widgets/chat-widget.tsx:288 | non-empty words joined by single spaces come out joined by single dashes |
| ChatWidget.ProductSlugSpec | client/src/components/widgets/chat-widget.tsx:288 | the slug has no whitespace, and a name without whitespace is only lower-cased |
| ChatWidget.DashRunsOfSpaceFree | client/src/components/widgets/chat-widget.tsx:288 | a whitespace-free prefix passes through the replacement unchanged |
| ChatWidget.DashRunsOfSpaceThen | client/src/components/widgets/chat-widget.tsx:288 | one space before a non-space becomes one dash |
| ChatWidget.LowerKeepsJsSpace | client/src/components/widgets/chat-widget.tsx:288 | lower-casing adds no whitespace |
| ProductRecommendation.ExtractFilterCriteria | ecommerce_ai_agents/agents/product_recommendation.py:76-131 | the method's key insertions and loops build exactly `FilterCriteria(message)` |
| ProductRecommendation.CollectCategoryMatches | ecommerce_ai_agents/agents/product_recommendation.py:82-86 | the loop over the catalogue collects exactly `CategoryMatches` |
| ProductRecommendation.CategoryMatchesStep | ecommerce_ai_agents/agents/product_recommendation.py:82-86 | one loop step over a category adds its slug exactly when its name occurs |
| ProductRecommendation.SearchTermsStep | ecommerce_ai_agents/agents/product_recommendation.py:116-120 | one loop step over a word adds its cleaned form exactly when it qualifies |
| ProductRecommendation.CollectSearchTerms | ecommerce_ai_agents/agents/product_recommendation.py:113-120 | the loop over the words collects exactly the qualifying cleaned words |
| ProductRecommendation.ChooseSort | ecommerce_ai_agents/agents/product_recommendation.py:103-110 | the if/elif chain picks exactly `SortCriterion` |
| ProductRecommendation.ChooseView | ecommerce_ai_agents/agents/product_recommendation.py:126-129 | the if/elif chain picks exactly `ViewCriterion` |
| ProductRecommendation.FilterCriteriaShape | ecommerce_ai_agents/agents/product_recommendation.py:79-129 | the action is always "filter", and every other key is present only with a found value: non-empty categories, a non-empty search, a known sort key, "compact" or "grid" |
| ProductRecommendation.CategoryMatchesSpec | ecommerce_ai_agents/agents/product_recommendation.py:82-88 | a slug is listed exactly when the lower-cased name of a category with that slug occurs in the message, and the list keeps catalogue order |
| ProductRecommendation.CategoryMatchesMember | ecommerce_ai_agents/agents/product_recommendation.py:83-85 | membership in the matches, both directions |
| ProductRecommendation.CategoryMatchesOrder | ecommerce_ai_agents/agents/product_recommendation.py:83-85 | the matches are a subsequence of the catalogue's slugs |
| ProductRecommendation.Leftmost | ecommerce_ai_agents/agents/product_recommendation.py:91-98 | `re.search` gives the leftmost position where the pattern matches, and none only when it matches nowhere |
| ProductRecommendation.LeftmostIsFirst | ecommerce_ai_agents/agents/product_recommendation.py:91-98 | a match with none before it is the one the search returns |
| ProductRecommendation.Run | ecommerce_ai_agents/agents/product_recommendation.py:91-97 | `\s+` and `\d+` consume the maximal run of such characters |
| ProductRecommendation.AmountAt | ecommerce_ai_agents/agents/product_recommendation.py:91-97 | a `\s+\$?(\d+)` match ends after its start and within the message |
| ProductRecommendation.PriceCriterionSpec | ecommerce_ai_agents/agents/product_recommendation.py:91-100 | the leftmost "between A and B" gives [A, B] whatever maximum-price phrase occurs; without one, the leftmost "under/less than/below/cheaper than N" gives [0, N]; A <= B is not checked |
| ProductRecommendation.PriceCriterionAbsent | ecommerce_ai_agents/agents/product_recommendation.py:91-100 | there is no price range exactly when neither pattern matches anywhere |
| ProductRecommendation.SortCriterionSpec | ecommerce_ai_agents/agents/product_recommendation.py:103-110 | at most one sort key, with precedence price-asc words, then price-desc, then newest, then rating; none exactly when no keyword occurs |
| ProductRecommendation.SortCriterionIsKey | ecommerce_ai_agents/agents/product_recommendation.py:103-110 | any sort chosen is one of the listing's sort keys |
| ProductRecommendation.CheaperThanSortsAscending | ecommerce_ai_agents/agents/product_recommendation.py:91-105 | a "cheaper than" price phrase also selects the ascending price sort |
| ProductRecommendation.Clean | ecommerce_ai_agents/agents/product_recommendation.py:118 | removing punctuation leaves only word and space characters and never lengthens the word |
| ProductRecommendation.AmongIsIn | ecommerce_ai_agents/agents/product_recommendation.py:119 | the skip-word scan agrees with `in` on the list |
| ProductRecommendation.SearchTermsQualify | ecommerce_ai_agents/agents/product_recommendation.py:119-120 | every search term is non-empty, not a skip word and longer than 2 characters |
| ProductRecommendation.SearchTermsAreWords | ecommerce_ai_agents/agents/product_recommendation.py:116-120 | terms cleaned from whitespace-free words contain no whitespace |
| ProductRecommendation.SearchCriterionSpec | ecommerce_ai_agents/agents/product_recommendation.py:113-123 | the search string splits back into exactly the qualifying words in message order, and it is absent exactly when no word qualifies |
| ProductRecommendation.CleanKeepsNoSpace | ecommerce_ai_agents/agents/product_recommendation.py:118 | cleaning a whitespace-free word leaves it whitespace-free |
| ProductRecommendation.JoinNonEmpty | ecommerce_ai_agents/agents/product_recommendation.py:122-123 | joining terms whose first is non-empty gives a non-empty search string |
| Text.WordsOfJoin | ecommerce_ai_agents/agents/product_recommendation.py:116-123 | `split()` of words joined by single spaces gives back the words |
| ProductRecommendation.ViewCriterionSpec | ecommerce_ai_agents/agents/product_recommendation.py:126-129 | "compact" or "list" selects compact even when "grid" or "tiles" also occur; grid exactly when only the latter occur |
| ProductRecommendation.ViewCriterionValues | ecommerce_ai_agents/agents/product_recommendation.py:126-129 | a view is only ever "compact" or "grid" |
| ProductRecommendation.ShouldNavigateSpec | ecommerce_ai_agents/agents/product_recommendation.py:136 | `should_navigate` holds exactly when the command has a key besides "action" |
| ProductRecommendation.Process | ecommerce_ai_agents/agents/product_recommendation.py:133-165 | the reply carries the model's answer, exactly the products found, the agent type and `should_navigate`, and no suggestions, actions or orders; the filter command is present exactly when navigating and is then the extracted command |
| ProductRecommendation.CategoryName | ecommerce_ai_agents/agents/product_recommendation.py:59-67 | "Uncategorized" for a missing or zero id, else the name of the first catalogue entry with that id, or "Uncategorized" when none has it |
| ProductRecommendation.FirstWithId | ecommerce_ai_agents/agents/product_recommendation.py:62-65 | the scan stops at the first catalogue entry with the id |
| Wire.KeyCount | ecommerce_ai_agents/agents/product_recommendation.py:136 | a command has between 1 and 6 keys |
| ProductsRoute.ListProducts | server/routes.ts:272-352 | the handler's successive reassignments give exactly `Products(all, cats, q)` |
| ProductsRoute.LimitOf | server/routes.ts:279 | the limit is the parsed number when it is non-zero, and 1000 when it is missing, unparseable or 0 |
| ProductsRoute.ByCategory | server/routes.ts:285-291 | a slug that resolves keeps exactly that category's products; an empty or unknown slug keeps the list |
| ProductsRoute.ByFlag | server/routes.ts:293-306 | "new", "trending" and "sale" keep exactly the flagged or discounted products, "recommended" keeps the first 8, and any other value keeps the list |
| ProductsRoute.BySearch | server/routes.ts:308-315 | a non-empty term keeps exactly the products whose name, or non-empty description, contains it without regard to case |
| ProductsRoute.ByMinPrice | server/routes.ts:280-320 | an absent bound keeps the list, an unparseable one empties it, a number keeps exactly the products at or above it |
| ProductsRoute.ByMaxPrice | server/routes.ts:281-324 | the same for the upper bound |
| ProductsRoute.ByFlagMembership | server/routes.ts:285-306 | for any flag but "recommended", a product survives the category and flag steps exactly when it passes both |
| ProductsRoute.NarrowedMembership | server/routes.ts:285-324 | a product survives the narrowing steps exactly when it passes every step that applies; no step adds a product |
| ProductsRoute.ProductsMembership | server/routes.ts:272-352 | with a limit that cuts nothing, a product is in the response exactly when it passes every step |
| ProductsRoute.SortKeepsMembers | server/routes.ts:326-343 | sorting keeps the length and the products |
| ProductsRoute.ProductsWithinLimit | server/routes.ts:279-346 | the response holds at most `limit` products for a positive limit, and at most 1000 without one |
| Seqs.JsSliceTo | server/routes.ts:346 | `slice(0, n)` keeps a prefix: `n` items for a non-negative `n` (at most all), and all but the last `-n` for a negative `n` |
| ProductsRoute.ProductsSorted | server/routes.ts:326-346 | the response is in the order of the chosen sort key |
| ProductsRoute.NaNBoundEmpties | server/routes.ts:280-324 | an unparseable price bound empties the response |
| Routes.Login | server/routes.ts:54-81 | 401 with no session exactly when no user has the email, else 200 with that user's id in the session |
| Routes.LoginIgnoresPassword | server/routes.ts:65-69 | the outcome does not depend on the password |
| Routes.PatchOf | server/routes.ts:119-124 | the profile body never sets password, username or age, and touches a column exactly when it defines one of its four keys |
| Routes.UpdateProfile | server/routes.ts:114-139 | 401 exactly without a session; 400 exactly for a missing body or a malformed email; 200 exactly when the update touches a column and the user exists (the users table then patched), 500 exactly otherwise; other tables unchanged |
| Routes.PatchRowsFindUser | server/storage.ts:228-232 | patching keeps the user findable exactly when they were |
| Routes.AddToCart | server/routes.ts:412-450 | 401 exactly without a session, 400 exactly without a body, 404 exactly for an unknown product, 201 exactly otherwise; on 201 the cart is `CartAfterAdd` (the user's row for the product grows by `quantity` or 1, or a new row is appended) and the returned row is the user's row for the product; otherwise no row and nothing changed |
| Routes.MergeIntoCart | server/routes.ts:424-429 | the existing row's quantity grows by the added amount, and the returned row is that row with the new quantity, still the user's row for the product |
| Routes.CreateInCart | server/routes.ts:430-432 | a row with the next id and `quantity \|\| 1` is appended and returned, and it is now the user's row for the product |
| Routes.CartAfterAddUnique | server/routes.ts:420-432 | adding keeps one cart row per user and product |
| Routes.CartAfterAddCount | server/routes.ts:420-432 | adding raises the user's cart count by `quantity \|\| 1` and leaves every other user's count unchanged |
| Routes.MergeAddsNoRow | server/routes.ts:424-429 | adding a product already in the cart adds no row |
| Routes.SetQuantityKeepsUnique | server/storage.ts:445-453 | setting a quantity keeps one row per user and product |
| Routes.AppendKeepsUnique | server/storage.ts:432-443 | appending a row for a product the user lacks keeps one row per user and product |
| Routes.UpdateCartQuantity | server/routes.ts:452-479 | 401 exactly without a session; 404 exactly when the id is not a number, the row is missing or another user owns it; then 400 exactly for a missing quantity or one below 1; else 200 with only that row's quantity set and that row returned with the new quantity; otherwise no row and nothing changed |
| Routes.RemoveFromCart | server/routes.ts:481-501 | 401 exactly without a session; 200 exactly when the id names one of the user's rows, which is then removed; 404 otherwise, with nothing removed |
| Routes.WithoutCartItemKeepsUnique | server/storage.ts:455-457 | deleting keeps one row per user and product |
| Routes.CartCount | server/routes.ts:503-518 | 401 without a session, else the sum of the user's quantities |
| Routes.AddToWishlist | server/routes.ts:543-580 | 401 exactly without a session, 400 exactly without a product id, 404 exactly for an unknown product, 409 exactly when the user already has the product (returning that row, creating nothing), 201 exactly otherwise, returning the new row with the next id, appended |
| Routes.WishlistAddKeepsUnique | server/routes.ts:557-571 | the 409 rule keeps one wishlist row per user and product |
| Routes.WishlistCountAppend | server/routes.ts:604-616 | an appended row adds one to its owner's count only |
| Routes.RemoveFromWishlist | server/routes.ts:582-602 | 401 exactly without a session; 200 exactly when the id names one of the user's rows, which is then removed; 404 otherwise, with nothing removed |
| Routes.DeleteByForeignIdIsNotFound | server/routes.ts:588-593 | an id that names no wishlist row of the user gives 404 |
| Routes.WishlistCount | server/routes.ts:604-616 | 401 without a session, else the number of the user's rows |
| Routes.WishlistCountBounds | server/routes.ts:612 | the count is at most the table size, and 0 exactly when the user has no row |
| Storage.BuildUserUpdate | server/storage.ts:201-226 | the pushes build exactly `SetClauses` and `BoundValues` |
| Storage.UpdateStatementSpec | server/storage.ts:201-230 | one bound value per clause plus the id last; no clause exactly when none of the five fields is defined; username, age, gender and segment never reach the statement |
| Storage.ApplyPatch | server/storage.ts:201-230 | the patched row keeps id, username, age, gender and segment, and an empty patch keeps the row |
| Storage.PatchRows | server/storage.ts:228-230 | only rows with the id are patched, and the table keeps its length |
| Storage.Store.UpdateUser | server/storage.ts:201-233 | an empty SET list fails and changes nothing; otherwise the rows with the id are patched and the row is re-read; other tables unchanged |
| Storage.FindUser | server/storage.ts:100-129 | the lookup by id gives a row with that id, and nothing only when none has it |
| Storage.FindUserByEmail | server/storage.ts:131-161 | the lookup by email gives a row with that email, and nothing only when none has it |
| Storage.StoredQuantity | server/storage.ts:439 | a missing or zero quantity is stored as 1, any other as given |
| Storage.Store.constructor | server/storage.ts:100-516 | the store starts with the given tables, empty cart and wishlist tables, and its invariant |
| Storage.Store.CreateCartItem | server/storage.ts:432-443 | a row with the next id and the stored quantity is appended; ids stay distinct |
| Storage.Store.UpdateCartItem | server/storage.ts:445-453 | the table changes only when a quantity is given, and the result is the row re-read by id |
| Storage.FindAfterSetQuantity | server/storage.ts:445-453 | re-reading a row after setting its quantity gives that row with the new quantity, and nothing when there was none |
| Storage.FindByProductAfterSetQuantity | server/storage.ts:423-453 | setting the quantity of a user's row for a product keeps it the row found for that user and product, with the new quantity |
| Storage.Store.DeleteCartItem | server/storage.ts:455-457 | exactly the rows with the id are removed |
| Storage.Store.CreateWishlistItem | server/storage.ts:486-496 | a row with the next id is appended; ids stay distinct |
| Storage.Store.DeleteWishlistItem | server/storage.ts:498-500 | exactly the rows with the id are removed |
| Storage.FindCartItem | server/storage.ts:414-421 | the lookup by id gives a row with that id, and nothing only when none has it |
| Storage.FindCartItemOfMember | server/storage.ts:414-421 | with distinct ids, the lookup by a row's id finds that row |
| Storage.FindCartItemByProduct | server/storage.ts:423-430 | the lookup gives a row of that user and product, and nothing only when none exists |
| Storage.FindByProductAppend | server/storage.ts:423-443 | a row created for a user and product that had none is the one the lookup then finds |
| Storage.FindWishlistItem | server/storage.ts:468-475 | the lookup by id gives a row with that id, and nothing only when none has it |
| Storage.FindWishlistItemOfMember | server/storage.ts:468-475 | with distinct ids, the lookup by a row's id finds that row |
| Storage.FindWishlistItemByProduct | server/storage.ts:477-484 | the lookup gives a row of that user and product, and nothing only when none exists |
| Storage.WithoutCartItem | server/storage.ts:455-457 | every row without the id stays, and only such rows |
| Storage.WithoutCartItemKeepsOrder | server/storage.ts:455-457 | the rows left after a delete keep their order: the result is a subsequence of the table |
| Storage.WithoutWishlistItem | server/storage.ts:498-500 | every row without the id stays, and only such rows |
| Storage.WithoutWishlistItemKeepsOrder | server/storage.ts:498-500 | the rows left after a delete keep their order: the result is a subsequence of the table |
| Storage.QuantityOfAppend | server/routes.ts:512 | an appended row adds its quantity to its owner's count only |
| Storage.QuantityOfSetQuantity | server/routes.ts:512 | changing one row's quantity changes its owner's count by the difference and no other count |
| Storage.QuantityOfUnchanged | server/storage.ts:445-450 | setting the quantity of an id that no row has changes nothing |
| Storage.AppendKeepsDistinctCart | server/storage.ts:432-443 | a new row id above every existing one keeps the ids distinct and below the next id |
| Storage.AppendKeepsDistinctWishlist | server/storage.ts:486-496 | the same for wishlist rows |
| Storage.SetQuantityKeepsDistinct | server/storage.ts:445-450 | setting a quantity keeps every row id |
| Storage.WithoutCartItemKeepsDistinct | server/storage.ts:455-457 | deleting keeps ids distinct and keeps only existing rows |
| Storage.WithoutWishlistItemKeepsDistinct | server/storage.ts:498-500 | deleting keeps ids distinct |
| Storage.WithoutCartItemKeepsBelow | server/storage.ts:455-457 | deleting keeps every id below the next id |
| Storage.WithoutWishlistItemKeepsBelow | server/storage.ts:498-500 | deleting keeps every id below the next id |
| Storage.FindPreference | server/storage.ts:503-507 | the lookup gives a row of the user, and nothing only when none exists |
| Storage.UserPreferences | server/storage.ts:503-516 | undefined exactly when the user has no row; otherwise that row's id and user with its list, a missing list read as [] |
| OrderHistory.GroupOrders | server/storage.ts:253-277 | the `Map`-filling loop returns exactly `Group(rows)` |
| OrderHistory.AddRow | server/storage.ts:255-275 | one `forEach` step keeps the map and its insertion order equal to the grouping of the rows seen |
| OrderHistory.GroupIds | server/storage.ts:253-277 | one purchase per distinct id among the rows, and no other |
| OrderHistory.GroupEntries | server/storage.ts:256-274 | each purchase carries the header columns of a row with its id; its items all carry its id, and it has none exactly when no row of its id has a truthy item id |
| OrderHistory.FirstRows | server/storage.ts:256-264 | the first row of each id, ids distinct, the same ids as the input |
| OrderHistory.ItemsFor | server/storage.ts:266-274 | the items of an id all carry it, and there are none exactly when no row of that id has an item |
| OrderHistory.GroupedSeen | server/storage.ts:266-274 | a row with a known id adds at most an item to its purchase |
| OrderHistory.GroupedNew | server/storage.ts:256-264 | a row with a new id opens a purchase at the end of the order |
| ChatService.NumericUserId | ecommerce_ai_agents/app.py:110-113 | "anonymous" or any id that is not all digits, the empty one included, maps to 1 |
| ChatService.NumericUserIdOfDecimal | ecommerce_ai_agents/app.py:112-113 | an all-digit id maps to its value |
| ChatService.LeadingZerosCollide | ecommerce_ai_agents/app.py:112-113 | "007" and "7" map to the same id |
| ChatService.GeneralReply | ecommerce_ai_agents/app.py:133-138 | the fallback carries the clarification message and three actions under `suggestions`, with no `suggested_actions`, agent type or filter command |
| ChatService.Dispatch | ecommerce_ai_agents/app.py:124-138 | product_search and customer_support give their agents' replies in full; order_status gives the order agent's reply: the user's orders, the answer for the order context, the two fixed actions, and no products, suggestions, filter command or navigation; any other intent gets the fallback |
| ChatService.ChatEndpoint | ecommerce_ai_agents/app.py:101-141 | a missing userId is "anonymous" and a missing message "", the id is converted, the intent recognised, and the reply is that intent's dispatch, an order reply carrying the fixed actions and never navigating |
| ChatService.GetOrders | ecommerce_ai_agents/app.py:159-175 | the same id conversion, then the user's orders |
| IntentRecognizer.Recognize | ecommerce_ai_agents/agents/intent_recognizer.py:25-37 | the intent is always one of order_status, product_search, customer_support or general |
| IntentRecognizer.ClassifySpec | ecommerce_ai_agents/agents/intent_recognizer.py:27-37 | in the stripped, lower-cased reply order_status beats product_search, which beats customer_support; general exactly when none occurs |
| IntentRecognizer.ClassifyIsLabel | ecommerce_ai_agents/agents/intent_recognizer.py:30-37 | the result is always one of the four labels |
| IntentRecognizer.ClassifyIgnoresCase | ecommerce_ai_agents/agents/intent_recognizer.py:27 | letter case never changes the intent |
| Text.LowerStrip | ecommerce_ai_agents/agents/intent_recognizer.py:27 | lower-casing and stripping commute |
| OrderTracking.StatusByAge | ecommerce_ai_agents/agents/order_tracking.py:61-68 | Processing under one day (future dates included), Shipped under three days, Delivered otherwise |
| OrderTracking.StatusNeverRegresses | ecommerce_ai_agents/agents/order_tracking.py:61-68 | as the clock advances an order's status never goes back |
| OrderTracking.OrderInfoFor | ecommerce_ai_agents/agents/order_tracking.py:71-80 | the record carries the purchase's id, date, total and items; `items_count` is the number of items; the delivery estimate is "Delivered" exactly when the status is, else the date plus five days |
| OrderTracking.CollectSpec | ecommerce_ai_agents/agents/order_tracking.py:40-89 | the loop yields one record per purchase in query order, or fails as a whole when some purchase raises |
| OrderTracking.CollectPrefixFails | ecommerce_ai_agents/agents/order_tracking.py:40-89 | a failure in a prefix fails the whole loop |
| OrderTracking.GetUserOrders | ecommerce_ai_agents/agents/order_tracking.py:25-89 | the loop, with aware dates taken on the same clock, returns exactly `UserOrders` |
| OrderTracking.UserOrdersSpec | ecommerce_ai_agents/agents/order_tracking.py:41-82 | the list is empty, or it has one record per purchase, each with the purchase's id in the same position, the items its query returned, and `items_count` equal to their number |
| OrderTracking.UserOrdersComplete | ecommerce_ai_agents/agents/order_tracking.py:41-82 | with every date parsed and every item query answered, there is one record per purchase |
| OrderTracking.AwareDateEmptiesOrders | ecommerce_ai_agents/agents/order_tracking.py:58-89 | as written, one purchase date with a zone designator empties the whole list |
| OrderTracking.AwareDateExample | ecommerce_ai_agents/agents/order_tracking.py:58-61 | a concrete database on which the as-written list is empty and the corrected one has one order |
| OrderTracking.ItemTexts | ecommerce_ai_agents/agents/order_tracking.py:102 | one text per item |
| OrderTracking.OrderContextSpec | ecommerce_ai_agents/agents/order_tracking.py:96-104 | the context is "No orders found for this user." exactly when there are no orders, and otherwise starts with the header |
| OrderTracking.OrderContextAppend | ecommerce_ai_agents/agents/order_tracking.py:99-102 | one more order appends its numbered entry |
| OrderTracking.BuildOrderContext | ecommerce_ai_agents/agents/order_tracking.py:96-104 | the `+=` loop builds exactly `OrderContext` |
| OrderTracking.EntriesStep | ecommerce_ai_agents/agents/order_tracking.py:99-102 | one loop step appends the entry numbered by its position |
| OrderTracking.Process | ecommerce_ai_agents/agents/order_tracking.py:91-130 | the reply carries the orders, the model's answer for the message and context, agent type "order_tracking" and the two fixed actions, and no other key |
| CustomerSupport.FirstMatch | ecommerce_ai_agents/agents/customer_support.py:29-32 | the position found matches and no earlier one does; none only when nothing matches |
| CustomerSupport.SearchFaqSpec | ecommerce_ai_agents/agents/customer_support.py:23-32 | the answer of the first FAQ whose lower-cased question contains the lower-cased query is returned |
| CustomerSupport.SearchFaqNone | ecommerce_ai_agents/agents/customer_support.py:25-32 | None exactly when no question contains the query, an empty list included |
| CustomerSupport.EmptyQueryGivesFirstAnswer | ecommerce_ai_agents/agents/customer_support.py:28-31 | an empty query yields the first answer |
| CustomerSupport.SupportPromptSpec | ecommerce_ai_agents/agents/customer_support.py:39-44 | a truthy answer is quoted in the prompt right after the request |
| CustomerSupport.Process | ecommerce_ai_agents/agents/customer_support.py:34-51 | the reply carries the model's answer to that prompt, the three fixed actions and agent type "customer_support", and no other key |
| CartPage.SumAppend | client/src/pages/cart.tsx:117-122 | the subtotal of two parts is the sum of their subtotals |
| CartPage.SumNonNegative | client/src/pages/cart.tsx:117-122 | rows with non-negative prices and quantities give a non-negative subtotal |
| CartPage.Shipping | client/src/pages/cart.tsx:125 | shipping is free exactly above 50, else 9.99 |
| CartPage.OrderSummary | client/src/pages/cart.tsx:117-127 | tax is 8% of the subtotal and total = subtotal + shipping + tax |
| CartPage.SummaryEdges | client/src/pages/cart.tsx:117-127 | an empty or unloaded cart costs 9.99, and a subtotal of exactly 50 still pays shipping |
| CartPage.QuantityChange | client/src/pages/cart.tsx:89-94 | a PATCH with the new quantity is sent exactly when it is at least 1 |
| CartPage.CategoryName | client/src/pages/cart.tsx:29-33 | "Uncategorized" for a falsy id or unloaded categories, the name when found, "Category #id" otherwise |
| CartPage.CategoryNameFirst | client/src/pages/cart.tsx:31-32 | the first category with the id gives the name |
| CartPage.FindCategoryFirst | client/src/pages/cart.tsx:31 | `find` returns the first category with the id |
| Forms.Rule | client/src/pages/account.tsx:43-70 | a rule adds one issue on its path exactly when it fails |
| Forms.StrongPasswordIssues | client/src/pages/account.tsx:57-64 | no issue exactly with at least 8 characters, a digit and a character outside [a-zA-Z0-9], each failure reported on its own |
| Forms.StrongPasswordIsLongEnough | client/src/components/modals/auth-modal.tsx:24-33 | a strong password meets the 6-character rule |
| Forms.WeakPasswords | client/src/pages/account.tsx:60-64 | no password made only of letters and digits, and none without a digit, is strong |
| Forms.StrongPasswordHasTwoKinds | client/src/pages/account.tsx:60-64 | a strong password has a digit and, at another position, a special character |
| Account.ProfileIssues | client/src/pages/account.tsx:43-52 | no issue exactly when both names and the email are non-empty and the email is email-shaped; each rule reports on its own path |
| Account.PasswordIssues | client/src/pages/account.tsx:54-70 | no issue exactly when the current password has 6 characters, the new one is strong, the confirmation has 8 and matches; the mismatch is reported on confirmPassword |
| Account.NewPasswordIssues | client/src/pages/account.tsx:57-70 | the issues on newPassword are exactly those of the strong-password rule |
| Account.MatchingConfirmation | client/src/pages/account.tsx:65-70 | with matching passwords, the confirmation adds nothing to the new-password rule |
| Account.PasswordRequestOf | client/src/pages/account.tsx:175-181 | the request carries the current and new passwords |
| Account.PasswordRequestIgnoresConfirmation | client/src/pages/account.tsx:177-180 | the request does not depend on the confirmation |
| Account.ProfileValues | client/src/pages/account.tsx:129-140 | a missing string loads as "", a falsy age, gender or segment as null, and there are no values without a user |
| Account.ProfileBodyOf | client/src/pages/account.tsx:154-157 | the PATCH body carries the form's names, email and location |
| Account.ProfileFormTouchesColumns | client/src/pages/account.tsx:154-157 | a submitted profile form always defines a column, so the server's update never builds an empty SET list |
| AuthModal.LoginIssues | client/src/components/modals/auth-modal.tsx:22-26 | no issue exactly with an email-shaped email and a password of at least 6 characters |
| AuthModal.ParseLogin | client/src/components/modals/auth-modal.tsx:22-26 | a valid form parses to the same email and password, with rememberMe true only when given true |
| AuthModal.RegisterIssues | client/src/components/modals/auth-modal.tsx:28-39 | no issue exactly with non-empty names, an email-shaped email, a strong password and terms true |
| AuthModal.UsernameSpec | client/src/components/modals/auth-modal.tsx:88 | the username is each name lower-cased around one dot, and is already lower-case |
| AuthModal.RegisterFlow | client/src/components/modals/auth-modal.tsx:85-115 | register first; the login with the same email and password follows only if it succeeds; success only when both succeed |
| AuthModal.AutoLoginIsValidLogin | client/src/components/modals/auth-modal.tsx:85-106 | the automatic login after a valid registration passes the login rules |
| ProductDetail.LastSegment | client/src/pages/product-detail.tsx:23 | the slug is the suffix after the last "/", or the whole location |
| ProductDetail.LastSegmentAfterSlash | client/src/pages/product-detail.tsx:23 | a segment without "/" is read back whole after any prefix and "/" |
| ProductDetail.SlugRoundTrip | client/src/pages/product-detail.tsx:23 | the slug the chat widget links to is read back by the product page when the name has no "/" |
| ProductDetail.DashRunsKeepsOut | client/src/components/widgets/chat-widget.tsx:288 | the replacement introduces no character other than a dash |
| ProductDetail.NextQuantity | client/src/pages/product-detail.tsx:29-34 | a change applies exactly when it leaves at least 1 |
| ProductDetail.QuantityStaysPositive | client/src/pages/product-detail.tsx:18-34 | from 1, no series of clicks brings the quantity below 1 |
| ProductDetail.MinusButton | client/src/pages/product-detail.tsx:241-242 | an enabled minus lowers the quantity by one; at 1 it is disabled |
| ProductDetail.AddToCartBody | client/src/pages/product-detail.tsx:41-44 | the body carries the product id and the quantity |
| ProductDetail.AddToCartStoresQuantity | client/src/pages/product-detail.tsx:41-44 | the server stores exactly the quantity chosen on the page |
| ProductDetail.Page.constructor | client/src/pages/product-detail.tsx:18-19 | the page starts with quantity 1, no product and a free button |
| ProductDetail.Page.Slug | client/src/pages/product-detail.tsx:23 | the slug has no "/" |
| ProductDetail.Page.Loaded | client/src/pages/product-detail.tsx:25-27 | loading sets only the product |
| ProductDetail.Page.HandleQuantityChange | client/src/pages/product-detail.tsx:29-34 | the quantity becomes `NextQuantity` and stays at least 1 |
| ProductDetail.Page.HandleAddToCart | client/src/pages/product-detail.tsx:36-60 | nothing without a product; else the body is sent, the button is busy meanwhile and free afterwards |
| Pricing.Round | client/src/pages/product-detail.tsx:223 | `Math.round` gives the integer within half of its argument, halves up |
| Pricing.RoundProperties | client/src/pages/product-detail.tsx:223 | rounding keeps integers and is monotone |
| Pricing.Discount | client/src/components/ui/product-card.tsx:84-86 | no discount exactly without a truthy old price, else the rounded percentage |
| Pricing.DiscountBounds | client/src/components/ui/product-card.tsx:84-122 | a sale price within [0, old price] gives 0..100; the badge shows exactly when the price is at most 99.5% of the old price; never when the price is not lower |
| Pricing.Stars | client/src/pages/product-detail.tsx:193-204 | five stars for a truthy rating, none otherwise; star i is filled exactly when i < round(rating) |
| Pricing.StarsSpec | client/src/pages/product-detail.tsx:195-202 | the filled stars come first, their number is the rounded rating clamped to 0..5 |
| ProductCard.CategoryLabel | client/src/components/ui/product-card.tsx:178 | the category name if present, else "Category #id" for a set id, else "Uncategorized" |
| ProductCard.WishlistRequestFor | client/src/components/ui/product-card.tsx:58-67 | DELETE with the product id when in the wishlist, POST with the product id otherwise |
| ProductCard.WishlistFlagAfter | client/src/components/ui/product-card.tsx:72-80 | the flag flips only after success |
| ProductCard.WishlistToggleTwice | client/src/components/ui/product-card.tsx:58-80 | two successful clicks restore the flag; after a failure the next click repeats the same request |
| ProductCard.CardDeleteMissesRow | client/src/components/ui/product-card.tsx:60 | the DELETE names a product id where the route wants a row id: when no row of the user has that id, the route answers 404 and the card keeps its flag |
| ProductCard.IntendedWishlistRequest | client/src/components/ui/product-card.tsx:58-67 | corrected request: POST with the product id when not in the wishlist; when in it, a request exactly when the user has a row for the product |
| ProductCard.IntendedDeleteRemovesProduct | client/src/components/ui/product-card.tsx:58-60 | the corrected DELETE names a row the route lets the user remove, and afterwards the user has no row for the product |
| ProductCard.AddToCartBody | client/src/components/ui/product-card.tsx:37 | the body has only the product id, so the server stores 1 or adds 1 |
| ProductCard.Card.constructor | client/src/components/ui/product-card.tsx:27-28 | a card starts not in the wishlist and not busy |
| ProductCard.Card.HandleToggleWishlist | client/src/components/ui/product-card.tsx:54-81 | the request is the one for the old flag, and the flag becomes `WishlistFlagAfter` |
| ProductCard.Card.HandleAddToCart | client/src/components/ui/product-card.tsx:31-51 | busy during the call and free afterwards, whatever its outcome |

## Left out

- Rendering, styling, toasts, focus and scroll handling, skeletons, and the layout-only components and pages are not modelled.
- Network transport is not modelled: `fetch`, `apiRequest`, react-query caching and invalidation, Express sessions and Flask. Request outcomes are inputs. The session is an optional user id, and status codes are return values.
- A handler is one atomic step. Interleavings of concurrent requests inside one handler's awaits are not modelled.
- Whether the listing page's query-key fields reach the server as query parameters depends on a client module that is not part of this model, so the two are not connected.
- SQL and the database drivers are not modelled; tables are sequences of rows. `search_products` in the product agent (its `LIKE` query and `LIMIT 5`) is not modelled: the products it finds are an input to `ProductRecommendation.Process`, and only its category-name lookup is modelled (`ProductRecommendation.CategoryName`). `setup_database` and the test-data generator are not modelled.
- The language model (`get_completion`, its system prompt and retry loop) is a function parameter. So is email validity (Zod's `email()`). Password hashing and the register and password-change routes are not modelled.
- Time: the 500 ms `setTimeout` is the event `ChatWidget.Widget.FireTimer`, and `datetime.now` is a parameter. Date parsing yields a naive or zone-aware time in seconds or no time at all; date and money formatting (`strftime`, `:.2f`, `toFixed`, `toLocaleDateString`) are parameters or not modelled.
- Floating point: money and ratings are exact `real`s. `Pricing.Round` rounds halves up on exact reals, which ignores binary double rounding in `Math.round`.
- Routes.UpdateCartQuantity, Routes.CartBody: request quantities are integers. The PATCH route's `z.number().min(1)` also accepts a fraction such as 1.5, which it stores and which `/api/cart/count` then sums. The model cannot represent that input, so its "400 exactly below 1" is stated over integers only.
- Character classes are ASCII. Case mapping maps only A-Z. Python's `isdigit`, `\d`, `\w`, `\s` and `str.split`, and JavaScript's `\s` and `trim`, are modelled on their ASCII members plus the whitespace characters listed in `Text`. Unicode digits and letters are not covered. String lengths are counted in code points, while Zod's `min` counts UTF-16 code units, so a character outside the Basic Multilingual Plane counts once here and twice in the forms (`Forms`, `Account`, `AuthModal`).
- Storage methods the routes above do not use (user creation, categories and products creation, preference writes, the `GET` list routes) are not modelled.
- ChatWidget.ResolveUserIdCases: states the authenticated case for positive ids and for a missing or 0 id; a negative id, which the database never hands out, is left unstated.
- OrderTracking.Process, ChatService.GetOrders (and through them `ChatService.Dispatch` and `ChatService.ChatEndpoint`): built on the corrected `OrderTracking.UserOrders`, so a user with a zone-aware purchase date gets their orders here, while the code as written returns none for that user (the order-tracking finding below, `OrderTracking.AwareDateEmptiesOrders`).
- Listing.DisplayedSpec: states membership, multiplicity and, for a non-key, order; the order for a sort key follows from `Catalog.OrderBySpec` and is not restated.

## Findings

| source | as written | input that shows it | evidently intended | confidence | as-written member | corrected member |
|---|---|---|---|---|---|---|
| ecommerce_ai_agents/agents/order_tracking.py:58-61, 87-89 | `fromisoformat` turns a stored date ending in "Z" (or with any UTC offset) into a zone-aware time; subtracting it from the naive `datetime.now()` raises `TypeError`; the `except` returns `[]` for the whole user | one purchase with `purchase_date` "2024-03-01T10:15:00Z" and no items: the order list is empty | every purchase becomes an order record, and an aware date is compared on the same clock | not executed | OrderTracking.UserOrdersAsWritten, OrderTracking.AwareDateEmptiesOrders, OrderTracking.AwareDateExample | OrderTracking.UserOrders, OrderTracking.GetUserOrders, OrderTracking.UserOrdersComplete |
| client/src/components/ui/product-card.tsx:60 | the wishlist toggle sends `DELETE /api/wishlist/<product id>`, while the route reads the path id as a wishlist row id | user 3 has wishlist row 5 for product 12 and no row with id 12: the card sends `DELETE /api/wishlist/12`, the route answers 404, the row stays and the heart stays filled | delete the user's row for that product | not executed | ProductCard.WishlistRequestFor, ProductCard.CardDeleteMissesRow | ProductCard.IntendedWishlistRequest, ProductCard.IntendedDeleteRemovesProduct |
