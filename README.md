# Fakta Kucing — a verified model of the client-side logic

Fakta Kucing is a Next.js site with two halves. One half is cat facts: an
explore page that loads facts from the MeowFacts service, a favourites page,
an axolotl "live data" demo card and a contribution page. The other half is a
small eco-products shop: a persisted cart, a product list and a search page
with facet filters, a three-step checkout that can be saved and resumed within
24 hours, and a confirmation page. There is also a registration page, a
profile page with achievements and a profile edit form.

This project models the state logic behind those pages in Dafny and proves
what the pages promise:

- The cart's running total stays equal to Σ price × quantity for integer
  prices, and its ids stay unique.
- The checkout steps move only along their edges. A save followed by a resume
  restores the session exactly. A record is resumable only while it is less
  than 24 hours old. The card fields are demanded whenever the card tab is on
  screen, and that tab is shown again on every entry into the payment step.
- The favourite ids and the stored fact records stay in step under every
  toggle and removal: no id is listed twice, and each id has exactly one
  record. Toggling on and then off restores both lists.
- The facet panel's badge row always mirrors the selected categories,
  materials and price range. Filters keep the catalogue's order, and the price
  sorts are sorted, stable permutations.
- The contribution list, the profile form's validation, the registration
  guards and the profile's edit/save/cancel cycle behave as the handlers say.

Each page's state is a `class` whose methods are the page's handlers. The
browser's `localStorage` is a shared `Records.Store` object holding a map from
keys to parsed values. Values the handlers compute are functions, and the
lemmas relate them.

| file | models |
|---|---|
| common.dfy | `Array.filter`, membership toggles, sub-sequences, substring search, lower-casing, `trim`, number-to-text |
| records.dfy | stored record shapes, the storage object, the 24-hour freshness rule; the product record |
| cart.dfy, cart_item.dfy | the cart store and its line-item buttons |
| pricing.dfy | subtotal, shipping, tax and total on the three checkout pages; the order number |
| checkout_process.dfy, checkout_page.dfy, saved_checkouts.dfy, confirmation.dfy | the checkout wizards, the saved-checkout banner and card, the confirmation page |
| favorite_lists.dfy, explore.dfy, favorites.dfy, axolotl.dfy | the favourites keys and the three pages that write or read them |
| facets.dfy, search.dfy | the products page's facet panel, filter and price sorts; the search page |
| contribute.dfy, edit_profile.dfy, register.dfy, profile.dfy | the contribution list, the profile form, registration, the profile page |

## Model

| member | source | states |
|---|---|---|
| Common.Filter | app/favorites/page.tsx:111 | the result keeps exactly the elements satisfying the predicate and is no longer than the input |
| Common.Toggle | app/products/page.tsx:26-28 | a present value is removed everywhere; an absent value is appended at the end; no other element appears or disappears |
| Common.FilterIsSubseq | app/products/page.tsx:101-112 | a filter result is an order-preserving sub-sequence of its input |
| Common.ToggleRoundTrip | components/axolotl-demo.tsx:147 | toggling an absent value on and then off restores the list exactly |
| Common.ToggleKeepsNoDup | app/products/page.tsx:24-58 | a toggle never creates a duplicate in a duplicate-free list |
| Common.FilterCommutes | app/favorites/page.tsx:99-126 | two filters give the same list in either order |
| Common.FilterNarrows | app/search/page.tsx:122-149 | filtering by a stronger predicate after a weaker one is filtering by the stronger one |
| Common.FilterKeepsNoDup | app/products/page.tsx:26-31 | filtering keeps a list duplicate-free |
| Common.IncludesIff | app/explore/page.tsx:297 | `includes` holds iff the term occurs at some position |
| Common.Lower | app/explore/page.tsx:297 | lower-casing keeps the length, leaves no capital letter, turns each capital into its small letter and keeps every other character |
| Common.NatToString | components/axolotl-demo.tsx:146 | the decimal text is non-empty, all digits, one digit iff the number is below 10 |
| Common.IntToString | app/products/page.tsx:67 | a template literal renders a number as a non-empty text of digits, led by `-` exactly when the number is negative |
| Common.IntToStringInjective | app/products/page.tsx:67 | different numbers render as different texts |
| Common.NatToStringInjective | components/axolotl-demo.tsx:146 | different numbers render as different texts |
| Common.TrimEmptyIffBlank | components/edit-profile-form.tsx:60-65 | `trim()` gives the empty string iff every character is white space |
| Records.Store.SetItem | app/checkout/process/page.tsx:56 | `setItem` replaces the key's value and leaves every other key alone |
| Records.Store.RemoveItem | app/checkout/process/page.tsx:91 | `removeItem` drops the key and leaves every other key alone |
| Records.StoredIds | app/favorites/page.tsx:91-97 | an id list is read iff the favourites key holds a readable list |
| Records.StoredFacts | app/favorites/page.tsx:92-97 | a fact list is read iff the facts key holds a readable list |
| Records.InspectSaved | app/checkout/process/page.tsx:95-114 | nothing saved, unreadable, resumable (readable and younger than 24 h) or expired, each exactly in its case |
| Records.AfterMountCheck | app/checkout/process/page.tsx:105-110 | the mount check removes the record iff it is readable and expired, and touches nothing else |
| Records.MountCheckSettles | app/profile/saved-checkouts.tsx:27-33 | after one mount check nothing is expired, a second check changes nothing, and every other key stays present or absent as before |
| Records.FreshnessBoundary | app/checkout/process/page.tsx:105 | a record exactly 24 h old is stale, one a millisecond younger is fresh, one 25 h old is stale |
| Records.StaleStaysStale | app/profile/saved-checkouts.tsx:27 | once stale, a record stays stale as time goes on |
| Cart.Find | hooks/use-cart.tsx:23 | `find` returns the first line carrying the id, and none iff no line carries it |
| Cart.Bump | hooks/use-cart.tsx:28-30 | every line with the id gains one unit; the others are unchanged |
| Cart.SetQuantity | hooks/use-cart.tsx:60 | every line with the id gets the new quantity; the others are unchanged |
| Cart.AddLines | hooks/use-cart.tsx:21-40 | a present id keeps the line count; an absent id appends one line of quantity 1 at the end |
| Cart.FindUnique | hooks/use-cart.tsx:23 | with unique ids, `find` returns the line's own index |
| Cart.SetQuantityIsUpdate | hooks/use-cart.tsx:60 | with unique ids, `updateQuantity`'s map changes exactly one position |
| Cart.BumpIsUpdate | hooks/use-cart.tsx:28-30 | with unique ids, `addItem`'s map changes exactly one position |
| Cart.TotalAfterSet | hooks/use-cart.tsx:57-61 | changing one line's quantity moves Σ price × quantity by (new − old) × price |
| Cart.WithoutIdIsDelete | hooks/use-cart.tsx:47 | with unique ids, removing by id deletes exactly that line's position |
| Cart.WithoutIdRemovesId | hooks/use-cart.tsx:47 | no line with the removed id remains |
| Cart.AbsentIdChangesNothing | hooks/use-cart.tsx:41-64 | for an absent id, the remove filter and the quantity map leave the lines unchanged |
| Cart.DeleteKeepsUnique | hooks/use-cart.tsx:47 | deleting a line keeps ids unique |
| Cart.DeleteTotal | hooks/use-cart.tsx:48 | deleting a line lowers Σ price × quantity by that line's cost |
| Cart.AddExistingTotal | hooks/use-cart.tsx:25-32 | adding a present product raises Σ by the stored line's price and keeps ids unique |
| Cart.AddNewTotal | hooks/use-cart.tsx:36-39 | adding an absent product raises Σ by its price and keeps ids unique |
| Cart.AddKeepsInvariant | hooks/use-cart.tsx:21-40 | when every stored line with the product's id has the passed price, `addItem` keeps ids unique and Σ in step with the running total |
| Cart.AddWithStalePriceDrifts | hooks/use-cart.tsx:31 | for a present product, the running total stays equal to Σ iff the stored price equals the passed price |
| Cart.RemoveKeepsInvariant | hooks/use-cart.tsx:41-51 | `removeItem` keeps ids unique and lowers Σ by the line's cost |
| Cart.UpdateKeepsInvariant | hooks/use-cart.tsx:52-64 | `updateQuantity` keeps ids unique and moves Σ by the price difference |
| Cart.BumpKeepsOthers | hooks/use-cart.tsx:28-30 | lines with other ids keep their values and relative order under `addItem` |
| Cart.SetQuantityKeepsOthers | hooks/use-cart.tsx:60 | lines with other ids keep their values and relative order under `updateQuantity` |
| Cart.RemoveKeepsOthers | hooks/use-cart.tsx:47 | lines with other ids keep their values and relative order under `removeItem` |
| Cart.AddTwiceOnEmpty | hooks/use-cart.tsx:21-40 | two `addItem`s on an empty cart give one line of quantity 2 and total 2 × price |
| Cart.CartStore.constructor | hooks/use-cart.tsx:19-20 | the cart starts empty with total 0 and valid |
| Cart.CartStore.AddItem | hooks/use-cart.tsx:21-40 | the new lines; the total grows by the passed price; validity is kept when the stored price is current |
| Cart.CartStore.RemoveItem | hooks/use-cart.tsx:41-51 | an absent id changes nothing; otherwise the line is filtered out and its cost subtracted; validity is kept |
| Cart.CartStore.UpdateQuantity | hooks/use-cart.tsx:52-64 | an absent id changes nothing; otherwise the quantity is set with no lower bound and the difference added; validity is kept |
| Cart.CartStore.ClearCart | hooks/use-cart.tsx:65 | no lines, total 0, valid |
| CartItemView.HandleRemove | components/cart-item.tsx:17-19 | the line is removed whatever its quantity, and validity is kept |
| CartItemView.HandleIncreaseQuantity | components/cart-item.tsx:21-23 | the quantity becomes q + 1; validity and positive quantities are kept |
| CartItemView.HandleDecreaseQuantity | components/cart-item.tsx:25-31 | q > 1 decrements and q ≤ 1 removes; validity and positive quantities are kept; the line survives iff q > 1 |
| CartItemView.DecreaseKeepsPositive | components/cart-item.tsx:25-31 | decrease never leaves a zero or negative quantity, and keeps the line iff q > 1 |
| CartItemView.IncreaseKeepsPositive | components/cart-item.tsx:21-23 | increase keeps all quantities positive and the line present |
| CartItemView.IncreaseThenDecreaseRestores | components/cart-item.tsx:21-27 | increase followed by decrease on the same line restores the lines exactly |
| Pricing.ReduceIsSum | app/checkout/process/page.tsx:135 | the `reduce` with a starting sum equals that sum plus Σ price × quantity |
| Pricing.ShippingCost | app/checkout/process/page.tsx:136 | 129990 iff the method is "express", 59990 otherwise |
| Pricing.DisplayAgreesWithCharge | app/checkout/process/page.tsx:754 | the review display and the charged shipping agree iff the method is "standard" or "express" |
| Pricing.SummaryFor | app/checkout/process/page.tsx:135-138 | subtotal is Σ, tax × 100 = subtotal × 11 exactly, total = subtotal + shipping + tax |
| Pricing.CheckoutSummary | app/checkout/page.tsx:57-60 | the checkout pages' summary uses the method's shipping cost |
| Pricing.ConfirmationSummary | app/checkout/confirmation/page.tsx:49-52 | the confirmation summary always charges 59990 shipping |
| Pricing.SampleCartSummary | app/checkout/process/page.tsx:118-138 | the built-in cart gives subtotal 699970, tax 76996.7 and total 836956.7 with standard shipping |
| Pricing.ExpressOnlyChangesShipping | app/checkout/page.tsx:58-60 | switching to express changes neither subtotal nor tax and raises the total by 70000 |
| Pricing.ConfirmationMatchesStandard | app/checkout/confirmation/page.tsx:49-52 | the confirmation summary equals the checkout summary for standard shipping |
| Pricing.OrderNumber | app/checkout/confirmation/page.tsx:14 | for r in [0, 1) the order number lies in [100000, 999999] |
| Confirmation.OrderLabel | app/checkout/confirmation/page.tsx:14 | the label is "AC-" followed by exactly six digits, which are the order number written out |
| Confirmation.OrderLabelInjective | app/checkout/confirmation/page.tsx:14 | the label determines the order number |
| Confirmation.ConfirmationSample | app/checkout/confirmation/page.tsx:32-52 | the confirmation's item list gives the same subtotal 699970 and total 836956.7 as the process page's cart |
| Confirmation.ConfirmationPage.OnMount | app/checkout/confirmation/page.tsx:55-57 | mounting removes the saved checkout and no other key |
| Confirmation.ConfirmationPage.MountTwice | app/checkout/confirmation/page.tsx:55-57 | mounting twice leaves the same storage as mounting once |
| CheckoutProcess.ToRecord | app/checkout/process/page.tsx:47-56 | the saved record carries the save time |
| CheckoutProcess.RecordRoundTrip | app/checkout/process/page.tsx:47-82 | reading back a saved record gives the session exactly, and re-saving it gives the same record |
| CheckoutProcess.SavedIsResumable | app/checkout/process/page.tsx:95-106 | a record saved less than 24 h ago is found resumable and restores the session |
| CheckoutProcess.StepIndexInjective | app/checkout/process/page.tsx:236-299 | each position of the progress bar belongs to one step, so one step forward or back pins the step reached |
| CheckoutProcess.InitialFormsIncomplete | app/checkout/process/page.tsx:24-44 | the empty shipping form and the empty card form fail the `required` check; bank transfer needs no card fields |
| CheckoutProcess.ProcessPage.constructor | app/checkout/process/page.tsx:20-44 | the shipping step, no processing, no banner, empty forms, credit card and standard shipping, the card tab on screen |
| CheckoutProcess.ProcessPage.CheckSavedOnMount | app/checkout/process/page.tsx:95-115 | storage becomes the mount check's result; a resumable record raises the banner, otherwise it keeps its state; the session is untouched |
| CheckoutProcess.ProcessPage.Save | app/checkout/process/page.tsx:47-61 | the slot holds exactly the current session stamped with the save time |
| CheckoutProcess.ProcessPage.Resume | app/checkout/process/page.tsx:64-87 | a checkout record restores the session, and the card tab is shown when this enters the payment step; any readable value is removed and the banner hidden; a missing or unreadable one changes nothing |
| CheckoutProcess.ProcessPage.SaveThenResume | app/checkout/process/page.tsx:47-87 | save followed by resume leaves the session unchanged, the slot empty and the banner hidden |
| CheckoutProcess.ProcessPage.Dismiss | app/checkout/process/page.tsx:90-93 | the slot is removed and the banner hidden; the session is untouched |
| CheckoutProcess.ProcessPage.ShippingInput | app/checkout/process/page.tsx:140-143 | only the named shipping field changes, and it reads back the typed value |
| CheckoutProcess.ProcessPage.SelectShippingMethod | app/checkout/process/page.tsx:430-433 | the chosen radio item becomes the shipping method; nothing else changes |
| CheckoutProcess.ProcessPage.SubmitShipping | app/checkout/process/page.tsx:150-154 | a complete shipping form moves to payment with the card tab on screen; an incomplete one stays; at most one step forward |
| CheckoutProcess.ProcessPage.CardInput | app/checkout/process/page.tsx:145-148 | only the named card field changes, and it reads back the typed value |
| CheckoutProcess.ProcessPage.SelectTab | app/checkout/process/page.tsx:494 | a chosen tab is both the tab on screen and the payment method |
| CheckoutProcess.ProcessPage.SubmitPayment | app/checkout/process/page.tsx:156-160 | the payment form moves to review iff the card fields are filled or a tab other than the card tab is on screen; otherwise the step stays |
| CheckoutProcess.ProcessPage.BackToShipping | app/checkout/process/page.tsx:658 | payment goes back exactly one step to shipping; nothing else changes |
| CheckoutProcess.ProcessPage.BackToPayment | app/checkout/process/page.tsx:820 | review goes back exactly one step to payment, with the card tab on screen again; the session is otherwise unchanged |
| CheckoutProcess.ProcessPage.SubmitReview | app/checkout/process/page.tsx:162-164 | processing starts; the session is unchanged |
| CheckoutProcess.ProcessPage.CompleteProcessing | app/checkout/process/page.tsx:167-170 | processing ends at the confirmation step; the saved slot is not touched |
| CheckoutProcess.ProcessPage.ReentryDemandsCard | app/checkout/process/page.tsx:478-546 | after E-Wallet is chosen and the visitor comes back from the review, the card tab is on screen, so empty card fields block the submit of an E-Wallet order |
| CheckoutPage.ReviewAddress | app/checkout/page.tsx:464-472 | four lines, the last being the country |
| CheckoutPage.ReviewShowsEnteredValues | app/checkout/page.tsx:464-472 | a completely filled form is shown exactly as entered |
| CheckoutPage.EmptyFormShowsPlaceholders | app/checkout/page.tsx:465-470 | an empty form shows "John Doe", "123 Eco Street", "Green Valley, West Java 12345" |
| CheckoutPage.PaymentLabel | app/checkout/page.tsx:478-482 | credit-card ↔ "Kartu Kredit / Debit", bank-transfer ↔ "Transfer Bank", anything else ↔ "E-Wallet" |
| CheckoutPage.CheckoutPageState.constructor | app/checkout/page.tsx:18-36 | the shipping step with empty fields, country Indonesia, standard shipping and credit card |
| CheckoutPage.CheckoutPageState.ShippingInput | app/checkout/page.tsx:63-66 | the typed field reads back the value, every other field and the rest of the state are kept |
| CheckoutPage.CheckoutPageState.SelectShippingMethod | app/checkout/page.tsx:291-294 | only the shipping method changes, to "standard" or "express" |
| CheckoutPage.CheckoutPageState.SelectPaymentMethod | app/checkout/page.tsx:337 | only the payment method changes, to one of the three items |
| CheckoutPage.CheckoutPageState.FillAndPayByTransfer | app/checkout/page.tsx:63-79 | filling the eight inputs and choosing a bank transfer reaches the review step |
| CheckoutPage.CheckoutPageState.SubmitShipping | app/checkout/page.tsx:69-73 | a complete form moves to payment, otherwise the step stays |
| CheckoutPage.CheckoutPageState.SubmitPayment | app/checkout/page.tsx:75-79 | non-card methods, or filled card fields, move to review |
| CheckoutPage.CheckoutPageState.BackToShipping | app/checkout/page.tsx:415 | payment goes back to shipping |
| CheckoutPage.CheckoutPageState.BackToPayment | app/checkout/page.tsx:522 | review goes back to payment |
| CheckoutPage.CheckoutPageState.PlaceOrder | app/checkout/page.tsx:81-83 | processing starts and the step stays |
| CheckoutPage.CheckoutPageState.CompletePlaceOrder | app/checkout/page.tsx:86-93 | processing ends and the visitor is sent home |
| SavedCheckouts.StepLabel | app/profile/saved-checkouts.tsx:77-83 | each step has its own Indonesian label, both ways |
| SavedCheckouts.StepLabelInjective | app/profile/saved-checkouts.tsx:77-83 | different steps never share a label |
| SavedCheckouts.SavedCheckoutsCard.CheckOnMount | app/profile/saved-checkouts.tsx:17-38 | storage becomes the mount check's result; a resumable record is shown, and otherwise the card keeps its state |
| SavedCheckouts.SavedCheckoutsCard.Continue | app/profile/saved-checkouts.tsx:40-42 | continuing only navigates to the checkout process and leaves storage alone |
| SavedCheckouts.SavedCheckoutsCard.Clear | app/profile/saved-checkouts.tsx:44-53 | the record is removed and the card renders nothing |
| FavoriteLists.WithoutFact | app/favorites/page.tsx:115 | no record with the id remains |
| FavoriteLists.StoredFactsRoundTrip | app/explore/page.tsx:343-354 | the records a toggle writes are what the next toggle reads; writing another key does not change that reading; no records key reads as none |
| FavoriteLists.ExploreToggleRoundTrip | app/explore/page.tsx:317-368 | for an id in neither list, toggling on and off restores the ids and the records exactly |
| FavoriteLists.AxolotlToggleRoundTrip | components/axolotl-demo.tsx:145-194 | for an id in neither list, toggling on and off restores the ids and the records exactly |
| FavoriteLists.AxolotlToggleRecords | components/axolotl-demo.tsx:175-185 | after adding there is exactly one record with the id and it is last; after removing there is none; other records keep their order |
| FavoriteLists.ExploreAddRecords | app/explore/page.tsx:355-360 | adding pushes the record only when no record with its id exists |
| FavoriteLists.SyncedAfterRemove | app/favorites/page.tsx:111-131 | removing an id from both lists keeps them in step: ids without duplicates, every record with a favourite id, exactly one record per id |
| FavoriteLists.ExploreToggleKeepsSync | app/explore/page.tsx:317-368 | the explore toggle keeps the lists in step: ids without duplicates, every record with a favourite id, exactly one record per id |
| FavoriteLists.AxolotlToggleKeepsSync | components/axolotl-demo.tsx:145-194 | the demo card's toggle keeps the lists in step: ids without duplicates, every record with a favourite id, exactly one record per id |
| FavoriteLists.Reconcile | app/favorites/page.tsx:101 | a record is shown iff it is stored and its id is a favourite |
| FavoriteLists.ReconcileProperties | app/favorites/page.tsx:101 | the shown records keep the stored order, and lists in step are shown whole |
| Explore.FilteredFacts | app/explore/page.tsx:292-315 | a fact is shown iff it is loaded and passes both the search and the category |
| Explore.FilteredIsSubseq | app/explore/page.tsx:292-315 | the shown facts keep the loaded order |
| Explore.UnrestrictedShowsAll | app/explore/page.tsx:293-303 | an empty search with "Semua" shows every fact |
| Explore.SearchIsSubstring | app/explore/page.tsx:294-301 | a fact passes iff the lower-cased term occurs in its lower-cased text, animal, name or breed |
| Explore.ApiFact | app/explore/page.tsx:157-170 | the `i`-th service fact keeps the service's text, gets the id `api-meow-i-now`, source "api" and category "Mamalia" |
| Explore.FallbackFact | app/explore/page.tsx:186-264 | the `k`-th fixed fact carries its own text, the `k`-th cat's name, source "fallback" and category "Mamalia" |
| Explore.ExploreLoad | app/explore/page.tsx:153-276 | a non-empty `data` array yields service facts with status success; anything else yields the six fallback facts with status error |
| Explore.ApiFactIdsDistinct | app/explore/page.tsx:157 | facts at different positions get different ids |
| Explore.LoadedFactsShape | app/explore/page.tsx:155-264 | service facts carry source "api" and their own text; fallback facts carry source "fallback"; all are "Mamalia" |
| Explore.ApiFactDefaults | app/explore/page.tsx:158-169 | positions past the six known cats get "Cat", "Cat n", "Mixed" and "available" |
| Explore.StatusText | app/explore/page.tsx:376-380 | each of the three badge texts appears exactly in its own state: loading, loaded from the service, offline |
| Explore.ExplorePage.constructor | app/explore/page.tsx:109-115 | no facts, empty search, "Semua", loading, no favourites |
| Explore.ExplorePage.LoadFavorites | app/explore/page.tsx:119-131 | a stored list becomes the favourites; an unreadable one gives none; no key keeps them |
| Explore.ExplorePage.StartFetch | app/explore/page.tsx:134-135 | loading with status loading |
| Explore.ExplorePage.CompleteFetch | app/explore/page.tsx:153-283 | the facts and status are the load's outcome and loading ends |
| Explore.ExplorePage.SetSearchTerm | app/explore/page.tsx:468 | the term reads back and the shown facts are filtered by it; the rest of the page is kept |
| Explore.ExplorePage.SelectCategory | app/explore/page.tsx:474 | the category, one of the select's five items, reads back; the rest of the page is kept |
| Explore.ExplorePage.ResetFilters | app/explore/page.tsx:533-536 | empty term and "Semua", so every loaded fact is shown again |
| Explore.ExplorePage.ToggleFavorite | app/explore/page.tsx:317-368 | ids toggle, both keys are rewritten as the handler builds them, and lists in step stay in step |
| Favorites.ApiCount | app/favorites/page.tsx:297 | the "from API" count is at most the total, and equal to it iff every record came from the service |
| Favorites.ApiCountBase | app/favorites/page.tsx:297 | the count of no records is 0, and of one record is 1 exactly when it came from the service |
| Favorites.ApiCountAdds | app/favorites/page.tsx:297 | the counts of two parts of the list add up to the count of the whole |
| Favorites.ApiCountPush | app/favorites/page.tsx:297 | one more record raises the count by one exactly when it came from the service |
| Favorites.CharReduceIsJoinedLength | app/favorites/page.tsx:305 | the character stat equals the length of all texts joined |
| Favorites.InspirationFacts | app/favorites/page.tsx:67-76 | a non-empty `data` array shows its first ≤ 4 entries with success; anything else shows the 3 fallback facts with error |
| Favorites.FavoritesPage.constructor | app/favorites/page.tsx:35-40 | empty lists, the fallback facts, not loading |
| Favorites.FavoritesPage.LoadFavorites | app/favorites/page.tsx:89-109 | with both keys readable, the stored ids and the reconciled records; with either unreadable, both empty; with a key missing, no change |
| Favorites.FavoritesPage.RemoveFavorite | app/favorites/page.tsx:111-132 | the id leaves the ids and the shown and stored records; a missing or unreadable records key is left as it is |
| Favorites.FavoritesPage.ClearAll | app/favorites/page.tsx:142-149 | both lists empty and both keys removed |
| Favorites.FavoritesPage.StartFetch | app/favorites/page.tsx:44-45 | loading with status loading |
| Favorites.FavoritesPage.CompleteFetch | app/favorites/page.tsx:64-79 | the shown facts and status are the load's outcome and loading ends |
| Favorites.RemoveFavoriteLists | app/favorites/page.tsx:111-115 | removal keeps every other id and record in order and drops exactly the removed id |
| Favorites.ReconcileAfterRemove | app/favorites/page.tsx:99-132 | reconciling after a removal gives what the page shows after removing |
| AxolotlDemo.AxolotlId | components/axolotl-demo.tsx:146 | the id starts with "axolotl-fact-" and continues past it |
| AxolotlDemo.AxolotlIdInjective | components/axolotl-demo.tsx:146 | different positions give different ids |
| AxolotlDemo.NewFact | components/axolotl-demo.tsx:167-173 | the record has the position's id, the text, "Axolotl" and "Amfibi" |
| AxolotlDemo.DemoLoad | components/axolotl-demo.tsx:83-133 | demo mode gives the mock facts; any `data` array, even empty, gives success; anything else gives the fallback facts with error |
| AxolotlDemo.Rendered | components/axolotl-demo.tsx:274 | at most the first three facts are rendered |
| AxolotlDemo.BadgeText | components/axolotl-demo.tsx:196-203 | each of the four badge texts appears exactly in its own state: loading, connected, demo, offline |
| AxolotlDemo.SourceText | components/axolotl-demo.tsx:312 | "mock" iff demo mode, "api" iff live and successful, "fallback" otherwise |
| AxolotlDemo.DemoCard.LoadFavorites | components/axolotl-demo.tsx:63-75 | a stored list becomes the favourites; an unreadable one gives none |
| AxolotlDemo.DemoCard.ToggleDemoMode | components/axolotl-demo.tsx:141-143 | the mode flips and nothing else changes |
| AxolotlDemo.DemoCard.StartFetch | components/axolotl-demo.tsx:78-79 | loading with status loading |
| AxolotlDemo.DemoCard.CompleteFetch | components/axolotl-demo.tsx:83-133 | the shown facts and status are the load's outcome and loading ends |
| AxolotlDemo.DemoCard.ToggleFavorite | components/axolotl-demo.tsx:145-194 | ids toggle; after adding, one record with the id, last; after removing, none; lists in step stay in step |
| AxolotlDemo.ToggleFlipsHeart | components/axolotl-demo.tsx:147 | the toggled position's heart is filled iff it was empty |
| AxolotlDemo.ToggleKeepsOtherHearts | components/axolotl-demo.tsx:146-147 | toggling one position never changes another position's heart |
| Facets.ToggledEntriesChange | app/products/page.tsx:31-36 | the toggled badge is present iff the value was not selected; every other badge is kept as it was |
| Facets.ToggleKeepsMirror | app/products/page.tsx:24-58 | after a toggle, the badges of that kind are exactly the selected values |
| Facets.AtMostOnePriceEntry | app/products/page.tsx:64-67 | a valid badge row holds at most one price badge |
| Facets.ReplacePriceEntry | app/products/page.tsx:64-67 | after a price change there is exactly one price badge, for the new range, and the other badges are unchanged |
| Facets.ReplacePriceKeepsValid | app/products/page.tsx:60-68 | a price change keeps the badge row valid |
| Facets.RemoveKeepsValid | app/products/page.tsx:70-89 | removing a present badge and its selection keeps the badge row valid |
| Facets.FacetPanel.constructor | app/products/page.tsx:15-22 | nothing selected, range [0, 100], no badges, valid |
| Facets.FacetPanel.ToggleCategory | app/products/page.tsx:24-40 | the category toggles, its badge toggles, nothing else changes, validity is kept |
| Facets.FacetPanel.ToggleMaterial | app/products/page.tsx:42-58 | the material toggles, its badge toggles, nothing else changes, validity is kept |
| Facets.FacetPanel.SetPrice | app/products/page.tsx:60-68 | the range is set; exactly one price badge remains; other badges are unchanged; validity is kept |
| Facets.FacetPanel.RemoveFilter | app/products/page.tsx:70-89 | the badge and its selection are removed; a price badge resets the range to [0, 100]; removing a shown badge keeps validity |
| Facets.FacetPanel.ClearAll | app/products/page.tsx:91-98 | nothing selected, range [0, 100], no badges, valid |
| Facets.FilteredProducts | app/products/page.tsx:101-112 | a product is kept iff its category and material pass (none selected or selected) and lo ≤ price ≤ hi |
| Facets.FilteredProductsOrder | app/products/page.tsx:101-112 | the kept products keep the catalogue's order; an untouched panel keeps everything priced in [0, 100] |
| Facets.InsertByPrice | app/products/page.tsx:117-120 | insertion adds exactly the one product |
| Facets.SortByPrice | app/products/page.tsx:115-120 | the sort is a permutation |
| Facets.InsertKeepsSorted | app/products/page.tsx:117-120 | inserting into a sorted list keeps it sorted |
| Facets.SortIsSorted | app/products/page.tsx:115-120 | "price-low" is non-decreasing and "price-high" non-increasing in price |
| Facets.InsertIsStable | app/products/page.tsx:115-120 | insertion keeps the order of products of equal price |
| Facets.SortIsStable | app/products/page.tsx:115-120 | the sort keeps the order of products of equal price, as the stable `Array.sort` does |
| Search.SearchResults | app/search/page.tsx:122-149 | a product is kept iff it passes the term, the category, the material and the price range |
| Search.EmptyTermIsProductFilter | app/search/page.tsx:124-131 | an empty term restricts nothing beyond the panel |
| Search.SearchNarrowsFacets | app/search/page.tsx:122-149 | the results keep the catalogue's order and are a sub-list of what the panel alone keeps |
| Search.MatchesTermIsSubstring | app/search/page.tsx:125-128 | the term passes iff it occurs, lower-cased, in the lower-cased name, description or category |
| Search.ResultLine | app/search/page.tsx:198 | "Searching..." exactly while loading; otherwise a line that starts "Found " and ends " products" |
| Search.ResultLineInjective | app/search/page.tsx:198 | after loading, the line tells the exact number of results |
| Search.SearchPage.constructor | app/search/page.tsx:19-29 | the box starts with the query and loading is on |
| Search.SearchPage.QueryChanged | app/search/page.tsx:31-43 | a new query raises loading and replaces the term |
| Search.SearchPage.LoadingDone | app/search/page.tsx:34-36 | loading ends and the term is kept |
| Search.SearchPage.SetSearchTerm | app/search/page.tsx:183-189 | typing or clearing replaces the term and leaves loading alone |
| Search.ClearedSearchShowsPanel | app/search/page.tsx:189 | after clearing the box the search page shows what the panel shows |
| Contribute.Spliced | app/contribute/page.tsx:92-93 | `splice(index, 1)` shortens by one and shifts later entries down; past the end it changes nothing |
| Contribute.SplicedKeepsOthers | app/contribute/page.tsx:89-94 | a delete keeps the other entries in order and loses only the deleted one |
| Contribute.CopyToArray | app/contribute/page.tsx:78-92 | the copy holds the list |
| Contribute.WithField | app/contribute/page.tsx:134-163 | the named field reads back the value and every other field is kept |
| Contribute.FilledFormIsComplete | app/contribute/page.tsx:45-47 | filling animal, category and fact passes the submit guard, whatever the source field holds |
| Contribute.ContributePage.constructor | app/contribute/page.tsx:25-43 | an empty form, no submissions, no dialog |
| Contribute.ContributePage.SetField | app/contribute/page.tsx:134-163 | only the named field of the form changes; the category comes from the fixed list |
| Contribute.ContributePage.SetEditField | app/contribute/page.tsx:209-231 | only the named field of the dialog's copy changes; the list is untouched |
| Contribute.ContributePage.CloseDialog | app/contribute/page.tsx:201 | closing the dialog without saving leaves the list as it was |
| Contribute.ContributePage.Submit | app/contribute/page.tsx:45-56 | a submit is accepted iff not already submitting and animal, category and fact are non-empty; a rejected submit changes nothing |
| Contribute.ContributePage.CompleteSubmit | app/contribute/page.tsx:59-67 | the captured form is appended at the end and the form is emptied |
| Contribute.ContributePage.EditClick | app/contribute/page.tsx:70-74 | the dialog opens on a copy of the entry |
| Contribute.ContributePage.EditSave | app/contribute/page.tsx:76-81 | no index changes nothing; otherwise only that entry is replaced and the length is kept |
| Contribute.ContributePage.EditUnchanged | app/contribute/page.tsx:70-80 | opening and saving without edits leaves the list unchanged |
| Contribute.ContributePage.Delete | app/contribute/page.tsx:89-94 | a confirmed delete splices out the entry; an unconfirmed one changes nothing |
| EditProfile.EmailPatternNotBlank | components/edit-profile-form.tsx:65-68 | an email matching the pattern is never blank |
| EditProfile.EmailPatternExamples | components/edit-profile-form.tsx:68 | "a@b.c" matches; "a@b", "@b.c" and "a@.c" do not |
| EditProfile.ExpectedErrors | components/edit-profile-form.tsx:56-77 | the name error iff the trimmed name is empty; "Email is required", "Email is invalid" and no email error each exactly in their case; never a phone error |
| EditProfile.ValidIffNoErrors | components/edit-profile-form.tsx:56-77 | no messages iff the name is not blank and the email matches |
| EditProfile.EditProfileForm.constructor | components/edit-profile-form.tsx:26-40 | the form starts from the user's fields, or empty, with no errors |
| EditProfile.EditProfileForm.HandleChange | components/edit-profile-form.tsx:42-50 | only the edited field changes and only its own error is cleared |
| EditProfile.EditProfileForm.HandleSwitchChange | components/edit-profile-form.tsx:52-54 | only the switch changes |
| EditProfile.EditProfileForm.ValidateForm | components/edit-profile-form.tsx:56-77 | the errors are the expected ones and the result is true iff there are none |
| EditProfile.EditProfileForm.HandleSubmit | components/edit-profile-form.tsx:79-89 | the form is handed over iff it validates, and then its email matches |
| Register.AttemptOutcome | app/register/page.tsx:48-69 | the mismatch is reported first, the terms only for matching passwords, and registration starts iff both checks pass |
| Register.WithField | app/register/page.tsx:44-46 | the named field reads back the value and every other field is kept |
| Register.WithFieldRestores | app/register/page.tsx:44-46 | typing a field's old text back restores the form; of two edits of one field only the last counts |
| Register.ConfirmingPasswordStarts | app/register/page.tsx:44-69 | for a filled form, copying the password into the confirmation field makes a submit start with the terms accepted and fail on the terms otherwise |
| Register.RegisterPage.constructor | app/register/page.tsx:31-40 | an empty form, terms unaccepted, not loading |
| Register.RegisterPage.InputChange | app/register/page.tsx:44-46 | the field is set and nothing else changes |
| Register.RegisterPage.SetAcceptTerms | app/register/page.tsx:259 | the checkbox sets the flag |
| Register.RegisterPage.Register | app/register/page.tsx:48-69 | the outcome follows the guard order; loading starts iff the attempt starts; a rejection leaves loading unchanged |
| Register.RegisterPage.CompleteRegister | app/register/page.tsx:72-79 | loading ends and the visitor goes to "/profile" |
| ProfilePage.FullPatch | app/profile/page.tsx:101 | a saved profile object holds every field |
| ProfilePage.FullPatchReplaces | app/profile/page.tsx:83-101 | spreading a whole saved profile replaces every field |
| ProfilePage.EmptyPatchKeeps | app/profile/page.tsx:83 | spreading an empty object changes nothing |
| ProfilePage.SavedCountHidesFavorites | app/profile/page.tsx:68-87 | as written, a saved count always wins over the stored favourites |
| ProfilePage.StaleCountExample | app/profile/page.tsx:68-87 | as written, ten stored favourites plus a saved count of 0 show 0 and leave "Cat Lover" locked |
| ProfilePage.LoadCountsFavorites | app/profile/page.tsx:68-87 | the corrected load shows the number of stored favourites, and every other field as saved |
| ProfilePage.OrdersAgree | app/profile/page.tsx:68-87 | the two orders differ only when a saved count meets readable favourites |
| ProfilePage.SaveThenLoad | app/profile/page.tsx:96-103 | a saved profile comes back whole on the next load, with the live favourites count |
| ProfilePage.UnlockThresholds | app/profile/page.tsx:209-220 | "Cat Lover" iff at least 10 favourites; "Adopter" iff at least 1 adoption |
| ProfilePage.Remaining | app/profile/page.tsx:509-513 | a number is shown iff the achievement is locked, it is at least 1, and it is what is missing to the requirement |
| ProfilePage.Description | app/profile/page.tsx:204-215 | the "Cat Lover" line ends "+ favorit" and the "Adopter" line ends " adopsi berhasil" |
| ProfilePage.DescriptionInjective | app/profile/page.tsx:204-215 | a description line names its achievement and tells its exact progress |
| ProfilePage.ProfileView.constructor | app/profile/page.tsx:44-62 | the default profile, its copy, not editing |
| ProfilePage.ProfileView.Load | app/profile/page.tsx:65-89 | the profile becomes the corrected load of storage; the working copy is not touched |
| ProfilePage.ProfileView.Edit | app/profile/page.tsx:91-94 | editing starts on a copy of the profile |
| ProfilePage.ProfileView.EditField | app/profile/page.tsx:320-426 | one field of the working copy changes |
| ProfilePage.ProfileView.Save | app/profile/page.tsx:96-103 | the working copy becomes the profile and is written whole; no other key changes |
| ProfilePage.ProfileView.Cancel | app/profile/page.tsx:111-114 | the working copy is reset and the profile is unchanged |
| ProfilePage.ProfileView.EditThenCancel | app/profile/page.tsx:91-114 | edit then cancel changes neither the profile nor storage |
| ProfilePage.ProfileView.EditThenSave | app/profile/page.tsx:91-103 | edit then save stores the shown profile unchanged |

## Left out

- Network access: the fetches to the fact service, their abort timers and HTTP
  status are not modelled. A load's result is a parameter: no response, or a
  body whose `data` is or is not an array of strings.
- Delays: every `setTimeout` (payment, order, registration, contribution,
  search loading, demo loading) is a pair of start and complete methods. No
  clock and no interleaving is modelled.
- Parsing: `JSON.parse` is a parsed value of one of the shapes the site writes,
  or unreadable. A readable value of another shape is treated as unreadable.
  This differs from the code in a few places: a non-array value under the
  favourites key would set the profile's count to `undefined`, and an object
  of another shape would be stored in the page state as is.
- Time: the current time and the save time are integer milliseconds.
  `toISOString`, `Date` parsing and the "saved … ago" text are left out.
- Randomness: `Math.random` is the parameter `r` in [0, 1).
- Tax: the code multiplies the subtotal by `0.11` and never rounds, so the
  model keeps the exact eleven hundredths as a `real`. Floating-point error is
  not modelled.
- Favorites.CharReduce: the model counts characters (Unicode scalar values),
  while `fact.fact.length` counts UTF-16 code units, so a text with a
  character outside the Basic Multilingual Plane (an emoji, say) adds one more
  to "Total Karakter" per such character in the program than in the model.
- Formatting: `Intl.NumberFormat`, `toLocaleDateString`, toasts, scrolling,
  animation and all markup are not modelled. Navigation is a returned route
  string where a handler navigates.
- The sort orders "featured", "relevance" and "newest" are not modelled. Their
  comparators are not consistent orderings (`b.featured ? 1 : -1`) or rely on
  `Date` subtraction. Only the two price orders are modelled.
- Search page: its facet handlers are the products page's handlers line for
  line, so `Facets.FacetPanel` stands for both. `Search.SearchPage` holds a
  panel.
- Common.IsSpace: white space is the ASCII white space characters and U+00A0.
  The other Unicode white space that JavaScript's `trim` and `\S` recognise is
  not modelled. `Common.Lower` lower-cases ASCII letters only.
- Explore.ApiFacts: every service fact is stamped with the same `now`; the
  code calls `Date.now()` once per fact.
- AxolotlDemo: the image lists of the mock and fallback data are not modelled,
  because no rendered text depends on them. The unused `selectedApi` state is
  left out.
- Contribute.ContributePage.EditSave: requires a set index to lie inside the
  list. The dialog is modal and opens only from an existing entry, so the code
  never writes past the end.
- CheckoutProcess.ProcessPage.SubmitPayment: follows the code, where the card
  check depends on the tab on screen and not on the chosen payment method. The
  tabs keep their own state and show the card tab on every entry into the
  payment step, so a visitor who chose E-Wallet or bank transfer and comes
  back from the review must fill the card fields or choose the tab again
  (`CheckoutProcess.ProcessPage.ReentryDemandsCard`). A version that checks the
  chosen method instead is not modelled.
- Favorites.InspirationFacts: the favourites page accepts any truthy `data`
  with a positive `length`, without the array check of the explore page and
  the demo card. A non-empty string or an object with a positive `length`
  therefore counts as a successful load there. A load result here holds either
  an array of strings or "not an array", and the model shows the fallback
  facts for every body of the second kind.
- CheckoutProcess.ProcessPage.Save: requires a step before confirmation. The
  save buttons exist only on the first three steps.
- The browser's `required` check is modelled as non-empty fields. The browser's
  own e-mail syntax check on `type="email"` inputs is not modelled.
- The show/hide toggles of the profile's phone and address, the password
  visibility toggles, the avatar upload (`FileReader`), sharing, the social
  sign-up buttons and the profile's navigation buttons are not modelled.
- The cart's `persist` serialisation and the cart drawer are not modelled. The
  cart's ids are one abstract integer type.
- Catalog.Product: prices are integers. Fractional prices, their two-decimal
  display (`toFixed(2)`) and the floating-point additions and subtractions
  that build the cart's `totalPrice` are not modelled. The equality of the
  running total with Σ price × quantity is exact only for integer prices; with
  fractional prices the program's total can drift from it by rounding error
  (an add followed by a remove may leave a small residue instead of 0).
- ProfilePage.ProfileView.Load: models the corrected order of the mount
  effect (see Findings); the order as written is `ProfilePage.LoadAsWritten`.

## Findings

| source | as written | input that shows it | evidently intended | confidence | as-written member | corrected member |
|---|---|---|---|---|---|---|
| app/profile/page.tsx:68-87 | the mount effect sets `favoriteCount` from the stored favourites and then spreads the saved profile over it. Every save writes the whole profile, count included, so after one save the saved count always wins | ten favourite ids stored, and a profile saved earlier with `favoriteCount` 0: the page shows 0 favourites and "Cat Lover" stays locked | the count always reflects the stored favourites, as the load's comment says | medium, not executed | ProfilePage.StaleCountExample | ProfilePage.LoadCountsFavorites |
