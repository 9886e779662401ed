# Hotel booking front end — a Dafny model

This project models the browser side of an Ethiopian hotel-booking site. The
site is a React single-page application. The model covers these parts of it:

- the **session store**: sign-in, sign-up, sign-out, and restoring a session from
  local storage when the page reloads;
- the **favourites store**: a toggled list of hotel ids, mirrored to local storage
  and pushed to the backend while someone is signed in;
- the **route guard** in front of protected pages;
- the visitor pages: hotel search with filters, the hotel page with its image
  carousel and "Book Now" link, the three-step booking wizard, the account page
  and the reviews page;
- the floating **chat widget** with its keyword-driven canned replies;
- the four **admin screens**: bookings, special offers, room types and amenities.
  Each one has a searchable table, a create/edit form and a confirm-to-delete
  button.

Pure computations are Dafny functions with named results. Examples are filters,
status badges, form conversions, the carousel index and the chat reply choice.
Stateful components are classes whose fields are the component state. Event
handlers and effects are methods with `modifies` clauses.

Every backend exchange is a parameter of type `Api.Response<T>`, either
`Ok(payload)` or `Failed`. The same applies to the clock, the browser's date
parser and the random reference code. The admin screens record the writes they
send in a `calls` sequence, so contracts can state what was sent.

JavaScript semantics the code depends on are written out in `Text`:

- `toLowerCase` and `includes` (the empty string is included in everything);
- `trim`, and `split`/`join` on a one-character separator;
- `parseInt`, which yields `NaN` or a number;
- the decimal text of a number.

`Lists` holds `Filter`, `find` and `map`, with their order-preserving
properties.

## Model

| member | source | states |
|---|---|---|
| Session.SessionStore.constructor | src/contexts/AuthContext.tsx:30 | The provider starts with no user, whatever local storage holds. |
| Session.SessionStore.IsAuthenticated | src/contexts/AuthContext.tsx:133 | Authenticated exactly when a user record is held. |
| Session.SessionStore.Initialize | src/contexts/AuthContext.tsx:32-56 | An empty or missing stored token changes nothing. With a token, `/auth/me`'s answer becomes the user and the cached copy. A failure removes both storage keys and leaves the user unset. |
| Session.SessionStore.Authenticate | src/contexts/AuthContext.tsx:58-120 | Success iff both calls succeed. A failed first call writes nothing. A successful first call stores the token even when `/auth/me` then fails. |
| Session.SessionStore.Login | src/contexts/AuthContext.tsx:58-88 | Login returns true iff the login call and `/auth/me` both succeed. The token is kept after a failed `/auth/me`. |
| Session.SessionStore.Signup | src/contexts/AuthContext.tsx:90-120 | Same contract as login, for the sign-up call. |
| Session.SessionStore.Logout | src/contexts/AuthContext.tsx:122-126 | The user and both storage keys are cleared, so nobody is authenticated. |
| Session.LoginSurvivesReload | src/contexts/AuthContext.tsx:32-88 | After a successful login with a non-empty token, a fresh store built from storage restores the same user. |
| Session.EmptyTokenLostOnReload | src/contexts/AuthContext.tsx:35 | A login whose token is the empty string succeeds, but the reload signs nobody in. |
| Favorites.Toggle | src/contexts/FavoritesContext.tsx:52-60 | The toggled id is in the result iff it was not in the list. Every other id keeps its membership. |
| Favorites.ToggleAbsentAppends | src/contexts/FavoritesContext.tsx:56-57 | An absent id is appended at the end. The earlier entries are unchanged. |
| Favorites.TogglePresentRemoves | src/contexts/FavoritesContext.tsx:54-55 | A present id loses every occurrence. The rest keep their order and their counts (multiset). |
| Favorites.ToggleKeepsNoDuplicates | src/contexts/FavoritesContext.tsx:52-60 | A duplicate-free list stays duplicate-free. |
| Favorites.ToggleTwiceAbsent | src/contexts/FavoritesContext.tsx:52-60 | Toggling an absent id twice gives back the original list exactly. |
| Favorites.ToggleTwicePresent | src/contexts/FavoritesContext.tsx:52-60 | Toggling a present id twice moves it behind the others, which keep their order. |
| Favorites.ToggleTwiceMembership | src/contexts/FavoritesContext.tsx:52-60 | Toggling twice restores the membership of every id. |
| Favorites.FavoritesStore.constructor | src/contexts/FavoritesContext.tsx:24-35 | Mount loads the stored list, or starts empty, and writes it back. Nothing is pushed. |
| Favorites.FavoritesStore.IsFavorite | src/contexts/FavoritesContext.tsx:62 | An id is a favourite iff it is in the stored list. |
| Favorites.FavoritesStore.Persist | src/contexts/FavoritesContext.tsx:34-50 | The list is copied to storage. It is pushed to the backend only while signed in. |
| Favorites.FavoritesStore.ToggleFavorite | src/contexts/FavoritesContext.tsx:52-60 | The new list is `Toggle` of the old one, storage follows, and favourite status flips. |
| Favorites.FavoritesStore.SessionChanged | src/contexts/FavoritesContext.tsx:34-41 | A session change re-runs the persist effect. The list is unchanged. |
| Favorites.AnonymousToggleScenario | src/contexts/FavoritesContext.tsx:27-62 | A visitor who is not signed in toggles an id on and then off. Storage holds `["42"]`, then `[]`, and nothing is pushed. |
| ProtectedRoute.Decide | src/components/ProtectedRoute.tsx:10-28 | The page is rendered iff someone is authenticated. Otherwise the guard does a replacing redirect to `/login`, carrying the requested location. |
| ProtectedRoute.AdminFlagIgnored | src/components/ProtectedRoute.tsx:19-25 | The admin-only flag never changes the decision. |
| ProtectedRoute.ReloadRedirects | src/components/ProtectedRoute.tsx:14-17 | Right after a reload, a protected page redirects to `/login`, whatever token is stored. |
| ProtectedRoute.LoginThenRender | src/components/ProtectedRoute.tsx:10-28 | The page redirects before a successful login and renders after it. |
| BookingFlow.CeilDivIsCeiling | src/pages/BookingFlow.tsx:75 | `Math.ceil(a / d)` is the least `n` with `a <= n * d`. |
| BookingFlow.Nights | src/pages/BookingFlow.tsx:70-76 | No nights while either date field is empty. The count is `NaN` (`None`) iff both fields are filled and one of them is not a readable date. |
| BookingFlow.NightsCoverStay | src/pages/BookingFlow.tsx:70-76 | For two readable dates the count is a number: the least number of whole days covering the stay. It does not depend on the order of the dates. |
| BookingFlow.Param | src/pages/BookingFlow.tsx:41-44 | A missing or empty query parameter gives the fallback. Otherwise it gives the parameter's value. |
| BookingFlow.InitialDetails | src/pages/BookingFlow.tsx:40-53 | The form's first state, built from the query string and the signed-in user. It has no contract of its own; `InitialDetailsFromQuery` states each field. |
| BookingFlow.InitialDetailsFromQuery | src/pages/BookingFlow.tsx:40-53 | A given hotel id or guest count is parsed with `parseInt`. A missing or empty one means hotel 0 and one guest, and a missing date is empty. Name and e-mail come from the signed-in user, the card fields start empty and the payment method is "card". |
| BookingFlow.GuestDetailsComplete | src/pages/BookingFlow.tsx:269-270 | The step-1 button is enabled iff guest name, e-mail and phone are all non-empty. |
| BookingFlow.PaymentDetailsComplete | src/pages/BookingFlow.tsx:340-341 | The step-2 button is enabled iff card number, expiry date and CVV are all non-empty. |
| BookingFlow.MakePayload | src/pages/BookingFlow.tsx:96-106 | The payload carries the form's dates, guests and requests, the user's and hotel's ids, status "confirmed" and room type 1. |
| BookingFlow.BookingPage.constructor | src/pages/BookingFlow.tsx:34-53 | The wizard starts at step 1, unconfirmed, with no hotel and the initial form. |
| BookingFlow.BookingPage.LoadHotel | src/pages/BookingFlow.tsx:55-68 | The hotel is set only for a truthy hotel id and a successful call. |
| BookingFlow.BookingPage.EditDetails | src/pages/BookingFlow.tsx:86-88 | The form takes the edited values. |
| BookingFlow.BookingPage.ContinueToPayment | src/pages/BookingFlow.tsx:269-270 | Step 1 moves to step 2 iff name, e-mail and phone are all non-empty. |
| BookingFlow.BookingPage.ReviewBooking | src/pages/BookingFlow.tsx:340-341 | Step 2 moves to step 3 iff card number, expiry and CVV are all non-empty. |
| BookingFlow.BookingPage.Back | src/pages/BookingFlow.tsx:334 | Back goes one step down and stays within steps 1 to 3. |
| BookingFlow.BookingPage.SubmitBooking | src/pages/BookingFlow.tsx:90-124 | Without a user or a hotel, nothing happens. Otherwise the payload is sent. The booking is confirmed with reference `ETH-` + code, unless the call returned a falsy value; a thrown error still confirms. Loading always ends false. |
| BookingFlow.WalkThrough | src/pages/BookingFlow.tsx:265-345 | Step 3 is reached iff both the guest fields and the payment fields are complete. |
| HotelDiscovery.ApplyFilters | src/pages/HotelDiscovery.tsx:61-84 | The text filter, then the city filter (skipped for no city and for "All Cities"), then the inclusive price range. `ApplyFiltersSelectsVisible` states what it keeps. |
| HotelDiscovery.ApplyFiltersSelectsVisible | src/pages/HotelDiscovery.tsx:61-84 | The chained text, city and price filters equal one order-preserving filter by the conjunction of the three tests. |
| HotelDiscovery.NoFiltersShowsAllInRange | src/pages/HotelDiscovery.tsx:30 | With no query, no city and the initial range 0–500, every hotel priced in that range is shown. |
| HotelDiscovery.DiscoveryPage.constructor | src/pages/HotelDiscovery.tsx:26-32 | The query starts from the `search` parameter, with no city and the range 0–500. |
| HotelDiscovery.DiscoveryPage.Refilter | src/pages/HotelDiscovery.tsx:57-59 | The shown list is the filtered hotels. |
| HotelDiscovery.DiscoveryPage.LoadHotels | src/pages/HotelDiscovery.tsx:38-55 | The hotels are the fetched list, or none after a failure. Loading ends and the shown list is refiltered. |
| HotelDiscovery.DiscoveryPage.SetSearchQuery | src/pages/HotelDiscovery.tsx:105 | The query changes and the shown list follows. |
| HotelDiscovery.DiscoveryPage.SelectCity | src/pages/HotelDiscovery.tsx:139 | The city changes and the shown list follows. |
| HotelDiscovery.DiscoveryPage.SlidePrice | src/pages/HotelDiscovery.tsx:160 | The slider moves only the upper bound. |
| HotelDiscovery.DiscoveryPage.ClearFilters | src/pages/HotelDiscovery.tsx:232-235 | Query, city and range go back to their initial values, and the list follows. |
| HotelDetail.NextIndex | src/pages/HotelDetail.tsx:77-79 | "Next" stays in range and wraps to the first picture exactly from the last one. |
| HotelDetail.PrevIndex | src/pages/HotelDetail.tsx:81-83 | "Previous" stays in range, and "next" undoes it. |
| HotelDetail.NextPrevInverse | src/pages/HotelDetail.tsx:77-83 | "Previous" undoes "next". |
| HotelDetail.Advance | src/pages/HotelDetail.tsx:77-79 | `k` presses of "next" keep the index within the gallery. |
| HotelDetail.AdvanceAdd | src/pages/HotelDetail.tsx:77-79 | `a` presses followed by `b` presses are `a + b` presses. |
| HotelDetail.AdvanceWithin | src/pages/HotelDetail.tsx:77-79 | Before the end of the gallery, `k` presses move `k` pictures on. |
| HotelDetail.FullCircle | src/pages/HotelDetail.tsx:77-79 | Pressing "next" once per picture returns to the start. |
| HotelDetail.Placeholder | src/pages/HotelDetail.tsx:57-67 | The fallback hotel keeps the parsed route id and has rating 0 and price 0. |
| HotelDetail.Display | src/pages/HotelDetail.tsx:38-67 | A fetched hotel is rendered as received. The fallback is rendered as the placeholder for its route id. |
| HotelDetail.ReviewsFor | src/pages/HotelDetail.tsx:51-53 | A review is kept iff its hotel id strictly equals the parsed route id; nothing matches `NaN`. Order is preserved. |
| HotelDetail.AmenityNames | src/pages/HotelDetail.tsx:48 | The names of the received amenities, one per amenity, in order. |
| HotelDetail.IconFor | src/pages/HotelDetail.tsx:85-91 | The first of WiFi, Pool, Restaurant and Shuttle found in the name (case-sensitive) picks the icon. Otherwise the icon is a plain dot. |
| HotelDetail.ShownAmenities | src/pages/HotelDetail.tsx:192 | At most the first eight names are shown. A list of eight or fewer is shown whole. |
| HotelDetail.ParseIdText | src/pages/HotelDetail.tsx:286 | A number written into the link reads back as the same number, and `NaN` reads back as `NaN`. |
| HotelDetail.BookingQuery | src/pages/HotelDetail.tsx:286 | The link carries exactly the keys `hotel`, `checkIn`, `checkOut` and `guests`. |
| HotelDetail.BookNowCarriesSelection | src/pages/HotelDetail.tsx:285-290 | The booking wizard reached through "Book Now" starts with this hotel's id, the chosen dates and the guest count. |
| HotelDetail.DetailPage.constructor | src/pages/HotelDetail.tsx:23-30 | The page starts with no hotel, no pictures, index 0 and one guest. |
| HotelDetail.DetailPage.Load | src/pages/HotelDetail.tsx:34-75 | With no route id, nothing happens. If all three calls succeed: the hotel, four copies of its picture, the amenity names and this hotel's reviews. The first failure gives the placeholder with no amenities and no reviews. The gallery holds four copies of the fetched picture whenever the hotel call succeeded, and is unchanged when it failed. |
| HotelDetail.DetailPage.LoadFor | src/pages/HotelDetail.tsx:38-71 | For a parsed route id: if all three calls succeed, the hotel, four copies of its picture, the amenity names in order and the reviews whose hotel id equals the parsed id. The first failure gives the placeholder for that id with no amenities and no reviews. Once the hotel call succeeded the gallery is four copies of its picture even if a later call fails; after a failed hotel call it is unchanged. |
| HotelDetail.DetailPage.ShowHotel | src/pages/HotelDetail.tsx:41-44 | The fetched hotel is shown and the gallery holds its picture four times, keeping the page's invariant. |
| HotelDetail.DetailPage.FallBack | src/pages/HotelDetail.tsx:54-71 | The placeholder hotel, with no amenities and no reviews. |
| HotelDetail.DetailPage.NextImage | src/pages/HotelDetail.tsx:77-79 | The index advances by `NextIndex`. On an empty gallery it becomes `NaN` (`x % 0`) and stays `NaN`. |
| HotelDetail.DetailPage.PrevImage | src/pages/HotelDetail.tsx:81-83 | The index goes back by `PrevIndex`, or becomes `NaN` on an empty gallery. |
| HotelDetail.DetailPage.SelectGuests | src/pages/HotelDetail.tsx:273-281 | Choosing option 1–6 sets exactly that guest count. |
| HotelDetail.DetailPage.SetDates | src/pages/HotelDetail.tsx:245-260 | The two date inputs take the typed values. |
| HotelDetail.DetailPage.SelectImage | src/pages/HotelDetail.tsx:171 | A thumbnail click selects that picture. |
| HotelDetail.FailedLoadBreaksCarousel | src/pages/HotelDetail.tsx:34-79 | When the hotel lookup fails, the placeholder is shown and the first "next" makes the index `NaN`. |
| Account.HotelById | src/pages/Account.tsx:53 | `find` gives no hotel iff none has the id. Otherwise it gives the first hotel in the list with that id. |
| Account.UserBookingsShowOwnBookings | src/pages/Account.tsx:46-56 | The bookings list is exactly the user's bookings, in order. Each carries the first hotel with its hotel id, or none when no hotel has that id. |
| Account.UserBookings | src/pages/Account.tsx:46-54 | The joined list is no longer than the fetched list. |
| Account.UserReviews | src/pages/Account.tsx:59-66 | The joined list is no longer than the fetched list; `UserReviewsShowOwnReviews` states its contents. |
| Account.UserReviewsShowOwnReviews | src/pages/Account.tsx:59-66 | The reviews list is exactly the user's reviews, in order. Each carries the first hotel with its hotel id, or none when no hotel has that id. |
| Account.StatusText | src/pages/Account.tsx:88-95 | The three known statuses are shown with the first letter upper-cased and the rest unchanged. Any other status is shown as it is. |
| Account.StatusColor | src/pages/Account.tsx:79-86 | `confirmed` is emerald, `completed` blue, `cancelled` red, and every other status gray. |
| Account.CapitalisedStatusLooksConfirmed | src/pages/Account.tsx:79-95 | `Confirmed` reads like `confirmed` on the badge, but it is gray and gets no cancel button. |
| Account.CancelOffered | src/pages/Account.tsx:222 | The cancel button is shown iff the status is exactly `confirmed`. |
| Account.Reference | src/pages/Account.tsx:204 | A booking's reference starts with `ETH-`. |
| Account.ReferenceIdentifies | src/pages/Account.tsx:204 | The booking id parses back from its reference, and distinct ids give distinct references. |
| Account.HotelTitle | src/pages/Account.tsx:189 | The title is the hotel's name, or `Hotel Name` when the hotel or its name is missing. It is never empty. |
| Account.Stars | src/pages/Account.tsx:258-259 | A review shows five stars. |
| Account.FilledStarsClamp | src/pages/Account.tsx:258-259 | The number of filled stars is the rating clamped to 0..5. |
| Account.Greeting | src/pages/Account.tsx:109 | The greeting is the user's name when there is a non-empty one, otherwise `Traveler`. |
| Account.AccountPage.constructor | src/pages/Account.tsx:35-38 | The page starts on the bookings tab, loading, with empty lists. |
| Account.AccountPage.Load | src/pages/Account.tsx:40-77 | Without a user, nothing happens and loading stays on. The first failed call stops the rest. Bookings and reviews are the user's joined records, and loading ends. |
| Account.AccountPage.SelectTab | src/pages/Account.tsx:130-154 | The chosen tab becomes active. |
| Reviews.NewReview | src/pages/Reviews.tsx:60-67 | The review is by `You`, with 0 helpful votes and the form's rating and comment. Its date is the ISO timestamp's text up to its first `T`. Its id parses back to the clock value. |
| Reviews.ReviewsPage.constructor | src/pages/Reviews.tsx:18-48 | The page starts with the three built-in reviews and an empty form. |
| Reviews.ReviewsPage.TotalReviews | src/pages/Reviews.tsx:54 | The header count is the number of listed reviews. |
| Reviews.ReviewsPage.ClickStar | src/pages/Reviews.tsx:85 | Clicking star `i` picks the rating `i + 1`. Every review keeps 1–5 stars. |
| Reviews.ReviewsPage.EditComment | src/pages/Reviews.tsx:135 | The comment takes the typed text. |
| Reviews.ReviewsPage.SubmitReview | src/pages/Reviews.tsx:57-72 | A review is added iff a rating is picked, the comment is non-empty and the visitor is signed in. It is prepended and the form clears; otherwise nothing changes. |
| Reviews.FirstReviewScenario | src/pages/Reviews.tsx:57-72 | A four-star review from a signed-in visitor raises the count to 4 and is shown on top. |
| SpecialOffers.ApplyFilters | src/components/admin/SpecialOfferManager.tsx:59-76 | The search filter when a term is set, then the `active` or `inactive` flag filter; any other status value keeps all. `ApplyFiltersSelectsListed` states what it keeps. |
| SpecialOffers.IsOfferActive | src/components/admin/SpecialOfferManager.tsx:151-156 | The badge says active iff the flag is set and the clock lies within the two readable dates, both ends included. |
| SpecialOffers.ApplyFiltersSelectsListed | src/components/admin/SpecialOfferManager.tsx:59-76 | The list is exactly the offers passing the search and the status filter, in order. |
| SpecialOffers.EmptyMessage | src/components/admin/SpecialOfferManager.tsx:276-281 | The plain "none found" text is shown iff no term and no status filter are set. |
| SpecialOffers.ActiveBadgeImpliesListed | src/components/admin/SpecialOfferManager.tsx:151-156 | Every offer badged "Active" survives the `active` filter. |
| SpecialOffers.ExpiredOfferListedAsActive | src/components/admin/SpecialOfferManager.tsx:69-70 | The converse fails: an expired offer whose flag is set is listed under `active`. |
| SpecialOffers.IdField | src/components/admin/SpecialOfferManager.tsx:119-120 | An id field is empty iff the id is absent. |
| SpecialOffers.EditForm | src/components/admin/SpecialOfferManager.tsx:110-123 | The form holds the offer's title, description, discount, flag and id texts. Each date is the stored date's text up to its first `T`. |
| SpecialOffers.EditKeepsPlainDates | src/components/admin/SpecialOfferManager.tsx:116-117 | A date without a time part is shown unchanged. |
| SpecialOffers.SubmitId | src/components/admin/SpecialOfferManager.tsx:83-84 | An id is sent iff its text is non-empty. |
| SpecialOffers.SubmitData | src/components/admin/SpecialOfferManager.tsx:81-85 | The payload keeps every text, number and flag field of the form and carries the parsed ids. |
| SpecialOffers.EditThenSubmitKeepsIds | src/components/admin/SpecialOfferManager.tsx:81-120 | Saving an opened offer unchanged sends back its own hotel and room-type ids. |
| SpecialOffers.SaveCall | src/components/admin/SpecialOfferManager.tsx:87-91 | A save is an update of the edited offer iff one is being edited. Otherwise it is a create. |
| SpecialOffers.FormAccepted | src/components/admin/SpecialOfferManager.tsx:298-359 | The browser submits only with a title, both dates and a discount within 0..100. |
| SpecialOffers.AcceptedFormSavedWithinLimits | src/components/admin/SpecialOfferManager.tsx:78-89 | An accepted form is saved as a titled, dated offer with a discount within 0..100. |
| SpecialOffers.OfferScreen.constructor | src/components/admin/SpecialOfferManager.tsx:19-36 | The screen starts with no offers, filter `all` and a blank form. |
| SpecialOffers.OfferScreen.Refilter | src/components/admin/SpecialOfferManager.tsx:42-44 | The table shows the filtered offers. |
| SpecialOffers.OfferScreen.FetchOffers | src/components/admin/SpecialOfferManager.tsx:46-57 | A failure keeps the old list. Loading ends either way. |
| SpecialOffers.OfferScreen.SetSearchTerm | src/components/admin/SpecialOfferManager.tsx:180 | The term changes and the table follows. |
| SpecialOffers.OfferScreen.SetStatusFilter | src/components/admin/SpecialOfferManager.tsx:188 | The status filter changes and the table follows. |
| SpecialOffers.OfferScreen.OpenCreate | src/components/admin/SpecialOfferManager.tsx:136-149 | A blank form opens in create mode. |
| SpecialOffers.OfferScreen.OpenEdit | src/components/admin/SpecialOfferManager.tsx:110-123 | The form opens holding the offer, in edit mode. |
| SpecialOffers.OfferScreen.UpdateForm | src/components/admin/SpecialOfferManager.tsx:328 | The form takes the typed values. |
| SpecialOffers.OfferScreen.Submit | src/components/admin/SpecialOfferManager.tsx:78-108 | Runs only on a form the browser accepts. The save call is recorded and every offer written stays within the form's limits. On success the list is re-fetched, loading ends, the modal closes and the form clears. A failed write leaves the modal, the form, the list and loading unchanged. |
| SpecialOffers.OfferScreen.CloseModal | src/components/admin/SpecialOfferManager.tsx:93-104 | After a successful save the modal is closed and the form is blank and in create mode. |
| SpecialOffers.OfferScreen.DeleteOffer | src/components/admin/SpecialOfferManager.tsx:125-134 | The delete is sent only after confirmation and keeps every written offer within the form's limits. The list is re-fetched and loading ends after a successful delete; otherwise loading is unchanged. |
| RoomTypes.SubmitAmenities | src/components/admin/RoomTypeManager.tsx:72 | An empty text sends no amenities. Otherwise it sends one piece per comma-separated part, each piece being that part trimmed (no outer whitespace, nothing but whitespace removed) and free of commas. |
| RoomTypes.EditAmenities | src/components/admin/RoomTypeManager.tsx:103 | Missing or empty amenities show as empty text. |
| RoomTypes.JoinCommaSpace | src/components/admin/RoomTypeManager.tsx:103 | Joining with `", "` is joining with `","` after prefixing every later item with a space. |
| RoomTypes.EditThenSubmitAmenities | src/components/admin/RoomTypeManager.tsx:72-103 | Opening and saving an amenity list unchanged gives back the same list, for items with no comma and no surrounding whitespace, other than `[""]`. |
| RoomTypes.AmenityPreview | src/components/admin/RoomTypeManager.tsx:213-228 | The card shows at most three amenities, then the count of the rest. |
| RoomTypes.ApplyFilters | src/components/admin/RoomTypeManager.tsx:54-65 | No term shows everything. Otherwise it shows exactly the room types whose name or description contains the term, ignoring case, in order. |
| RoomTypes.SearchFindsExactName | src/components/admin/RoomTypeManager.tsx:57-61 | Searching for a room type's name finds it. |
| RoomTypes.EmptyMessage | src/components/admin/RoomTypeManager.tsx:239-242 | The plain "none found" text is shown iff no term is set. |
| RoomTypes.EditForm | src/components/admin/RoomTypeManager.tsx:96-107 | The form holds the room type's name, description, capacity and price, its amenities joined and its image or "". |
| RoomTypes.SubmitData | src/components/admin/RoomTypeManager.tsx:70-73 | The payload keeps the form's name, description, capacity, price and image and carries the amenities split. |
| RoomTypes.SaveCall | src/components/admin/RoomTypeManager.tsx:75-79 | A save is an update iff a room type is being edited. Otherwise it is a create. |
| RoomTypes.FormAccepted | src/components/admin/RoomTypeManager.tsx:267-316 | The browser submits only with a name, a capacity of at least 1 and a price of at least 0. |
| RoomTypes.RoomTypeScreen.constructor | src/components/admin/RoomTypeManager.tsx:17-31 | The screen starts with no room types and a blank form. |
| RoomTypes.RoomTypeScreen.Refilter | src/components/admin/RoomTypeManager.tsx:37-39 | The table shows the filtered room types. |
| RoomTypes.RoomTypeScreen.FetchRoomTypes | src/components/admin/RoomTypeManager.tsx:41-52 | A failure keeps the old list. Loading ends either way. |
| RoomTypes.RoomTypeScreen.SetSearchTerm | src/components/admin/RoomTypeManager.tsx:154 | The term changes and the table follows. |
| RoomTypes.RoomTypeScreen.OpenCreate | src/components/admin/RoomTypeManager.tsx:120-131 | A blank form opens in create mode. |
| RoomTypes.RoomTypeScreen.OpenEdit | src/components/admin/RoomTypeManager.tsx:96-107 | The form opens holding the room type. |
| RoomTypes.RoomTypeScreen.UpdateForm | src/components/admin/RoomTypeManager.tsx:326 | The form takes the typed values. |
| RoomTypes.RoomTypeScreen.Submit | src/components/admin/RoomTypeManager.tsx:67-94 | Runs only on a form the browser accepts. The save call is recorded and every room type written stays within the form's limits. On success the list is re-fetched, loading ends and the modal resets. A failure leaves the modal, the list and loading as they were. |
| RoomTypes.RoomTypeScreen.CloseModal | src/components/admin/RoomTypeManager.tsx:81-90 | After a successful save the modal is closed and the form is blank and in create mode. |
| RoomTypes.RoomTypeScreen.DeleteRoomType | src/components/admin/RoomTypeManager.tsx:109-118 | The delete is sent only after confirmation and keeps every written room type within the form's limits. The list is re-fetched and loading ends after a successful delete; otherwise loading is unchanged. |
| Amenities.FilteredAmenities | src/components/admin/AmenityManager.tsx:86-89 | The table shows exactly the amenities whose name or description contains the term, ignoring case, in order. |
| Amenities.EmptySearchShowsAll | src/components/admin/AmenityManager.tsx:86-89 | An empty term shows every amenity, because every text includes the empty string. |
| Amenities.SearchIdempotent | src/components/admin/AmenityManager.tsx:86-89 | Searching again within the result changes nothing. |
| Amenities.IconCell | src/components/admin/AmenityManager.tsx:153 | The icon cell shows the icon, or `-`. It is never empty. |
| Amenities.EmptyMessage | src/components/admin/AmenityManager.tsx:177 | The plain "none found" text is shown iff no term is set. |
| Amenities.EditForm | src/components/admin/AmenityManager.tsx:59-66 | The form holds the amenity, with a missing icon shown as empty. |
| Amenities.SaveCall | src/components/admin/AmenityManager.tsx:45-49 | A save is an update iff an amenity is being edited. Otherwise it is a create. |
| Amenities.FormAccepted | src/components/admin/AmenityManager.tsx:193-203 | The browser submits only with a name. |
| Amenities.AmenityScreen.constructor | src/components/admin/AmenityManager.tsx:15-24 | The screen starts with no amenities and a blank form. |
| Amenities.AmenityScreen.Visible | src/components/admin/AmenityManager.tsx:86-89 | The shown rows are a subsequence of the amenities, and all of them when no term is set. |
| Amenities.AmenityScreen.FetchAmenities | src/components/admin/AmenityManager.tsx:30-40 | A failure keeps the old list. Loading ends either way. |
| Amenities.AmenityScreen.SetSearchTerm | src/components/admin/AmenityManager.tsx:112 | The term takes the typed text. |
| Amenities.AmenityScreen.OpenCreate | src/components/admin/AmenityManager.tsx:80-84 | A blank form opens in create mode. |
| Amenities.AmenityScreen.OpenEdit | src/components/admin/AmenityManager.tsx:59-67 | The form opens holding the amenity. |
| Amenities.AmenityScreen.UpdateForm | src/components/admin/AmenityManager.tsx:197-220 | The form takes the typed values. |
| Amenities.AmenityScreen.Submit | src/components/admin/AmenityManager.tsx:42-57 | Runs only on a form with a name. The save call is recorded and every amenity written has a name. On success the list is re-fetched, loading ends and the modal resets. A failure leaves it as it was. |
| Amenities.AmenityScreen.CloseModal | src/components/admin/AmenityManager.tsx:51-53 | After a successful save the modal is closed and the form is blank and in create mode. |
| Amenities.AmenityScreen.DeleteAmenity | src/components/admin/AmenityManager.tsx:69-78 | The delete is sent only after confirmation and keeps every written amenity named. The list is re-fetched and loading ends after a successful delete; otherwise loading is unchanged. |
| BookingManager.MatchesSearch | src/components/admin/BookingManager.tsx:103-108 | No term, or the term found ignoring case in the guest's name or e-mail or the hotel's name, or found as typed in the id's digits. |
| BookingManager.MatchesStatus | src/components/admin/BookingManager.tsx:110 | The filter `all`, or the lower-cased status equal to the filter. |
| BookingManager.FilteredBookings | src/components/admin/BookingManager.tsx:103-112 | A booking is listed iff it passes the search (guest name, e-mail or hotel ignoring case, or the id's digits) and the status filter. Order is preserved. |
| BookingManager.NoFilterListsAll | src/components/admin/BookingManager.tsx:103-112 | No term and filter `all` list every booking in order. |
| BookingManager.SearchByIdFindsBooking | src/components/admin/BookingManager.tsx:108 | Typing a booking's id finds it. |
| BookingManager.StatusFilterIgnoresCase | src/components/admin/BookingManager.tsx:110 | The status filter compares the lower-cased status, so a booking's status case never changes whether it is listed. |
| BookingManager.StatusTone | src/components/admin/BookingManager.tsx:77-101 | Over the lower-cased status: `confirmed` is green, `pending` yellow, `cancelled` red, and anything else gray. |
| BookingManager.StatusToneIgnoresCase | src/components/admin/BookingManager.tsx:77-101 | The badge depends only on the lower-cased status. |
| BookingManager.CapitalisedPendingHasNoActions | src/components/admin/BookingManager.tsx:228 | A `Pending` booking gets the pending badge but no confirm or cancel buttons. |
| BookingManager.ActionsOffered | src/components/admin/BookingManager.tsx:228 | The confirm and cancel buttons appear iff the status is exactly `pending`. |
| BookingManager.Cell | src/components/admin/BookingManager.tsx:191-199 | A present, non-empty field is shown as it is; a missing or empty one shows `N/A`. |
| BookingManager.EmptyMessage | src/components/admin/BookingManager.tsx:260-263 | The plain "none found" text is shown iff no term and filter `all`. |
| BookingManager.StatusCall | src/components/admin/BookingManager.tsx:53-59 | `confirmed` gives a confirm call and `cancelled` a cancel call. Any other status gives no call. |
| BookingManager.BookingScreen.constructor | src/components/admin/BookingManager.tsx:30-35 | The screen starts with no bookings, filter `all` and nothing selected. |
| BookingManager.BookingScreen.Visible | src/components/admin/BookingManager.tsx:103-112 | The rows are a subsequence of the bookings. |
| BookingManager.BookingScreen.FetchBookings | src/components/admin/BookingManager.tsx:41-51 | A failure keeps the old list. Loading ends either way. |
| BookingManager.BookingScreen.SetSearchTerm | src/components/admin/BookingManager.tsx:130 | The term takes the typed text. |
| BookingManager.BookingScreen.SetStatusFilter | src/components/admin/BookingManager.tsx:138 | The filter takes the chosen value. |
| BookingManager.BookingScreen.ChangeStatus | src/components/admin/BookingManager.tsx:53-64 | The status call, if any, is recorded. The list is re-fetched unless that call failed. |
| BookingManager.BookingScreen.DeleteBooking | src/components/admin/BookingManager.tsx:66-75 | The delete is sent only after confirmation. The list is re-fetched and loading ends after a successful delete; otherwise loading is unchanged. |
| BookingManager.BookingScreen.ShowDetails | src/components/admin/BookingManager.tsx:223 | The details dialog shows the chosen booking, or closes. |
| BookingManager.ConfirmScenario | src/components/admin/BookingManager.tsx:53-64 | Confirming a pending booking sends one confirm call and shows the re-fetched list. |
| AIChat.GenerateReply | src/components/AIChat.tsx:51-65 | The reply topic for a text. It has no contract of its own; `ReplyTopics` states the choice. |
| AIChat.ReplyTopics | src/components/AIChat.tsx:51-65 | Over the lower-cased text the groups are tried in order: airport (`bole`, `airport`), `bahir dar`, budget (`budget`, `cheap`, `under`), luxury (`luxury`, `5 star`). Each reply comes iff its group matches and no earlier one does; the general reply iff none matches. |
| AIChat.ReplyIgnoresCase | src/components/AIChat.tsx:52 | The reply does not depend on letter case. |
| AIChat.AirportWins | src/components/AIChat.tsx:54 | A text with the airport reply keeps it whatever is appended. |
| AIChat.ChatWidget.constructor | src/components/AIChat.tsx:12-22 | The widget starts closed, holding only the greeting. |
| AIChat.ChatWidget.SetOpen | src/components/AIChat.tsx:138 | The chat opens or closes. |
| AIChat.ChatWidget.EditInput | src/components/AIChat.tsx:122 | The input takes the typed text. |
| AIChat.ChatWidget.SendMessage | src/components/AIChat.tsx:24-37 | A blank input changes nothing. Otherwise the untrimmed text is appended and the input clears. The typing indicator shows and a reply is scheduled. Every message stays answered or waiting. |
| AIChat.ChatWidget.ReplyArrives | src/components/AIChat.tsx:39-48 | The oldest waiting message gets the reply its own text selects, and the indicator hides. |
| AIChat.BoleGetsAirportReply | src/components/AIChat.tsx:52-55 | A text mentioning Bole in any letter case gets the airport reply. |
| AIChat.AskAndAnswer | src/components/AIChat.tsx:24-48 | A non-blank question is shown at once. When its timer fires it is answered with the reply its own keywords select. |
| AIChat.AskAboutBole | src/components/AIChat.tsx:24-65 | A question mentioning Bole is shown, then answered with the airport reply. |

## Left out

- Network, JSON and storage encoding. Every backend call is an outcome parameter. The `src/services/api.ts` client is not part of this model. Local storage holds values, not their JSON text.
- Money. Totals, the 15% tax, `Math.round`, room and hotel nightly prices (`real`) and discount percentages are carried but not computed. The booking total is not part of the payload model.
- Dates. Calendar dates are the browser parser's output: milliseconds, or `None` when unreadable (where JavaScript gets `NaN`), passed in as a function. The clock (`Date.now`, `new Date()`) is a parameter. `toLocaleDateString` display is not modelled.
- `parseInt` covers decimal digits after optional whitespace and sign. Hexadecimal prefixes, radix arguments and very large values are not modelled. `parseFloat` for room prices is not modelled.
- Letter case and whitespace are ASCII only. `toLowerCase` has no Unicode mapping, and `trim` covers space, tab, newline, carriage return, form feed and vertical tab only.
- BookingFlow.BookingPage.SubmitBooking: the random reference code is a parameter constrained to at most six characters from 0–9 and A–Z. The randomness is not modelled.
- AIChat.ReplyTopics: the five canned reply texts are represented by the topic they belong to, not by their wording.
- AIChat.ChatWidget.ReplyArrives: timers are a queue of waiting texts that reply oldest first, each after its 1.5 s delay; other interleavings of the timers are not modelled. The class invariant does not record that waiting texts are non-blank.
- React scheduling. Effects are modelled as running right after the state change that triggers them. Re-renders, stale closures and concurrent requests are not modelled.
- The two `useCallback` screens, special offers and room types, name `applyFilters` in an effect's dependency list before the `const` that declares it. JavaScript's temporal dead zone makes that read fail at render time. The model gives the intended behaviour instead: the list is refiltered after every change.
- The login page always navigates to `/account` and ignores the `from` location the guard passes. The login page is not part of this model; only the guard's redirect is.
- HotelDetail.BookingQuery: the link's query string is a map of its four keys. URL escaping of the values is not modelled.
- HotelDetail.Display: the page keeps the fallback hotel as a tag carrying the route id. `Display` turns it into the placeholder record with its fixed texts and picture.
- HotelDetail.NextIndex: the remainder `%` of the carousel is written as a conditional. The two agree for an index within the gallery, which the page's invariant guarantees.
- The reviews page header shows a fixed average of 4.8 with `Math.floor(4.8)` filled stars. It is a constant, not computed from the reviews, so it is not modelled.
- Browser form validation. The three admin `Submit` methods require what the browser checks on the `required`, `min` and `max` attributes before `onSubmit` fires. The `step` of the room price (whole cents) and the well-formedness of date and number input values are not part of that requirement.
- Presentation: icons, styling, modals' markup, and the loading and empty placeholders other than their message text.
- The favourites backend push goes to an operation the API client does not define, so it always fails and is logged. The model records each push attempted and nothing else.
