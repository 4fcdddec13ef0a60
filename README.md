# sumtech-clients storefront — a Dafny model of its decision logic

This project models the client-side logic of a React storefront in Dafny:

- **Cart and checkout rules of the Shop page**: membership and per-product
  quantity, item count and total, the add / update / remove handlers, opening
  the checkout dialog, the Google Maps delivery-link check, the phone check,
  the state after an order, and the product search with its suggestions.
- **Events page**: the upcoming/past time window, the text search and its
  suggestions, the YouTube-id extractor and the 150-character preview.
- **Portfolio page**: the search-and-category filter over its four fixed
  projects, and the "first three technologies + N" tag rule.
- **Authentication context**: the session as a state machine over
  `(token, user, loading)` with checkSession, login, register, logout,
  updateProfile and updatePassword.
- **Route guard**: its decision between spinner, redirect and children.
- **Form pages** (Profile, SignUp, Login): their field updates, guards,
  message and `loading` handling.
- **Navbar**: the menu and dropdown toggles.

Every server call is a parameter `Outcome<T> = Success(response) |
Failure(message)`, where `message` is the server's
`err.response?.data?.message`. Each request a Shop handler would send is
returned as a `Request` value, and each `alert` as an `Alert` value.

Where state is updated in place, the model keeps it in place too. The
`Session`, `ShopPage`, `EventsPage`, `ProfilePage`, `SignUpPage`,
`LoginPage` and `Menu` classes have methods whose `ensures` clauses give
the new state.

- **Session transitions.** `Session`'s new state is stated through the pure
  transition functions `CheckSessionStep`, `LoginStep`, and so on.
- **Order confirmation.** `ConfirmOrderWithLocation` is stated through
  `ConfirmStep`.
- **Events filtering.** The events filter effect is stated through
  `SearchEvents` and `EventSuggestions`.

The lemmas about those functions carry the properties.

Modules follow the source files:
- **Helper modules**: `Wrappers` holds Option, Outcome and `||` on
  messages. `Text` holds ASCII `toLowerCase`, `includes` and `trim`.
  `Sequences` holds `filter` and `slice`.
- **Shop.jsx** is split across three modules: `ShopCart` holds the pure
  cart values and the search, `DeliveryLink` holds the maps link, and `Shop`
  holds the page's handlers.
- **Other source files**: `Events`, `Portfolio`, `AuthContext`,
  `ProtectedRoute`, `Profile`, `SignUp`, `Login` and `Navbar` each model
  the file of the same name.

Behaviour that follows from the code and is easy to misread:

- **Shop handlers without a user.** `handleUpdateQuantity`,
  `handleRemoveFromCart` and `confirmOrderWithLocation` do not check for a
  user. They read `user._id` inside their `try`. Without a user that read
  throws, and the handler shows its failure alert without sending anything.
  The model does exactly this; it does not forbid the call.
- **Phone number.** The number is accepted only if it is non-empty after
  `trim`, so a number of spaces is refused.
- **Delivery link.** The link test is a prefix test with no end anchor,
  lowered ASCII-only, because `/i` without the `u` flag folds only ASCII.
- **Events search term.** The search term is tested for blankness after
  `trim`, but it is matched untrimmed. Suggestions come from all events,
  not only those inside the time window.
- **getYouTubeId.** Because the leading `.*` is greedy, the id comes after
  the LAST marker (`youtu.be/`, `v/`, `u/x/`, `embed/`, `watch?v=`, `&v=`)
  that starts before the first line terminator. The id is the longest run
  after that marker with no `#`, `&` or `?`. `LastMarker` models this
  backtracking.
- **Portfolio search term.** The term is not trimmed: the empty term keeps
  every project, and a term of spaces is searched for literally.
- **Password mismatch on the Profile page.** It sets the error but leaves
  an earlier success text in place.

## Model

| member | source | states |
|---|---|---|
| Wrappers.MessageOr | src/pages/Profile.jsx:60 | `message \|\| fallback`: the server's message whenever it is non-empty, the fallback exactly when it is absent or empty; never empty when the fallback is not |
| Text.Lower | src/pages/Shop.jsx:118 | ASCII `toLowerCase` keeps the length and lowers each character in place |
| Text.ContainsIffOccurs | src/pages/Shop.jsx:118 | `includes` holds exactly when the term occurs at some index |
| Text.EmptyTermMatches | src/pages/Portfolio.jsx:59-60 | the empty term is contained in every text |
| Text.TrimStart | src/pages/Shop.jsx:111 | `trimStart` drops only leading JavaScript white space and stops at a non-space |
| Text.TrimEnd | src/pages/Shop.jsx:111 | `trimEnd` drops only trailing JavaScript white space and stops at a non-space |
| Text.BlankIffAllSpace | src/pages/Shop.jsx:111 | the blank test holds exactly when every character is white space |
| Text.BlankIffTrimEmpty | src/pages/Shop.jsx:111 | the character-by-character blank test is exactly `s.trim() === ""` |
| Text.OccursShift | src/pages/Shop.jsx:118 | an occurrence in the tail is an occurrence one place later in the whole text |
| Sequences.Filter | src/pages/Shop.jsx:117-119 | `filter` keeps only elements satisfying the predicate, and every such element |
| Sequences.FilterCount | src/pages/Shop.jsx:117-119 | `filter` keeps each element satisfying the predicate as many times as it occurs in the input, and drops every occurrence of any other |
| Sequences.Map | src/pages/Shop.jsx:123 | `map(f)` keeps the length and puts `f` of the i-th element at position i (the product titles here, the event titles at src/pages/Events.jsx:60) |
| Sequences.Take | src/pages/Shop.jsx:127 | `slice(0, n)` is the prefix of exactly `n` elements, or the whole list when it has fewer |
| Sequences.FilterIsSubsequence | src/pages/Shop.jsx:117-119 | a filtered list is an order-preserving sublist |
| Sequences.FilterAll | src/pages/Shop.jsx:111-112 | filtering with a predicate that always holds returns the list |
| Sequences.FilterHead | src/pages/Shop.jsx:117-119 | `filter` takes the first element exactly when it satisfies the predicate |
| Sequences.FilterPartition | src/pages/Events.jsx:41-46 | two complementary filters split a list: the multisets add up to the list's |
| Sequences.FilterSplit3 | src/pages/Portfolio.jsx:58-63 | three disjoint filters that together cover a fourth split its result |
| AuthContext.CheckSessionSettles | src/context/AuthContext.jsx:15-32 | loading is false after checkSession; with no truthy token the user is cleared, the token kept, and the answer ignored (no request) |
| AuthContext.CheckSessionWithToken | src/context/AuthContext.jsx:17-27 | with a token, success adopts the response's user; failure removes token and user |
| AuthContext.LoginStoresOnlyReturnedToken | src/context/AuthContext.jsx:50-64 | login stores only a truthy returned token, adopts a returned user, otherwise its next state is checkSession's on the state with the stored token; failure rethrows and changes nothing |
| AuthContext.RegisterKeepsToken | src/context/AuthContext.jsx:34-48 | register never stores a token of its own (the old one stays, or is dropped by a failed checkSession); a successful register settles loading through checkSession |
| AuthContext.LogoutAlwaysClears | src/context/AuthContext.jsx:66-75 | logout clears token and user whatever the server answers |
| AuthContext.UpdatesTouchOnlyUser | src/context/AuthContext.jsx:77-89 | updatePassword changes nothing; updateProfile changes only the user, to the response's |
| AuthContext.Session.constructor | src/context/AuthContext.jsx:8-9 | the provider starts with no user and loading true |
| AuthContext.Session.CheckSession | src/context/AuthContext.jsx:15-32 | requests only with a truthy stored token; new state is CheckSessionStep of the old |
| AuthContext.Session.Login | src/context/AuthContext.jsx:50-64 | new state and result are LoginStep of the old state |
| AuthContext.Session.Register | src/context/AuthContext.jsx:34-48 | new state and result are RegisterStep of the old state |
| AuthContext.Session.Logout | src/context/AuthContext.jsx:66-75 | new state is LogoutStep of the old state |
| AuthContext.Session.UpdateProfile | src/context/AuthContext.jsx:77-82 | new state and result are UpdateProfileStep of the old state |
| AuthContext.Session.UpdatePassword | src/context/AuthContext.jsx:84-89 | reports UpdatePasswordStep's result and changes nothing |
| ProtectedRoute.ChildrenIff | src/components/ProtectedRoute.jsx:9-30 | children are shown exactly to a settled, logged-in user with no role requirement or an allowed role |
| ProtectedRoute.DecisionOrder | src/components/ProtectedRoute.jsx:9-27 | loading wins; then no user goes to /login; then a missing or unlisted role goes to / |
| ProtectedRoute.NoChildrenAfterLogout | src/components/ProtectedRoute.jsx:17-19 | after logout a settled guard always redirects to /login |
| ShopCart.IsInCartIff | src/pages/Shop.jsx:234-236 | isInCart holds exactly when some line holds the product |
| ShopCart.CartQuantityOfFirstLine | src/pages/Shop.jsx:239-242 | getCartQuantity is the quantity of the first line holding the product, 0 when none does |
| ShopCart.SumOfCons | src/pages/Shop.jsx:245 | the sum over a list is its first term plus the sum of the rest |
| ShopCart.ReduceIsSum | src/pages/Shop.jsx:245-251 | the left-fold `reduce` equals the start value plus the sum |
| ShopCart.CartTotalsAreSums | src/pages/Shop.jsx:245-251 | cartItemCount is the sum of quantities; the total is the sum of price × quantity |
| ShopCart.TotalExample | src/pages/Shop.jsx:248-251 | 1000 × 2 and 500 × 1 give a total of 2500 over 3 items |
| ShopCart.SearchProductsSpec | src/pages/Shop.jsx:110-120 | a blank term shows all products and no suggestions; otherwise exactly the products whose title contains the term, in order, each as many times as it occurs in the list |
| ShopCart.FilterTitlesBy | src/pages/Shop.jsx:117-126 | when a product test looks only at the title, filtering titles equals taking the titles of the filtered products |
| ShopCart.FilterTitles | src/pages/Shop.jsx:117-126 | the suggestions' title filter and the products' filter select the same items |
| ShopCart.SuggestionsAreFirstResults | src/pages/Shop.jsx:122-127 | suggestions are at most 5: the titles of the first filtered products |
| DeliveryLink.LetterRun | src/pages/Shop.jsx:193 | `[a-z]+` consumes the maximal run of lower-case letters |
| DeliveryLink.ValidIffRegex | src/pages/Shop.jsx:193-195 | the prefix scanner accepts a link exactly when the maps pattern matches its ASCII-lowered text |
| DeliveryLink.ValidImpliesRegex | src/pages/Shop.jsx:193 | an accepted link splits into scheme, www and host as the pattern requires |
| DeliveryLink.RegexImpliesValid | src/pages/Shop.jsx:193 | every split the pattern allows is found by the scanner |
| DeliveryLink.AcceptedParts | src/pages/Shop.jsx:193 | a scheme, a `www.` part and a host, in any letter case, followed by anything, are accepted |
| DeliveryLink.NoHost | src/pages/Shop.jsx:193 | text starting with anything but `g` or `m` starts with no host form |
| DeliveryLink.ShortLinkAccepted | src/pages/Shop.jsx:193-195 | `https://maps.app.goo.gl/AbC123` is accepted |
| DeliveryLink.MixedCaseLinkAccepted | src/pages/Shop.jsx:193 | `www.Google.COM/maps` is accepted (case-insensitive) |
| DeliveryLink.RefusedExamples | src/pages/Shop.jsx:195 | `https://example.com/maps` and the empty string are refused |
| Shop.ShopPage.constructor | src/pages/Shop.jsx:24-32 | empty cart and orders, closed drawer and dialog, phone from `user?.phoneNumber \|\| ""` |
| Shop.ShopPage.HandleAddToCart | src/pages/Shop.jsx:131-149 | without a user: login alert, no request, cart kept; with one: sends quantity 1, adopts the server's cart or alerts and keeps it |
| Shop.ShopPage.HandleUpdateQuantity | src/pages/Shop.jsx:152-164 | a quantity below 1 does nothing; otherwise sends it and adopts the server's cart, or alerts and keeps the cart (also without a user) |
| Shop.ShopPage.HandleRemoveFromCart | src/pages/Shop.jsx:167-175 | sends the removal and adopts the server's cart, or alerts and keeps the cart (also without a user) |
| Shop.ShopPage.HandleCreateOrder | src/pages/Shop.jsx:178-190 | opens the dialog only for a logged-in user with a non-empty cart; otherwise alerts and leaves it |
| Shop.ShopPage.ConfirmOrderWithLocation | src/pages/Shop.jsx:192-231 | new state, request and alert are ConfirmStep of the old checkout state |
| Shop.ShopPage.RunSearchEffect | src/pages/Shop.jsx:110-128 | sets the filtered products and suggestions to SearchProducts and ProductSuggestions |
| Shop.ShopPage.ItemCount | src/pages/Shop.jsx:245 | the cart icon's count is the sum of the quantities |
| Shop.ShopPage.Total | src/pages/Shop.jsx:248-251 | the drawer's total is the sum of price × quantity |
| Shop.OrderSentIff | src/pages/Shop.jsx:192-215 | the order is sent exactly when the link matches the maps pattern, the phone has a non-space character and a user is logged in, with user id, cart id, link and phone |
| Shop.ConfirmOutcomes | src/pages/Shop.jsx:195-230 | link checked first, then phone; only a placed order changes state: cart emptied, link cleared, drawer and dialog closed, order prepended to the old orders |
| Shop.NoSecondOrder | src/pages/Shop.jsx:217-224 | after a placed order the count and total are 0 and a second confirmation is refused without a request |
| Events.TimeWindowsPartition | src/pages/Events.jsx:41-46 | with valid dates, "upcoming" (date > now) and "past" (date ≤ now) split the events |
| Events.InvalidDateInNoWindow | src/pages/Events.jsx:41-46 | an invalid date is in neither window; "all" and any other value keep every event |
| Events.SubsequenceTransitive | src/pages/Events.jsx:39-55 | two successive filters still give an order-preserving sublist |
| Events.SearchEventsSpec | src/pages/Events.jsx:39-57 | filteredEvents keeps order; a blank term shows the window, another term exactly the window's events whose title, description or truthy location contains it, each as many times as in the window |
| Events.SuggestionsSpec | src/pages/Events.jsx:59-67 | no suggestions for a blank term; otherwise at most 5 matching titles of any event, all of them when at most 5 match |
| Events.MarkerAt | src/pages/Events.jsx:71 | a matched alternative of group 1 lies inside the URL and starts with one of `yvuew&` |
| Events.LineEnd | src/pages/Events.jsx:71 | `^.*` can reach exactly up to the first line terminator |
| Events.LastMarker | src/pages/Events.jsx:71-72 | the backtracking `.*` settles on the last alternative position at or before its limit, or none |
| Events.IdEnd | src/pages/Events.jsx:71 | `[^#&?]*` takes the maximal run without `#`, `&`, `?` |
| Events.CapturedId | src/pages/Events.jsx:72 | the captured group 2 never contains `#`, `&` or `?` |
| Events.GetYouTubeId | src/pages/Events.jsx:70-74 | returns the regular expression's capture exactly when there is one and it has 11 characters; the id then has no `#`, `&`, `?` |
| Events.MarkerSeparator | src/pages/Events.jsx:71 | every alternative of group 1 contains a `/` or one of `#&?` |
| Events.EmbedRoundTrip | src/pages/Events.jsx:331-338 | an id without `/#&?` is captured back from the embed address built from it, and returned exactly when it has 11 characters |
| Events.PreviewShape | src/pages/Events.jsx:244-246 | the preview has at most 153 characters: the description when at most 150, else its first 150 and "..." |
| Events.PreviewFixedPoints | src/pages/Events.jsx:244-246 | the preview equals the description exactly when it is at most 150 long or is 153 long ending in "..." |
| Events.PreviewIdempotent | src/pages/Events.jsx:244-246 | previewing a preview changes nothing |
| Events.EventsPage.constructor | src/pages/Events.jsx:15-21 | empty lists, loading, filter "all", empty term |
| Events.EventsPage.FetchEvents | src/pages/Events.jsx:23-36 | success sets both lists to the response; loading ends either way |
| Events.EventsPage.SelectFilter | src/pages/Events.jsx:87-89 | filterEvents sets the active filter |
| Events.EventsPage.RunFilterEffect | src/pages/Events.jsx:38-68 | the effect sets filteredEvents to SearchEvents and suggestions to EventSuggestions |
| Portfolio.ShownIffMatches | src/pages/Portfolio.jsx:58-63 | over any list, an item is kept exactly when it matches, and order is kept |
| Portfolio.ProjectShownIff | src/pages/Portfolio.jsx:58-63 | a project is shown exactly when the untrimmed term is in its title or description and the filter is "all" or its category; order kept |
| Portfolio.InitialShowsAll | src/pages/Portfolio.jsx:6-63 | "all" with the empty term shows all four projects |
| Portfolio.PortfolioCategories | src/pages/Portfolio.jsx:11-56 | every fixed project's category has a filter button |
| Portfolio.ButtonsExclusive | src/pages/Portfolio.jsx:58-63 | a project with a button category shows under "all" exactly when it shows under one button, never under two |
| Portfolio.CategoryButtonsSplitAll | src/pages/Portfolio.jsx:58-63 | for any term, the three category buttons together show what "all" shows, each project once |
| Portfolio.TechTags | src/pages/Portfolio.jsx:173-185 | at most the first 3 technologies, and a "+N" tag exactly when there are more, with shown + N = count |
| Portfolio.TechTagsAccount | src/pages/Portfolio.jsx:173-185 | the tags plus the rest give all technologies; N counts those past the third |
| Portfolio.PortfolioTags | src/pages/Portfolio.jsx:17-53 | only the first project has a "+1" tag |
| Profile.WithProfileValue | src/pages/Profile.jsx:38-43 | the named profile field takes the value and no other field changes |
| Profile.WithPasswordValue | src/pages/Profile.jsx:45-50 | the named password field takes the value and no other field changes |
| Profile.ProfileEditLaws | src/pages/Profile.jsx:38-43 | re-typing a field's value changes nothing; the last edit of a field wins |
| Profile.DatePart | src/pages/Profile.jsx:31 | `split('T')[0]` is the prefix before the first 'T' |
| Profile.FormFromUser | src/pages/Profile.jsx:28-34 | username, email, gender and phone are copied from the user; the date is `DatePart` of the stored date: its maximal prefix without 'T' |
| Profile.DatePartOfPlainDate | src/pages/Profile.jsx:31 | a date with no 'T' is kept whole |
| Profile.DatePartOfTimestamp | src/pages/Profile.jsx:31 | `date + "T" + time` gives back `date` |
| Profile.ProfilePage.constructor | src/pages/Profile.jsx:8-23 | empty forms (gender "male") and empty messages |
| Profile.ProfilePage.SyncFromUser | src/pages/Profile.jsx:26-35 | a present user refills the form; no user leaves it |
| Profile.ProfilePage.HandleProfileChange | src/pages/Profile.jsx:38-43 | the form becomes WithProfileValue of the old form |
| Profile.ProfilePage.HandlePasswordChange | src/pages/Profile.jsx:45-50 | the form becomes WithPasswordValue of the old form |
| Profile.ProfilePage.HandleProfileSubmit | src/pages/Profile.jsx:52-62 | messages cleared, session updated by UpdateProfileStep, then the success text or the server message / "Update failed" |
| Profile.ProfilePage.HandlePasswordSubmit | src/pages/Profile.jsx:64-84 | a mismatch sets only the error and sends nothing; otherwise messages cleared and form sent; success empties the form, failure keeps it with the server message / "Update failed" |
| Profile.ProfilePage.HandleLogout | src/pages/Profile.jsx:86-88 | the session takes LogoutStep |
| SignUp.WithValue | src/pages/SignUp.jsx:21-26 | the named field takes the value and no other field changes |
| SignUp.EditsCommute | src/pages/SignUp.jsx:21-26 | edits of different fields commute |
| SignUp.SignUpPage.constructor | src/pages/SignUp.jsx:7-19 | empty form (gender "male"), no error, not loading |
| SignUp.SignUpPage.HandleChange | src/pages/SignUp.jsx:21-26 | the form becomes WithValue of the old form |
| SignUp.SignUpPage.HandleSubmit | src/pages/SignUp.jsx:28-47 | a mismatch sets the error and touches neither loading nor the session; otherwise the form is sent, success goes to /profile, failure shows the server message / "Registration failed", loading ends false |
| Login.WithValue | src/pages/Login.jsx:17-22 | the named field takes the value and the other is unchanged |
| Login.LoginPage.constructor | src/pages/Login.jsx:8-13 | empty form, no error, not loading |
| Login.LoginPage.HandleChange | src/pages/Login.jsx:17-22 | the form becomes WithValue of the old form |
| Login.LoginPage.HandleSubmit | src/pages/Login.jsx:24-38 | no local check: the session takes LoginStep; success goes to /profile, failure shows the server message / "Login failed"; loading ends false |
| Login.FailedLoginShowsError | src/pages/Login.jsx:33-34 | a failed login keeps the session and always has a non-empty error to show |
| Navbar.Toggled | src/components/Navbar.jsx:18-20 | toggleDropdown opens `d` exactly when `d` was not open, so at most one dropdown is open |
| Navbar.ToggleTwice | src/components/Navbar.jsx:18-20 | toggling the same dropdown twice restores it, unless the other one was open |
| Navbar.Menu.constructor | src/components/Navbar.jsx:7-8 | menu closed, no dropdown |
| Navbar.Menu.ToggleMenu | src/components/Navbar.jsx:11-16 | the menu flips; opening it closes the dropdown, closing it leaves the dropdown |
| Navbar.Menu.ToggleDropdown | src/components/Navbar.jsx:18-20 | the dropdown becomes Toggled of the old one; the menu is untouched |
| Navbar.Menu.FollowTopLink | src/components/Navbar.jsx:50-53 | a top-level link closes the menu only |
| Navbar.Menu.FollowDropdownLink | src/components/Navbar.jsx:65-98 | a dropdown entry closes the menu and the dropdown |
| Navbar.Menu.HandleLogout | src/components/Navbar.jsx:22-26 | the session takes LogoutStep, then the menu and dropdown are closed |

## Left out

- Network calls: each request is an `Outcome` parameter. The request bodies are recorded only where a guard decides whether one is sent. The response bodies are opaque values.
- Polling and data loading on the Shop page (`fetchAllData`, the 5-second refresh): timer-driven, with no decision logic.
- `ShopCart.TotalAmount`: prices are whole numbers; `parseFloat` and `toFixed(2)` (floating point and formatting) are not modelled.
- `Text.Lower`: `toLowerCase` is modelled on ASCII letters only. That matches the `/i` maps pattern, but not non-ASCII letters in the searches.
- `Events.Preview`: lengths are counted in characters, not UTF-16 code units, so a description with characters outside the Basic Multilingual Plane is cut differently.
- Date handling: `new Date(...)` is an integer timestamp, or None for an invalid date, and the clock's reading is the parameter `now`. `formatDate` and locale formatting are not modelled.
- `Profile.FormFromUser`: the stored date of birth is taken to be an ISO timestamp already, so `toISOString` leaves it unchanged. An unparsable date, on which `toISOString` throws, is not modelled.
- Alerts are recorded by kind (`Alert`); their texts, `console` output and the `navigate` call beyond its target are not modelled.
- `localStorage` is modelled only as the session's `token` field.
- Ordering of React state updates and re-renders: every handler is modelled as if its state updates applied at once. The `loading = true` set during a submit is overwritten before the handler returns and is not observable in the model.
- Markup and purely visual state: the image and project modals, the `document.body.style.overflow` toggling, the `selectedEvent` modal, and Swiper, framer-motion and lucide rendering.
- Pages with no decision logic (Contact, Careers, Blogs, Home, Products, TopUP, NotFound), the footer, hero and floating buttons, the routing table and the configuration files.
- `Events.GetYouTubeId`: the 11-character test counts characters, where `length` counts UTF-16 code units, so a capture with characters outside the Basic Multilingual Plane is judged differently (`"https://youtu.be/abcdefghi😀"` has an 11-unit capture in JavaScript but a 10-character one here). Also, only the regular expression's behaviour on strings is modelled; a `url` that is not a string, on which `match` throws, is not modelled.
