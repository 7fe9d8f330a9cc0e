# FlyAway client logic in Dafny

This project models the decision logic of the FlyAway flight-booking web
client, a React application whose data lives behind a REST API. What the
client decides by itself is modelled here:

- The passenger manifest check and its mapping.
- The booking guard on the booking page.
- The registration checks and the register payload.
- Login, "remember me", session restore, logout and the role-gated routes.
- The route guard component.
- The wallet projection.
- The booking history sort and its toggle.
- The admin screens for airports, users, flights and airplanes: search, edit and add modes, payload conversion, id lookups.
- The airport autocomplete box.
- The flight search form.
- The help chat widget.

Every network call the client awaits is a parameter of the handler that
awaits it. It is a `Response<T>` (`Ok(data)` or `Failed`), or a `bool` when
only success matters. `window.confirm` answers are `bool` parameters too. A
list reload that a handler starts without awaiting it is a further response
parameter, applied through the screen's own fetch method. JavaScript values
are `Js.Value`: undefined, null, booleans, integer numbers, NaN, strings and
objects as ordered property lists. The `Js` module gives them the language's
meaning:

- truthiness and `||`;
- property reads and object spread;
- `String()`, `trim`, ASCII case mapping and `includes`;
- `parseInt` and an integer `parseFloat`;
- the relational `<`, and `===`.

A component whose state changes is a `class Component` in the module named
after its source file. Its `useState` variables are fields and each handler
is a method. Alerts, toasts, navigations and requests are recorded as
sequences on the component, so a contract can say exactly what was shown or
sent. Pure helpers are functions, and what they promise is stated by their
contracts and by the lemmas beside them.

Modules:

- `Outcomes`: `Option` and `Response`.
- `Js`: the JavaScript value semantics above.
- `Browser`: the two web storage areas.
- `Search`: the shared admin list filter.
- One module per modelled source file.

## Model

| member | source | states |
|---|---|---|
| `Js.Or` | src/models/LoginModel.js:4-6 | `a \|\| b` is `a` when `a` is truthy and `b` otherwise; the result is truthy iff either operand is |
| `Js.LookupMissing` | src/models/RegisterModel.js:4-8 | reading a property no entry carries gives `undefined` |
| `Js.LookupFirstMatch` | src/models/RegisterModel.js:4-8 | reading a property gives the value of the first entry with that key |
| `Js.Get` | src/App.js:74 | a property read on an object is its own property; on null, undefined, numbers and booleans it is `undefined` |
| `Js.SetProp` | src/pages/RegisterPage.js:24-27 | `{ ...o, [k]: v }` reads `v` at `k`, leaves every other key as it was and adds at most one entry |
| `Js.TrimEmptyIffAllSpace` | src/components/ChatBox.js:26 | `s.trim()` is empty exactly when `s` is all white space |
| `Js.LowerOfUpper` | src/pages/AdminAirports.js:60-61 | lower-casing an upper-cased string gives the lower-cased original |
| `Js.ParseIntOfIntString` | src/models/BookingModel.js:15 | `parseInt` reads back the decimal text of every integer |
| `Js.ParseIntOfNum` | src/models/BookingModel.js:15 | `parseInt` of an integer number is that number |
| `Js.NatToStringInjective` | src/models/BookingModel.js:6 | different positions print as different decimal texts |
| `Js.LessThanNumbers` | src/pages/BookingPage.js:48 | `<` on two numbers is integer comparison |
| `Js.LessThanUndefined` | src/pages/BookingPage.js:48 | `<` with `undefined` on either side is false |
| `Js.ParseFloatOfNatString` | src/pages/AdminFlights.js:43 | `parseFloat` reads back the decimal text of a natural number |
| `Js.ParseFloatOfHexText` | src/pages/AdminFlights.js:43 | `parseFloat("0x1A")` stops at the `x` and gives 0 |
| `Js.ParseDecimal` | src/pages/AdminFlights.js:43 | the digits part of `parseFloat` is NaN exactly when the text starts with neither a digit nor a point followed by a digit, and is never negative |
| `Js.ParseFloatOfLeadingPoint` | src/pages/AdminFlights.js:43 | `parseFloat(".5")` has the integer part 0, not NaN |
| `Js.ParseIntOfHexText` | src/pages/AdminFlights.js:40 | `parseInt("0x1A")` reads the hexadecimal prefix and gives 26 |
| `Browser.TokenItem` | src/App.js:33 | the stored token item is truthy iff a non-empty token string is stored |
| `BookingModel.ValidatePassengerDetails` | src/models/BookingModel.js:3-9 | returns true iff every passenger has a truthy name, age and gender; otherwise it returns the message for the first incomplete passenger, and every earlier passenger is complete |
| `BookingModel.MissingFieldsMessage` | src/models/BookingModel.js:6 | the message is the fixed prefix followed by a number that `parseInt` reads as the 1-based position |
| `BookingModel.MessageIdentifiesPassenger` | src/models/BookingModel.js:4-6 | equal messages name the same passenger |
| `BookingModel.ZeroOrEmptyAgeIsMissing` | src/models/BookingModel.js:5 | an age of 0 or "" makes the passenger incomplete |
| `BookingModel.MapPassengerDetails` | src/models/BookingModel.js:12-17 | same length and order; name and gender are copied, the age is `parseInt` of the input age |
| `BookingModel.MappedAgeIsTypedNumber` | src/models/BookingModel.js:15 | an age typed as digits, or held as a number, arrives as that number |
| `BookingModel.CompleteManifestMapsPresentFields` | src/models/BookingModel.js:3-17 | a manifest that passes the check maps to requests with a truthy name and gender everywhere |
| `BookingModel.CompleteAgeMayNotParse` | src/models/BookingModel.js:5-15 | an age "abc" passes the check and reaches the request as NaN |
| `RegisterModel.BuildRegisterPayload` | src/models/RegisterModel.js:2-10 | the four user fields are copied; the role is the form's role when truthy and "CUSTOMER" otherwise, so it is always truthy |
| `RegisterModel.PayloadRecordFields` | src/models/RegisterModel.js:3-9 | the payload object carries exactly the five payload fields |
| `RegisterModel.BuildIsIdempotent` | src/models/RegisterModel.js:2-10 | building a payload from a built payload gives the same payload |
| `RegisterModel.ExtraFieldsDropped` | src/models/RegisterModel.js:3-9 | setting any other form field does not change the payload |
| `LoginModel.UserObject` | src/models/LoginModel.js:3-7 | the user object has exactly the three properties userEmail, userRole and userId, holding the given values |
| `LoginModel.CreateUserFromToken` | src/models/LoginModel.js:2-8 | each field is its claim when truthy and its fallback otherwise; nothing else is present |
| `LoginModel.NoClaimsGiveFallbacks` | src/models/LoginModel.js:2-8 | a token with none of the claims yields exactly the fallbacks |
| `LoginModel.AllClaimsIgnoreFallbacks` | src/models/LoginModel.js:2-8 | a token with all three claims yields them whatever the fallbacks |
| `WalletModel.CreateWalletModel` | src/models/WalletModel.js:3-9 | walletId, userId and balance are copied and every other key reads as undefined; null or undefined data throws |
| `WalletModel.CreateWalletModelIdempotent` | src/models/WalletModel.js:3-9 | projecting a projected wallet changes nothing |
| `WalletModel.BalanceUnaltered` | src/models/WalletModel.js:7 | the balance of the model is the balance received |
| `LoginPage.SessionUserFields` | src/pages/LoginPage.js:28-30 | the session user carries the typed email, the response role and the response id |
| `LoginPage.RememberedArea` | src/pages/LoginPage.js:32-35 | "remember me" stores the token as a string and the user object |
| `LoginPage.OnLoginArgumentsAsWritten` | src/pages/LoginPage.js:37 | the call passes the user first and the token second |
| `LoginPage.OnLoginArguments` | src/App.js:45 | the order `handleLogin` expects: the token first, then the user |
| `LoginPage.SuccessToasts` | src/pages/LoginPage.js:38-44 | "Login successful!" comes first; "Role not supported yet" follows exactly when the role is not CUSTOMER |
| `LoginPage.SuccessRedirect` | src/pages/LoginPage.js:40-44 | only the CUSTOMER role navigates, to /dashboard |
| `LoginPage.Component.constructor` | src/pages/LoginPage.js:10-14 | empty email and password, "remember me" off, not loading, nothing sent or shown |
| `LoginPage.Component.SetEmail` | src/pages/LoginPage.js:60 | the email is set and nothing else changes |
| `LoginPage.Component.SetPassword` | src/pages/LoginPage.js:67 | the password is set and nothing else changes |
| `LoginPage.Component.ToggleRemember` | src/pages/LoginPage.js:74 | "remember me" flips and nothing else changes |
| `LoginPage.Component.HandleLogin` | src/pages/LoginPage.js:18-26 | loading becomes true and one request with the typed email and password is sent |
| `LoginPage.Component.LoginSucceeded` | src/pages/LoginPage.js:28-49 | local storage is written only with "remember me" and session storage never; `onLogin` is called as the page writes it, with the session user first and the token second; toasts and navigation follow the role; loading ends |
| `LoginPage.Component.LoginFailed` | src/pages/LoginPage.js:45-49 | "Invalid credentials" is shown, `onLogin` is not called, nothing is navigated, loading ends |
| `App.Route` | src/App.js:71-104 | a gated page is shown iff the user's role is the page's role: CUSTOMER for /dashboard and /wallet, ADMIN for /admin; it is shown with the token and the user's id |
| `App.HasRole` | src/App.js:74 | `user?.userRole === role` holds iff the user is an object whose own userRole is that string, so null, undefined and primitive users never pass |
| `App.NoUserDenied` | src/App.js:71-104 | a null user is denied every gated route |
| `App.AdminAndCustomerExclusive` | src/App.js:71-104 | no user reaches both /admin and a customer page |
| `App.StringUserDenied` | src/App.js:45-80 | a user that is a string is denied every gated route |
| `App.StoredToken` | src/App.js:33 | the local token wins when it is a non-empty string; otherwise the session token is read |
| `App.StoredUser` | src/App.js:34 | the local user wins when present; otherwise the session user is read |
| `App.RestoredSession` | src/App.js:33-39 | a session is restored iff the token is truthy and a user is stored, and then it is that pair |
| `App.LocalTokenTakesPrecedence` | src/App.js:33 | a non-empty local token is used whatever session storage holds |
| `App.SessionTokenFallback` | src/App.js:33 | with no local token, or an empty one, the session token is used |
| `App.RememberedLoginRestores` | src/App.js:32-42 | after a remembered login, a reload restores that token and user |
| `App.ClearedStorageRestoresNothing` | src/App.js:50-55 | after logout nothing is restored |
| `App.Component.constructor` | src/App.js:26-29 | no user, no token, loading until the mount effect has run |
| `App.Component.Restore` | src/App.js:32-42 | the stored pair is installed only when both parts are found; loading ends either way |
| `App.Component.HandleLogin` | src/App.js:45-48 | the first argument becomes the token and the second the user |
| `App.Component.HandleLogout` | src/App.js:50-55 | both storage areas are emptied and user and token become null |
| `App.Component.Screen` | src/App.js:58-104 | while loading every page shows the loading text; afterwards the role gate decides |
| `App.SwappedLoginDeniesDashboard` | src/pages/LoginPage.js:37 | with the arguments in the order written, a CUSTOMER login leaves App denying /dashboard |
| `App.LoginGrantsCustomerDashboard` | src/App.js:45-75 | with the arguments in the expected order, a CUSTOMER login opens /dashboard with the token and the user's id |
| `ProtectedRoute.Decide` | src/components/ProtectedRoute.js:4-9 | the children are rendered iff the user is truthy and its userType is "USER"; otherwise the result is a replacing redirect to /login |
| `ProtectedRoute.GuardRejectsEveryClientUser` | src/components/ProtectedRoute.js:5 | every user object the login page builds is redirected |
| `ProtectedRoute.GuardRejectsTokenUser` | src/components/ProtectedRoute.js:5 | every user built from token claims is redirected |
| `ProtectedRoute.DecideByRole` | src/App.js:74 | the guard on userRole CUSTOMER: children iff the user is truthy with that role |
| `ProtectedRoute.DecideByRoleAgreesWithDashboardGate` | src/App.js:74 | the role guard admits exactly the users the /dashboard route shows its page to |
| `ProtectedRoute.DecideByRoleAdmitsCustomer` | src/pages/LoginPage.js:30 | a CUSTOMER user built by the login page passes the role guard |
| `RegisterPage.WithField` | src/pages/RegisterPage.js:22-28 | the named field takes the value, every other field and the role are unchanged |
| `RegisterPage.HasCharIn` | src/pages/RegisterPage.js:37-38 | true iff some character of the string is in the class |
| `RegisterPage.ValidatePassword` | src/pages/RegisterPage.js:36-40 | the password passes iff it holds some decimal digit and some character of the listed special set |
| `RegisterPage.CheckRegistration` | src/pages/RegisterPage.js:43-51 | accepted iff the passwords agree and the rule holds; the mismatch is reported iff the passwords differ, so it wins over the rule |
| `RegisterPage.LettersOnlyRejected` | src/pages/RegisterPage.js:36-40 | a lower-case-letters-only password fails the rule |
| `RegisterPage.DigitAndSpecialAccepted` | src/pages/RegisterPage.js:36-40 | any password holding a digit and a listed special character passes |
| `RegisterPage.PostedFormIsPayload` | src/pages/RegisterPage.js:54 | the form the page posts, read by the payload builder, gives the five fields with role CUSTOMER |
| `RegisterPage.Component.constructor` | src/pages/RegisterPage.js:11-20 | the blank form with role CUSTOMER, an empty confirmation that counts as matching, nothing sent |
| `RegisterPage.Component.HandleChange` | src/pages/RegisterPage.js:22-28 | the form becomes the old form with the named field set |
| `RegisterPage.Component.HandleConfirmPasswordChange` | src/pages/RegisterPage.js:30-34 | the confirmation is stored and passwordMatch is true iff it equals the form's password |
| `RegisterPage.Component.HandleRegister` | src/pages/RegisterPage.js:42-61 | a mismatch or a weak password alerts its message and sends nothing; otherwise the form is posted once, then success alerts and navigates to /login and failure alerts the failure |
| `BookingPage.StateProp` | src/pages/BookingPage.js:12 | destructuring `state \|\| {}` gives undefined fields when there is no state |
| `BookingPage.Insufficient` | src/pages/BookingPage.js:48 | a falsy wallet always blocks; with a wallet, a missing balance or a missing price never blocks, because `<` with undefined is false |
| `BookingPage.GuardOnIntegers` | src/pages/BookingPage.js:48 | with integer balance and price, the booking is blocked iff balance < price, so an equal balance proceeds |
| `BookingPage.NoWalletBlocks` | src/pages/BookingPage.js:48 | without a wallet the booking is blocked |
| `BookingPage.MissingPriceDoesNotBlock` | src/pages/BookingPage.js:48 | a flight without a price is never blocked by the balance |
| `BookingPage.NoStateNoRequests` | src/pages/BookingPage.js:12-25 | opening the page without state counts as incomplete |
| `BookingPage.Component.constructor` | src/pages/BookingPage.js:12-17 | flight, userId and token come from the navigation state, undefined without one; no wallet, not loading, valid, no error |
| `BookingPage.Component.Mount` | src/pages/BookingPage.js:20-32 | incomplete state marks the page invalid, alerts and navigates to "/" without a wallet request; complete state requests the wallet |
| `BookingPage.Component.ReceiveWallet` | src/pages/BookingPage.js:34-45 | success stores the wallet; failure sets "Error fetching wallet details." |
| `BookingPage.Component.ConfirmBooking` | src/pages/BookingPage.js:47-63 | an unknown wallet or a short balance alerts and sends nothing; otherwise the error is cleared, loading starts and one request carries userId, flight.flightId and flight.price |
| `BookingPage.Component.BookingSettled` | src/pages/BookingPage.js:72-86 | a truthy response alerts "Booking confirmed!" and navigates to /dashboard; an empty response or a failure sets the failure message; loading ends either way |
| `BookingHistoryPage.Toggle` | src/pages/BookingHistoryPage.js:47-49 | the toggle always changes the order |
| `BookingHistoryPage.ToggleTwice` | src/pages/BookingHistoryPage.js:47-49 | toggling twice restores the order |
| `BookingHistoryPage.SortedMeansTimeOrder` | src/pages/BookingHistoryPage.js:20-24 | sorted by the comparator means newest first for "desc" and oldest first for "asc" |
| `BookingHistoryPage.InsertAt` | src/pages/BookingHistoryPage.js:20-24 | one insertion step extends the sorted prefix and keeps the same bookings |
| `BookingHistoryPage.SortInPlace` | src/pages/BookingHistoryPage.js:20-24 | the array ends sorted by booking time in the chosen order and holds the same bookings |
| `BookingHistoryPage.Component.constructor` | src/pages/BookingHistoryPage.js:8-11 | no bookings, not loading, newest first |
| `BookingHistoryPage.Component.FetchBookings` | src/pages/BookingHistoryPage.js:13-32 | success stores the fetched bookings sorted in the current order and as a permutation of them; failure keeps the list; loading is false afterwards |
| `BookingHistoryPage.Component.RunEffect` | src/pages/BookingHistoryPage.js:51-55 | bookings are fetched only with a truthy token; a fetched list arrives sorted and a failed fetch keeps the bookings |
| `BookingHistoryPage.Component.ToggleSortOrder` | src/pages/BookingHistoryPage.js:47-49 | the order flips and nothing else changes |
| `BookingHistoryPage.Component.CancelBooking` | src/pages/BookingHistoryPage.js:34-45 | a declined confirmation changes nothing; otherwise one delete is sent; success alerts "Booking canceled." and reloads, installing the sorted response or keeping the list when the reload fails, with loading down; failure alerts "Failed to cancel booking" and keeps the list |
| `Search.Filter` | src/pages/AdminAirports.js:57-62 | keeps exactly the records whose lower-cased, space-joined values contain the lower-cased query, as an order-preserving subsequence |
| `Search.Matches` | src/pages/AdminAirports.js:58-61 | the empty query matches every record, and a matching query is no longer than the record's joined text |
| `Search.FilterKeepsEveryCopy` | src/pages/AdminAirports.js:57-62 | every copy of a matching record is kept and no copy of another, so duplicates survive as `filter` keeps them |
| `Search.FilterEmptyQuery` | src/pages/AdminAirports.js:57-62 | an empty query keeps every record |
| `Search.FilterSameLowerCase` | src/pages/AdminAirports.js:60-61 | queries with the same lower-case form select the same records |
| `Search.FilterUpperCaseQuery` | src/pages/AdminAirports.js:60-61 | an upper-cased query selects the same records |
| `Search.FilterIdempotent` | src/pages/AdminUsers.js:25-30 | filtering a filtered list again changes nothing |
| `AdminAirports.Component.constructor` | src/pages/AdminAirports.js:8-13 | empty lists and query, the default airport in the form, nothing being edited |
| `AdminAirports.Component.FetchAirports` | src/pages/AdminAirports.js:15-23 | success sets the full and the shown list to the same data; failure keeps both |
| `AdminAirports.Component.HandleSearch` | src/pages/AdminAirports.js:55-64 | the shown list is the filter of the full list, which is unchanged; an empty query shows all |
| `AdminAirports.Component.EditField` | src/pages/AdminAirports.js:88-123 | one input changes its own field of the form and no other |
| `AdminAirports.Component.HandleEditAirport` | src/pages/AdminAirports.js:50-53 | the airport fills the form and its airportCode becomes the edit key |
| `AdminAirports.Component.HandleAddOrUpdate` | src/pages/AdminAirports.js:25-39 | a truthy edit key sends an update to it and, on success, clears it; otherwise an add is sent; success resets the form and reloads, installing the response in both lists or keeping them when the reload fails; failure alerts "Failed to save airport" and changes nothing else |
| `AdminAirports.Component.HandleDeleteAirport` | src/pages/AdminAirports.js:41-48 | the delete goes to the code; success reloads, installing the response in both lists or keeping them when the reload fails; failure alerts "Failed to delete airport" and keeps the lists |
| `AdminUsers.Component.constructor` | src/pages/AdminUsers.js:8-11 | empty lists and query |
| `AdminUsers.Component.FetchUsersData` | src/pages/AdminUsers.js:13-21 | success sets both lists to the same data; failure keeps both |
| `AdminUsers.Component.Mount` | src/pages/AdminUsers.js:34-38 | users are fetched only with a truthy token; a successful fetch sets both lists to the data, a failed one keeps both, and without a token nothing changes |
| `AdminUsers.Component.HandleSearch` | src/pages/AdminUsers.js:23-32 | the shown list is the filter of the full list, which is unchanged; an empty query shows all |
| `AdminFlights.FindFirst` | src/pages/AdminFlights.js:93-100 | `find` with `===`: the first position whose key is strictly equal to the id, or none when no record matches |
| `AdminFlights.GetAirportNameById` | src/pages/AdminFlights.js:93-96 | the airportName of the first airport whose id matches, else "Unknown Airport" |
| `AdminFlights.GetAirplaneById` | src/pages/AdminFlights.js:98-100 | the first airplane whose airplaneId matches, else nothing |
| `AdminFlights.NaNIdIsUnknownAirport` | src/pages/AdminFlights.js:93-96 | a NaN id never finds an airport |
| `AdminFlights.StringIdMissesNumericId` | src/pages/AdminFlights.js:94 | a string id never finds an airport stored with a numeric id |
| `AdminFlights.WithConversionsFields` | src/pages/AdminFlights.js:38-44 | the spread with four overrides reads the overrides at their keys and the form everywhere else |
| `AdminFlights.FlightPayloadFields` | src/pages/AdminFlights.js:38-44 | the three ids are `parseInt` of the form's ids, the price is `parseFloat` of its price, every other field is the form's |
| `AdminFlights.PayloadIdsAreNumbers` | src/pages/AdminFlights.js:40-42 | ids typed as digits are sent as those numbers |
| `AdminFlights.PayloadOfNumericIdsKeepsIds` | src/pages/AdminFlights.js:38-44 | ids that are already numbers, as after an edit, are sent unchanged |
| `AdminFlights.Body` | src/pages/AdminFlights.js:46-81 | add and update send the converted form; delete sends no body |
| `AdminFlights.AfterFetch` | src/pages/AdminFlights.js:21-34 | flights, airports and airplanes are stored in that order, and the first failed response leaves its list and every later one as they were |
| `AdminFlights.Component.constructor` | src/pages/AdminFlights.js:8-13 | empty lists, nothing being edited, the default flight in the form |
| `AdminFlights.Component.FetchFlightsData` | src/pages/AdminFlights.js:21-34 | the three lists become what the sequential fetch leaves (`AfterFetch`) and one more fetch is counted; form, edit key, requests and alerts are unchanged |
| `AdminFlights.Component.Mount` | src/pages/AdminFlights.js:15-19 | with a truthy token the lists become what the fetch leaves; without one nothing is fetched and the lists are unchanged |
| `AdminFlights.Component.HandleEditFlight` | src/pages/AdminFlights.js:55-58 | the flight fills the form and its id becomes the edit key |
| `AdminFlights.Component.ResetForm` | src/pages/AdminFlights.js:88-91 | the form is the default flight and the edit key is null |
| `AdminFlights.Component.EditField` | src/pages/AdminFlights.js:111-152 | one input changes its own field and no other |
| `AdminFlights.Component.HandleAddFlight` | src/pages/AdminFlights.js:36-53 | the form is sent as an add; success resets the form and the lists become what the reload leaves; failure alerts "Failed to add flight" and keeps the form and the lists |
| `AdminFlights.Component.HandleUpdateFlight` | src/pages/AdminFlights.js:60-77 | the form is sent as an update of the edit key; success resets the form and the lists become what the reload leaves; failure alerts "Failed to update flight" and keeps the form, the edit key and the lists |
| `AdminFlights.Component.Submit` | src/pages/AdminFlights.js:155-156 | a truthy edit key updates, otherwise adds; success resets the form and reloads the lists; failure alerts the message of the branch taken and keeps the form, the edit key and the lists |
| `AdminFlights.Component.HandleDeleteFlight` | src/pages/AdminFlights.js:79-86 | the delete goes to the id; success leaves the lists as the reload does; failure alerts "Failed to delete flight" and keeps them; the form is untouched |
| `AdminAirplanes.EmptyAirplaneFields` | src/pages/AdminAirplanes.js:9-15 | every field of the blank form reads as "" |
| `AdminAirplanes.Component.constructor` | src/pages/AdminAirplanes.js:8-17 | blank form, no airplane being edited, not in edit mode |
| `AdminAirplanes.Component.FetchAirplanes` | src/pages/AdminAirplanes.js:19-32 | success stores the list; failure keeps it |
| `AdminAirplanes.Component.HandleEditClick` | src/pages/AdminAirplanes.js:52-55 | the airplane becomes the edited one and edit mode is on |
| `AdminAirplanes.Component.EditField` | src/pages/AdminAirplanes.js:88-136 | in edit mode the edited airplane's field changes, otherwise the new airplane's; no other field changes |
| `AdminAirplanes.Component.HandleAddAirplane` | src/pages/AdminAirplanes.js:34-50 | the new airplane is posted; success blanks the form and reloads, installing the response or keeping the list when the reload fails; failure alerts "Failed to add airplane" and keeps the form and the list |
| `AdminAirplanes.Component.HandleUpdateAirplane` | src/pages/AdminAirplanes.js:57-70 | the edited airplane is sent to its airplaneNumber; success leaves edit mode and reloads, installing the response or keeping the list; failure alerts and keeps edit mode, the edits and the list |
| `AdminAirplanes.Component.HandleDeleteAirplane` | src/pages/AdminAirplanes.js:72-81 | the delete goes to the airplane number; success reloads, installing the response or keeping the list; failure alerts "Failed to delete airplane" and keeps it; the forms are untouched |
| `AdminAirplanes.Component.Submit` | src/pages/AdminAirplanes.js:138 | update in edit mode, add otherwise; success leaves edit mode, blanks the new-airplane form only after an add, and reloads; failure alerts the message of the branch taken and keeps both forms, the mode and the list |
| `AirportAutocomplete.QueryEffect` | src/pages/AirportAutocomplete.js:15-22 | a query shorter than three characters clears the list; a longer one is fetched as it is |
| `AirportAutocomplete.Component.constructor` | src/pages/AirportAutocomplete.js:8-11 | empty query and list, not loading |
| `AirportAutocomplete.Component.RunEffect` | src/pages/AirportAutocomplete.js:13-28 | a short query empties the list and fetches nothing; a long one starts loading and fetches that query |
| `AirportAutocomplete.Component.QueryChanged` | src/pages/AirportAutocomplete.js:36 | typing sets the query and runs the effect for it |
| `AirportAutocomplete.Component.ReceiveAirports` | src/pages/AirportAutocomplete.js:22-24 | the result replaces the list and loading ends |
| `AirportAutocomplete.Component.Select` | src/pages/AirportAutocomplete.js:45-49 | the query becomes the airport's name, the airport is passed on and the list is emptied; a changed query runs the effect again |
| `FlightSearchForm.IdParam` | src/pages/FlightSearchFrom.js:18-19 | a missing or falsy id is sent as "", any other id as its string |
| `FlightSearchForm.BuildQuery` | src/pages/FlightSearchFrom.js:17-21 | the query is sourceId, destinationId and date, in that order |
| `FlightSearchForm.MissingAirportSendsEmptyId` | src/pages/FlightSearchFrom.js:18 | no source airport sends an empty sourceId |
| `FlightSearchForm.NumericIdRoundTrips` | src/pages/FlightSearchFrom.js:18-19 | a non-zero numeric id is sent as text that reads back as the id; id 0 is sent as "" |
| `FlightSearchForm.LooksLikeJsonIffFirstNonSpaceIsBrace` | src/pages/FlightSearchFrom.js:30 | the check passes exactly when the first character that is not white space is "{" |
| `FlightSearchForm.Component.constructor` | src/pages/FlightSearchFrom.js:10-12 | no airports chosen and no date |
| `FlightSearchForm.Component.SetSource` | src/pages/FlightSearchFrom.js:53 | the source airport is set and nothing else changes |
| `FlightSearchForm.Component.SetDestination` | src/pages/FlightSearchFrom.js:54 | the destination airport is set and nothing else changes |
| `FlightSearchForm.Component.SetDate` | src/pages/FlightSearchFrom.js:59 | the date is set and nothing else changes |
| `FlightSearchForm.Component.HandleSearch` | src/pages/FlightSearchFrom.js:15-47 | reachable only with both airports and a date; one query is sent; a parsed response that passes the check navigates to /flights with the results and the criteria; anything else alerts "Failed to search flights. Try again." and does not navigate |
| `ChatBox.EveryQuestionAnswered` | src/components/ChatBox.js:10-31 | each listed question gets its own answer |
| `ChatBox.ReplyFallbackIffUnlisted` | src/components/ChatBox.js:31 | the fallback is given exactly for input that is none of the listed questions |
| `ChatBox.ReplyAsWritten` | src/components/ChatBox.js:31 | the object lookup as written: an inherited member comes back exactly for the names `Object.prototype` supplies, and every other result is the answer the own-answers lookup gives |
| `ChatBox.Reply` | src/components/ChatBox.js:31 | the own-answers lookup: every inherited name gets the fallback, and a canned answer always comes from a table entry for that very question |
| `ChatBox.GreetingCaseSensitive` | src/components/ChatBox.js:11-31 | "hi" and "HI" are greeted, "Hi" gets the fallback |
| `ChatBox.Text` | src/components/ChatBox.js:31-32 | a user bubble shows its text, a bot bubble its answer text, and a bubble holding an inherited member has no text |
| `ChatBox.InheritedNameGetsNoAnswer` | src/components/ChatBox.js:31 | with the lookup as written, a name inherited from `Object.prototype` yields that member instead of an answer |
| `ChatBox.ReplyAgreesWhereFound` | src/components/ChatBox.js:31 | the own-answers lookup agrees with the one as written wherever that finds an answer, and gives the fallback for inherited names |
| `ChatBox.Shown` | src/components/ChatBox.js:27-28 | the user's message is appended: one more user message, no more bot messages |
| `ChatBox.TimerListAsWritten` | src/components/ChatBox.js:35-37 | the timer installs the list its send saw, extended by the answer |
| `ChatBox.QuickSecondQuestionLosesFirstAnswer` | src/components/ChatBox.js:28-37 | with the timer as written, two questions sent within a second end with both questions and only the second answer |
| `ChatBox.Deliver` | src/components/ChatBox.js:35-37 | the corrected timer appends its own-keys answer to the list shown when it fires, so no answer is lost |
| `ChatBox.QuickSecondQuestionKeepsBothAnswers` | src/components/ChatBox.js:36 | with timers that append to what is shown, two quick questions end with both questions and both answers, in the order asked |
| `ChatBox.Component.constructor` | src/components/ChatBox.js:5-7 | no messages, empty input, chat hidden, no timer armed |
| `ChatBox.Component.SetInput` | src/components/ChatBox.js:80 | the input is set and nothing else changes |
| `ChatBox.Component.HandleSendMessage` | src/components/ChatBox.js:25-41 | blank input changes nothing, not even the input; otherwise the untrimmed input is shown, a timer is armed with the list now shown and the trimmed question, and the input is cleared; every answer shown or armed directly follows a question |
| `ChatBox.Component.TimerFires` | src/components/ChatBox.js:35-37 | the earliest timer replaces what is shown by its own list plus the as-written lookup of its question, which can drop an answer or a question shown since |
| `ChatBox.Component.HandleKeyPress` | src/components/ChatBox.js:44-48 | Enter with a non-blank input sends exactly as the send button does, arming the timer; any other key or a blank input changes nothing |
| `ChatBox.Component.ToggleChatBox` | src/components/ChatBox.js:51-53 | visibility flips and nothing else changes, so two toggles restore it |

## Left out

- HTTP itself: URLs, headers and the bearer tokens they carry, status codes and `axios` or `fetch` behaviour. Each awaited call is an `Ok`/`Failed` input. JSON bodies are `Js.Value`s, and `JSON.parse` is an `Option` input.
- `src/services/*.js`, `src/pages/Dashboard.js`, `src/pages/Wallet.js`, `src/pages/WalletPage.js` and `src/models/FlightsModel.js` are not part of this model. Neither are `jwtDecode` and the presentational pages and components.
- The `defaultFlight` and `defaultAirport` objects come from model files that are not part of this model. They are constructor parameters of the two admin screens.
- Concurrency: responses that arrive out of order, a handler that runs again before its previous call has settled, and unmounted components. Each handler's outcome is applied as one step in the order given. The exception is the chat timer, whose ordering is modelled.
- `setTimeout`'s one-second delay as time. Pending chat answers are a queue whose head `TimerFires` delivers.
- `console` logging, toast positions and styling. Alerts, toasts and navigations are recorded in sequences.
- React rendering: what `AdminAirplanes` shows while editing and the `Access Denied` markup. A bot message whose text is an inherited member (a function, or for `__proto__` the prototype object) is only recorded as such. Rendering it is not modelled: React renders nothing for a function child and throws on an object child, so `__proto__` makes the widget fail to render.
- Numbers are integers. `Js.ParseFloat` reads only the integer part, so a fractional price loses its fraction and `.5` reads as 0. `Infinity` cannot be represented: `Js.ParseFloat` gives NaN for `"Infinity"`, where `parseFloat` gives Infinity. `Js.StringToNumber` reads optionally signed decimal integers only: no fractions, exponents, hexadecimal or `Infinity`. Times are integer timestamps rather than `new Date(...)` parsing.
- Strings are sequences of Unicode scalar values. `toLowerCase`/`toUpperCase` map ASCII letters only, and UTF-16 lengths are not modelled.
- Object identity: `===` between objects is structural equality in `Js.StrictEquals`. The admin id lookups compare ids, which are primitives.
- `JSON.stringify` dropping undefined fields. The remembered user is stored as a value.
- `AirportAutocomplete.Component.Select`: requires the selected airport's `airportName` to be a string. The list shows names from the server, and `setQuery` of a non-string is not modelled.
- `AirportAutocomplete` reads its token from local storage for the request header. That read is part of the HTTP that is left out.
- `ChatBox.Component.TimerFires`: an armed timer holds the trimmed question and looks its reply up when it fires. The source looks it up at send time. Both give the same reply, because the table never changes.
- `BookingHistoryPage.SortInPlace`: states sortedness and permutation, not the stability of `Array.prototype.sort`.
- `BookingHistoryPage.Component.ToggleSortOrder`: the effect on `[token, sortOrder]` that then refetches is `RunEffect`, which the environment calls after the toggle.

## Findings

| source | as written | input that shows it | evidently intended | confidence | as-written member | corrected member |
|---|---|---|---|---|---|---|
| src/pages/LoginPage.js:37 | `onLogin(user, token)` calls `handleLogin(receivedToken, receivedUser)` (src/App.js:45), so App's `user` becomes the token string and its `token` the user object | log in as a CUSTOMER whose response is `{token: "t", role: "CUSTOMER", userId: 7}`, then open /dashboard: App reads `"t".userRole`, which is undefined, and shows Access Denied | App receives the token as the token and the user object as the user, and the dashboard opens | not executed; high, the two argument lists are in opposite orders | `App.SwappedLoginDeniesDashboard` | `App.LoginGrantsCustomerDashboard` |
| src/components/ProtectedRoute.js:5 | the guard requires `user.userType === "USER"`, a property no user the client builds carries | the user `{userEmail: "a@b.c", userRole: "CUSTOMER", userId: 1}` built at login is redirected to /login | admit users by `userRole`, as App's own gates do (src/App.js:74) | not executed; medium, the guard is not mounted on any route in src/App.js | `ProtectedRoute.GuardRejectsEveryClientUser` | `ProtectedRoute.DecideByRoleAgreesWithDashboardGate` |
| src/components/ChatBox.js:31 | `predefinedResponses[key]` on a plain object also finds the members inherited from `Object.prototype`, which are truthy, so the fallback is skipped | send "toString" or "constructor": the bot message's text is a function, not an answer; send "__proto__": it is the prototype object, which React cannot render as a child | unknown questions get the fallback text | not executed; high for the lookup; the rendering effect, nothing for a function and a render error for the prototype object, is not modelled | `ChatBox.InheritedNameGetsNoAnswer` | `ChatBox.ReplyAgreesWhereFound` |
| src/components/ChatBox.js:36 | the timer installs `[...messages, newMessage, botMessage]` with the `messages` its own send saw, replacing what is shown when it fires | send "hi", then "HI" before a second has passed: the second timer's list predates the first answer, so the conversation ends with both questions and one answer | each answer is appended to the list as it is when its timer fires | not executed; high, the second send renders after the first message and before the first timer | `ChatBox.QuickSecondQuestionLosesFirstAnswer` | `ChatBox.Deliver` |

The component classes follow the code as written:

- `LoginPage.Component.LoginSucceeded` passes the user first, as the page does.
- `ChatBox.Component` looks questions up the way the object literal does and installs each timer's own list.
- The corrected behaviour is stated by the functions and lemmas named in the last column.
- `ProtectedRoute` keeps both decisions, because nothing in the application mounts the guard.
