# Wheeloop front end — a Dafny model of its state-transition layer

Wheeloop is a car-rental web front end written in React. Customers browse and
search a vehicle catalog, book a car, and pay for the booking. They can also
see their bookings, payments and notifications, and log out. Administrators
manage users, cars, bookings, payments, reviews and broadcast notifications
from list screens with search, edit and delete.

This project models the logic that the screens' event handlers run. That
logic covers:

- the rental-day and price arithmetic;
- payment validation and payload shaping;
- the booking hand-over to the payment page through the browser session;
- the case-insensitive search filters;
- the id-keyed list maintenance of the admin screens;
- mark-as-read for notifications;
- the small display classifiers (badges, image URLs, "N/A").

How the model represents things:

- Each screen is a `class`. Its fields are the component's state variables, and each handler is a `method` whose `ensures` states the whole new state.
- The pure transforms are functions with contracts and lemmas: filter, map-by-id, ceiling division and badge mapping.
- `localStorage` is `Session.SessionStore`, a class over a `map<string, string>`.
- Every HTTP request is an `Http.Outcome` parameter: either `Ok(data)` or `Failed`, the thrown error. A handler that refetches after success takes the refetch's outcome as a second parameter.
- `window.confirm` is a `bool` parameter.
- Alerts are appended to an `alerts` sequence, and navigation is recorded in a `route` or `navigation` field.
- A JavaScript `undefined` field is `Optional.None`. JavaScript `===` on such fields is `Option` equality, so `undefined === undefined` holds. JavaScript falsiness of a string is `!Truthy(o)`, meaning absent or `""`.

Module layout:

| file | module | screen |
|---|---|---|
| base.dfy | `Optional`, `Http`, `Text`, `Lists` | shared: options, outcomes, ASCII lowercasing and `includes`, `filter` and `map` |
| session.dfy | `Session` | `localStorage` |
| entities.dfy | `Entities`, `Search` | the records, and the `field?.toLowerCase().includes(term.toLowerCase())` test |
| pricing.dfy | `Pricing` | `calculateDays`, driver cost, total |
| car_listing.dfy | `CarListing` | the customer catalog `car/carCard.jsx` |
| legacy_car_listing.dfy | `LegacyCarListing` | the older catalog `Car/carCard.jsx` |
| payment.dfy | `PaymentPage` | `payment/payment.jsx` |
| manage_users.dfy … manage_notifications.dfy | `ManageUsers`, `ManageCars`, `ManagePayments`, `ManageBookings`, `ManageReviews`, `ManageNotifications` | the admin screens |
| notifications.dfy, user_bookings.dfy, user_payments.dfy, user_profile.dfy | `Notifications`, `UserBookings`, `UserPayments`, `UserProfile` | the customer's panels |

The model follows the code as written, including its quirks. The lemmas state
these quirks without correcting them:

- The driver surcharge compounds with the rental length (`Pricing.DriverCostCompounds`, `Pricing.DriverCostNotFlat`).
- A card payment can never pass validation from the rendered form, because no input sets the cvv (`PaymentPage.CardPaymentNeverValid`).
- Statuses set by the admin are capitalised, so the customer's page colours them red (`ManageBookings.AdminStatusesShowRed`, `ManageBookings.AdminConfirmedShowsRed`).
- The user admin shows `_id` but keys and deletes by `id` (`ManageUsers.ShownIdIsNotDeleteId`).
- A save without an `id` overwrites every id-less user (`ManageUsers.SaveWithoutIdOverwritesAllIdless`).
- The car admin's search throws on a car without a name (`ManageCars.NamelessCarThrows`).

Four behaviours of the code are worth stating plainly:

- **Deletes wait for the server.** Every admin list is patched only after the awaited delete request succeeds, so a failed request leaves the list as it was. Every `HandleDelete` method states this.
- **The card number is only checked to be non-empty.** No length or digit check is made on any card field.
- **A successful payment changes no booking status in the front end.** It removes `bookingId`, alerts and navigates home; the booking's status is left to the server.
- **The booking admin's inline status handler is unreachable.** `handleStatusChange` in `manageBooking.jsx` is defined but wired to no control: the status cell is plain text, and an admin changes a status only through the edit modal and its save. `ManageBookings.ManageBookingsView.HandleStatusChange` models the handler as defined.

## Model

| member | source | states |
|---|---|---|
| Pricing.CalculateDays | src/components/car/carCard.jsx:169-173 | the day count is the ceiling of the millisecond span over 86 400 000: the least `n` with `span <= n * 86400000` |
| Pricing.CalculateDaysUnique | src/components/car/carCard.jsx:169-173 | any `n` that covers the span that tightly is the count returned |
| Pricing.CalculateDaysSameDate | src/components/car/carCard.jsx:169-173 | equal dates give 0 days |
| Pricing.CalculateDaysExact | src/components/car/carCard.jsx:169-173 | a span of exactly `n` days gives `n` |
| Pricing.CalculateDaysPartial | src/components/car/carCard.jsx:169-173 | a started day counts as a whole day |
| Pricing.DriverCost | src/components/payment/payment.jsx:26 | zero when either count is zero; non-negative for non-negative counts |
| Pricing.TotalAmount | src/components/payment/payment.jsx:26-27 | with no driver-days it is exactly days × price; otherwise never below that |
| Pricing.DriverCostCompounds | src/components/payment/payment.jsx:26 | each extra rental day adds another 500 per driver-day |
| Pricing.DriverCostNotFlat | src/components/payment/payment.jsx:26-27 | 2 driver-days on 5 days cost 5000, not 1000; the total for 5 days at 100 is 5500 |
| Pricing.TotalMonotoneInDriverDays | src/components/payment/payment.jsx:26-27 | more driver-days never lower the total |
| Pricing.TotalMonotoneInPrice | src/components/payment/payment.jsx:26-27 | a higher daily price never lowers the total |
| Session.Get | src/components/car/carCard.jsx:113 | `getItem` yields the stored string exactly when the key is present |
| Session.LoggedIn | src/components/car/carCard.jsx:177-179 | the `if (!userId)` guard passes exactly when "userId" is stored with a non-empty value |
| Session.SessionStore.GetItem | src/components/car/carCard.jsx:113 | reads the stored value without changing the store |
| Session.SessionStore.SetItem | src/components/car/carCard.jsx:142 | the store afterwards maps the key to the value and is otherwise unchanged |
| Session.SessionStore.RemoveItem | src/components/payment/payment.jsx:91 | the store afterwards lacks the key and is otherwise unchanged |
| Text.Lower | src/components/car/carCard.jsx:99 | same length; each character is mapped by ASCII lowercasing |
| Text.IncludesIffOccurs | src/components/car/carCard.jsx:99 | `includes` holds exactly when the needle occurs at some index of the haystack |
| Text.TrimStart | src/components/car/carCard.jsx:209 | only whitespace is removed, all of it from the front: the rest is a suffix of the text that does not start with whitespace |
| Text.TrimEnd | src/components/car/carCard.jsx:209 | only whitespace is removed, all of it from the back: the rest is a prefix of the text that does not end with whitespace |
| Text.IsBlank | src/components/car/carCard.jsx:209 | `!s.trim()`: holds exactly when trimming both ends leaves the empty string |
| Search.FieldMatchesOccurs | src/components/car/carCard.jsx:99-100 | `field?.toLowerCase().includes(term.toLowerCase())` holds exactly when the field is present and the lowercased term occurs at some position of the lowercased field |
| Search.EmptyTermMatches | src/components/car/carCard.jsx:97-101 | the empty term matches exactly the present fields |
| Search.LowerIdempotent | src/components/car/carCard.jsx:99 | lowercasing twice is lowercasing once |
| Search.TermCaseIgnored | src/components/car/carCard.jsx:97-101 | the term's letter case does not change the match |
| CarListing.FilteredCars | src/components/car/carCard.jsx:97-101 | a car is kept iff its name or type contains the term ignoring case; every copy of a kept car is kept (multiset count), none of a dropped one; the result is an order-preserving subsequence |
| CarListing.EmptySearchKeepsNamedCars | src/components/car/carCard.jsx:97-101 | an empty term lists every car that has a name or type, in order |
| CarListing.SearchExample | tests/carcard.test.jsx:53-63 | "Tesla" finds only "Tesla Model 3", "suv" finds only "BMW X5" |
| CarListing.ApplyInput | src/components/car/carCard.jsx:103-109 | only the field named by the input changes |
| CarListing.BookingPayload | src/components/car/carCard.jsx:113-123 | status is "pending", with the session user, the selected car's id and the form's location, dates and driver-days |
| CarListing.ReturnedBookingId | src/components/car/carCard.jsx:133-135 | `bookingId` when truthy, else `_id` when truthy, else none; never an empty id |
| CarListing.ReviewsFrom | src/components/car/carCard.jsx:196-205 | the response's reviews, or the empty list when absent or on failure |
| CarListing.CarListingView.Shown | src/components/car/carCard.jsx:97-101 | the grid shows exactly the matching cars of the current list, with every copy, in list order |
| CarListing.CarListingView.constructor | src/components/car/carCard.jsx:56-73 | the initial state: empty lists, empty form, nothing selected |
| CarListing.CarListingView.FetchCars | src/components/car/carCard.jsx:75-86 | the car list becomes the response's list on success and is kept on failure; nothing else changes |
| CarListing.CarListingView.HandleSearchChange | src/components/car/carCard.jsx:92-94 | only the search term changes |
| CarListing.CarListingView.CancelBookingForm | src/components/car/carCard.jsx:426-431 | closes the booking modal; the form, the selection and everything else are kept |
| CarListing.CarListingView.HandleInputChange | src/components/car/carCard.jsx:103-109 | the form becomes `ApplyInput` of the old one; nothing else changes |
| CarListing.CarListingView.HandleFormSubmit | src/components/car/carCard.jsx:111-166 | sends the payload; with an id, writes "bookingId", closes the form, clears the selection and navigates with `CalculateDays`; without an id or on failure, leaves session, form and navigation untouched and alerts |
| CarListing.CarListingView.HandleBookClick | src/components/car/carCard.jsx:176-185 | the form opens iff a user is logged in, otherwise an alert |
| CarListing.CarListingView.FetchReviews | src/components/car/carCard.jsx:196-205 | the reviews become `ReviewsFrom(response)` |
| CarListing.CarListingView.HandleReviewSubmit | src/components/car/carCard.jsx:196-231 | blank text or no user sends nothing; success clears the input and the reviews become the refetch's `ReviewsFrom`; a missing car or a failure alerts, keeps the text and the reviews |
| LegacyCarListing.FilteredCars | src/components/Car/carCard.jsx:85-89 | a car is kept iff its name or type contains the term; every copy of a kept car is kept; order-preserving |
| LegacyCarListing.SameSearchAsNewerCatalog | src/components/Car/carCard.jsx:85-89 | both catalogs list exactly the same cars for every term |
| LegacyCarListing.LegacyPayload | src/components/Car/carCard.jsx:105-115 | status "pending" with name, contact, location, dates and driver-days from the form |
| LegacyCarListing.LegacyCarListingView.constructor | src/components/Car/carCard.jsx:55-63 | the form starts empty with driver-days 0 |
| LegacyCarListing.LegacyCarListingView.FetchCars | src/components/Car/carCard.jsx:66-77 | the car list becomes the response's list on success and is kept on failure; nothing else changes |
| LegacyCarListing.LegacyCarListingView.HandleSearchChange | src/components/Car/carCard.jsx:80-82 | only the search term changes |
| LegacyCarListing.LegacyCarListingView.HandleInputChange | src/components/Car/carCard.jsx:91-97 | only the named form field changes |
| LegacyCarListing.LegacyCarListingView.HandleFormSubmit | src/components/Car/carCard.jsx:99-138 | success resets the form, closes the modal and clears the selection; failure keeps them and alerts |
| LegacyCarListing.LegacyCarListingView.HandleBookClick | src/components/Car/carCard.jsx:140-142 | opens the form with no login check |
| PaymentPage.SetCardField | src/components/payment/payment.jsx:47-49 | only the named card field changes; the cvv never does |
| PaymentPage.ValidationError | src/components/payment/payment.jsx:62-72 | card passes iff all four card fields are non-empty, PayPal iff the transaction id is non-empty, cash always |
| PaymentPage.BuildPayload | src/components/payment/payment.jsx:75-82 | transaction id present iff PayPal, card details present iff card |
| PaymentPage.ResponseAlert | src/components/payment/payment.jsx:87-100 | "Payment successful! Booking confirmed." exactly on a 201, "Payment failed! Please try again." exactly on another status, "Error: Unable to process payment." exactly when the request throws |
| PaymentPage.SessionAfterPayment | src/components/payment/payment.jsx:87-96 | only a 201 removes "bookingId", keeping every other key; anything else keeps the session |
| PaymentPage.InputsKeepCvv | src/components/payment/payment.jsx:146-187 | no sequence of rendered inputs changes the cvv |
| PaymentPage.CardPaymentNeverValid | src/components/payment/payment.jsx:33-72 | from the initial card state, card validation always fails |
| PaymentPage.PaymentView.constructor | src/components/payment/payment.jsx:29-43 | card method, empty card, empty transaction id, not loading |
| PaymentPage.PaymentView.Total | src/components/payment/payment.jsx:25-27 | the total equals days × price when no driver-days are booked |
| PaymentPage.PaymentView.HandleInputChange | src/components/payment/payment.jsx:47-49 | only the named card field changes, and an empty cvv stays empty |
| PaymentPage.PaymentView.HandlePaymentMethodChange | src/components/payment/payment.jsx:51-53 | only the method changes |
| PaymentPage.PaymentView.HandleTransactionIdChange | src/components/payment/payment.jsx:196 | only the transaction id changes |
| PaymentPage.PaymentView.HandlePayment | src/components/payment/payment.jsx:55-103 | a validation failure alerts and sends nothing; otherwise sends `BuildPayload`, updates the session with `SessionAfterPayment`, alerts per outcome and goes home only on 201; loading ends false |
| ManageUsers.FilteredUsers | src/components/Admin/manageUser.jsx:92-96 | a user is kept iff name or email contains the term; every copy of a kept user is kept; order-preserving |
| ManageUsers.ReplaceUser | src/components/Admin/manageUser.jsx:52-54 | every entry whose `id` equals the edited `id` is replaced; length and others unchanged |
| ManageUsers.ReplaceKeepsIds | src/components/Admin/manageUser.jsx:52-54 | saving never changes any entry's `id` |
| ManageUsers.WithoutUser | src/components/Admin/manageUser.jsx:84 | exactly the entries with that `id` are removed, the rest kept in order |
| ManageUsers.SetNewUserField | src/components/Admin/manageUser.jsx:125-160 | the add form's chosen field takes the typed value; every other field is unchanged |
| ManageUsers.SetUserField | src/components/Admin/manageUser.jsx:188-224 | the edit copy's chosen field (`name`, `email`, `phone`, `address` or `password`) takes the typed value; the other fields, `id` and `_id` are unchanged |
| ManageUsers.EditedSaveLandsInRow | src/components/Admin/manageUser.jsx:191-224 | typing keeps the `id`, so saving an edited listed user with an `id` puts the edited copy in its own row |
| ManageUsers.RowOf | src/components/Admin/manageUser.jsx:264-279 | a row's key and its delete argument are the same `id` |
| ManageUsers.ShownIdIsNotDeleteId | src/components/Admin/manageUser.jsx:264-279 | a record with only `_id` displays an id, but its delete passes none |
| ManageUsers.SaveWithoutIdOverwritesAllIdless | src/components/Admin/manageUser.jsx:52-54 | an edited user without `id` overwrites every user without `id` |
| ManageUsers.ManageUsersView.constructor | src/components/Admin/manageUser.jsx:6-17 | empty list, both modals closed, empty new-user form |
| ManageUsers.ManageUsersView.FetchUsers | src/components/Admin/manageUser.jsx:20-30 | the list is replaced on success only |
| ManageUsers.ManageUsersView.HandleSearchChange | src/components/Admin/manageUser.jsx:33-35 | only the search term changes |
| ManageUsers.ManageUsersView.Shown | src/components/Admin/manageUser.jsx:92-96 | the table lists `FilteredUsers` of the current list and term: exactly the matching users, with every copy, in list order |
| ManageUsers.ManageUsersView.HandleEdit | src/components/Admin/manageUser.jsx:38-41 | edits a copy of the user, modal open |
| ManageUsers.ManageUsersView.HandleAdd | src/components/Admin/manageUser.jsx:44-46 | opens the add modal only |
| ManageUsers.ManageUsersView.SetNewUser | src/components/Admin/manageUser.jsx:125-160 | only the add form changes, by `SetNewUserField` |
| ManageUsers.ManageUsersView.SetCurrentUser | src/components/Admin/manageUser.jsx:188-224 | only the edit copy changes, by `SetUserField` |
| ManageUsers.ManageUsersView.CancelAdd | src/components/Admin/manageUser.jsx:171 | closes the add modal and keeps what was typed |
| ManageUsers.ManageUsersView.HandleSave | src/components/Admin/manageUser.jsx:49-61 | success replaces by `id` and closes; failure or no current user changes nothing |
| ManageUsers.ManageUsersView.CancelEdit | src/components/Admin/manageUser.jsx:235-238 | closes the edit modal and drops the copy |
| ManageUsers.ManageUsersView.HandleAddSave | src/components/Admin/manageUser.jsx:64-73 | success appends the server record and resets the form; failure changes nothing |
| ManageUsers.ManageUsersView.HandleDelete | src/components/Admin/manageUser.jsx:76-89 | a falsy id sends nothing; success removes that `id`; failure keeps the list |
| ManageCars.CarMatch | src/components/Admin/manageCar.jsx:77-81 | throws iff the name is missing, or the name misses and the description is missing; matches iff name or description contains the term |
| ManageCars.FilteredCars | src/components/Admin/manageCar.jsx:77-81 | renders iff no car throws, and then keeps exactly the listed cars, every copy of each, in order |
| ManageCars.NamelessCarThrows | src/components/Admin/manageCar.jsx:77-81 | one car without a name makes the whole filter throw |
| ManageCars.CompleteCarsFilter | src/components/Admin/manageCar.jsx:77-81 | with every name and description present it never throws and is the plain name-or-description filter |
| ManageCars.EditCar | src/components/Admin/manageCar.jsx:134-170 | the input's field takes the typed value; every other field, the `_id` and the image are unchanged |
| ManageCars.EditedCarIsSent | src/components/Admin/manageCar.jsx:28-37 | after typing, the save still carries the image part exactly when a file was picked, and sends the typed name or description |
| ManageCars.SaveFormData | src/components/Admin/manageCar.jsx:28-37 | the text fields are copied; the image part is present iff the image is a picked file |
| ManageCars.ReplaceCar | src/components/Admin/manageCar.jsx:50 | the entry with that `_id` becomes the server record; others unchanged |
| ManageCars.WithoutCar | src/components/Admin/manageCar.jsx:65 | exactly that `_id` is removed, order kept |
| ManageCars.WithoutCarIdempotent | src/components/Admin/manageCar.jsx:65 | deleting the same `_id` twice equals deleting it once |
| ManageCars.ManageCarsView.constructor | src/components/Admin/manageCar.jsx:6-11 | empty list, no modal, no preview |
| ManageCars.ManageCarsView.FetchCars | src/components/Admin/manageCar.jsx:14-24 | the list is replaced on success only |
| ManageCars.ManageCarsView.HandleSearchChange | src/components/Admin/manageCar.jsx:73-75 | only the search term changes |
| ManageCars.ManageCarsView.HandleSave | src/components/Admin/manageCar.jsx:27-58 | add mode appends the server record, edit mode replaces by `_id`, neither sends nothing; then car and preview clear; a failure or no current car changes nothing |
| ManageCars.ManageCarsView.HandleDelete | src/components/Admin/manageCar.jsx:61-70 | a request iff confirmed; success removes that `_id` |
| ManageCars.ManageCarsView.HandleEdit | src/components/Admin/manageCar.jsx:84-88 | edits a copy and previews its stored image |
| ManageCars.ManageCarsView.HandleAddCar | src/components/Admin/manageCar.jsx:91-95 | starts from the blank record with no image in add mode |
| ManageCars.ManageCarsView.SetCurrentCar | src/components/Admin/manageCar.jsx:134-170 | only the edited copy changes, by `EditCar` |
| ManageCars.ManageCarsView.Cancel | src/components/Admin/manageCar.jsx:181 | leaves both modes and drops the copy |
| ManagePayments.FilteredPayments | src/components/Admin/managePayment.jsx:35-40 | a payment is kept iff user email, user id or booking id contains the term; every copy of a kept payment is kept; order-preserving |
| ManagePayments.UnlinkedPaymentHidden | src/components/Admin/managePayment.jsx:35-40 | a payment with neither user nor booking never matches |
| ManagePayments.EmptySearchListsLinked | src/components/Admin/managePayment.jsx:35-40 | the empty term lists exactly the payments with a user or a booking |
| ManagePayments.SetPaymentStatus | src/components/Admin/managePayment.jsx:46-50 | only `paymentStatus` of the entries with that `_id` changes |
| ManagePayments.SetPaymentStatusLastWins | src/components/Admin/managePayment.jsx:46-50 | the later of two status changes wins |
| ManagePayments.ReplacePayment | src/components/Admin/managePayment.jsx:82-86 | the entries with the edited `_id` become the edited copy |
| ManagePayments.SaveIsStatusChange | src/components/Admin/managePayment.jsx:78-86 | saving a status-edited copy equals the inline status change |
| ManagePayments.WithoutPayment | src/components/Admin/managePayment.jsx:61 | exactly that `_id` is removed, order kept |
| ManagePayments.PaymentStatusesColoured | src/components/Admin/managePayment.jsx:143-145 | the offered statuses get yellow, green and red on the customer's page |
| ManagePayments.ManagePaymentsView.constructor | src/components/Admin/managePayment.jsx:6-11 | empty list, loading, no error, no modal |
| ManagePayments.ManagePaymentsView.FetchPayments | src/components/Admin/managePayment.jsx:14-28 | success sets the list, failure sets "Failed to load payments."; loading ends |
| ManagePayments.ManagePaymentsView.HandleSearchChange | src/components/Admin/managePayment.jsx:31-33 | only the search term changes |
| ManagePayments.ManagePaymentsView.HandleStatusChange | src/components/Admin/managePayment.jsx:43-54 | sends only the status; success patches that row's status |
| ManagePayments.ManagePaymentsView.HandleDelete | src/components/Admin/managePayment.jsx:57-66 | a request iff confirmed; success removes that `_id` |
| ManagePayments.ManagePaymentsView.HandleEdit | src/components/Admin/managePayment.jsx:68-71 | edits a copy, modal open |
| ManagePayments.ManagePaymentsView.SetEditedStatus | src/components/Admin/managePayment.jsx:136-146 | only the copy's status changes |
| ManagePayments.ManagePaymentsView.HandleSave | src/components/Admin/managePayment.jsx:74-91 | no copy: no request; otherwise sends only the status, and success replaces the row with the copy and closes; the copy is kept |
| ManagePayments.ManagePaymentsView.CancelEdit | src/components/Admin/managePayment.jsx:152 | closes the modal, keeps the copy |
| ManageBookings.FilteredBookings | src/components/Admin/manageBooking.jsx:36-40 | a booking is kept iff user email or car name contains the term; every copy of a kept booking is kept; order-preserving |
| ManageBookings.SetBookingStatus | src/components/Admin/manageBooking.jsx:46-50 | only `status` of the entries with that `_id` changes |
| ManageBookings.SetBookingStatusElsewhere | src/components/Admin/manageBooking.jsx:46-50 | any other booking is unchanged |
| ManageBookings.ReplaceBooking | src/components/Admin/manageBooking.jsx:80-84 | the entries with the edited `_id` become the edited copy |
| ManageBookings.WithoutBooking | src/components/Admin/manageBooking.jsx:61 | exactly that `_id` is removed, order kept |
| ManageBookings.AdminStatusesShowRed | src/components/Admin/manageBooking.jsx:143-145 | every status the admin can pick renders red on the customer's page |
| ManageBookings.AdminConfirmedShowsRed | src/components/Admin/manageBooking.jsx:75-89 | a booking saved from the modal with status "Confirmed" shows a red row on the customer's page |
| ManageBookings.ManageBookingsView.constructor | src/components/Admin/manageBooking.jsx:6-11 | empty list, loading, no error, no modal |
| ManageBookings.ManageBookingsView.FetchBookings | src/components/Admin/manageBooking.jsx:14-28 | success sets the list, failure sets "Failed to load bookings."; loading ends |
| ManageBookings.ManageBookingsView.HandleSearchChange | src/components/Admin/manageBooking.jsx:31-33 | only the search term changes |
| ManageBookings.ManageBookingsView.HandleStatusChange | src/components/Admin/manageBooking.jsx:43-54 | success patches that booking's status (the handler is defined but no control calls it) |
| ManageBookings.ManageBookingsView.HandleDelete | src/components/Admin/manageBooking.jsx:57-66 | a request iff confirmed; success removes that `_id`; failure keeps the list |
| ManageBookings.ManageBookingsView.HandleEdit | src/components/Admin/manageBooking.jsx:69-72 | edits a copy, modal open |
| ManageBookings.ManageBookingsView.SetEditedPickUp | src/components/Admin/manageBooking.jsx:126-133 | only the copy's pick-up location changes |
| ManageBookings.ManageBookingsView.SetEditedStatus | src/components/Admin/manageBooking.jsx:136-146 | only the copy's status changes, to one of the offered values |
| ManageBookings.ManageBookingsView.HandleSave | src/components/Admin/manageBooking.jsx:75-89 | no copy: no request; otherwise sends the whole copy, and success replaces the row and closes |
| ManageBookings.ManageBookingsView.CancelEdit | src/components/Admin/manageBooking.jsx:152 | closes the modal, keeps the copy |
| ManageReviews.WithoutReview | src/components/Admin/manageReview.jsx:51 | exactly that `_id` is removed, order kept |
| ManageReviews.WithoutAbsentReview | src/components/Admin/manageReview.jsx:51 | deleting an id that is not listed changes nothing |
| ManageReviews.ManageReviewsView.constructor | src/components/Admin/manageReview.jsx:5-9 | empty list, loading, no error, not editing |
| ManageReviews.ManageReviewsView.FetchAllReviews | src/components/Admin/manageReview.jsx:16-26 | success sets the reviews or `[]`; failure keeps them and sets "Failed to fetch reviews."; loading ends |
| ManageReviews.ManageReviewsView.HandleEdit | src/components/Admin/manageReview.jsx:29-32 | editing id is the review's `_id` and the text is its current text |
| ManageReviews.ManageReviewsView.SetEditedText | src/components/Admin/manageReview.jsx:87 | only the edited text changes |
| ManageReviews.ManageReviewsView.HandleUpdate | src/components/Admin/manageReview.jsx:35-43 | success clears the editing id and refetches; failure keeps edit mode, text and list |
| ManageReviews.ManageReviewsView.HandleDelete | src/components/Admin/manageReview.jsx:46-55 | a request iff confirmed; success removes that `_id` |
| ManageNotifications.SendError | src/components/Admin/manageNotification.jsx:26-29 | rejects iff the title or the message is empty |
| ManageNotifications.ManageNotificationsView.constructor | src/components/Admin/manageNotification.jsx:6-8 | empty list and fields |
| ManageNotifications.ManageNotificationsView.FetchNotifications | src/components/Admin/manageNotification.jsx:15-22 | the list is replaced on success only |
| ManageNotifications.ManageNotificationsView.SetTitle | src/components/Admin/manageNotification.jsx:61 | only the title changes |
| ManageNotifications.ManageNotificationsView.SetMessage | src/components/Admin/manageNotification.jsx:67 | only the message changes |
| ManageNotifications.ManageNotificationsView.SendNotification | src/components/Admin/manageNotification.jsx:25-39 | an empty field alerts and sends nothing; success refetches and clears both fields; failure keeps them |
| ManageNotifications.ManageNotificationsView.DeleteNotification | src/components/Admin/manageNotification.jsx:42-49 | the list only changes through the refetch after a successful delete |
| Notifications.MarkRead | src/components/notification/notification.jsx:28-34 | the entries with that id get `isNew = false`; everything else and the length are unchanged |
| Notifications.MarkReadEffect | src/components/notification/notification.jsx:29-33 | afterwards an entry is new iff it was new and has another id; ids, titles and messages unchanged |
| Notifications.MarkReadIdempotent | src/components/notification/notification.jsx:28-34 | marking twice equals marking once |
| Notifications.MarkReadCommutes | src/components/notification/notification.jsx:28-34 | marking two ids gives the same list in either order |
| Notifications.UnclickedKeepsBadge | src/components/notification/notification.jsx:28-34 | marking one notification read leaves every other row's "New" badge as it was |
| Notifications.ClickedLosesBadge | tests/notification.test.jsx:52-57 | a clicked notification no longer shows "New" |
| Notifications.NotificationPanelView.constructor | src/components/notification/notification.jsx:8 | empty list |
| Notifications.NotificationPanelView.FetchNotifications | src/components/notification/notification.jsx:15-22 | the list is replaced on success only |
| Notifications.NotificationPanelView.HandleNotificationClick | src/components/notification/notification.jsx:25-38 | success marks that id read; failure leaves the list unchanged |
| UserBookings.FetchBookings | src/components/booking/booking.jsx:7-15 | the body, or `[]` when absent or on failure |
| UserBookings.KeepIfSame | src/components/booking/booking.jsx:39-41 | the equality-guarded update always ends with the fetched list |
| UserBookings.CarImage | src/components/booking/booking.jsx:86-91 | default when absent or empty, verbatim when it starts with "http", else prefixed with the car-image base URL |
| UserBookings.CarImageResolves | src/components/booking/booking.jsx:86-91 | every resolved URL is the default or starts with "http" |
| UserBookings.CarImageStable | src/components/booking/booking.jsx:86-91 | resolving a resolved URL again changes nothing |
| UserBookings.StatusBadge | src/components/booking/booking.jsx:112-115 | yellow iff "pending", green iff "confirmed", red otherwise |
| UserBookings.CarNameShown | src/components/booking/booking.jsx:107 | the car column is never blank: a named car shows its name, a missing car or empty name shows "N/A" |
| UserBookings.Rows | src/components/booking/booking.jsx:84-118 | one row per booking, numbered index + 1, with resolved image, name and badge |
| UserBookings.RowsNumbered | src/components/booking/booking.jsx:95 | rows are numbered 1, 2, 3, … without gaps |
| UserBookings.UserBookingsView.constructor | src/components/booking/booking.jsx:18-20 | empty list, loading, no error |
| UserBookings.UserBookingsView.Load | src/components/booking/booking.jsx:26-50 | no user: no request, "User is not logged in", list kept; otherwise the list is the fetched one and no error is set; loading ends |
| UserPayments.FetchPayments | src/components/payment/fetchingPayment.jsx:7-15 | `data.payments`, or `[]` when absent or on failure |
| UserPayments.PaymentBadge | src/components/payment/fetchingPayment.jsx:84-90 | yellow iff "pending", green iff "completed", red otherwise |
| Entities.OrNA | src/components/payment/fetchingPayment.jsx:79-82 | a missing or empty value shows as "N/A", any other as itself |
| Entities.OrNANonEmpty | src/components/payment/fetchingPayment.jsx:79-82 | a label is never empty |
| UserPayments.Rows | src/components/payment/fetchingPayment.jsx:75-98 | one row per payment, numbered index + 1, with the labels and the badge |
| UserPayments.MissingTransactionShowsNA | src/components/payment/fetchingPayment.jsx:82 | a payment without a transaction id shows "N/A" |
| UserPayments.UserPaymentsView.constructor | src/components/payment/fetchingPayment.jsx:18-20 | empty list, loading, no error |
| UserPayments.UserPaymentsView.Load | src/components/payment/fetchingPayment.jsx:25-45 | no user: no request, "User is not logged in.", list kept; otherwise the list is the fetched one; loading ends |
| UserProfile.AfterLogout | src/components/user_profile/user_profile.jsx:33-36 | "authToken", "userRole" and "userId" are gone and every other key is kept |
| UserProfile.LogoutLogsOut | src/components/user_profile/user_profile.jsx:33-36 | after logout no page's login guard passes |
| UserProfile.LogoutKeepsBookingId | src/components/user_profile/user_profile.jsx:33-40 | a pending "bookingId" survives logout |
| UserProfile.UserProfileView.constructor | src/components/user_profile/user_profile.jsx:10 | no user |
| UserProfile.UserProfileView.Load | src/components/user_profile/user_profile.jsx:12-31 | a request iff a user id is stored; success sets the user |
| UserProfile.UserProfileView.HandleLogout | src/components/user_profile/user_profile.jsx:33-40 | the session becomes `AfterLogout`, the user is cleared and the route is "/" |

## Left out

- HTTP transport: the axios client, the base URL, endpoint strings, headers and multipart encoding. Every request is an `Ok(data)`/`Failed` outcome, and the status code is kept only where the code reads it (the payment's 201).
- JSX markup, styling, icons and the modal layout, except the conditions that decide what a row shows (badges, image URLs, "N/A", row numbers, the "New" badge).
- Calendar handling: date strings are not parsed. `HandleFormSubmit` takes the two `new Date(...)` values as integer milliseconds; time zones, `toLocaleDateString` and the date-picker `min` attribute are not modelled.
- JavaScript numbers: driver-days, prices and totals are integers. The string-to-number coercion of form inputs and floating point are not modelled. The blank car's price `""` is taken as 0.
- Case folding is ASCII lowercasing only, and `trim` is whitespace by the ASCII set (space, tab, newline, carriage return, vertical tab, form feed).
- Async ordering: each handler is one atomic step, and a non-awaited refetch is an extra outcome parameter applied in the same step. Double submits, races between requests and updates after unmount are not modelled.
- `window.confirm`, `alert` and `navigate` are a `bool` parameter, an appended `alerts` entry and a recorded route. `URL.createObjectURL` and `handleImageChange` (the car image picker) are not modelled, so a picked `File` can only enter through `Entities.Image.ImageFile`.
- PaymentPage.HandlePayment: the payment method is a datatype (`Card`/`PayPal`/`Cash`), not the select's string. A select value outside the three options is not represented, and the "bookingId" read at render time is read when the handler runs, which is the same value within one step.
- ManagePayments.ManagePaymentsView.FetchPayments, ManageBookings.ManageBookingsView.FetchBookings, ManageCars.ManageCarsView.FetchCars, ManageUsers.ManageUsersView.FetchUsers, Notifications.NotificationPanelView.FetchNotifications and ManageNotifications.ManageNotificationsView.FetchNotifications: a success whose body lacks the list makes the later render throw. The model takes the list itself as the outcome's data.
- The populated `userId` and `carId` references always carry `email` and `name`. The throw that `?.email.toLowerCase()` hits on a reference without an email is not modelled.
- ManageCars.EditCar: the price input stores the typed string, while the model takes it as the number typed (see the JavaScript numbers line).
- ManageUsers.SetUserField: the edit modal displays `full_name` and `phone_number` but writes `name` and `phone`. The displayed values are markup and are not modelled; the writes are.
- The customer catalog's car detail overlay and the `CarCard` tile (the `setSelectedCar` clicks that open and close it), and `booking.jsx`'s unused `handleBookingClick`: plain state setters with nothing to state.
- `UserProfile`'s `handleGoBack` (`navigate(-1)`) is history navigation, which is left out.
- `review/review.jsx`, the home pages, the navigation bar, the admin dashboard charts, the router and the test configuration: static markup or wiring with no state-transition logic.
- Plain-text passwords are carried as fields of `Entities.User` like any other string. No property is claimed about them.
